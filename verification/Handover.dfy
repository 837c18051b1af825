/** What a read of one session does to the others: nothing, but for one case on a stopped stream. */
module Handover {
  import opened ViewItems
  import opened ContentView
  import opened Upload
  import opened Recovery
  import opened TimecodeBases

  /** Ready to send or sending. */
  predicate Waiting(u: Session) { u.phase == Ready || u.phase == Streaming }

  /** Session j waits, and none before it does but the one being read. */
  predicate NextInLine(ss: seq<Session>, k: nat, j: nat) {
    && j < |ss| && Waiting(ss[j]) && forall i :: 0 <= i < j && i != k ==> !Waiting(ss[i])
  }

  /** A stopped stream with no item ahead, none being sent and no end-of-stream tag. */
  predicate NothingToSend(s: State) {
    && s.stopped && s.view.current == s.view.Head() && !s.eos.send
    && (s.cursor.On? ==> s.cursor.offset == |s.cursor.item.data|)
  }

  /** The session read is through: it waits for its last acknowledgement, or is gone when the stream does not
      wait for any. */
  predicate ReaderThrough(c: Config, s: State, k: nat, r: State)
    requires k < |s.sessions| && |s.sessions| - 1 <= |r.sessions|
  {
    if |r.sessions| < |s.sessions| then !c.waitForAck else r.sessions[k].phase == AwaitingAck
  }

  /** Where session j is after the read of session k. */
  function PlaceAfter(s: State, k: nat, r: State, j: nat): int {
    if |r.sessions| < |s.sessions| && j > k then j - 1 else j
  }

  // ---------------------------------------------------------------- one read

  /** The session read stays or goes; a read of a session the stream does not have touches none. */
  lemma ReadKeepsQueue(c: Config, s: State, h: nat, room: nat, target: nat, header: Bytes)
    requires Sound(c, s) && s.view.tail <= target <= s.view.Head()
    ensures var r, k := Read(c, s, h, room, target, header).state, Find(s.sessions, h);
            if k == |s.sessions| then r.sessions == s.sessions
            else |s.sessions| - 1 <= |r.sessions| <= |s.sessions| && (|r.sessions| == |s.sessions| ==> r.sessions[k].handle == h)
  {
    hide Fill, FixUp;
    var s1 := Resume(c, s, target, header);
    var k := Find(s1.sessions, h);
    if k < |s1.sessions| {
      ServeOnly(c, s1, k, room);
      RetireEffect(c, Serve(c, s1, k, room).state, k);
    }
  }

  /** Another session keeps all it has, unless the stream is stopped with nothing left to send and the session
      read is through: then the next in line ends, and only that one. */
  lemma ReadEndsOtherIff(c: Config, s: State, h: nat, room: nat, target: nat, header: Bytes, j: nat)
    requires Sound(c, s) && s.view.tail <= target <= s.view.Head()
    requires Find(s.sessions, h) < |s.sessions| && j < |s.sessions| && j != Find(s.sessions, h)
    ensures var r, k := Read(c, s, h, room, target, header).state, Find(s.sessions, h);
            var i := PlaceAfter(s, k, r, j);
            && |s.sessions| - 1 <= |r.sessions| <= |s.sessions| && 0 <= i < |r.sessions|
            && (r.sessions[i] == s.sessions[j] || r.sessions[i] == s.sessions[j].(phase := Terminated))
            && (r.sessions[i].phase != s.sessions[j].phase <==>
                  NothingToSend(r) && ReaderThrough(c, s, k, r) && NextInLine(s.sessions, k, j))
  {
    hide Serve, Resume, Linked, Hand, Retire;
    ReadKeepsQueue(c, s, h, room, target, header);
    var s1 := Resume(c, s, target, header);
    var k := Find(s1.sessions, h);
    var s2 := Serve(c, s1, k, room).state;
    ServeOnly(c, s1, k, room);
    HandEffect(c, s2, k, j);
    RetireEffect(c, s2, k);
    var t, r := Hand(c, s2, k), Read(c, s, h, room, target, header).state;
    assert r == Retire(t, k) && NothingToSend(r) == NothingToSend(s2);
    assert r.sessions[PlaceAfter(s, k, r, j)] == t.sessions[j];
    SameLine(s1.sessions, s2.sessions, k, j);
  }

  /** The part of a read that depends on the session touches no other. */
  lemma ServeOnly(c: Config, s: State, k: nat, room: nat)
    requires Sound(c, s) && k < |s.sessions|
    ensures OnlySession(s, Serve(c, s, k, room).state, k)
  {
    hide Fill, Linked;
    FillOnly(c, s, k, room);
    FillOnly(c, SetPhase(s, k, Streaming).(timed := false), k, room);
  }

  /** The hand-over. */
  lemma HandEffect(c: Config, s: State, k: nat, j: nat)
    requires Sound(c, s) && k < |s.sessions| && j < |s.sessions| && j != k
    ensures var r := Hand(c, s, k);
            && r == s.(sessions := r.sessions) && |r.sessions| == |s.sessions|
            && (r.sessions[j] == s.sessions[j] || r.sessions[j] == s.sessions[j].(phase := Terminated))
            && (r.sessions[j].phase != s.sessions[j].phase <==>
                  && NothingToSend(s) && NextInLine(s.sessions, k, j)
                  && (s.sessions[k].phase == AwaitingAck || (!c.waitForAck && s.sessions[k].phase == Terminated)))
            && r.sessions[k] == s.sessions[k]
  {
    hide Linked;
    FirstWaits(s.sessions);
  }

  lemma {:induction false} FirstWaits(ss: seq<Session>)
    ensures var j := FirstWaiting(ss);
            && (j < |ss| ==> Waiting(ss[j])) && forall i :: 0 <= i < j ==> !Waiting(ss[i])
  {
    if ss != [] && !Waiting(ss[0]) {
      FirstWaits(ss[1..]);
    }
  }

  /** The session read leaves the queue exactly if it is terminated; the others stay as they are, reset or not. */
  lemma RetireEffect(c: Config, s: State, k: nat)
    requires k < |s.sessions|
    ensures var t, r := Hand(c, s, k), Retire(Hand(c, s, k), k);
            && r == t.(sessions := r.sessions, connection := r.connection)
            && r.sessions == if t.sessions[k].phase == Terminated then Without(t.sessions, k) else t.sessions
  {
    hide Hand, Drained;
    var t := Hand(c, s, k);
    var ss := Without(t.sessions, k);
    if !Active(ss) {
      assert AllTerminated(ss) == ss;
    }
  }

  lemma SameLine(ss: seq<Session>, ts: seq<Session>, k: nat, j: nat)
    requires |ss| == |ts| && forall i :: 0 <= i < |ss| && i != k ==> ss[i] == ts[i]
    requires j != k
    ensures NextInLine(ss, k, j) <==> NextInLine(ts, k, j)
  {
  }

  // ---------------------------------------------------------------- whole runs

  /** A call that is about other sessions than h. */
  predicate Spares(e: Event, h: nat) {
    match e
    case Get(g, _, _, _) => g != h
    case Drop(g, _) => g != h
    case Reset => false
    case _ => true
  }

  /** A read that ends session h, which it does not read. */
  ghost predicate EndsOther(c: Config, s: State, e: Event, h: nat)
    requires Sound(c, s) && Enabled(s, e)
  {
    var j := Find(s.sessions, h);
    && e.Get? && j < |s.sessions|
    && var k, r := Find(s.sessions, e.handle), Step(c, s, e).state;
       && k < |s.sessions| && k != j && |s.sessions| - 1 <= |r.sessions|
       && NothingToSend(r) && ReaderThrough(c, s, k, r) && NextInLine(s.sessions, k, j)
  }

  ghost predicate EndedInRun(c: Config, s: State, es: seq<Event>, h: nat)
    requires Sound(c, s) && Feasible(c, s, es)
    decreases |es|
  {
    es != [] && (EndsOther(c, s, es[0], h) || (StepSound(c, s, es[0]); EndedInRun(c, Step(c, s, es[0]).state, es[1..], h)))
  }

  lemma {:induction false} FirstIs(ss: seq<Session>, h: nat, j: nat)
    requires j < |ss| && ss[j].handle == h && forall i :: 0 <= i < j ==> ss[i].handle != h
    ensures Find(ss, h) == j
  {
  }

  /** Session h keeps its phase, or ends by a read of another. */
  ghost predicate LivesOn(c: Config, s: State, e: Event, h: nat, r: State)
    requires Sound(c, s) && Enabled(s, e) && Find(s.sessions, h) < |s.sessions|
  {
    var u := s.sessions[Find(s.sessions, h)];
    && Find(r.sessions, h) < |r.sessions|
    && r.sessions[Find(r.sessions, h)].phase == if EndsOther(c, s, e, h) then Terminated else u.phase
  }

  lemma {:induction false} ReadLives(c: Config, s: State, e: Event, h: nat)
    requires Sound(c, s) && Enabled(s, e) && e.Get? && e.handle != h && Find(s.sessions, h) < |s.sessions|
    ensures LivesOn(c, s, e, h, Step(c, s, e).state)
  {
    hide Read, NothingToSend, NextInLine, ReaderThrough, Linked;
    var r, k, j := Step(c, s, e).state, Find(s.sessions, e.handle), Find(s.sessions, h);
    ReadKeepsQueue(c, s, e.handle, e.room, e.target, e.header);
    if k < |s.sessions| {
      ReadEndsOtherIff(c, s, e.handle, e.room, e.target, e.header, j);
      forall i | 0 <= i < PlaceAfter(s, k, r, j)
        ensures r.sessions[i].handle != h
      {
        var was := if |r.sessions| < |s.sessions| && i >= k then i + 1 else i;
        if was != k {
          ReadEndsOtherIff(c, s, e.handle, e.room, e.target, e.header, was);
        }
      }
      FirstIs(r.sessions, h, PlaceAfter(s, k, r, j));
    }
  }

  lemma {:induction false} OtherLives(c: Config, s: State, e: Event, h: nat)
    requires Sound(c, s) && Enabled(s, e) && !e.Get? && Spares(e, h) && Find(s.sessions, h) < |s.sessions|
    requires s.sessions[Find(s.sessions, h)].phase == AwaitingAck && e.Persisted? ==> e.handle != h
    ensures LivesOn(c, s, e, h, Step(c, s, e).state)
  {
    hide PutFrame, ReceivedAck, Read, Linked, Terminate, PersistedAck;
    var r, j := Step(c, s, e).state, Find(s.sessions, h);
    match e
    case Put(f, p) => PutKeepsSessions(c, s, f, p);
    case Open(g) => FirstIs(r.sessions, h, j);
    case Drop(g, alive) => DropLeaves(s, g, alive, h);
    case Received(i) => ReceivedKeepsSessions(s, i);
    case Persisted(g, ts, b) => PersistedLeaves(s, g, ts, b, h);
    case Stop =>
  }

  lemma {:induction false} DropLeaves(s: State, g: nat, alive: bool, h: nat)
    requires g != h && Find(s.sessions, h) < |s.sessions|
    ensures var r := Terminate(s, Some(g), alive).sessions;
            Find(r, h) < |r| && r[Find(r, h)] == s.sessions[Find(s.sessions, h)]
  {
    var k, j := Find(s.sessions, g), Find(s.sessions, h);
    if k < |s.sessions| {
      var ss := s.sessions[k := s.sessions[k].(phase := Terminated)];
      FirstIs(ss, h, j);
      WithoutLeaves(ss, k, h);
    }
  }

  lemma {:induction false} WithoutLeaves(ss: seq<Session>, k: nat, h: nat)
    requires k < |ss| && ss[k].handle != h && Find(ss, h) < |ss|
    ensures var r := Without(ss, k); Find(r, h) < |r| && r[Find(r, h)] == ss[Find(ss, h)]
  {
    var j := Find(ss, h);
    FirstIs(Without(ss, k), h, if k < j then j - 1 else j);
  }

  lemma {:induction false} PersistedLeaves(s: State, g: nat, ts: nat, b: nat, h: nat)
    requires s.view.Ok() && s.view.tail <= b <= s.view.Head() && Find(s.sessions, h) < |s.sessions|
    requires s.sessions[Find(s.sessions, h)].phase == AwaitingAck ==> g != h
    ensures var r := PersistedAck(s, g, ts, b).sessions;
            Find(r, h) < |r| && r[Find(r, h)].phase == s.sessions[Find(s.sessions, h)].phase
  {
    hide Acknowledged, Trims, TrimUpTo, InView;
    var r := PersistedAck(s, g, ts, b).sessions;
    FirstIs(r, h, Find(s.sessions, h));
  }

  lemma PutKeepsSessions(c: Config, s: State, f: Frame, p: Packaged)
    requires s.view.Ok()
    ensures PutFrame(c, s, f, p).sessions == s.sessions
  {
  }

  lemma ReceivedKeepsSessions(s: State, i: nat)
    ensures ReceivedAck(s, i).sessions == s.sessions
  {
  }

  /** Over every run of calls about other sessions, one that waits keeps waiting if and only if none of them is a
      read that ends it; so no read ends another session while the stream has anything left to send. */
  lemma {:induction false} WaitsUnlessEnded(c: Config, s: State, es: seq<Event>, h: nat)
    requires Sound(c, s) && Feasible(c, s, es) && Find(s.sessions, h) < |s.sessions|
    requires var u := s.sessions[Find(s.sessions, h)]; Waiting(u) || u.phase == Terminated
    requires forall i :: 0 <= i < |es| ==> Spares(es[i], h)
    ensures var r, u := After(c, s, es), s.sessions[Find(s.sessions, h)];
            && Find(r.sessions, h) < |r.sessions|
            && r.sessions[Find(r.sessions, h)].phase == if EndedInRun(c, s, es, h) then Terminated else u.phase
    decreases |es|
  {
    hide Step, Sound, Enabled, EndsOther;
    if es != [] {
      var e := es[0];
      StepSound(c, s, e);
      StepLives(c, s, e, h);
      WaitsUnlessEnded(c, Step(c, s, e).state, es[1..], h);
    }
  }

  lemma StepLives(c: Config, s: State, e: Event, h: nat)
    requires Sound(c, s) && Enabled(s, e) && Spares(e, h) && Find(s.sessions, h) < |s.sessions|
    requires s.sessions[Find(s.sessions, h)].phase == AwaitingAck && e.Persisted? ==> e.handle != h
    ensures LivesOn(c, s, e, h, Step(c, s, e).state)
  {
    hide Step, EndsOther, LivesOn, Linked;
    if e.Get? {
      ReadLives(c, s, e, h);
    } else {
      OtherLives(c, s, e, h);
    }
  }
}

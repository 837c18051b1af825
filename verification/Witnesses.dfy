/** Short runs from the start on which a promise of the design fails, each call with the state it leads
    to. The theorems of Recovery and TimecodeBases say exactly when it holds. */
module Witnesses {
  import opened Arithmetic
  import opened ViewItems
  import opened ContentView
  import opened Upload
  import opened Recovery
  import opened TimecodeBases
  import opened MixedBases

  // ---------------------------------------------------------------- runs given by their states

  ghost predicate Leads(c: Config, s: State, e: Event, r: State) {
    Sound(c, s) && Enabled(s, e) && Step(c, s, e).state == r && Sound(c, r)
  }

  ghost predicate Path(c: Config, es: seq<Event>, states: seq<State>) {
    |states| == |es| + 1 && forall i :: 0 <= i < |es| ==> Leads(c, states[i], es[i], states[i + 1])
  }

  lemma {:induction false} PathFeasible(c: Config, es: seq<Event>, states: seq<State>)
    requires Path(c, es, states) && es != []
    ensures Sound(c, states[0]) && Feasible(c, states[0], es) && After(c, states[0], es) == states[|es|]
    decreases |es|
  {
    hide Step, Sound, Enabled;
    assert Leads(c, states[0], es[0], states[1]);
    StepSound(c, states[0], es[0]);
    if |es| > 1 {
      PathRest(c, es, states);
      PathFeasible(c, es[1..], states[1..]);
    } else {
      assert es[1..] == [];
    }
  }

  lemma PathRest(c: Config, es: seq<Event>, states: seq<State>)
    requires Path(c, es, states) && es != []
    ensures Path(c, es[1..], states[1..])
  {
    hide Leads;
    forall i | 0 <= i < |es[1..]|
      ensures Leads(c, states[1..][i], es[1..][i], states[1..][i + 1])
    {
      assert Leads(c, states[i + 1], es[i + 1], states[i + 2]);
    }
  }

  /** What a read of the run sends is in its log. */
  lemma {:induction false} InLog(c: Config, es: seq<Event>, states: seq<State>, n: nat, ch: Chunk)
    requires Path(c, es, states) && n < |es| && es[n].Get?
    requires Speaks(c, states[n], es[n], ch)
    ensures Sound(c, states[0]) && Feasible(c, states[0], es)
    ensures exists i :: 0 <= i < |Log(c, states[0], es)| && Log(c, states[0], es)[i] == Sent(es[n].handle, ch)
    decreases n
  {
    hide Step, Sound, Enabled;
    PathFeasible(c, es, states);
    assert Leads(c, states[0], es[0], states[1]);
    StepSound(c, states[0], es[0]);
    var out, rest := Step(c, states[0], es[0]).out, Log(c, states[1], es[1..]);
    var log := Emitted(c, states[0], es[0]) + rest;
    assert Log(c, states[0], es) == log;
    if n == 0 {
      FirstIsCarried(out);
      var k :| 0 <= k < |out| && out[k] == ch;
      assert log[k] == Sent(es[0].handle, ch);
    } else {
      PathRest(c, es, states);
      InLog(c, es[1..], states[1..], n - 1, ch);
      var i :| 0 <= i < |rest| && rest[i] == Sent(es[n].handle, ch);
      assert log[|out| + i] == rest[i];
    }
  }

  /** Two reads of one session that send from different bases. */
  lemma MixedLog(c: Config, es: seq<Event>, states: seq<State>, a: nat, b: nat, x: Chunk, y: Chunk)
    requires Path(c, es, states) && a < b < |es| && es[a].Get? && es[b].Get? && es[a].handle == es[b].handle
    requires Speaks(c, states[a], es[a], x) && Speaks(c, states[b], es[b], y)
    requires x.base != y.base
    ensures Sound(c, states[0]) && Feasible(c, states[0], es) && !OneBaseEach(Log(c, states[0], es))
  {
    hide Step, Sound, Enabled;
    InLog(c, es, states, a, x);
    InLog(c, es, states, b, y);
    var log := Log(c, states[0], es);
    var i :| 0 <= i < |log| && log[i] == Sent(es[a].handle, x);
    var j :| 0 <= j < |log| && log[j] == Sent(es[b].handle, y);
    assert SameSession(log[i], log[j]);
  }

  /** A run in which only the last call sends media. */
  lemma {:induction false} LastSends(c: Config, es: seq<Event>, states: seq<State>, m: Chunk)
    requires Path(c, es, states) && es != []
    requires forall i :: 0 <= i < |es| - 1 ==> Quiet(c, states[i], es[i])
    requires Speaks(c, states[|es| - 1], es[|es| - 1], m)
    ensures Sound(c, states[0]) && Feasible(c, states[0], es) && FirstSent(Log(c, states[0], es)) == Some(m)
    decreases |es|
  {
    hide Step, Sound, Enabled;
    PathFeasible(c, es, states);
    var e := es[0];
    assert Leads(c, states[0], e, states[1]);
    StepSound(c, states[0], e);
    FirstSentOfStep(if e.Get? then e.handle else 0, Step(c, states[0], e).out, Log(c, states[1], es[1..]));
    if |es| > 1 {
      assert Quiet(c, states[0], es[0]);
      PathRest(c, es, states);
      forall i | 0 <= i < |es[1..]| - 1
        ensures Quiet(c, states[1..][i], es[1..][i])
      {
        assert Quiet(c, states[i + 1], es[i + 1]);
      }
      LastSends(c, es[1..], states[1..], m);
    }
  }

  ghost predicate Quiet(c: Config, s: State, e: Event) {
    Sound(c, s) && Enabled(s, e) && FirstMedia(Step(c, s, e).out) == None
  }

  /** The call's first media is ch. */
  ghost predicate Speaks(c: Config, s: State, e: Event, ch: Chunk) {
    Sound(c, s) && Enabled(s, e) && FirstMedia(Step(c, s, e).out) == Some(ch)
  }

  // ---------------------------------------------------------------- single calls

  function Shot(f: Frame, t: nat): Event { Put(f, Packaged(t, t, 1, t, [0], EBML_MAGIC)) }

  lemma ShotItem(s: State, f: Frame, t: nat)
    requires !f.EndOfFragment?
    ensures var e := Shot(f, t);
            var i, start := ItemOf(s, f, e.packaged), StartsStream(s, f);
            && Enabled(s, e) && i.Ok() && i.timestamp == t && i.ackTimestamp == t && i.duration == 1
            && |i.data| == (if start then 5 else 1) && i.streamStart == start && i.baseStart == (start && s.view.items != [])
            && i.base == s.generator.base + (if start then 1 else 0) && i.fragStart == f.Key? && !i.received && !i.skip
            && Package(s, f, e.packaged) == Generator(i.base, if f.Key? then t else s.generator.dts,
                                                      if f.Key? then t else s.generator.pts, false)
  {
    var e := Shot(f, t);
    ItemOfOk(s, f, e.packaged);
  }

  /** The state after a frame that fits. */
  function Filmed(s: State, f: Frame, t: nat): State {
    var e := Shot(f, t);
    var item := ItemOf(s, f, e.packaged);
    s.(view := Append(s.view, item), generator := Package(s, f, e.packaged), timed := s.timed || item.streamStart)
  }

  lemma Films(c: Config, s: State, f: Frame, t: nat)
    requires Sound(c, s) && !f.EndOfFragment? && !Unpackaged(s, f, Shot(f, t).packaged)
    requires Accepts(s.view, ItemOf(s, f, Shot(f, t).packaged)) && Available(s.view, c.limits)
    ensures Leads(c, s, Shot(f, t), Filmed(s, f, t)) && Quiet(c, s, Shot(f, t))
  {
    ShotItem(s, f, t);
    StepSound(c, s, Shot(f, t));
  }

  /** A frame older than the view's last is not stored, but has moved the generator. */
  lemma FilmsTooOld(c: Config, s: State, f: Frame, t: nat)
    requires Sound(c, s) && !f.EndOfFragment? && !Unpackaged(s, f, Shot(f, t).packaged)
    requires !Accepts(s.view, ItemOf(s, f, Shot(f, t).packaged))
    ensures Leads(c, s, Shot(f, t), s.(generator := Package(s, f, Shot(f, t).packaged)))
  {
    ShotItem(s, f, t);
    StepSound(c, s, Shot(f, t));
  }

  /** With nothing sent from the window a frame that does not fit evicts the tail. */
  lemma FilmsOverTail(c: Config, s: State, f: Frame, t: nat)
    requires Sound(c, s) && !f.EndOfFragment? && !Unpackaged(s, f, Shot(f, t).packaged)
    requires Accepts(s.view, ItemOf(s, f, Shot(f, t).packaged)) && !Available(s.view, c.limits)
    requires c.limits.policy == DropTailItem && s.view.current == s.view.tail
    ensures var v := View(s.view.tail + 1, s.view.items[1..], s.view.tail + 1);
            Leads(c, s, Shot(f, t), Filmed(s, f, t).(view := Append(v, ItemOf(s, f, Shot(f, t).packaged))))
    ensures Quiet(c, s, Shot(f, t))
  {
    ShotItem(s, f, t);
    StepSound(c, s, Shot(f, t));
  }

  /** When the tail is the item being sent, it evicts the item after that. */
  lemma FilmsOverNext(c: Config, s: State, f: Frame, t: nat)
    requires Sound(c, s) && !f.EndOfFragment? && !Unpackaged(s, f, Shot(f, t).packaged)
    requires Accepts(s.view, ItemOf(s, f, Shot(f, t).packaged)) && !Available(s.view, c.limits)
    requires c.limits.policy == DropTailItem && s.view.current == s.view.tail + 1 && |s.view.items| > 1
    ensures var kept := Retained(s.view.items[1], s.view.items[0]);
            var v := View(s.view.tail + 1, [kept] + s.view.items[2..], s.view.tail + 2);
            Leads(c, s, Shot(f, t), Filmed(s, f, t).(view := Append(v, ItemOf(s, f, Shot(f, t).packaged))))
  {
    ShotItem(s, f, t);
    StepSound(c, s, Shot(f, t));
  }

  lemma Opens(c: Config, s: State, h: nat)
    requires Sound(c, s) && forall j :: 0 <= j < |s.sessions| ==> s.sessions[j].handle != h
    ensures Leads(c, s, Open(h), Connect(s, h)) && Quiet(c, s, Open(h))
  {
  }

  lemma Drops(c: Config, s: State, h: nat, alive: bool)
    requires Sound(c, s)
    ensures Leads(c, s, Drop(h, alive), Terminate(s, Some(h), alive)) && Quiet(c, s, Drop(h, alive))
  {
  }

  /** The drop of the only session, if it was used or a rollback was owed already. */
  lemma DropsOnly(s: State, h: nat, alive: bool)
    requires !s.stopped && |s.sessions| == 1 && s.sessions[0].handle == h
    requires Used(s.sessions[0].phase) || s.connection == InUse
    ensures Terminate(s, Some(h), alive)
         == s.(sessions := if alive then [s.sessions[0].(phase := Terminated)] else [], connection := InUse)
  {
    assert Find(s.sessions, h) == 0;
    var ss := s.sessions[0 := s.sessions[0].(phase := Terminated)];
    assert ss == [s.sessions[0].(phase := Terminated)] && !Active(ss) && Without(ss, 0) == [];
  }

  /** A read by the session at place k that sends part of the current item, or begins with item n. */
  lemma Reads(c: Config, s: State, k: nat, room: nat, target: nat, n: nat)
    requires Sound(c, s) && k < |s.sessions| && Find(s.sessions, s.sessions[k].handle) == k
    requires s.connection != InUse && !s.stopped && !s.eos.send && room > 0 && s.view.tail <= target <= s.view.Head()
    requires s.sessions[k].phase == Streaming || (s.sessions[k].phase == Ready && (c.absoluteTimes || s.timed))
    requires if s.cursor.Idle? then NextBoundary(s.view, s.view.current) == n < s.view.Head() && room <= |s.view.At(n).data|
             else room <= |s.cursor.item.data| - s.cursor.offset
    ensures var e := Get(s.sessions[k].handle, room, target, EBML_MAGIC);
            && Leads(c, s, e, AfterRead(c, s, k, room, n))
            && FirstMedia(Step(c, s, e).out).Some?
            && FirstMedia(Step(c, s, e).out).value.base == AfterRead(c, s, k, room, n).cursor.item.base
            && FirstMedia(Step(c, s, e).out).value.item == AfterRead(c, s, k, room, n).cursor.item
  {
    hide Fill, Read, CleanView, CleanCursor, NextBoundary;
    var e := Get(s.sessions[k].handle, room, target, EBML_MAGIC);
    StepSound(c, s, e);
    var s1 := SetPhase(s, k, Streaming).(timed := if s.sessions[k].phase == Ready then false else s.timed, connection := Fine);
    ServesFill(c, s, k, room, target);
    FillOnce(c, s1, k, room, n);
    AfterReadIs(c, s, s1, k, room, n);
  }

  /** The send loop fills the buffer from one item. */
  lemma FillOnce(c: Config, s: State, k: nat, room: nat, n: nat)
    requires Sound(c, s) && k < |s.sessions| && !s.eos.send && room > 0 && s.sessions[k].phase == Streaming
    requires if s.cursor.Idle? then NextBoundary(s.view, s.view.current) == n < s.view.Head() && room <= |s.view.At(n).data|
             else room <= |s.cursor.item.data| - s.cursor.offset
    ensures var f, s2 := Fill(c, s, k, room), Taken(s, n);
            var i, u := s2.cursor.item, s.sessions[k];
            && f.status == Success
            && f.state == s2.(cursor := s2.cursor.(offset := s2.cursor.offset + room),
                              sessions := s.sessions[k := if i.fragStart || i.streamStart then u.(lastFragment := Some(i.ackTimestamp)) else u])
            && FirstMedia(f.out).Some? && FirstMedia(f.out).value.base == i.base && FirstMedia(f.out).value.item == i
  {
    hide Fill;
    var s2 := Taken(s, n);
    FillUnrolled(c, s, k, room);
    FillUnrolled(c, s2, k, room);
    var p := OnePass(c, s2, k, room);
    FillUnrolled(c, p.state, k, 0);
    FillFirst(c, s2, k, room);
    if s.cursor.Idle? {
      FillFirst(c, s, k, room);
    }
  }

  lemma AfterReadIs(c: Config, s: State, s1: State, k: nat, room: nat, n: nat)
    requires k < |s.sessions| && (s.cursor.Idle? ==> s.view.Holds(n))
    requires s1 == SetPhase(s, k, Streaming).(timed := if s.sessions[k].phase == Ready then false else s.timed, connection := Fine)
    ensures var s2 := Taken(s1, n);
            var i, u := s2.cursor.item, s1.sessions[k];
            s2.cursor.On? ==>
              AfterRead(c, s, k, room, n)
              == s2.(cursor := s2.cursor.(offset := s2.cursor.offset + room),
                     sessions := s1.sessions[k := if i.fragStart || i.streamStart then u.(lastFragment := Some(i.ackTimestamp)) else u])
  {
  }

  function Taken(s: State, n: nat): State
    requires s.cursor.Idle? ==> s.view.Holds(n)
  {
    if s.cursor.Idle? then Take(s, n) else s
  }

  function AfterRead(c: Config, s: State, k: nat, room: nat, n: nat): State
    requires k < |s.sessions| && (s.cursor.Idle? ==> s.view.Holds(n))
  {
    var s2 := Taken(s.(timed := if s.sessions[k].phase == Ready then false else s.timed, connection := Fine), n);
    var u := s.sessions[k].(phase := Streaming);
    var i := s2.cursor.item;
    s2.(cursor := s2.cursor.(offset := s2.cursor.offset + room),
        sessions := s.sessions[k := if i.fragStart || i.streamStart then u.(lastFragment := Some(i.ackTimestamp)) else u])
  }

  lemma ServesFill(c: Config, s: State, k: nat, room: nat, target: nat)
    requires Sound(c, s) && k < |s.sessions| && Find(s.sessions, s.sessions[k].handle) == k
    requires s.connection != InUse && !s.stopped && s.view.tail <= target <= s.view.Head()
    requires s.sessions[k].phase == Streaming || (s.sessions[k].phase == Ready && (c.absoluteTimes || s.timed))
    ensures var s1 := SetPhase(s, k, Streaming).(timed := if s.sessions[k].phase == Ready then false else s.timed, connection := Fine);
            var f := Fill(c, s1, k, room);
            Read(c, s, s.sessions[k].handle, room, target, EBML_MAGIC) == f.(state := Retire(Hand(c, f.state, k), k))
  {
    hide Fill;
    var s1 := SetPhase(s, k, Streaming).(timed := if s.sessions[k].phase == Ready then false else s.timed, connection := Fine);
    assert s.sessions[k].phase == Streaming ==> s1 == s.(connection := Fine);
  }

  lemma LeadsClean(c: Config, s: State, e: Event, r: State)
    requires Leads(c, s, e, r) && Clean(s)
    ensures Clean(r)
  {
    StepClean(c, s, e);
  }

  /** A session whose next item is in another base and unmarked sends from it. */
  lemma ReadsStranded(c: Config, s: State, k: nat, target: nat)
    requires Sound(c, s) && Clean(s) && k < |s.sessions| && Find(s.sessions, s.sessions[k].handle) == k
    requires s.connection != InUse && !s.stopped && s.sessions[k].phase == Streaming && s.view.tail <= target <= s.view.Head()
    requires s.cursor.Spent() && s.view.current < s.view.Head()
    requires var next := s.view.At(s.view.current); next.base != s.cursor.item.base && !next.streamStart
    ensures var e := Get(s.sessions[k].handle, 1, target, EBML_MAGIC);
            && Enabled(s, e) && Leads(c, s, e, Step(c, s, e).state)
            && FirstMedia(Step(c, s, e).out).Some? && FirstMedia(Step(c, s, e).out).value.base != s.cursor.item.base
  {
    hide Fill, Read, CleanView, CleanCursor;
    var e := Get(s.sessions[k].handle, 1, target, EBML_MAGIC);
    StepSound(c, s, e);
    var s1 := s.(connection := Fine);
    ServesFill(c, s, k, 1, target);
    assert SetPhase(s, k, Streaming).(connection := Fine) == s1;
    StrandedSessionMixesBases(c, s1, k, 1);
  }

  // ---------------------------------------------------------------- runs that mix timecode bases

  const ROOMY := Config(Limits(16, 1000, DropTailItem), true, true, [])

  /** A window of three frames. */
  const TIGHT := Config(Limits(16, 3, DropTailItem), true, true, [])

  /** The first frame, a session, and a read of all of the frame. */
  lemma Opening(c: Config, t: nat)
    ensures var s1 := Filmed(INITIAL, Key(false), t);
            var i := s1.view.items[0];
            && Leads(c, INITIAL, Shot(Key(false), t), s1) && Clean(INITIAL) && Clean(s1)
            && s1 == INITIAL.(view := View(0, [i], 0), generator := Generator(1, t, t, false), timed := true)
            && |i.data| == 5 && i.base == 1 && i.streamStart && !i.baseStart && i.fragStart && !i.fragEnd && !i.skip && !i.received
            && i.timestamp == t && i.ackTimestamp == t && i.duration == 1
  {
    ShotItem(INITIAL, Key(false), t);
    Films(c, INITIAL, Key(false), t);
    LeadsClean(c, INITIAL, Shot(Key(false), t), Filmed(INITIAL, Key(false), t));
  }

  /** The read of all of the first item by the first session. */
  lemma ReadsFirst(c: Config, s: State, i: Item)
    requires Sound(c, s) && Clean(s) && (c.absoluteTimes || s.timed) && s.sessions == [Session(1, Ready, None, None)] && s.cursor == Idle
    requires s.connection != InUse && !s.stopped && !s.eos.send && s.view.tail == 0 == s.view.current
    requires |s.view.items| > 0 && s.view.items[0] == i && |i.data| == 5 && i.fragStart && !i.skip && !i.received
    ensures var r, e := AfterRead(c, s, 0, 5, 0), Get(1, 5, 0, EBML_MAGIC);
            && Leads(c, s, e, r) && Clean(r) && FirstMedia(Step(c, s, e).out).Some?
            && FirstMedia(Step(c, s, e).out).value.base == i.base
            && r == s.(view := s.view.(current := 1), cursor := On(i, 0, 5), timed := false, connection := Fine,
                       sessions := [Session(1, Streaming, Some(i.ackTimestamp), None)])
  {
    hide Clean;
    assert NextBoundary(s.view, 0) == 0;
    Reads(c, s, 0, 5, 0, 0);
    LeadsClean(c, s, Get(1, 5, 0, EBML_MAGIC), AfterRead(c, s, 0, 5, 0));
    assert s.view.Put(0, i) == s.view;
    assert AfterRead(c, s, 0, 5, 0).sessions == [Session(1, Streaming, Some(i.ackTimestamp), None)];
  }

  const REJECTED_RUN: seq<Event> :=
    [Shot(Key(false), 5), Open(1), Get(1, 5, 0, EBML_MAGIC), Shot(Key(true), 3), Shot(Key(false), 6), Get(1, 1, 0, EBML_MAGIC)]

  /** A key frame that was to open a new base is older than the view's last and is not stored; the next
      key frame is in that base without a mark, and the session runs across the change. */
  lemma RejectedRebaseMixesBases()
    ensures Feasible(ROOMY, INITIAL, REJECTED_RUN) && !OneBaseEach(Log(ROOMY, INITIAL, REJECTED_RUN))
  {
    hide Step, Sound, Clean, Enabled;
    var c := ROOMY;
    Opening(c, 5);
    var s1 := Filmed(INITIAL, Key(false), 5);
    var i, s2 := s1.view.items[0], Connect(s1, 1);
    Opens(c, s1, 1);
    LeadsClean(c, s1, Open(1), s2);
    ReadsFirst(c, s2, i);
    var s3 := AfterRead(c, s2, 0, 5, 0);
    ShotItem(s3, Key(true), 3);
    var s4 := s3.(generator := Generator(2, 3, 3, false));
    FilmsTooOld(c, s3, Key(true), 3);
    LeadsClean(c, s3, Shot(Key(true), 3), s4);
    ShotItem(s4, Key(false), 6);
    var s5 := Filmed(s4, Key(false), 6);
    Films(c, s4, Key(false), 6);
    LeadsClean(c, s4, Shot(Key(false), 6), s5);
    ReadsStranded(c, s5, 0, 0);
    var e := Get(1, 1, 0, EBML_MAGIC);
    var s6 := Step(c, s5, e).state;
    MixedLog(c, REJECTED_RUN, [INITIAL, s1, s2, s3, s4, s5, s6], 2, 5,
             FirstMedia(Step(c, s2, REJECTED_RUN[2]).out).value, FirstMedia(Step(c, s5, e).out).value);
  }

  const STRANDED_RUN: seq<Event> :=
    [Shot(Key(false), 0), Open(1), Get(1, 5, 0, EBML_MAGIC), Shot(Key(true), 1), Shot(Delta, 2), Shot(Delta, 3),
     Get(1, 1, 1, EBML_MAGIC)]

  /** Making room for a frame evicts the base boundary next to the frame just sent. */
  lemma EvictionMixesBases()
    ensures Feasible(TIGHT, INITIAL, STRANDED_RUN) && !OneBaseEach(Log(TIGHT, INITIAL, STRANDED_RUN))
  {
    hide Step, Sound, Clean, Enabled;
    var c := TIGHT;
    Opening(c, 0);
    var s1 := Filmed(INITIAL, Key(false), 0);
    var i, s2 := s1.view.items[0], Connect(s1, 1);
    Opens(c, s1, 1);
    LeadsClean(c, s1, Open(1), s2);
    ReadsFirst(c, s2, i);
    var s3 := AfterRead(c, s2, 0, 5, 0);
    ShotItem(s3, Key(true), 1);
    Films(c, s3, Key(true), 1);
    var s4 := Filmed(s3, Key(true), 1);
    LeadsClean(c, s3, Shot(Key(true), 1), s4);
    ShotItem(s4, Delta, 2);
    Films(c, s4, Delta, 2);
    var s5 := Filmed(s4, Delta, 2);
    LeadsClean(c, s4, Shot(Delta, 2), s5);
    ShotItem(s5, Delta, 3);
    FilmsOverNext(c, s5, Delta, 3);
    var v := View(1, [Retained(s5.view.items[1], s5.view.items[0])] + s5.view.items[2..], 2);
    var s6 := Filmed(s5, Delta, 3).(view := Append(v, ItemOf(s5, Delta, Shot(Delta, 3).packaged)));
    LeadsClean(c, s5, Shot(Delta, 3), s6);
    ReadsStranded(c, s6, 0, 1);
    var e := Get(1, 1, 1, EBML_MAGIC);
    MixedLog(c, STRANDED_RUN, [INITIAL, s1, s2, s3, s4, s5, s6, Step(c, s6, e).state], 2, 6,
             FirstMedia(Step(c, s2, STRANDED_RUN[2]).out).value, FirstMedia(Step(c, s6, e).out).value);
  }

  const OVERTAKEN_RUN: seq<Event> :=
    [Shot(Key(false), 0), Shot(Key(true), 1), Shot(Key(false), 2), Shot(Key(false), 3), Open(1), Get(1, 5, 0, EBML_MAGIC),
     Persisted(1, 1, 2), Get(1, 1, 3, EBML_MAGIC)]

  /** A persisted acknowledgement for a fragment that was not sent yet trims past the send pointer. */
  lemma OvertakingAckMixesBases()
    ensures Feasible(ROOMY, INITIAL, OVERTAKEN_RUN) && !OneBaseEach(Log(ROOMY, INITIAL, OVERTAKEN_RUN))
  {
    hide Step, Sound, Clean, Enabled;
    var c := ROOMY;
    var s1, s2, s3, s4 := ThreeMore(c);
    var s5 := Connect(s4, 1);
    Opens(c, s4, 1);
    LeadsClean(c, s4, Open(1), s5);
    ReadsFirst(c, s5, s5.view.items[0]);
    var s6 := AfterRead(c, s5, 0, 5, 0);
    var s7 := PersistsOvertaking(c, s6);
    ReadsStranded(c, s7, 0, 3);
    var e := Get(1, 1, 3, EBML_MAGIC);
    MixedLog(c, OVERTAKEN_RUN, [INITIAL, s1, s2, s3, s4, s5, s6, s7, Step(c, s7, e).state], 5, 7,
             FirstMedia(Step(c, s5, OVERTAKEN_RUN[5]).out).value, FirstMedia(Step(c, s7, e).out).value);
  }

  /** A frame, a rebased key frame, and two more key frames. */
  lemma ThreeMore(c: Config) returns (s1: State, s2: State, s3: State, s4: State)
    requires c == ROOMY
    ensures Leads(c, INITIAL, Shot(Key(false), 0), s1) && Leads(c, s1, Shot(Key(true), 1), s2)
    ensures Leads(c, s2, Shot(Key(false), 2), s3) && Leads(c, s3, Shot(Key(false), 3), s4) && Clean(s4)
    ensures s4 == INITIAL.(view := View(0, s4.view.items, 0), generator := Generator(2, 3, 3, false), timed := true)
    ensures var v := s4.view.items;
            && |v| == 4 && |v[0].data| == 5 && v[0].base == 1 && v[0].fragStart && !v[0].skip && !v[0].received
            && v[0].streamStart && !v[0].baseStart
            && v[2].base == 2 && !v[2].streamStart && v[3].base == 2 && !v[3].streamStart && v[2].fragStart && !v[2].fragEnd
            && forall k :: 0 <= k < 4 ==> v[k].ackTimestamp == k && v[k].duration == 1
  {
    hide Step, Sound, Clean, Enabled;
    s1, s2 := TwoBases(c);
    ShotItem(s2, Key(false), 2);
    Films(c, s2, Key(false), 2);
    s3 := Filmed(s2, Key(false), 2);
    LeadsClean(c, s2, Shot(Key(false), 2), s3);
    ShotItem(s3, Key(false), 3);
    Films(c, s3, Key(false), 3);
    s4 := Filmed(s3, Key(false), 3);
    LeadsClean(c, s3, Shot(Key(false), 3), s4);
    assert ItemOf(s2, Key(false), Shot(Key(false), 2).packaged).fragEnd == false;
  }

  lemma PersistsOvertaking(c: Config, s: State) returns (r: State)
    requires Sound(c, s) && Clean(s) && s.view.tail == 0 && s.view.current == 1 && |s.view.items| == 4
    requires |s.sessions| == 1 && s.sessions[0].handle == 1 && s.sessions[0].phase == Streaming
    requires !s.view.items[2].fragEnd && forall k :: 0 <= k < 4 ==> s.view.items[k].ackTimestamp == k && s.view.items[k].duration == 1
    ensures Leads(c, s, Persisted(1, 1, 2), r) && Clean(r)
    ensures r == s.(view := View(2, s.view.items[2..], 3), sessions := [s.sessions[0].(lastPersisted := Some(1))])
    ensures r.view.At(3) == s.view.items[3]
  {
    hide Clean;
    StepSound(c, s, Persisted(1, 1, 2));
    assert Find(s.sessions, 1) == 0 && EarlierReady(s.sessions, 0) && InView(s.view, 1);
    r := s.(view := View(2, s.view.items[2..], 3), sessions := [s.sessions[0].(lastPersisted := Some(1))]);
    LeadsClean(c, s, Persisted(1, 1, 2), r);
  }

  /** A frame and a rebased key frame. */
  lemma TwoBases(c: Config) returns (s1: State, s2: State)
    requires c.limits == ROOMY.limits
    ensures Leads(c, INITIAL, Shot(Key(false), 0), s1) && Leads(c, s1, Shot(Key(true), 1), s2) && Clean(s2)
    ensures s2 == INITIAL.(view := View(0, s2.view.items, 0), generator := Generator(2, 1, 1, false), timed := true)
    ensures |s2.view.items| == 2
    ensures var i, j := s2.view.items[0], s2.view.items[1];
            && |i.data| == 5 && i.fragStart && !i.fragEnd && i.base == 1 && !i.skip && !i.received && i.streamStart && !i.baseStart
            && |j.data| == 5 && j.streamStart && j.baseStart && j.base == 2
            && i.ackTimestamp == 0 && i.duration == 1 && j.ackTimestamp == 1 && j.timestamp == 1 && j.duration == 1
  {
    hide Step, Sound, Clean, Enabled;
    Opening(c, 0);
    s1 := Filmed(INITIAL, Key(false), 0);
    ShotItem(s1, Key(true), 1);
    Films(c, s1, Key(true), 1);
    s2 := Filmed(s1, Key(true), 1);
    LeadsClean(c, s1, Shot(Key(true), 1), s2);
  }

  const OUT_OF_TURN_RUN: seq<Event> :=
    [Shot(Key(false), 0), Shot(Key(true), 1), Open(1), Open(2), Get(1, 2, 0, EBML_MAGIC), Get(2, 3, 0, EBML_MAGIC),
     Get(2, 1, 0, EBML_MAGIC), Get(1, 1, 0, EBML_MAGIC)]

  /** A newer session is read while an older one is in the middle of its base: it ends at the boundary,
      and the older one goes on behind it. */
  lemma OutOfTurnMixesBases()
    ensures Feasible(ROOMY, INITIAL, OUT_OF_TURN_RUN) && !OneBaseEach(Log(ROOMY, INITIAL, OUT_OF_TURN_RUN))
  {
    hide Step, Sound, Clean, Enabled;
    var c, es := ROOMY, OUT_OF_TURN_RUN;
    var s1, s2 := TwoBases(c);
    var s3, s4 := Connect(s2, 1), Connect(Connect(s2, 1), 2);
    Opens(c, s2, 1);
    LeadsClean(c, s2, Open(1), s3);
    Opens(c, s3, 2);
    LeadsClean(c, s3, Open(2), s4);
    var s5, s6, s7, s8 := ReadsOutOfTurn(c, s4);
    MixedLog(c, es, [INITIAL, s1, s2, s3, s4, s5, s6, s7, s8], 4, 7,
             FirstMedia(Step(c, s4, es[4]).out).value, FirstMedia(Step(c, s7, es[7]).out).value);
  }

  lemma ReadsOutOfTurn(c: Config, s4: State) returns (s5: State, s6: State, s7: State, s8: State)
    requires c == ROOMY && Sound(c, s4) && Clean(s4) && |s4.view.items| == 2 && s4.view.tail == 0 && s4.view.current == 0
    requires s4.sessions == [Session(1, Ready, None, None), Session(2, Ready, None, None)]
    requires s4.cursor == Idle && s4.connection == Fine && !s4.stopped && !s4.eos.send
    requires var i, j := s4.view.items[0], s4.view.items[1];
             && |i.data| == 5 && i.fragStart && i.base == 1 && j.streamStart && j.base == 2
    ensures Leads(c, s4, Get(1, 2, 0, EBML_MAGIC), s5) && Leads(c, s5, Get(2, 3, 0, EBML_MAGIC), s6)
    ensures Leads(c, s6, Get(2, 1, 0, EBML_MAGIC), s7) && Leads(c, s7, Get(1, 1, 0, EBML_MAGIC), s8)
    ensures var x, y := FirstMedia(Step(c, s4, Get(1, 2, 0, EBML_MAGIC)).out), FirstMedia(Step(c, s7, Get(1, 1, 0, EBML_MAGIC)).out);
            x.Some? && y.Some? && x.value.base == 1 && y.value.base == 2
  {
    hide Step, Linked, CleanCursor, Enabled, Item.Ok;
    var i, j := s4.view.items[0], s4.view.items[1];
    assert !i.skip && NextBoundary(s4.view, 0) == 0;
    Reads(c, s4, 0, 2, 0, 0);
    s5 := AfterRead(c, s4, 0, 2, 0);
    LeadsClean(c, s4, Get(1, 2, 0, EBML_MAGIC), s5);
    assert s5.sessions == [Session(1, Streaming, Some(i.ackTimestamp), None), Session(2, Ready, None, None)];
    ReadsRest(c, s5);
    s6 := AfterRead(c, s5, 1, 3, 0);
    LeadsClean(c, s5, Get(2, 3, 0, EBML_MAGIC), s6);
    ReadsToEnd(c, s6, 1, 0);
    s7 := AfterEnd(s6, 1);
    LeadsClean(c, s6, Get(2, 1, 0, EBML_MAGIC), s7);
    EndsAt(s6, 1);
    assert s7.sessions == [s6.sessions[0], s6.sessions[1].(phase := AwaitingAck)];
    assert |j.data| > 0 by {
      NotEmpty(s4.view, 1);
    }
    Reads(c, s7, 0, 1, 0, 0);
    s8 := AfterRead(c, s7, 0, 1, 0);
  }

  /** The second session reads what the first has left of the item. */
  lemma ReadsRest(c: Config, s: State)
    requires c == ROOMY && Sound(c, s) && Clean(s) && |s.sessions| == 2 && s.sessions[1] == Session(2, Ready, None, None)
    requires s.sessions[0].handle == 1 && s.connection == Fine && !s.stopped && !s.eos.send && s.view.tail == 0
    requires s.cursor.On? && s.cursor.offset == 2 && |s.cursor.item.data| == 5
    ensures var r := AfterRead(c, s, 1, 3, 0);
            && Leads(c, s, Get(2, 3, 0, EBML_MAGIC), r) && r.cursor == s.cursor.(offset := 5)
            && r == s.(cursor := r.cursor, sessions := r.sessions, timed := false)
            && |r.sessions| == 2 && r.sessions[0] == s.sessions[0]
            && r.sessions[1].handle == 2 && r.sessions[1].phase == Streaming && r.sessions[1].lastPersisted == None
  {
    hide Step, Sound, Clean, Enabled, Leads;
    assert Find(s.sessions, 2) == 1;
    Reads(c, s, 1, 3, 0, 0);
  }

  lemma EndsAt(s: State, k: nat)
    requires s.view.Ok() && Linked(s.view, s.cursor) && k < |s.sessions| && s.view.current < s.view.Head()
    ensures var r := AfterEnd(s, k);
            && r.cursor == On(s.view.At(s.view.current).(received := false), s.view.current, 0) && r.connection == Fine
            && r.stopped == s.stopped && !r.eos.send && r.view.tail == s.view.tail && r.view.Head() == s.view.Head()
            && r.sessions == s.sessions[k := s.sessions[k].(phase := AwaitingAck)]
  {
    StripAhead(s.(connection := Fine));
  }

  /** The state after a session ended in front of a stream start: the next item is the current one. */
  function AfterEnd(s: State, k: nat): State
    requires s.view.Ok() && Linked(s.view, s.cursor) && k < |s.sessions| && s.view.current < s.view.Head()
  {
    var s1 := StripCursor(s.(connection := Fine));
    SetPhase(Take(s1, s1.view.current), k, AwaitingAck).(eos := EosTracker(false, 0))
  }

  lemma ReadsToEnd(c: Config, s: State, k: nat, target: nat)
    requires Sound(c, s) && Clean(s) && k < |s.sessions| && Find(s.sessions, s.sessions[k].handle) == k
    requires s.connection != InUse && !s.stopped && !s.eos.send && c.waitForAck && c.eos == []
    requires s.sessions[k].phase == Streaming && s.sessions[k].lastPersisted == None && s.view.tail <= target <= s.view.Head()
    requires s.cursor.Spent() && s.view.current < s.view.Head() && s.view.At(s.view.current).streamStart
    ensures Leads(c, s, Get(s.sessions[k].handle, 1, target, EBML_MAGIC), AfterEnd(s, k))
  {
    hide Fill, Read, CleanView, CleanCursor, StripCursor;
    var e := Get(s.sessions[k].handle, 1, target, EBML_MAGIC);
    StepSound(c, s, e);
    ServesFill(c, s, k, 1, target);
    var s1 := s.(connection := Fine);
    assert SetPhase(s, k, Streaming).(connection := Fine) == s1;
    FillEnds(c, s1, k);
  }

  /** The send loop goes onto a stream start and ends with the end-of-stream tag, which is empty. */
  lemma FillEnds(c: Config, s: State, k: nat)
    requires Sound(c, s) && Clean(s) && k < |s.sessions| && s.connection == Fine && !s.eos.send && c.waitForAck && c.eos == []
    requires s.sessions[k].phase == Streaming && s.sessions[k].lastPersisted == None
    requires s.cursor.Spent() && s.view.current < s.view.Head() && s.view.At(s.view.current).streamStart
    ensures Fill(c, s, k, 1) == Outcome(AfterEnd(s, k), [], AwaitingPersistedAck)
  {
    hide Fill, CleanCursor, Item.Ok, StripCursor;
    StripAhead(s);
    var t := StripCursor(s);
    assert !s.view.items[s.view.current - s.view.tail].skip;
    FillUnrolled(c, s, k, 1);
    var p := OnePass(c, s, k, 1);
    FillUnrolled(c, p.state, k, 1);
    assert p.state == StartEos(c, Take(t, t.view.current), k, Terminating, s.cursor.item.fragEnd);
    assert s.(connection := Fine) == s;
    assert AfterEnd(s, k).sessions == s.sessions[k := s.sessions[k].(phase := AwaitingAck)];
  }

  const UNKNOWN_DROP_RUN: seq<Event> :=
    [Shot(Key(false), 0), Shot(Key(true), 1), Open(1), Get(1, 5, 0, EBML_MAGIC), Drop(9, false), Get(1, 3, 1, EBML_MAGIC)]

  /** The end of a connection the stream does not know moves the pointer under the live session. */
  lemma UnknownDropMixesBases()
    ensures Feasible(ROOMY, INITIAL, UNKNOWN_DROP_RUN) && !OneBaseEach(Log(ROOMY, INITIAL, UNKNOWN_DROP_RUN))
  {
    hide Step, Sound, Clean, Enabled;
    var c, es := ROOMY, UNKNOWN_DROP_RUN;
    var s1, s2 := TwoBases(c);
    var s3 := Connect(s2, 1);
    Opens(c, s2, 1);
    LeadsClean(c, s2, Open(1), s3);
    ReadsFirst(c, s3, s3.view.items[0]);
    var s4 := AfterRead(c, s3, 0, 5, 0);
    var s5 := s4.(connection := InUse);
    assert Find(s4.sessions, 9) == 1;
    Drops(c, s4, 9, false);
    LeadsClean(c, s4, Drop(9, false), s5);
    var s6 := Resume(c, s5, 1, EBML_MAGIC);
    ResumesAtBoundary(c, s5, 1);
    Reads(c, s6, 0, 3, 1, 1);
    ReadsResumed(c, s5, 1, 3, 1);
    MixedLog(c, es, [INITIAL, s1, s2, s3, s4, s5, AfterRead(c, s6, 0, 3, 1)], 3, 5,
             FirstMedia(Step(c, s3, es[3]).out).value, FirstMedia(Step(c, s5, es[5]).out).value);
  }

  /** Settling the debt first and reading then is the same as reading. */
  lemma ReadsResumed(c: Config, s: State, h: nat, room: nat, target: nat)
    requires Sound(c, s) && s.view.tail <= target <= s.view.Head() && room > 0
    requires Resume(c, s, target, EBML_MAGIC).connection == Fine
    ensures var s1, e := Resume(c, s, target, EBML_MAGIC), Get(h, room, target, EBML_MAGIC);
            && Sound(c, s1) && s1.view.tail == s.view.tail && s1.view.Head() == s.view.Head()
            && Enabled(s, e) && Enabled(s1, e) && Step(c, s, e) == Step(c, s1, e) && Leads(c, s, e, Step(c, s1, e).state)
  {
    StepSound(c, s, Get(h, room, target, EBML_MAGIC));
  }

  /** The rollback ends on an item with a header of its own. */
  lemma ResumesAtBoundary(c: Config, s: State, b: nat)
    requires Sound(c, s) && Clean(s) && s.connection == InUse && s.view.current <= b < s.view.Head()
    requires s.view.At(b).streamStart
    ensures var s1 := Resume(c, s, b, EBML_MAGIC);
            && s1.connection == Fine && s1.cursor == Idle && s1.eos == EosTracker(false, 0) && s1.sessions == s.sessions
            && s1.stopped == s.stopped && s1.view.tail == s.view.tail && s1.view.Head() == s.view.Head() && s1.view.current == b
            && NextBoundary(s1.view, b) == b && s1.view.At(b) == s.view.At(b) && Sound(c, s1) && Clean(s1)
  {
    hide StripCursor, CleanCursor, CleanView, NextBoundary;
    StripAhead(s);
    ResumeClean(c, s, b, EBML_MAGIC);
    BeginsThere(s.view, StripCursor(s).view, b);
  }

  lemma BeginsThere(v: View, w: View, b: nat)
    requires v.Ok() && CleanView(v) && v.Holds(b) && w.Holds(b) && w.At(b) == v.At(b) && v.At(b).streamStart && v.Head() == w.Head()
    ensures NextBoundary(w, b) == b && NextBoundary(w.(current := b), b) == b
  {
    assert v.items[b - v.tail].Ok() && !v.items[b - v.tail].skip;
  }

  // ---------------------------------------------------------------- runs that lose an owed header

  /** From a state reached by the first part of a run, with a header owed, the rest of the run sends media
      that does not begin with one. */
  ghost predicate LosesHeader(c: Config, first: seq<Event>, rest: seq<Event>) {
    && Sound(c, INITIAL) && Feasible(c, INITIAL, first)
    && var s := After(c, INITIAL, first);
       && HeaderDue(s) && Feasible(c, s, rest)
       && var m := FirstSent(Log(c, s, rest)); m.Some? && !OpensWithHeader(m.value)
  }

  lemma LostBy(c: Config, first: seq<Event>, rest: seq<Event>, states: seq<State>, ends: seq<State>, m: Chunk)
    requires Path(c, first, states) && first != [] && states[0] == INITIAL
    requires Path(c, rest, ends) && rest != [] && ends[0] == states[|first|] && ends[0].view.Ok() && HeaderDue(ends[0])
    requires forall i :: 0 <= i < |rest| - 1 ==> Quiet(c, ends[i], rest[i])
    requires Speaks(c, ends[|rest| - 1], rest[|rest| - 1], m)
    requires !m.item.streamStart
    ensures LosesHeader(c, first, rest)
  {
    hide Step, Sound, Enabled, Leads, Quiet, HeaderDue;
    PathFeasible(c, first, states);
    LastSends(c, rest, ends, m);
  }

  /** The beginning of the runs: a frame is sent, and its session is dropped. */
  lemma Dropped(c: Config, alive: bool) returns (s1: State, s2: State, s3: State, s4: State)
    requires c == ROOMY || c == TIGHT
    ensures Leads(c, INITIAL, Shot(Key(false), 0), s1) && Leads(c, s1, Open(1), s2)
    ensures Leads(c, s2, Get(1, 5, 0, EBML_MAGIC), s3) && Leads(c, s3, Drop(1, alive), s4) && Clean(s4)
    ensures s4.view.tail == 0 && |s4.view.items| == 1 && s4.view.current == 1
    ensures var i := s4.view.items[0];
            && i.streamStart && !i.baseStart && i.fragStart && !i.fragEnd && i.ackTimestamp == 0 && i.timestamp == 0 && i.duration == 1
            && s4 == INITIAL.(view := View(0, [i], 1), cursor := On(i, 0, 5), generator := Generator(1, 0, 0, false), connection := InUse,
                              sessions := if alive then [Session(1, Terminated, Some(0), None)] else [])
            && |i.data| == 5 && !i.received && !i.skip
  {
    hide Step, Sound, Clean, Enabled;
    Opening(c, 0);
    s1 := Filmed(INITIAL, Key(false), 0);
    s2 := Connect(s1, 1);
    Opens(c, s1, 1);
    LeadsClean(c, s1, Open(1), s2);
    ReadsFirst(c, s2, s2.view.items[0]);
    s3 := AfterRead(c, s2, 0, 5, 0);
    s4 := Terminate(s3, Some(1), alive);
    Drops(c, s3, 1, alive);
    DropsOnly(s3, 1, alive);
    LeadsClean(c, s3, Drop(1, alive), s4);
  }

  const BEFORE_DROP: seq<Event> := [Shot(Key(false), 0), Open(1), Get(1, 5, 0, EBML_MAGIC), Drop(1, false)]

  const AFTER_DROP: seq<Event> :=
    [Open(2), Open(3), Get(2, 1, 1, EBML_MAGIC), Drop(2, false), Shot(Key(false), 1), Get(3, 1, 1, EBML_MAGIC)]

  /** A session reads while the header has no place yet, and is dropped beside another: the debt is gone
      and the other session begins without a header. */
  lemma DropBesideLosesHeader()
    ensures LosesHeader(ROOMY, BEFORE_DROP, AFTER_DROP)
  {
    hide Step, Sound, Clean, Enabled, LosesHeader;
    var c, es := ROOMY, AFTER_DROP;
    var s1, s2, s3, s4 := Dropped(c, false);
    var t1, t2 := Connect(s4, 2), Connect(Connect(s4, 2), 3);
    Opens(c, s4, 2);
    LeadsClean(c, s4, es[0], t1);
    Opens(c, t1, 3);
    LeadsClean(c, t1, es[1], t2);
    assert t2.sessions == [Session(2, Ready, None, None), Session(3, Ready, None, None)];
    var t3 := ReadsDeferred(c, t2);
    LeadsClean(c, t2, es[2], t3);
    var t4 := t3.(sessions := [Session(3, Ready, None, None)], connection := NotInUse);
    DropsFirst(c, t3);
    LeadsClean(c, t3, es[3], t4);
    ShotItem(t4, Key(false), 1);
    Films(c, t4, Key(false), 1);
    var t5 := Filmed(t4, Key(false), 1);
    LeadsClean(c, t4, es[4], t5);
    assert NextBoundary(t5.view, 1) == 1;
    Reads(c, t5, 0, 1, 1, 1);
    LostBy(c, BEFORE_DROP, es, [INITIAL, s1, s2, s3, s4], [s4, t1, t2, t3, t4, t5, AfterRead(c, t5, 0, 1, 1)],
           FirstMedia(Step(c, t5, es[5]).out).value);
  }

  /** With nothing behind the pointer to begin with, the header is deferred and nothing is sent. */
  lemma ReadsDeferred(c: Config, s: State) returns (r: State)
    requires c == ROOMY && Sound(c, s) && s.connection == InUse && s.view.tail == 0 && s.view.current == 1 && |s.view.items| == 1
    requires s.sessions == [Session(2, Ready, None, None), Session(3, Ready, None, None)] && !s.stopped
    ensures var e := Get(2, 1, 1, EBML_MAGIC); Leads(c, s, e, r) && Quiet(c, s, e)
    ensures r == s.(cursor := Idle, eos := EosTracker(false, 0), timed := false, view := r.view,
                    sessions := [Session(2, Streaming, None, None), Session(3, Ready, None, None)])
    ensures r.view.tail == 0 && |r.view.items| == 1 && r.view.current == 1
    ensures var i, j := s.view.items[0], r.view.items[0];
            j.timestamp == i.timestamp && j.ackTimestamp == i.ackTimestamp && j.duration == i.duration && j.fragEnd == i.fragEnd
  {
    hide Fill;
    var e := Get(2, 1, 1, EBML_MAGIC);
    StepSound(c, s, e);
    r := Step(c, s, e).state;
    var v := StripCursor(s).view;
    var s1 := s.(cursor := Idle, eos := EosTracker(false, 0), timed := false, view := v.(current := 1));
    assert Resume(c, s, 1, EBML_MAGIC) == s1;
    var s2 := SetPhase(s1, 0, Streaming);
    FillUnrolled(c, s2, 0, 1);
    assert OnePass(c, s2, 0, 1) == Done(s2, NoMoreData);
    assert s2.sessions == [Session(2, Streaming, None, None), Session(3, Ready, None, None)];
    assert Find(s1.sessions, 2) == 0;
  }

  lemma DropsFirst(c: Config, s: State)
    requires Sound(c, s) && !s.stopped && s.sessions == [Session(2, Streaming, None, None), Session(3, Ready, None, None)]
    ensures var e := Drop(2, false);
            Leads(c, s, e, s.(sessions := [Session(3, Ready, None, None)], connection := NotInUse)) && Quiet(c, s, e)
  {
    Drops(c, s, 2, false);
    var ss := s.sessions[0 := s.sessions[0].(phase := Terminated)];
    assert Find(s.sessions, 2) == 0 && ss[1].phase != Terminated && Active(ss);
    assert Without(ss, 0) == [Session(3, Ready, None, None)];
  }

  const BEFORE_STAGING: seq<Event> := [Shot(Key(false), 0), Open(1), Get(1, 5, 0, EBML_MAGIC), Drop(1, true)]

  const EVICTED_REST: seq<Event> :=
    [Open(2), Get(1, 1, 0, EBML_MAGIC), Shot(Delta, 1), Shot(Delta, 2), Shot(Key(false), 3), Get(2, 1, 1, EBML_MAGIC)]

  /** The dropped session's last read has the header placed; before the next session sends it, its item
      is evicted. */
  lemma EvictionLosesHeader()
    ensures LosesHeader(TIGHT, BEFORE_STAGING, EVICTED_REST)
  {
    hide Step, Sound, Clean, Enabled, LosesHeader;
    var c, es := TIGHT, EVICTED_REST;
    var s1, s2, s3, s4 := Dropped(c, true);
    var t1 := Connect(s4, 2);
    Opens(c, s4, 2);
    LeadsClean(c, s4, es[0], t1);
    var t2 := ReadsStaging(c, t1);
    LeadsClean(c, t1, es[1], t2);
    var t3, t4, t5 := FilmsHeaderAway(c, t2);
    Reads(c, t5, 0, 1, 1, 3);
    LostBy(c, BEFORE_STAGING, es, [INITIAL, s1, s2, s3, s4], [s4, t1, t2, t3, t4, t5, AfterRead(c, t5, 0, 1, 3)],
           FirstMedia(Step(c, t5, es[5]).out).value);
  }

  /** Three frames push the one item out of the window. */
  lemma FilmsHeaderAway(c: Config, t2: State) returns (t3: State, t4: State, t5: State)
    requires c == TIGHT && Sound(c, t2) && Clean(t2) && !t2.stopped && t2.generator == Generator(1, 0, 0, false)
    requires t2.view.tail == 0 && t2.view.current == 0 && |t2.view.items| == 1
    requires var i := t2.view.items[0]; i.timestamp == 0 && i.ackTimestamp == 0 && i.duration == 1
    ensures Leads(c, t2, Shot(Delta, 1), t3) && Quiet(c, t2, Shot(Delta, 1))
    ensures Leads(c, t3, Shot(Delta, 2), t4) && Quiet(c, t3, Shot(Delta, 2))
    ensures Leads(c, t4, Shot(Key(false), 3), t5) && Quiet(c, t4, Shot(Key(false), 3)) && Clean(t5)
    ensures t5 == t2.(view := t5.view, generator := t5.generator) && t5.view.tail == 1 && t5.view.current == 1 && |t5.view.items| == 3
    ensures NextBoundary(t5.view, 1) == 3 && |t5.view.At(3).data| == 1 && !t5.view.At(3).streamStart
  {
    hide Step, Sound, Clean, Enabled, NextBoundary;
    ShotItem(t2, Delta, 1);
    Films(c, t2, Delta, 1);
    t3 := Filmed(t2, Delta, 1);
    LeadsClean(c, t2, Shot(Delta, 1), t3);
    ShotItem(t3, Delta, 2);
    Films(c, t3, Delta, 2);
    t4 := Filmed(t3, Delta, 2);
    LeadsClean(c, t3, Shot(Delta, 2), t4);
    ShotItem(t4, Key(false), 3);
    FilmsOverTail(c, t4, Key(false), 3);
    var v := View(1, t4.view.items[1..], 1);
    t5 := Filmed(t4, Key(false), 3).(view := Append(v, ItemOf(t4, Key(false), Shot(Key(false), 3).packaged)));
    LeadsClean(c, t4, Shot(Key(false), 3), t5);
    OnlyThird(t5.view);
  }

  lemma OnlyThird(v: View)
    requires v.tail == 1 && |v.items| == 3 && !v.items[0].Boundary() && !v.items[1].Boundary() && StartsSession(v.items[2])
    ensures NextBoundary(v, 1) == 3
  {
    assert NextBoundary(v, 1) == NextBoundary(v, 2) == NextBoundary(v, 3);
  }

  /** A read by the terminated session settles the debt for its successor: the header is placed. */
  lemma ReadsStaging(c: Config, s: State) returns (r: State)
    requires (c == ROOMY || c == TIGHT) && Sound(c, s) && Clean(s) && s.connection == InUse
    requires s.view.tail == 0 && s.view.current == 1 && |s.view.items| == 1
    requires s.view.items[0].fragStart && s.cursor == On(s.view.items[0], 0, 5) && !s.view.items[0].baseStart && s.view.items[0].streamStart
    requires s.sessions == [Session(1, Terminated, Some(0), None), Session(2, Ready, None, None)] && !s.stopped
    ensures var e := Get(1, 1, 0, EBML_MAGIC); Leads(c, s, e, r) && Quiet(c, s, e)
    ensures r == s.(cursor := Idle, eos := EosTracker(false, 0), timed := true, view := r.view, connection := Fine,
                    sessions := [Session(2, Ready, None, None)])
    ensures r.view == View(0, [AddHeader(StripHeader(s.view.items[0]), EBML_MAGIC)], 0)
  {
    hide Fill, CleanCursor, Item.Ok, AddHeader;
    var e := Get(1, 1, 0, EBML_MAGIC);
    StepSound(c, s, e);
    r := Step(c, s, e).state;
    var v := StripCursor(s).view;
    assert v == View(0, [StripHeader(s.view.items[0])], 1);
    assert !s.view.items[0].skip && NextBoundary(v, 0) == 0;
    var s1 := Resume(c, s, 0, EBML_MAGIC);
    assert s1.view == View(0, [AddHeader(StripHeader(s.view.items[0]), EBML_MAGIC)], 0);
    assert Find(s1.sessions, 1) == 0;
    var ss := Without(s.sessions, 0);
    assert ss == [Session(2, Ready, None, None)] && ss[0].phase != Terminated && Active(ss);
  }

  const OVERTAKEN_REST: seq<Event> :=
    [Open(2), Get(1, 1, 0, EBML_MAGIC), Shot(Key(false), 1), Shot(Key(false), 2), Persisted(2, 1, 1), Get(2, 1, 2, EBML_MAGIC)]

  /** Or a persisted acknowledgement for what was not sent yet trims the placed header away. */
  lemma OvertakingAckLosesHeader()
    ensures LosesHeader(ROOMY, BEFORE_STAGING, OVERTAKEN_REST)
  {
    hide Step, Sound, Clean, Enabled, LosesHeader;
    var c, es := ROOMY, OVERTAKEN_REST;
    var s1, s2, s3, s4 := Dropped(c, true);
    var t1 := Connect(s4, 2);
    Opens(c, s4, 2);
    LeadsClean(c, s4, es[0], t1);
    var t2 := ReadsStaging(c, t1);
    LeadsClean(c, t1, es[1], t2);
    ShotItem(t2, Key(false), 1);
    Films(c, t2, Key(false), 1);
    var t3 := Filmed(t2, Key(false), 1);
    LeadsClean(c, t2, es[2], t3);
    ShotItem(t3, Key(false), 2);
    Films(c, t3, Key(false), 2);
    var t4 := Filmed(t3, Key(false), 2);
    LeadsClean(c, t3, es[3], t4);
    var t5 := t4.(view := View(1, t4.view.items[1..], 2), sessions := [Session(2, Ready, None, Some(1))]);
    PersistsUnsent(c, t4);
    LeadsClean(c, t4, es[4], t5);
    assert NextBoundary(t5.view, 2) == 2;
    Reads(c, t5, 0, 1, 2, 2);
    LostBy(c, BEFORE_STAGING, es, [INITIAL, s1, s2, s3, s4], [s4, t1, t2, t3, t4, t5, AfterRead(c, t5, 0, 1, 2)],
           FirstMedia(Step(c, t5, es[5]).out).value);
  }

  lemma PersistsUnsent(c: Config, s: State)
    requires Sound(c, s) && s.view.tail == 0 && s.view.current == 0 && |s.view.items| == 3
    requires s.sessions == [Session(2, Ready, None, None)] && !s.view.items[1].fragEnd
    requires s.view.items[0].ackTimestamp == 0 && s.view.items[2].ackTimestamp == 2
    ensures var e := Persisted(2, 1, 1);
            && Leads(c, s, e, s.(view := View(1, s.view.items[1..], 2), sessions := [Session(2, Ready, None, Some(1))]))
            && Quiet(c, s, e)
  {
    StepSound(c, s, Persisted(2, 1, 1));
    assert Find(s.sessions, 2) == 0 && EarlierReady(s.sessions, 0) && InView(s.view, 1);
  }

  const IDLE_RUN: seq<Event> :=
    [Shot(Key(false), 0), Open(1), Get(1, 1, 0, EBML_MAGIC), Drop(1, false), Open(2), Drop(2, false), Open(3)]

  /** A session that sends one byte and drops, and an idle one that drops, leave the state from which
      clearing the debt would lose the header. */
  lemma ClearedDebtWitness()
    ensures Sound(ROOMY, INITIAL) && Feasible(ROOMY, INITIAL, IDLE_RUN)
    ensures var s := After(ROOMY, INITIAL, IDLE_RUN);
            && Clean(s) && s.connection == InUse && s.cursor.On? && !s.cursor.Spent() && !AtHeader(s)
            && CanSend(ROOMY, s, Find(s.sessions, 3))
  {
    hide Step, Sound, Clean, Enabled;
    var c := ROOMY;
    Opening(c, 0);
    var s1 := Filmed(INITIAL, Key(false), 0);
    var s2 := Connect(s1, 1);
    Opens(c, s1, 1);
    LeadsClean(c, s1, Open(1), s2);
    assert NextBoundary(s2.view, 0) == 0 && Find(s2.sessions, 1) == 0;
    Reads(c, s2, 0, 1, 0, 0);
    var s3 := AfterRead(c, s2, 0, 1, 0);
    var s4 := s3.(sessions := [], connection := InUse);
    Drops(c, s3, 1, false);
    DropsOnly(s3, 1, false);
    var s5 := Connect(s4, 2);
    ComesAndGoes(c, s4, 2);
    var s7 := Connect(s4, 3);
    Opens(c, s4, 3);
    PathFeasible(c, IDLE_RUN, [INITIAL, s1, s2, s3, s4, s5, s4, s7]);
    RunClean(c, INITIAL, IDLE_RUN);
    assert s7.sessions == [Session(3, Ready, None, None)];
  }

  /** An idle session that is opened and dropped leaves an owed rollback as it was. */
  lemma ComesAndGoes(c: Config, s: State, h: nat)
    requires Sound(c, s) && !s.stopped && s.sessions == [] && s.connection == InUse
    ensures Leads(c, s, Open(h), Connect(s, h)) && Leads(c, Connect(s, h), Drop(h, false), s)
  {
    hide Step, Linked, Enabled;
    Opens(c, s, h);
    Drops(c, Connect(s, h), h, false);
    DropsOnly(Connect(s, h), h, false);
  }

  // ---------------------------------------------------------------- a window that spans too much

  const GAP_RUN: seq<Event> := [Shot(Key(false), 0), Shot(Key(false), 1000)]

  /** Two frames with a gap between them: nothing is evicted, and the window spans more than its limit. */
  lemma GapExceedsDuration()
    ensures Sound(ROOMY, INITIAL) && Feasible(ROOMY, INITIAL, GAP_RUN)
    ensures var v := After(ROOMY, INITIAL, GAP_RUN).view; v.items != [] && WindowDuration(v) > ROOMY.limits.bufferDuration
  {
    hide Step, Sound, Clean, Enabled;
    var c := ROOMY;
    Opening(c, 0);
    var s1 := Filmed(INITIAL, Key(false), 0);
    ShotItem(s1, Key(false), 1000);
    Films(c, s1, Key(false), 1000);
    PathFeasible(c, GAP_RUN, [INITIAL, s1, Filmed(s1, Key(false), 1000)]);
  }
}

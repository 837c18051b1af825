/** Exactly when a session mixes timecode bases: at a read that sends from an item of another base than the
    session has carried, in whatever order sessions are read and connections end. */
module MixedBases {
  import opened ViewItems
  import opened ContentView
  import opened Upload
  import opened Recovery
  import opened TimecodeBases

  /** The item the session's next media comes from, if it has one without ending first. */
  function NextItem(v: View, cur: Cursor): Option<Item>
    requires v.Ok()
  {
    if cur.On? && !cur.Spent() then Some(cur.item)
    else
      var n := if cur.Idle? then NextBoundary(v, v.current) else NextIndex(v, v.current);
      if n == v.Head() || (cur.On? && v.At(n).streamStart) then None else Some(v.At(n))
  }

  /** The session is in a state to send media: what Serve asks of its phase, and something to send. */
  predicate WillSend(c: Config, s: State, k: nat)
    requires s.view.Ok()
  {
    && k < |s.sessions| && !SendingEos(s, k) && NextItem(s.view, s.cursor).Some?
    && match s.sessions[k].phase
       case Ready => (s.timed || c.absoluteTimes) && !(s.stopped && Drained(s))
       case Streaming => true
       case Terminating => true
       case _ => false
  }

  /** The first media of the send loop comes from the next item, if there is one. */
  lemma FillSends(c: Config, s: State, k: nat, room: nat)
    requires k < |s.sessions| && Sound(c, s) && Clean(s) && room > 0 && !SendingEos(s, k)
    ensures var m, i := FirstMedia(Fill(c, s, k, room).out), NextItem(s.view, s.cursor);
            (m.Some? <==> i.Some?) && (m.Some? ==> m.value.base == i.value.base)
  {
    hide Fill, OnePass, Clean, Sound;
    FillUnrolled(c, s, k, room);
    PassSends(c, s, k, room);
    var p := OnePass(c, s, k, room);
    if p.Next? {
      FillFirst(c, s, k, room);
      if p.out == [] {
        if SendingEos(p.state, k) {
          EosSendsNoMedia(c, p.state, k, room - p.used);
        } else {
          MediaPass(c, p.state, k, room);
          FillFirst(c, p.state, k, room);
        }
      }
    }
  }

  lemma PassSends(c: Config, s: State, k: nat, room: nat)
    requires k < |s.sessions| && Sound(c, s) && Clean(s) && room > 0 && !SendingEos(s, k)
    ensures var p, i := OnePass(c, s, k, room), NextItem(s.view, s.cursor);
            if p.Done? then i.None?
            else if p.out != [] then p.out[0].Media? && i.Some? && p.out[0].base == i.value.base
            else p.used == 0 && if SendingEos(p.state, k) then i.None?
                 else i.Some? && p.state.cursor.On? && !p.state.cursor.Spent() && p.state.cursor.item.base == i.value.base
  {
    if s.cursor.On? && s.cursor.Spent() {
      NextSends(c, s, k);
    }
  }

  /** Going on from a spent item leads to the next item, unless that starts a stream. */
  lemma NextSends(c: Config, s: State, k: nat)
    requires k < |s.sessions| && Sound(c, s) && Clean(s) && !SendingEos(s, k) && s.cursor.Spent()
    ensures var p, i := SendNext(c, s, k), NextItem(s.view, s.cursor);
            if p.Done? then i.None?
            else p.out == [] && p.used == 0 && if SendingEos(p.state, k) then i.None?
                 else i.Some? && p.state.cursor.On? && !p.state.cursor.Spent() && p.state.cursor.item.base == i.value.base
  {
    hide CleanCursor, NextIndex, Item.Ok;
    var s' := StripCursor(s);
    StripAhead(s);
    hide StripCursor;
    var n := NextIndex(s.view, s.view.current);
    if n < s.view.Head() {
      NotEmpty(s.view, n);
    }
  }

  lemma NotEmpty(v: View, n: nat)
    requires CleanView(v) && v.Holds(n)
    ensures |v.At(n).data| > 0
  {
    assert v.items[n - v.tail].Ok();
  }

  /** Stripping the current item changes nothing ahead. */
  lemma StripAhead(s: State)
    requires s.view.Ok() && Linked(s.view, s.cursor)
    ensures var v := StripCursor(s).view;
            && (forall n: nat :: s.view.current <= n < s.view.Head() ==> v.At(n) == s.view.At(n))
            && NextIndex(v, v.current) == NextIndex(s.view, s.view.current)
  {
    SameNext(s.view, StripCursor(s).view, s.view.current);
  }

  lemma {:induction false} SameNext(v: View, w: View, i: nat)
    requires v.tail <= i <= v.Head() == w.Head() && w.tail <= i
    requires forall k: nat :: i <= k < v.Head() ==> w.At(k) == v.At(k)
    ensures NextIndex(w, i) == NextIndex(v, i)
    decreases v.Head() - i
  {
    if i < v.Head() {
      SameNext(v, w, i + 1);
    }
  }

  /** The first media of a read comes from the next item after the resume, if the session will send. */
  lemma ReadSends(c: Config, s: State, h: nat, room: nat, target: nat, header: Bytes)
    requires Sound(c, s) && s.view.tail <= target <= s.view.Head() && IsHeader(header) && Clean(s) && room > 0
    ensures var s1, m := Resume(c, s, target, header), FirstMedia(Read(c, s, h, room, target, header).out);
            && (m.Some? <==> WillSend(c, s1, Find(s1.sessions, h)))
            && (m.Some? ==> m.value.base == NextItem(s1.view, s1.cursor).value.base)
  {
    hide Fill, Resume, Clean, NextItem;
    ResumeClean(c, s, target, header);
    var s1 := Resume(c, s, target, header);
    var k := Find(s1.sessions, h);
    if k < |s1.sessions| {
      ServeSends(c, s1, k, room);
    }
  }

  lemma ServeSends(c: Config, s: State, k: nat, room: nat)
    requires Sound(c, s) && k < |s.sessions| && Clean(s) && room > 0
    ensures var m := FirstMedia(Serve(c, s, k, room).out);
            && (m.Some? <==> WillSend(c, s, k))
            && (m.Some? ==> m.value.base == NextItem(s.view, s.cursor).value.base)
  {
    hide Fill, CleanView, CleanCursor, NextItem, Linked;
    match s.sessions[k].phase
    case Ready => FillSends(c, SetPhase(s, k, Streaming).(timed := false), k, room);
    case Streaming => FillSends(c, s, k, room);
    case Terminating =>
      if s.eos.send {
        EosSendsNoMedia(c, s, k, room);
      } else {
        FillSends(c, s, k, room);
      }
    case _ =>
  }

  /** The read sends media from another base than the one the session is known to have carried: told
      from the state before it. */
  predicate Mixes(c: Config, s: State, b: Option<nat>, h: nat, target: nat, header: Bytes)
    requires Sound(c, s) && s.view.tail <= target <= s.view.Head()
  {
    var s1 := Resume(c, s, target, header);
    && b.Some? && WillSend(c, s1, Find(s1.sessions, h))
    && NextItem(s1.view, s1.cursor).value.base != b.value
  }

  /** A read keeps to the base the session has carried exactly when its next item is in that base or
      nothing is sent, whichever session it serves and whatever went before. */
  lemma ReadMixes(c: Config, s: State, b: Option<nat>, h: nat, room: nat, target: nat, header: Bytes)
    requires Sound(c, s) && s.view.tail <= target <= s.view.Head() && IsHeader(header) && Based(s) && room > 0
    ensures OneBase(b, Read(c, s, h, room, target, header).out) <==> !Mixes(c, s, b, h, target, header)
    ensures Based(Read(c, s, h, room, target, header).state)
  {
    hide Read, Resume, NextItem, Sound, CleanView, CleanCursor, Chain, Tip, Link;
    ReadSends(c, s, h, room, target, header);
    ReadOneBase(c, s, h, room, target, header);
    FirstDecides(b, Read(c, s, h, room, target, header).out);
  }

  lemma ReadOneBase(c: Config, s: State, h: nat, room: nat, target: nat, header: Bytes)
    requires Sound(c, s) && s.view.tail <= target <= s.view.Head() && IsHeader(header) && Based(s)
    ensures var r := Read(c, s, h, room, target, header); OneBase(None, r.out) && Based(r.state)
  {
    hide Fill, FixUp, CleanView, CleanCursor, Chain, Tip;
    if s.connection == InUse {
      FixUpBased(c, s, target, header);
    }
    var s1 := Resume(c, s, target, header);
    var k := Find(s1.sessions, h);
    if k < |s1.sessions| {
      ServeOneBase(c, s1, k, room);
    }
  }

  lemma ServeOneBase(c: Config, s: State, k: nat, room: nat)
    requires Sound(c, s) && k < |s.sessions| && Based(s)
    ensures var r := Serve(c, s, k, room); OneBase(None, r.out) && Based(r.state)
  {
    hide Fill, CleanView, CleanCursor, Chain, Tip;
    match s.sessions[k].phase
    case Ready => FillOneBase(c, SetPhase(s, k, Streaming).(timed := false), k, room, None);
    case Streaming => FillOneBase(c, s, k, room, None);
    case Terminating => FillOneBase(c, s, k, room, None);
    case _ =>
  }

  /** Chunks in one base are in base b exactly when the first is. */
  lemma {:induction false} FirstDecides(b: Option<nat>, out: seq<Chunk>)
    requires OneBase(None, out)
    ensures OneBase(b, out) <==> !(b.Some? && FirstMedia(out).Some? && FirstMedia(out).value.base != b.value)
  {
    FirstIsCarried(out);
    CarriedIs(b, out);
    CarriedIs(None, out);
  }

  lemma {:induction false} FirstIsCarried(out: seq<Chunk>)
    ensures match FirstMedia(out)
            case Some(m) => Carried(None, out) == Some(m.base) && exists k :: 0 <= k < |out| && out[k] == m
            case None => Carried(None, out) == None
  {
    if out != [] && !out[0].Media? {
      FirstIsCarried(out[1..]);
      if FirstMedia(out).Some? {
        var k :| 0 <= k < |out[1..]| && out[1..][k] == FirstMedia(out).value;
        assert out[k + 1] == FirstMedia(out).value;
      }
    }
  }

  /** No frame of the run leaves a base unmarked, and no trimming cuts the current item off. */
  ghost predicate MarksKept(c: Config, s: State, es: seq<Event>)
    requires Sound(c, s) && Feasible(c, s, es)
    decreases |es|
  {
    es == [] ||
    (StepSound(c, s, es[0]);
     && (es[0].Put? ==> !Unmarks(c, s, es[0].frame, es[0].packaged))
     && (es[0].Persisted? ==> !Overtakes(s, es[0].handle, es[0].ts, es[0].boundary))
     && MarksKept(c, Step(c, s, es[0]).state, es[1..]))
  }

  /** No read of the run mixes bases, given what the run has carried before it. */
  ghost predicate Unmixed(c: Config, s: State, m: map<nat, nat>, es: seq<Event>)
    requires Sound(c, s) && Feasible(c, s, es)
    decreases |es|
  {
    es == [] ||
    (StepSound(c, s, es[0]);
     && (es[0].Get? ==> !Mixes(c, s, Known(m, es[0].handle), es[0].handle, es[0].target, es[0].header))
     && Unmixed(c, Step(c, s, es[0]).state, LearnedFrom(c, s, m, es[0]), es[1..]))
  }

  lemma StepMixes(c: Config, s: State, m: map<nat, nat>, e: Event)
    requires Sound(c, s) && Enabled(s, e) && Based(s)
    requires e.Put? ==> !Unmarks(c, s, e.frame, e.packaged)
    requires e.Persisted? ==> !Overtakes(s, e.handle, e.ts, e.boundary)
    ensures Sound(c, Step(c, s, e).state) && Based(Step(c, s, e).state)
    ensures !e.Get? ==> Step(c, s, e).out == []
    ensures e.Get? ==> (OneBase(Known(m, e.handle), Step(c, s, e).out)
                        <==> !Mixes(c, s, Known(m, e.handle), e.handle, e.target, e.header))
  {
    hide Based, Unmarks, PutFrame, PersistedAck, Overtakes, Read, Linked, Mixes, OneBase;
    StepSound(c, s, e);
    match e
    case Get(h, room, target, header) => ReadMixes(c, s, Known(m, h), h, room, target, header);
    case Put(f, p) => PutKeepsMarkers(c, s, f, p);
    case Received(i) => ReceivedBased(s, i);
    case Persisted(h, ts, b) => PersistedBased(s, h, ts, b);
    case _ => BasedSame(s, Step(c, s, e).state);
  }

  lemma {:induction false} RunMixes(c: Config, s: State, m: map<nat, nat>, es: seq<Event>)
    requires Sound(c, s) && Feasible(c, s, es) && Based(s) && MarksKept(c, s, es)
    ensures LogInBases(Log(c, s, es), m) <==> Unmixed(c, s, m, es)
    decreases |es|
  {
    hide Step, Sound, Based, Unmarks, Overtakes, Mixes, OneBase, LogInBases, Learned;
    if es == [] {
      EmptyLog(m);
    } else {
      var e := es[0];
      StepSound(c, s, e);
      StepMixes(c, s, m, e);
      var r, h := Step(c, s, e), if e.Get? then e.handle else 0;
      var rest := Log(c, r.state, es[1..]);
      RunMixes(c, r.state, LearnedFrom(c, s, m, e), es[1..]);
      NothingLearned(m, h);
      if LogInBases(Tagged(h, r.out) + rest, m) {
        LogUnstep(h, r.out, rest, m);
      }
      if OneBase(Known(m, h), r.out) && LogInBases(rest, Learned(m, h, r.out)) {
        LogStep(h, r.out, rest, m);
      }
      NothingMixes(m, h);
    }
  }

  lemma NothingMixes(m: map<nat, nat>, h: nat)
    ensures OneBase(Known(m, h), [])
  {
  }

  /** In every run from the start that leaves no base unmarked, with sessions read in any order, handles
      used again and any connections ended, each session carries one base exactly when no read sends
      from an item of another base than the session has carried. */
  lemma OneBaseIff(c: Config, es: seq<Event>)
    requires Feasible(c, INITIAL, es) && MarksKept(c, INITIAL, es)
    ensures OneBaseEach(Log(c, INITIAL, es)) <==> Unmixed(c, INITIAL, map[], es)
  {
    RunMixes(c, INITIAL, map[], es);
  }
}

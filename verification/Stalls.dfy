/** When a stopped stream gets stuck: no item a session may begin with, or no stream-start time. Nothing is
    ever sent again then, or not until the connection is reset. */
module Stalls {
  import opened ViewItems
  import opened ContentView
  import opened Upload
  import opened Recovery
  import opened Delivery
  import opened Drain

  // ---------------------------------------------------------------- a new session on a stopped stream

  /** The first read of a new session on a stopped stream at rest: it delivers from where it begins, exactly
      if it can begin; if not it sends nothing, and even ends at once when the rollback goes to the head. */
  lemma BeginsIff(c: Config, s: State, h: nat, room: nat, target: nat, header: Bytes)
    requires Resting(c, s) && s.view.tail <= target <= s.view.Head() && IsHeader(header) && room > 0
    ensures var r := Read(c, Connect(s, h), h, room, target, header);
            if CanBegin(c, s, target) then
              var t := Resume(c, s, target, header);
              && r.status != NoMoreData && AtRest(c, t) && r.state.view.Ok() && r.state.cursor.On?
              && r.state.cursor.offset <= |r.state.cursor.item.data| && Pending(Begun(t)) == MediaBytes(r.out) + Pending(r.state)
            else
              r.out == [] && r.status == if s.connection == InUse && target == s.view.Head() then EndOfStream else NoMoreData
  {
    hide Fill, Pending, NextBoundary, Resting, AtRest, Resume, Read, Begun, Linked, StripCursor;
    if CanBegin(c, s, target) {
      SettledFirst(c, s, h, room, target, header);
      FirstReadDelivers(c, Resume(c, s, target, header), h, room, target, header);
    } else {
      NoneBegun(c, s, h, room, target, header);
    }
  }

  lemma FirstReadDelivers(c: Config, s: State, h: nat, room: nat, target: nat, header: Bytes)
    requires AtRest(c, s) && Clean(s) && !Drained(s) && s.view.tail <= target <= s.view.Head() && room > 0 && (c.absoluteTimes || s.timed)
    ensures var r := Read(c, Connect(s, h), h, room, target, header);
            && r.status != NoMoreData && r.state.view.Ok() && r.state.cursor.On?
            && r.state.cursor.offset <= |r.state.cursor.item.data| && Pending(Begun(s)) == MediaBytes(r.out) + Pending(r.state)
  {
    hide Fill, NextBoundary, Read, Clean, StartsAhead, Concat, Begun;
    FirstReadIsFill(c, s, h, room, target, header);
    FillDelivers(c, Opened(s, h), 0, room);
    SettledIs(Fill(c, Opened(s, h), 0, room));
  }

  lemma NoneBegun(c: Config, s: State, h: nat, room: nat, target: nat, header: Bytes)
    requires Resting(c, s) && s.view.tail <= target <= s.view.Head() && room > 0 && !CanBegin(c, s, target)
    ensures var r := Read(c, Connect(s, h), h, room, target, header);
            r.out == [] && r.status == if s.connection == InUse && target == s.view.Head() then EndOfStream else NoMoreData
  {
    hide Fill, CleanView, CleanCursor, NextBoundary, FixUp, StripCursor, Linked, Serve;
    var s1 := Resume(c, Connect(s, h), target, header);
    assert Find(s1.sessions, h) == 0 && s1.sessions == [Session(h, Ready, None, None)];
    ResumeConnect(c, s, h, target, header);
    PlacedIff(c, s, target, header);
    FixUpDefers(c, s, target, header);
    ServeFindsNone(c, s1, h, room);
  }

  /** A new session with no current item and none to begin with, or without the time it needs. */
  lemma ServeFindsNone(c: Config, s: State, h: nat, room: nat)
    requires Sound(c, s) && s.stopped && s.sessions == [Session(h, Ready, None, None)] && room > 0
    requires (s.cursor.Idle? && NextBoundary(s.view, s.view.current) == s.view.Head()) || (!c.absoluteTimes && !s.timed)
    ensures var r := Serve(c, s, 0, room); r.out == [] && r.status == if Drained(s) then EndOfStream else NoMoreData
  {
    hide Fill, NextBoundary, Linked;
    if s.cursor.Idle? && NextBoundary(s.view, s.view.current) == s.view.Head() {
      FillFindsNone(c, SetPhase(s, 0, Streaming).(timed := false), 0, room);
    }
  }

  lemma FixUpDefers(c: Config, s: State, target: nat, header: Bytes)
    requires Sound(c, s) && s.view.tail <= target <= s.view.Head()
    ensures var f := FixUp(c, s, target, header);
            f.deferred ==>
              && f.state == s.(cursor := Idle, eos := EosTracker(false, 0), view := f.state.view, timed := false)
              && f.state.view == StripCursor(s).view.(current := target) && NextBoundary(f.state.view, target) == s.view.Head()
  {
    var v := StripCursor(s).view;
    SameBoundary(v, v.(current := target), target);
  }

  /** With no current item and none to begin with a run of the send loop finds nothing. */
  lemma FillFindsNone(c: Config, s: State, k: nat, room: nat)
    requires Sound(c, s) && k < |s.sessions| && s.cursor.Idle? && !SendingEos(s, k) && NextBoundary(s.view, s.view.current) == s.view.Head()
    ensures Fill(c, s, k, room) == if room == 0 then Outcome(s, [], Success)
                                   else Outcome(s.(view := s.view.(current := s.view.Head())), [], NoMoreData)
  {
  }

  // ---------------------------------------------------------------- no item to begin with

  predicate NoneToBegin(v: View) { forall i :: 0 <= i < |v.items| ==> !StartsSession(v.items[i]) }

  /** A stopped stream with no current item and none a session may begin with. */
  predicate Dead(s: State) { s.stopped && s.cursor.Idle? && !s.eos.send && NoneToBegin(s.view) }

  lemma NoneFound(v: View, i: nat)
    requires v.tail <= i <= v.Head() && NoneToBegin(v)
    ensures NextBoundary(v, i) == v.Head()
  {
  }

  lemma ServeDead(c: Config, s: State, k: nat, room: nat)
    requires Sound(c, s) && k < |s.sessions| && Dead(s)
    ensures var r := Serve(c, s, k, room);
            r.out == [] && Dead(r.state) && r.state.view.items == s.view.items && r.state.connection == s.connection
  {
    hide Fill;
    NoneFound(s.view, s.view.current);
    FillFindsNone(c, s, k, room);
    FillFindsNone(c, SetPhase(s, k, Streaming).(timed := false), k, room);
  }

  lemma ReadDead(c: Config, s: State, h: nat, room: nat, target: nat, header: Bytes)
    requires Sound(c, s) && s.view.tail <= target <= s.view.Head() && s.stopped
    requires if s.connection == InUse then NoneToBegin(StripCursor(s).view) else Dead(s)
    ensures var r := Read(c, s, h, room, target, header);
            r.out == [] && Dead(r.state) && (s.connection == InUse ==> r.state.connection == InUse)
  {
    hide Serve, NextBoundary, FixUp, StripCursor, NoneToBegin, Linked;
    if s.connection == InUse {
      NoneFound(StripCursor(s).view, target);
      PlacedIff(c, s, target, header);
      FixUpDefers(c, s, target, header);
      NoneMoved(StripCursor(s).view, target);
    }
    var s1 := Resume(c, s, target, header);
    var k := Find(s1.sessions, h);
    if k < |s1.sessions| {
      ServeDead(c, s1, k, room);
    }
  }

  lemma NoneMoved(v: View, i: nat)
    requires NoneToBegin(v)
    ensures NoneToBegin(v.(current := i))
  {
  }

  /** No call of any kind wakes it up: puts come to nothing, trimming only takes items away. */
  lemma StepDead(c: Config, s: State, e: Event)
    requires Sound(c, s) && Enabled(s, e) && Dead(s)
    ensures Dead(Step(c, s, e).state) && Step(c, s, e).out == []
  {
    hide Read, PersistedAck, TrimUpTo, Stored;
    if e.Get? {
      ReadDead(c, s, e.handle, e.room, e.target, e.header);
    }
  }

  lemma {:induction false} RunDead(c: Config, s: State, es: seq<Event>)
    requires Sound(c, s) && Feasible(c, s, es) && Dead(s)
    ensures Log(c, s, es) == [] && Dead(After(c, s, es))
    decreases |es|
  {
    hide Step, Dead, Sound, Enabled;
    if es != [] {
      StepSound(c, s, es[0]);
      StepDead(c, s, es[0]);
      RunDead(c, Step(c, s, es[0]).state, es[1..]);
    }
  }

  /** A stopped stream that owes a rollback with no item left a session may begin with is stuck: from the
      first read on nothing is ever sent again, whatever is called, and whatever is still in the view. */
  lemma StuckForever(c: Config, s: State, es: seq<Event>)
    requires Sound(c, s) && s.stopped && s.connection == InUse && NoneToBegin(StripCursor(s).view)
    requires Feasible(c, s, es) && es != [] && es[0].Get?
    ensures Log(c, s, es) == [] && Dead(After(c, s, es))
  {
    hide Read, StripCursor, NoneToBegin, Dead;
    var e := es[0];
    StepSound(c, s, e);
    ReadDead(c, s, e.handle, e.room, e.target, e.header);
    RunDead(c, Step(c, s, e).state, es[1..]);
  }

  /** And that is exactly when no rollback, wherever it goes, lets a new session begin. */
  lemma StuckIff(c: Config, s: State)
    requires Resting(c, s) && s.connection == InUse
    ensures NoneToBegin(StripCursor(s).view) <==> forall target :: s.view.tail <= target <= s.view.Head() ==> !CanBegin(c, s, target)
  {
    hide NextBoundary, StripCursor, Clean, Linked;
    var v := StripCursor(s).view;
    if NoneToBegin(v) {
      forall target | s.view.tail <= target <= s.view.Head()
        ensures !CanBegin(c, s, target)
      {
        NoneFound(v, target);
      }
    } else {
      var i :| 0 <= i < |v.items| && StartsSession(v.items[i]);
      FoundFrom(v, v.tail + i);
      assert CanBegin(c, s, s.view.tail);
    }
  }

  lemma FoundFrom(v: View, x: nat)
    requires v.Holds(x) && StartsSession(v.At(x))
    ensures NextBoundary(v, v.tail) < v.Head()
  {
  }

  // ---------------------------------------------------------------- no stream-start time

  /** A stopped stream with something left, no rollback owed, no stream-start time, and only new sessions. */
  predicate Untimed(s: State) {
    && s.stopped && s.connection != InUse && !s.timed && !Drained(s)
    && forall j :: 0 <= j < |s.sessions| ==> s.sessions[j].phase == Ready
  }

  lemma ReadUntimed(c: Config, s: State, h: nat, room: nat, target: nat, header: Bytes)
    requires Sound(c, s) && s.view.tail <= target <= s.view.Head() && Untimed(s) && !c.absoluteTimes
    ensures var r := Read(c, s, h, room, target, header);
            r.out == [] && r.state == s.(connection := Fine)
  {
    hide Fill, Linked;
  }

  /** With relative fragment times a session needs a stream-start time, and nothing on a stopped stream
      supplies one: new sessions then get nothing, however many are opened and however often they ask. */
  lemma {:induction false} RelativeTimesStall(c: Config, s: State, es: seq<Event>)
    requires Sound(c, s) && Feasible(c, s, es) && Untimed(s) && !c.absoluteTimes
    requires forall i :: 0 <= i < |es| ==> es[i].Open? || es[i].Get?
    ensures Log(c, s, es) == [] && Untimed(After(c, s, es)) && After(c, s, es).view == s.view
    decreases |es|
  {
    hide Read, Drained, Linked;
    if es != [] {
      var e := es[0];
      StepSound(c, s, e);
      if e.Get? {
        ReadUntimed(c, s, e.handle, e.room, e.target, e.header);
        FineDrained(s);
      } else {
        OpenDrained(s, e.handle);
      }
      RelativeTimesStall(c, Step(c, s, e).state, es[1..]);
    }
  }

  lemma FineDrained(s: State)
    ensures Drained(s.(connection := Fine)) == Drained(s)
  {
  }

  lemma OpenDrained(s: State, h: nat)
    ensures Drained(Connect(s, h)) == Drained(s)
  {
  }

  // ---------------------------------------------------------------- the end-of-stream tag

  /** Without acknowledgements a session that goes on to a stream start is retired by that very call: of its
      end-of-stream tag it sends what fits, all of it exactly if there is room for it, and the rest is never
      sent. After an end of fragment there is no tag to send. */
  lemma TagSentIff(c: Config, s: State, h: nat, room: nat, target: nat, header: Bytes)
    requires Sound(c, s) && Clean(s) && s.connection == Fine && |s.sessions| == 1 && s.sessions[0].handle == h
    requires !c.waitForAck && room > 0 && s.view.tail <= target <= s.view.Head() && s.sessions[0].phase == Streaming
    requires s.cursor.Spent() && s.view.current < s.view.Head() && s.view.At(s.view.current).streamStart
    ensures var r := Read(c, s, h, room, target, header);
            && r.state.sessions == [] && r.state.cursor.On? && AtHeader(r.state)
            && (if s.cursor.item.fragEnd || c.eos == [] then r.out == []
                else r.out == [Eos(c.eos[..Min(room, |c.eos|)])] && (r.out == [Eos(c.eos)] <==> room >= |c.eos|))
  {
    hide Fill, SendNext, Clean, Linked;
    assert Find(s.sessions, h) == 0;
    NoneToHand(c, Fill(c, s, 0, room).state);
    TagFilled(c, s, room);
    SettledIs(Fill(c, s, 0, room));
    RetiredNone(Fill(c, s, 0, room).state);
    WholeTag(c.eos, room);
  }

  lemma RetiredNone(s: State)
    requires |s.sessions| == 1 && s.sessions[0].phase == Terminated
    ensures var r := Retire(s, 0); r.sessions == [] && r.cursor == s.cursor
  {
    assert Without(s.sessions, 0) == [];
  }

  lemma WholeTag(eos: Bytes, room: nat)
    ensures [Eos(eos[..Min(room, |eos|)])] == [Eos(eos)] <==> room >= |eos|
  {
    assert room >= |eos| ==> eos[..|eos|] == eos;
    assert [Eos(eos[..Min(room, |eos|)])][0].bytes == eos[..Min(room, |eos|)] && [Eos(eos)][0].bytes == eos;
  }

  lemma TagFilled(c: Config, s: State, room: nat)
    requires Sound(c, s) && Clean(s) && |s.sessions| == 1 && !c.waitForAck && s.sessions[0].phase == Streaming && room > 0
    requires s.cursor.Spent() && s.view.current < s.view.Head() && s.view.At(s.view.current).streamStart
    ensures var r := Fill(c, s, 0, room);
            && |r.state.sessions| == 1 && r.state.sessions[0].phase == Terminated && AtHeader(r.state)
            && r.out == if s.cursor.item.fragEnd || c.eos == [] then [] else [Eos(c.eos[..Min(room, |c.eos|)])]
  {
    hide Fill, SendNext, CleanView, CleanCursor, Linked;
    GoesOnToStart(c, s);
    var s' := SendNext(c, s, 0).state;
    FillUnrolled(c, s, 0, room);
    TagFills(c, s', room);
    assert [] + Fill(c, s', 0, room).out == Fill(c, s', 0, room).out;
  }

  lemma GoesOnToStart(c: Config, s: State)
    requires Sound(c, s) && Clean(s) && |s.sessions| == 1 && !c.waitForAck && s.sessions[0].phase == Streaming
    requires s.cursor.Spent() && s.view.current < s.view.Head() && s.view.At(s.view.current).streamStart
    ensures var p := SendNext(c, s, 0);
            && p == Next(p.state, [], 0) && p.state.sessions[0].phase == Terminated && AtHeader(p.state)
            && p.state.eos == EosTracker(true, if s.cursor.item.fragEnd then |c.eos| else 0)
  {
    hide Pending, StartsAhead, StripCursor, CleanView, CleanCursor, Linked;
    StripStays(s);
    StripNext(s);
  }

  lemma StripNext(s: State)
    requires s.view.Ok() && Linked(s.view, s.cursor) && s.view.current < s.view.Head()
    ensures StripCursor(s).view.At(s.view.current) == s.view.At(s.view.current)
  {
  }

  /** A terminated session's run of the send loop sends what fits of the tag. */
  lemma TagFills(c: Config, s: State, room: nat)
    requires Sound(c, s) && |s.sessions| == 1 && s.sessions[0].phase == Terminated && s.eos.send && !c.waitForAck && room > 0
    ensures var r, n := Fill(c, s, 0, room), Min(room, |c.eos| - s.eos.offset);
            && r.state.sessions == s.sessions && r.state.cursor == s.cursor
            && r.out == if n == 0 then [] else [Eos(c.eos[s.eos.offset..s.eos.offset + n])]
  {
    hide Fill;
    FillUnrolled(c, s, 0, room);
    if s.eos.offset < |c.eos| {
      var p := OnePass(c, s, 0, room);
      FillUnrolled(c, p.state, 0, room - p.used);
    }
  }
}

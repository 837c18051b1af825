/** How a session ends: which tag it sends, what it waits for, and which fragment that is. */
module SessionEnd {
  import opened ViewItems
  import opened ContentView
  import opened Upload
  import opened Recovery
  import opened TimecodeBases
  import opened MixedBases
  import opened Handover

  // ---------------------------------------------------------------- the end-of-stream tag

  /** The session has its last acknowledgement already, or the stream does not wait for any. */
  predicate NothingToAwait(c: Config, u: Session) {
    !c.waitForAck || (u.lastPersisted.Some? && u.lastPersisted == u.lastFragment)
  }

  /** A session that sends its tag sends what fits of it; with room left behind it the session ends, at once if there is
      nothing to await, and else to wait for its last acknowledgement. */
  lemma {:induction false} TagEnds(c: Config, s: State, k: nat, room: nat)
    requires Sound(c, s) && k < |s.sessions| && SendsEos(s.sessions[k].phase) && s.eos.send && room > 0
    ensures var r, rest := Fill(c, s, k, room), |c.eos| - s.eos.offset;
            && r.state.view == s.view && r.state.cursor == s.cursor && |r.state.sessions| == |s.sessions|
            && r.out == (if rest == 0 then [] else [Eos(c.eos[s.eos.offset..s.eos.offset + Min(room, rest)])])
            && if room <= rest then
                 r.status == Success && r.state.sessions == s.sessions && r.state.eos == EosTracker(true, s.eos.offset + room)
               else
                 && r.state.eos == EosTracker(false, 0)
                 && r.state.sessions[k] == s.sessions[k].(phase := if NothingToAwait(c, s.sessions[k]) then Terminated else AwaitingAck)
                 && r.status == if NothingToAwait(c, s.sessions[k]) then EndOfStream else AwaitingPersistedAck
  {
    hide Fill, Linked;
    FillUnrolled(c, s, k, room);
    if s.eos.offset < |c.eos| {
      var p := OnePass(c, s, k, room);
      FillUnrolled(c, p.state, k, room - p.used);
    }
  }

  /** A session ends when its last item is spent and the next one starts another session, or there is none and the
      stream is stopped. */
  predicate AtItsEnd(s: State) {
    && s.cursor.Spent() && s.view.Ok()
    && var n := NextIndex(s.view, s.view.current);
       if n < s.view.Head() then s.view.At(n).streamStart else s.stopped
  }

  /** Then it sends the tag from its beginning, unless it has ended with an end of fragment. */
  lemma {:induction false} EndsWithTag(c: Config, s: State, k: nat, room: nat)
    requires Sound(c, s) && k < |s.sessions| && s.sessions[k].phase == Streaming && AtItsEnd(s) && room > 0
    ensures Fill(c, s, k, room).out == if s.cursor.item.fragEnd || c.eos == [] then [] else [Eos(c.eos[..Min(room, |c.eos|)])]
  {
    hide Fill, StripCursor, NextIndex, Linked;
    StripAhead(s);
    FillUnrolled(c, s, k, room);
    var p := OnePass(c, s, k, room);
    TagEnds(c, p.state, k, room);
    assert [] + Fill(c, p.state, k, room).out == Fill(c, p.state, k, room).out;
  }

  // ---------------------------------------------------------------- the last fragment

  /** The time of the last fragment begun, each at the beginning of its first item. */
  function LastBegun(last: Option<nat>, out: seq<Chunk>): Option<nat>
    decreases |out|
  {
    if out == [] then last
    else
      var ch := out[0];
      LastBegun(if ch.Media? && (ch.item.fragStart || ch.item.streamStart) then Some(ch.item.ackTimestamp) else last, out[1..])
  }

  lemma {:induction false} LastBegunConcat(last: Option<nat>, a: seq<Chunk>, b: seq<Chunk>)
    ensures LastBegun(last, a + b) == LastBegun(LastBegun(last, a), b)
    decreases |a|
  {
    if a == [] {
      assert a + b == b;
    } else {
      assert (a + b)[1..] == a[1..] + b;
      var ch := a[0];
      LastBegunConcat(if ch.Media? && (ch.item.fragStart || ch.item.streamStart) then Some(ch.item.ackTimestamp) else last, a[1..], b);
    }
  }

  /** What a session waits for in the end is the acknowledgement of the last fragment it sent anything of. */
  lemma {:induction false} FillBegins(c: Config, s: State, k: nat, room: nat)
    requires Sound(c, s) && k < |s.sessions|
    ensures var r := Fill(c, s, k, room);
            && |r.state.sessions| == |s.sessions| && r.state.sessions[k].handle == s.sessions[k].handle
            && r.state.sessions[k].lastFragment == LastBegun(s.sessions[k].lastFragment, r.out)
            && r.state.sessions[k].lastPersisted == s.sessions[k].lastPersisted
    decreases room, s.view.Head() - s.view.current, if SendingEos(s, k) then 0 else 1
  {
    hide Fill, OnePass, Sound;
    FillUnrolled(c, s, k, room);
    if room > 0 {
      PassBegins(c, s, k, room);
      var p := OnePass(c, s, k, room);
      if p.Next? {
        FillBegins(c, p.state, k, room - p.used);
        LastBegunConcat(s.sessions[k].lastFragment, p.out, Fill(c, p.state, k, room - p.used).out);
      }
    }
  }

  lemma {:induction false} PassBegins(c: Config, s: State, k: nat, room: nat)
    requires Sound(c, s) && k < |s.sessions| && room > 0
    ensures var p, u := OnePass(c, s, k, room), s.sessions[k];
            && |p.state.sessions| == |s.sessions| && p.state.sessions[k].handle == u.handle && p.state.sessions[k].lastPersisted == u.lastPersisted
            && p.state.sessions[k].lastFragment == LastBegun(u.lastFragment, if p.Next? then p.out else [])
  {
    hide StripCursor, Linked, NextIndex;
    var p := OnePass(c, s, k, room);
    if p.Next? && p.out != [] {
      assert p.out[1..] == [];
    }
  }

  /** Over one read: as long as the session is in the queue. */
  lemma {:induction false} ReadBegins(c: Config, s: State, h: nat, room: nat, target: nat, header: Bytes)
    requires Sound(c, s) && s.view.tail <= target <= s.view.Head() && Find(s.sessions, h) < |s.sessions|
    ensures var r, k := Read(c, s, h, room, target, header), Find(s.sessions, h);
            |r.state.sessions| == |s.sessions| ==>
              && r.state.sessions[k].lastFragment == LastBegun(s.sessions[k].lastFragment, r.out)
              && r.state.sessions[k].lastPersisted == s.sessions[k].lastPersisted
  {
    hide Serve, Resume, Hand, Retire, Linked;
    var s1 := Resume(c, s, target, header);
    var k := Find(s1.sessions, h);
    ServeBegins(c, s1, k, room);
    var s2 := Serve(c, s1, k, room).state;
    RetireEffect(c, s2, k);
    HandKeepsReader(c, s2, k);
  }

  lemma {:induction false} ServeBegins(c: Config, s: State, k: nat, room: nat)
    requires Sound(c, s) && k < |s.sessions|
    ensures var r := Serve(c, s, k, room);
            && r.state.sessions[k].lastFragment == LastBegun(s.sessions[k].lastFragment, r.out)
            && r.state.sessions[k].lastPersisted == s.sessions[k].lastPersisted
  {
    hide Fill, Linked;
    FillBegins(c, s, k, room);
    FillBegins(c, SetPhase(s, k, Streaming).(timed := false), k, room);
  }

  lemma HandKeepsReader(c: Config, s: State, k: nat)
    requires k < |s.sessions|
    ensures Hand(c, s, k).sessions[k].lastFragment == s.sessions[k].lastFragment
    ensures Hand(c, s, k).sessions[k].lastPersisted == s.sessions[k].lastPersisted
  {
  }

  // ---------------------------------------------------------------- what a read reports

  function Size(out: seq<Chunk>): nat { if out == [] then 0 else |out[0].bytes| + Size(out[1..]) }

  lemma {:induction false} SizeConcat(a: seq<Chunk>, b: seq<Chunk>)
    ensures Size(a + b) == Size(a) + Size(b)
  {
    if a == [] {
      assert a + b == b;
    } else {
      assert (a + b)[1..] == a[1..] + b;
      SizeConcat(a[1..], b);
    }
  }

  /** The send loop fills the buffer, and says so exactly then. */
  lemma {:induction false} FillFills(c: Config, s: State, k: nat, room: nat)
    requires Sound(c, s) && k < |s.sessions|
    ensures var r := Fill(c, s, k, room); Size(r.out) <= room && (r.status == Success <==> Size(r.out) == room)
    decreases room, s.view.Head() - s.view.current, if SendingEos(s, k) then 0 else 1
  {
    hide Fill, OnePass, Sound;
    FillUnrolled(c, s, k, room);
    if room > 0 {
      PassFills(c, s, k, room);
      var p := OnePass(c, s, k, room);
      if p.Next? {
        FillFills(c, p.state, k, room - p.used);
        SizeConcat(p.out, Fill(c, p.state, k, room - p.used).out);
      }
    }
  }

  lemma {:induction false} PassFills(c: Config, s: State, k: nat, room: nat)
    requires Sound(c, s) && k < |s.sessions| && room > 0
    ensures var p := OnePass(c, s, k, room);
            (p.Next? ==> Size(p.out) == p.used) && (p.Done? ==> p.status != Success)
  {
    hide StripCursor, Linked, NextIndex;
    var p := OnePass(c, s, k, room);
    if p.Next? && p.out != [] {
      assert p.out[1..] == [];
    }
  }

  /** A read of a session that sends no more: it is over, waits for its last acknowledgement, or has got that. */
  lemma {:induction false} ReadReports(c: Config, s: State, h: nat, room: nat, target: nat, header: Bytes)
    requires Sound(c, s) && s.view.tail <= target <= s.view.Head()
    ensures var r, k := Read(c, s, h, room, target, header), Find(s.sessions, h);
            if k == |s.sessions| then r.out == [] && r.status == HandleAborted
            else
              var u := s.sessions[k];
              && (u.phase == Terminated || u.phase == AckReceived ==> r.out == [] && r.status == EndOfStream)
              && (u.phase == AwaitingAck ==>
                    r.out == [] && r.status == if u.lastPersisted == u.lastFragment then EndOfStream else AwaitingPersistedAck)
              && (u.phase == Streaming || u.phase == Terminating || (u.phase == Ready && room > 0) ==>
                    Size(r.out) <= room && (r.status == Success <==> Size(r.out) == room))
  {
    hide Fill, Hand, Retire, FixUp, Linked;
    var s1 := Resume(c, s, target, header);
    var k := Find(s1.sessions, h);
    if k < |s1.sessions| {
      FillFills(c, s1, k, room);
      FillFills(c, SetPhase(s1, k, Streaming).(timed := false), k, room);
    }
  }

  /** When it says that there is no more, all that a session may send has been sent, and a stopped stream has nothing
      a session may begin with. */
  lemma {:induction false} NoMoreIsAll(c: Config, s: State, k: nat, room: nat)
    requires Sound(c, s) && k < |s.sessions|
    ensures var r := Fill(c, s, k, room);
            r.status == NoMoreData ==>
              && r.state.view.current == r.state.view.Head() && (r.state.cursor.On? ==> r.state.cursor.Spent())
              && (s.stopped ==> r.state.cursor.Idle?)
    decreases room, s.view.Head() - s.view.current, if SendingEos(s, k) then 0 else 1
  {
    hide Fill, OnePass, Sound;
    FillUnrolled(c, s, k, room);
    if room > 0 {
      PassNoMore(c, s, k, room);
      var p := OnePass(c, s, k, room);
      if p.Next? {
        NoMoreIsAll(c, p.state, k, room - p.used);
      }
    }
  }

  lemma {:induction false} PassNoMore(c: Config, s: State, k: nat, room: nat)
    requires Sound(c, s) && k < |s.sessions| && room > 0
    ensures var p := OnePass(c, s, k, room);
            && p.state.stopped == s.stopped
            && (p.Done? && p.status == NoMoreData ==>
                  && p.state.view.current == p.state.view.Head() && (p.state.cursor.On? ==> p.state.cursor.Spent())
                  && (s.stopped ==> p.state.cursor.Idle?))
  {
    hide StripCursor, Linked, NextIndex, NextBoundary;
  }
}

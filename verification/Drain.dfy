/** Draining a stopped stream: successor sessions deliver what is ahead of the send pointer. A session that
    ends in front of a stream start is dropped there before its acknowledgement, or retired if the stream
    does not wait for acknowledgements, and a new one takes over. */
module Drain {
  import opened ViewItems
  import opened ContentView
  import opened Upload
  import opened Recovery
  import opened Delivery

  // ---------------------------------------------------------------- the end of a session

  /** The drop of the only used session arms the replay exactly when the stream is not stopped in
      front of a base boundary: live or stopped, whatever the session still waits for. */
  lemma DropArmsReplay(s: State, h: nat, alive: bool)
    requires |s.sessions| == 1 && s.sessions[0].handle == h && Used(s.sessions[0].phase)
    ensures Terminate(s, Some(h), alive).connection == (if Parked(s) then NotInUse else InUse)
    ensures Terminate(s, Some(h), false) == s.(sessions := [], connection := if Parked(s) then NotInUse else InUse)
  {
  }

  /** The stream once the session is gone: dropped, or retired already. */
  function Rested(c: Config, s: State, h: nat): State { if c.waitForAck then Terminate(s, Some(h), false) else s }

  /** Both ways a replay is owed afterwards exactly when the session did not end at a base boundary. */
  lemma RestsThere(c: Config, s: State, h: nat)
    requires Over(c, s, h) && AtHeader(s)
    ensures Rested(c, s, h) == s.(sessions := [], connection := if s.cursor.item.baseStart then NotInUse else InUse)
  {
    hide Terminate, Linked, CleanView;
    if c.waitForAck {
      DropArmsReplay(s, h, false);
    } else {
      assert s.(sessions := []) == s;
    }
  }

  lemma EndedEmpty(s: State)
    requires s.view.Ok() && s.cursor.On? && Ended(s) && !AtHeader(s)
    ensures Pending(s) == [] && StartsAhead(s) == 0 && s.cursor.Spent() && s.view.current == s.view.Head()
    ensures !s.eos.send ==> Drained(s)
  {
  }

  // ---------------------------------------------------------------- base boundaries ahead

  /** Draining a stopped stream with only base boundaries ahead: everything pending is delivered once and
      in order, by one session for what is left of the first base and one for each base after it. With
      relative fragment times a session needs a stream-start time, and only the first can have one: the
      drain then comes to its end exactly if there is one and no boundary is ahead. */
  method DrainStopped(c: Config, s: State, first: nat, rooms: nat -> nat, header: Bytes)
      returns (r: State, out: seq<Chunk>, served: nat, done: bool)
    requires AtRest(c, s) && Clean(s) && !Drained(s) && BoundariesAhead(Begun(s).view) && forall i :: rooms(i) > 0
    ensures done <==> c.absoluteTimes || (s.timed && StartsAhead(Begun(s)) == 0)
    ensures done ==> Sound(c, r) && Drained(r) && r.connection == Fine
    ensures done ==> MediaBytes(out) == Pending(Begun(s)) && served == 1 + StartsAhead(Begun(s))
    ensures !done ==> AtRest(c, r) && !Drained(r) && !r.timed && served == (if s.timed then 1 else 0)
    ensures !done ==> Pending(Begun(s)) == MediaBytes(out) + Pending(Begun(r))
  {
    hide Fill, Read, Pending, StartsAhead, Terminate, NextBoundary, LooseHeaders, Drained, CleanView, CleanCursor,
         Completed, Rested, BoundariesAhead, Begun;
    r, out, served, done := s, [], 0, false;
    var calls := 0;
    while c.absoluteTimes || r.timed
      invariant AtRest(c, r) && Clean(r) && !Drained(r) && BoundariesAhead(Begun(r).view)
      invariant Pending(Begun(s)) == MediaBytes(out) + Pending(Begun(r))
      invariant StartsAhead(Begun(s)) == served + StartsAhead(Begun(r))
      invariant served == 0 ==> r == s
      invariant served > 0 ==> !r.timed && (!c.absoluteTimes ==> served == 1 && s.timed)
      decreases StartsAhead(Begun(r))
    {
      var ended, sent, more := SendSession(c, r, first + served, rooms, calls, header);
      MediaBytesConcat(out, sent);
      CompletedStops(c, r, first + served, ended, sent);
      calls, out, served := more, out + sent, served + 1;
      if !AtHeader(ended) {
        r, done := ended, true;
        break;
      }
      r := Rested(c, ended, first + served - 1);
    }
  }

  /** Behind a session with only base boundaries ahead: the end, or the stream at rest before the next. */
  lemma CompletedStops(c: Config, s: State, h: nat, r: State, out: seq<Chunk>)
    requires AtRest(c, s) && BoundariesAhead(Begun(s).view) && Completed(c, s, h, r, out)
    ensures r.view.Ok() && r.cursor.On? && r.cursor.offset <= |r.cursor.item.data|
    ensures !AtHeader(r) ==> && Sound(c, r) && Drained(r) && r.connection == Fine
                             && Pending(Begun(s)) == MediaBytes(out) && StartsAhead(Begun(s)) == 0
    ensures AtHeader(r) ==>
              var t := Rested(c, r, h);
              && AtRest(c, t) && Clean(t) && !Drained(t) && !t.timed && BoundariesAhead(Begun(t).view)
              && Pending(Begun(s)) == MediaBytes(out) + Pending(Begun(t)) && StartsAhead(Begun(s)) == 1 + StartsAhead(Begun(t))
  {
    hide Pending, StartsAhead, Terminate, NextBoundary, LooseHeaders, CleanView, CleanCursor, Begun, Rested, Onward;
    if AtHeader(r) {
      RestsThere(c, r, h);
      RestsBegun(c, r, h);
    } else {
      EndedEmpty(r);
    }
  }

  /** In front of a boundary the next session begins where this one ended. */
  lemma RestsBegun(c: Config, s: State, h: nat)
    requires Over(c, s, h) && AtHeader(s) && s.cursor.item.baseStart
    ensures var r := s.(sessions := [], connection := NotInUse);
            && AtRest(c, r) && Clean(r) && !Drained(r)
            && Begun(r) == r && Pending(r) == Pending(s) && StartsAhead(r) == StartsAhead(s)
  {
    hide Concat, Starts, CleanView;
  }

  // ---------------------------------------------------------------- from any state

  /** A stopped stream with no session and something to do. */
  ghost predicate Resting(c: Config, s: State) {
    && Sound(c, s) && Clean(s) && s.stopped && s.sessions == [] && (s.connection != InUse ==> !Drained(s))
  }

  /** A new session can begin: the rollback that is owed finds an item to begin with from `target` on, or
      with none owed there is one and, for relative fragment times, a stream-start time too. */
  predicate CanBegin(c: Config, s: State, target: nat) {
    && Sound(c, s) && s.view.tail <= target <= s.view.Head()
    && if s.connection == InUse then NextBoundary(StripCursor(s).view, target) < s.view.Head()
       else (c.absoluteTimes || s.timed) && (s.cursor.Idle? ==> NextBoundary(s.view, s.view.current) < s.view.Head())
  }

  /** Settling the debt before the session is opened is the same as settling it in its first read. */
  lemma SettledFirst(c: Config, s: State, h: nat, room: nat, target: nat, header: Bytes)
    requires Resting(c, s) && CanBegin(c, s, target) && IsHeader(header)
    ensures var t := Resume(c, s, target, header);
            && AtRest(c, t) && Clean(t) && !Drained(t) && (c.absoluteTimes || t.timed)
            && t.view.tail == s.view.tail && t.view.Head() == s.view.Head()
            && Read(c, Connect(s, h), h, room, target, header) == Read(c, Connect(t, h), h, room, target, header)
  {
    hide Fill, Serve, Resume, NextBoundary, CleanView, CleanCursor, FixUp;
    ResumeClean(c, s, target, header);
    ResumeConnect(c, s, h, target, header);
    ResumeRests(c, s, target, header);
    var t := Resume(c, s, target, header);
    ResumeFine(c, Connect(t, h), target, header);
  }

  lemma ResumeFine(c: Config, s: State, target: nat, header: Bytes)
    requires Sound(c, s) && s.view.tail <= target <= s.view.Head() && s.connection == Fine
    ensures Resume(c, s, target, header) == s
  {
  }

  lemma ResumeConnect(c: Config, s: State, h: nat, target: nat, header: Bytes)
    requires Sound(c, s) && s.view.tail <= target <= s.view.Head()
    ensures Resume(c, Connect(s, h), target, header) == Connect(Resume(c, s, target, header), h)
  {
    hide NextBoundary, AddHeader, StripCursor, Linked;
    StripConnect(s, h);
  }

  lemma StripConnect(s: State, h: nat)
    requires s.view.Ok() && Linked(s.view, s.cursor)
    ensures StripCursor(Connect(s, h)).view == StripCursor(s).view
  {
  }

  lemma ResumeRests(c: Config, s: State, target: nat, header: Bytes)
    requires Resting(c, s) && CanBegin(c, s, target)
    ensures var t := Resume(c, s, target, header);
            && AtRest(c, t) && !Drained(t) && t.connection == Fine && (c.absoluteTimes || t.timed)
            && t.view.tail == s.view.tail && t.view.Head() == s.view.Head()
  {
    hide NextBoundary, CleanView, CleanCursor, FixUp;
    PlacedIff(c, s, target, header);
    FixUpPlaces(c, s, target, header);
  }

  lemma PlacedIff(c: Config, s: State, target: nat, header: Bytes)
    requires Sound(c, s) && s.view.tail <= target <= s.view.Head()
    ensures FixUp(c, s, target, header).deferred <==> NextBoundary(StripCursor(s).view, target) == s.view.Head()
  {
    hide NextBoundary, AddHeader;
  }

  /** Where a fix-up that is not deferred puts its header. */
  lemma FixUpPlaces(c: Config, s: State, target: nat, header: Bytes)
    requires Sound(c, s) && s.view.tail <= target <= s.view.Head()
    ensures var f, v := FixUp(c, s, target, header), StripCursor(s).view;
            var w := f.state.view;
            var b := w.current;
            !f.deferred ==>
              && f.state == s.(cursor := Idle, eos := EosTracker(false, 0), view := w, timed := true)
              && v.Holds(b) && w.Holds(b) && NextBoundary(w, b) == b && w.tail == v.tail
              && w.items == if v.At(b).streamStart then v.items else v.items[b - v.tail := AddHeader(v.At(b), header)]
  {
    var v := StripCursor(s).view;
    var b := NextBoundary(v, target);
    if b < v.Head() {
      var w := FixUp(c, s, target, header).state.view;
      assert StartsSession(w.At(b));
    }
  }

  /** Settling a debt takes the header off the item the last session waited in front of; the one it places
      is the next session's own. */
  lemma ResumeSpares(c: Config, s: State, target: nat, header: Bytes)
    requires Resting(c, s) && CanBegin(c, s, target)
    requires AtRest(c, Resume(c, s, target, header))
    ensures var b := Begun(Resume(c, s, target, header));
            LooseHeaders(b.view.items) - (if OnLoose(b) then 1 else 0) <= Loops(s)
  {
    hide LooseHeaders, StripCursor, Take, Linked, CleanView, CleanCursor, FixUp, NextBoundary, Loose;
    var t := Resume(c, s, target, header);
    if t.cursor.Idle? {
      TakeSpares(t, NextBoundary(t.view, t.view.current));
    }
    if s.connection == InUse {
      PlacedIff(c, s, target, header);
      FixUpPlaces(c, s, target, header);
      PlacedSpares(c, s, target, header);
    }
  }

  lemma PlacedSpares(c: Config, s: State, target: nat, header: Bytes)
    requires Sound(c, s) && Clean(s) && s.view.tail <= target <= s.view.Head() && !FixUp(c, s, target, header).deferred
    ensures var w := FixUp(c, s, target, header).state.view;
            && w.Holds(w.current)
            && LooseHeaders(w.items) - (if Loose(w.At(w.current)) then 1 else 0)
               <= LooseHeaders(s.view.items) - (if OnLoose(s) then 1 else 0)
  {
    hide LooseHeaders, StripCursor, Linked, AddHeader, CleanCursor, FixUp, NextBoundary;
    StripSpares(s);
    StripCursorClean(s);
    FixUpPlaces(c, s, target, header);
    var v, b := StripCursor(s).view, FixUp(c, s, target, header).state.view.current;
    assert v.items[b - v.tail].Ok();
    AddKeepsMark(v.At(b), header);
    LoosePut(v.items, b - v.tail, AddHeader(v.At(b), header));
  }

  lemma AddKeepsMark(i: Item, header: Bytes)
    ensures AddHeader(i, header).streamStart && AddHeader(i, header).baseStart == i.baseStart
  {
  }

  /** The loose headers that can still stop a session. */
  function Loops(s: State): int {
    LooseHeaders(s.view.items) - (if s.connection == InUse && OnLoose(s) then 1 else 0)
  }

  lemma FineStarts(s: State)
    requires s.view.Ok() && (s.cursor.Idle? ==> NextBoundary(s.view, s.view.current) < s.view.Head())
    ensures var t := s.(connection := Fine); StartsAhead(Begun(t)) == StartsAhead(Begun(s))
  {
    hide NextBoundary, Starts;
  }

  lemma FewStarts(s: State)
    requires s.view.Ok()
    ensures StartsAhead(s) <= |s.view.items|
  {
  }

  /** What is left of the drain: loose headers that can stop a session, then stream starts ahead. */
  ghost function StartsLeft(s: State): nat
    requires s.view.Ok()
  {
    if s.connection == InUse then |s.view.items| + 1
    else if s.cursor.Idle? && NextBoundary(s.view, s.view.current) == s.view.Head() then 0
    else StartsAhead(Begun(s))
  }

  /** A session that is over in front of a stream start leaves less to do, whatever the rollback. */
  lemma LessLeft(c: Config, s: State, h: nat, target: nat, header: Bytes, r: State, out: seq<Chunk>)
    requires Resting(c, s) && CanBegin(c, s, target)
    requires AtRest(c, Resume(c, s, target, header)) && Completed(c, Resume(c, s, target, header), h, r, out) && AtHeader(r)
    ensures var s' := Rested(c, r, h);
            && Resting(c, s') && s' == r.(sessions := [], connection := s'.connection)
            && Loops(s') <= Loops(s) && (Loops(s') == Loops(s) ==> StartsLeft(s') < StartsLeft(s))
  {
    hide Pending, StartsAhead, LooseHeaders, NextBoundary, FixUp, Linked, CleanView, CleanCursor, Resume, Begun, OnLoose, Rested;
    RestsThere(c, r, h);
    ResumeSpares(c, s, target, header);
    ResumeRests(c, s, target, header);
    if r.cursor.item.baseStart {
      RestsBegun(c, r, h);
      BaseLess(c, s, target, header, r);
    } else {
      LooseLess(r);
    }
  }

  lemma LooseLess(r: State)
    requires r.view.Ok() && AtHeader(r) && r.view.Holds(r.cursor.index) && !r.cursor.item.baseStart
    ensures Loops(r.(sessions := [], connection := InUse)) < LooseHeaders(r.view.items)
  {
    hide LooseHeaders;
  }

  lemma BaseLess(c: Config, s: State, target: nat, header: Bytes, r: State)
    requires Sound(c, s) && CanBegin(c, s, target)
    requires AtRest(c, Resume(c, s, target, header)) && r.view.Ok() && AtHeader(r)
    requires StartsAhead(Begun(Resume(c, s, target, header))) == StartsAhead(r) + 1 && |r.view.items| == |s.view.items|
    ensures StartsLeft(r.(sessions := [], connection := NotInUse)) < StartsLeft(s)
  {
    hide Starts, NextBoundary, FixUp, Linked;
    FewStarts(r);
    if s.connection != InUse {
      FineStarts(s);
    }
  }

  /** One session of a drain: the state it is over in, and what it sent. */
  datatype Span = Span(ended: State, sent: seq<Chunk>)

  /** A session opened at rest in s ran to its end. */
  ghost predicate Ran(c: Config, s: State, h: nat, target: nat, header: Bytes, span: Span) {
    && Resting(c, s) && CanBegin(c, s, target)
    && AtRest(c, Resume(c, s, target, header)) && Completed(c, Resume(c, s, target, header), h, span.ended, span.sent)
  }

  /** The stream came to rest in r in front of the stream start the session ended at. */
  predicate Leaves(c: Config, span: Span, h: nat, r: State) { AtHeader(span.ended) && r == Rested(c, span.ended, h) }

  /** The sessions of a drain and the states at rest before them: each after the first takes over from one
      that is over in front of a stream start. */
  ghost predicate Chained(c: Config, first: nat, targets: State -> nat, header: Bytes, rests: seq<State>, spans: seq<Span>) {
    && 0 < |rests| && |spans| <= |rests| <= |spans| + 1
    && (forall i :: 0 <= i < |spans| ==> Ran(c, rests[i], first + i, targets(rests[i]), header, spans[i]))
    && (forall i :: 0 <= i < |rests| - 1 ==> Leaves(c, spans[i], first + i, rests[i + 1]))
  }

  /** What the sessions sent, in order. */
  function Outputs(spans: seq<Span>): seq<Chunk> {
    if spans == [] then [] else Outputs(spans[..|spans| - 1]) + spans[|spans| - 1].sent
  }

  /** Draining a stopped stream from any state, with any stream starts ahead and any rollbacks: every
      session that ends before the end either waits at a base boundary, and the next one goes on from there,
      or takes a header off for good, so the drain comes to a stop; and it stops with nothing left exactly
      if a session could begin at every state it came to rest in. */
  method DrainAll(c: Config, s: State, first: nat, rooms: nat -> nat, targets: State -> nat, header: Bytes)
      returns (r: State, out: seq<Chunk>, done: bool, rests: seq<State>, spans: seq<Span>)
    requires Resting(c, s) && IsHeader(header) && forall i :: rooms(i) > 0
    requires forall t: State :: t.view.Ok() ==> t.view.tail <= targets(t) <= t.view.Head()
    ensures Chained(c, first, targets, header, rests, spans) && rests[0] == s && out == Outputs(spans)
    ensures forall i :: 0 <= i < |rests| ==> Resting(c, rests[i])
    ensures done <==> forall i :: 0 <= i < |rests| ==> CanBegin(c, rests[i], targets(rests[i]))
    ensures done ==> |spans| == |rests| && r == spans[|spans| - 1].ended && !AtHeader(r) && Sound(c, r) && Drained(r)
    ensures !done ==> r == rests[|rests| - 1] && !CanBegin(c, r, targets(r))
  {
    hide Fill, Read, Clean, Pending, StartsAhead, Terminate, NextBoundary, FixUp, Linked, OnLoose, Begun, Drained,
         Completed, Resume, Resting, CanBegin, Rested, Loops, StartsLeft, Chained, Ran, AtRest, StripCursor, AtHeader,
         LooseHeaders;
    r, out, done := s, [], false;
    rests, spans := [s], [];
    var calls := 0;
    RestingOk(c, s);
    ChainStarts(c, s, first, targets, header);
    while CanBegin(c, r, targets(r))
      invariant |rests| == |spans| + 1 && r == rests[|spans|] && rests[0] == s && out == Outputs(spans)
      invariant Chained(c, first, targets, header, rests, spans)
      invariant forall i :: 0 <= i < |rests| ==> Resting(c, rests[i])
      invariant forall i :: 0 <= i < |spans| ==> CanBegin(c, rests[i], targets(rests[i]))
      invariant Sound(c, r) && Loops(r) >= -1
      decreases Loops(r) + 1, StartsLeft(r)
    {
      var h, target := first + |spans|, targets(r);
      SettledFirst(c, r, h, rooms(calls), target, header);
      var t := Resume(c, r, target, header);
      var ended, sent, more := SendSession(c, t, h, rooms, calls, header);
      ChainGrows(c, first, targets, header, rests, spans, Span(ended, sent));
      calls, out, spans := more, out + sent, spans + [Span(ended, sent)];
      if !AtHeader(ended) {
        CompletedEnds(c, t, h, ended, sent);
        r, done := ended, true;
        break;
      }
      LessLeft(c, r, h, target, header, ended, sent);
      r := Rested(c, ended, h);
      ChainRests(c, first, targets, header, rests, spans, r);
      rests := rests + [r];
      RestingOk(c, r);
    }
  }

  lemma RestingOk(c: Config, s: State)
    requires Resting(c, s)
    ensures Sound(c, s) && Loops(s) >= -1
  {
  }

  lemma CompletedEnds(c: Config, s: State, h: nat, r: State, out: seq<Chunk>)
    requires AtRest(c, s) && Completed(c, s, h, r, out) && !AtHeader(r)
    ensures Sound(c, r) && Drained(r)
  {
  }

  lemma ChainStarts(c: Config, s: State, first: nat, targets: State -> nat, header: Bytes)
    ensures Chained(c, first, targets, header, [s], [])
  {
  }

  /** One more session at the end of the chain. */
  lemma ChainGrows(c: Config, first: nat, targets: State -> nat, header: Bytes, rests: seq<State>, spans: seq<Span>, span: Span)
    requires Chained(c, first, targets, header, rests, spans) && |rests| == |spans| + 1
    requires var r := rests[|spans|];
             && Resting(c, r) && CanBegin(c, r, targets(r)) && AtRest(c, Resume(c, r, targets(r), header))
             && Completed(c, Resume(c, r, targets(r), header), first + |spans|, span.ended, span.sent)
    ensures var more := spans + [span];
            Chained(c, first, targets, header, rests, more) && Outputs(more) == Outputs(spans) + span.sent
  {
    hide Ran, Leaves, Resting, CanBegin, Resume, AtRest, Completed;
    var r, more := rests[|spans|], spans + [span];
    RanIs(c, r, first + |spans|, targets(r), header, span);
    OutputsMore(spans, span);
    forall i | 0 <= i < |more|
      ensures Ran(c, rests[i], first + i, targets(rests[i]), header, more[i])
    {
      assert i < |spans| ==> more[i] == spans[i];
    }
    forall i | 0 <= i < |rests| - 1
      ensures Leaves(c, more[i], first + i, rests[i + 1])
    {
      assert more[i] == spans[i];
    }
  }

  lemma RanIs(c: Config, s: State, h: nat, target: nat, header: Bytes, span: Span)
    requires Resting(c, s) && CanBegin(c, s, target) && AtRest(c, Resume(c, s, target, header))
    requires Completed(c, Resume(c, s, target, header), h, span.ended, span.sent)
    ensures Ran(c, s, h, target, header, span)
  {
  }

  lemma OutputsMore(spans: seq<Span>, span: Span)
    ensures Outputs(spans + [span]) == Outputs(spans) + span.sent
  {
    assert (spans + [span])[..|spans|] == spans;
  }

  lemma ChainRests(c: Config, first: nat, targets: State -> nat, header: Bytes, rests: seq<State>, spans: seq<Span>, r: State)
    requires Chained(c, first, targets, header, rests, spans) && |rests| == |spans| > 0
    requires Leaves(c, spans[|spans| - 1], first + |spans| - 1, r)
    ensures Chained(c, first, targets, header, rests + [r], spans)
  {
    hide Ran, Leaves;
  }

  // ---------------------------------------------------------------- the last acknowledgement

  /** A session that waits for its last acknowledgement: until that comes its reads return nothing and
      change nothing, and once it has come the next read ends the session. */
  lemma LastAckEndsSession(c: Config, s: State, h: nat, ts: nat, b: nat, room: nat, target: nat, header: Bytes)
    requires Sound(c, s) && s.connection == Fine && |s.sessions| == 1 && s.sessions[0].handle == h
    requires s.sessions[0].phase == AwaitingAck && s.sessions[0].lastFragment.Some? && InView(s.view, ts)
    requires s.sessions[0].lastPersisted != s.sessions[0].lastFragment
    requires s.view.tail <= b <= s.view.Head() && TrimUpTo(s.view, b).tail <= target <= s.view.Head()
    ensures Read(c, s, h, room, target, header) == Outcome(s, [], AwaitingPersistedAck)
    ensures var r := PersistedAck(s, h, ts, b);
            && Sound(c, r)
            && var e := Read(c, r, h, room, target, header);
               && e.out == []
               && if s.sessions[0].lastFragment == Some(ts) then e.status == EndOfStream && e.state.sessions == []
                  else e.status == AwaitingPersistedAck && e.state == r
  {
    hide Fill, TrimUpTo, PersistedAck, InView;
    LastAckIs(s, h, ts, b);
    var r := PersistedAck(s, h, ts, b);
    StepSound(c, s, Persisted(h, ts, b));
    WaitingRead(c, s, h, room, target, header);
    WaitingRead(c, r, h, room, target, header);
  }

  lemma LastAckIs(s: State, h: nat, ts: nat, b: nat)
    requires s.view.Ok() && s.view.tail <= b <= s.view.Head() && |s.sessions| == 1 && s.sessions[0].handle == h
    requires s.sessions[0].phase == AwaitingAck && InView(s.view, ts)
    ensures var r, u := PersistedAck(s, h, ts, b), s.sessions[0];
            && r == s.(view := TrimUpTo(s.view, b), sessions := r.sessions) && |r.sessions| == 1
            && r.sessions[0] == u.(lastPersisted := Some(ts), phase := if u.lastFragment == Some(ts) then AckReceived else AwaitingAck)
  {
    hide TrimUpTo, InView;
    assert Find(s.sessions, h) == 0 && EarlierReady(s.sessions, 0);
  }

  /** The read of the only session when it has sent everything. */
  lemma WaitingRead(c: Config, s: State, h: nat, room: nat, target: nat, header: Bytes)
    requires Sound(c, s) && s.connection == Fine && |s.sessions| == 1 && s.sessions[0].handle == h
    requires s.sessions[0].phase == AwaitingAck || s.sessions[0].phase == AckReceived
    requires s.view.tail <= target <= s.view.Head()
    ensures var u, e := s.sessions[0], Read(c, s, h, room, target, header);
            if u.phase == AckReceived || u.lastPersisted == u.lastFragment
            then e.out == [] && e.status == EndOfStream && e.state.sessions == []
            else e == Outcome(s, [], AwaitingPersistedAck)
  {
    hide Fill;
    assert Find(s.sessions, h) == 0;
    var ss := s.sessions[0 := s.sessions[0].(phase := Terminated)];
    assert Without(ss, 0) == [];
  }
}

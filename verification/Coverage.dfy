/** What the sessions of a drain deliver: each sends a run of whole items, a reconnect skips unsent items
    exactly when its rollback lands behind them, and without such a skip every item is delivered. */
module Coverage {
  import opened ViewItems
  import opened ContentView
  import opened Upload
  import opened Recovery
  import opened Delivery
  import opened Drain

  // ---------------------------------------------------------------- one session

  /** What is left of an item that has been sent in part. */
  function Front(s: State): Bytes
    requires s.cursor.On? && s.cursor.offset <= |s.cursor.item.data|
  {
    if Unsent(s) == s.view.current then s.cursor.item.data[s.cursor.offset..] else []
  }

  lemma {:induction false} ConcatSplit(a: seq<Item>, b: seq<Item>)
    ensures Concat(a + b) == Concat(a) + Concat(b)
  {
    if a == [] {
      assert a + b == b;
    } else {
      assert (a + b)[1..] == a[1..] + b;
      ConcatSplit(a[1..], b);
    }
  }

  lemma {:induction false} ConcatSame(a: seq<Item>, b: seq<Item>)
    requires |a| == |b| && forall i :: 0 <= i < |a| ==> a[i].data == b[i].data
    ensures Concat(a) == Concat(b)
  {
    if a != [] {
      ConcatSame(a[1..], b[1..]);
    }
  }

  lemma PendingFrom(s: State)
    requires s.view.Ok() && s.cursor.On? && Linked(s.view, s.cursor)
    ensures s.view.tail <= Unsent(s) <= s.view.Head()
    ensures Pending(s) == Front(s) + Concat(s.view.items[Unsent(s) - s.view.tail..])
  {
    var v := s.view;
    if Unsent(s) < v.current {
      assert v.items[Unsent(s) - v.tail..][1..] == v.items[v.current - v.tail..];
    }
  }

  /** A session sends the rest of the item it begins in, if that was sent in part, and then the items up to
      the one it ends in front of, whole and in order. */
  lemma SendsWhole(b: State, r: State, out: seq<Chunk>)
    requires Linked(b.view, b.cursor) && Linked(r.view, r.cursor) && Onward(b, r) && b.cursor.On? && r.cursor.On?
    requires Pending(b) == MediaBytes(out) + Pending(r) && Front(r) == []
    ensures b.view.tail <= Unsent(b) <= Unsent(r) <= b.view.Head()
    ensures MediaBytes(out) == Front(b) + Concat(b.view.items[Unsent(b) - b.view.tail..Unsent(r) - b.view.tail])
  {
    hide Front, Pending, Unsent, Concat;
    PendingFrom(b);
    PendingFrom(r);
    var v, i, j := b.view, Unsent(b) - b.view.tail, Unsent(r) - b.view.tail;
    AheadSame(b, r, j);
    assert v.items[i..] == v.items[i..j] + v.items[j..];
    ConcatSplit(v.items[i..j], v.items[j..]);
    assert Front(b) + (Concat(v.items[i..j]) + Concat(v.items[j..])) == (Front(b) + Concat(v.items[i..j])) + Concat(v.items[j..]);
    SameFront(MediaBytes(out), Front(b) + Concat(v.items[i..j]), Concat(v.items[j..]));
  }

  lemma AheadSame(b: State, r: State, j: nat)
    requires Onward(b, r) && b.view.tail + j == Unsent(r) <= b.view.Head()
    ensures Concat(r.view.items[j..]) == Concat(b.view.items[j..])
  {
    hide Unsent, Concat;
    forall i | 0 <= i < |b.view.items| - j
      ensures r.view.items[j..][i].data == b.view.items[j..][i].data
    {
      var x := b.view.tail + j + i;
      assert b.view.Holds(x) && r.view.At(x).data == b.view.At(x).data;
    }
    ConcatSame(r.view.items[j..], b.view.items[j..]);
  }

  lemma SameFront(a: Bytes, b: Bytes, rest: Bytes)
    requires a + rest == b + rest
    ensures a == b
  {
    assert |a| == |b|;
    assert a == (a + rest)[..|a|] && b == (b + rest)[..|a|];
  }

  /** The state a session begun at rest in s starts sending from. */
  function Start(c: Config, s: State, target: nat, header: Bytes): State
    requires CanBegin(c, s, target) && AtRest(c, Resume(c, s, target, header))
  {
    Begun(Resume(c, s, target, header))
  }

  /** What the session of a drain sends. */
  lemma RanSends(c: Config, s: State, h: nat, target: nat, header: Bytes, span: Span)
    requires Ran(c, s, h, target, header, span)
    ensures var b := Start(c, s, target, header);
            && b.cursor.On? && b.cursor.offset <= |b.cursor.item.data|
            && b.view.tail <= Unsent(b) <= Unsent(span.ended) <= b.view.Head() && Onward(b, span.ended)
            && MediaBytes(span.sent) == Front(b) + Concat(b.view.items[Unsent(b) - b.view.tail..Unsent(span.ended) - b.view.tail])
  {
    hide Resume, Begun, Onward, Pending, NextBoundary, StripCursor, Concat, Resting, Completed, Linked;
    var t := Resume(c, s, target, header);
    CompletedFront(c, t, h, span.ended, span.sent);
    SendsWhole(Begun(t), span.ended, span.sent);
  }

  lemma CompletedFront(c: Config, s: State, h: nat, r: State, out: seq<Chunk>)
    requires AtRest(c, s) && Completed(c, s, h, r, out)
    ensures var b := Begun(s);
            && b.cursor.On? && Linked(b.view, b.cursor) && b.cursor.offset <= |b.cursor.item.data|
            && r.cursor.On? && Linked(r.view, r.cursor) && Front(r) == [] && Onward(b, r)
            && Pending(b) == MediaBytes(out) + Pending(r)
  {
    hide Begun, Onward, Pending, StartsAhead, LooseHeaders, NextBoundary, OnLoose, Over;
    EndedFront(c, r, h);
  }

  lemma EndedFront(c: Config, r: State, h: nat)
    requires Over(c, r, h) && (AtHeader(r) ==> r.view.Holds(r.cursor.index) && r.cursor.index + 1 == r.view.current)
    ensures r.cursor.On? && Linked(r.view, r.cursor) && Front(r) == []
    ensures AtHeader(r) ==> Unsent(r) == r.cursor.index
    ensures !AtHeader(r) ==> Unsent(r) == r.view.Head()
  {
  }

  // ---------------------------------------------------------------- where a session begins

  /** A session that settles a rollback begins with the first item from the target on that it may begin with. */
  lemma StartsAt(c: Config, s: State, target: nat, header: Bytes)
    requires CanBegin(c, s, target) && AtRest(c, Resume(c, s, target, header)) && s.connection == InUse
    ensures Unsent(Start(c, s, target, header)) == NextBoundary(StripCursor(s).view, target)
  {
    hide NextBoundary, StripCursor, FixUp, Linked;
    PlacedIff(c, s, target, header);
    FixUpPlaces(c, s, target, header);
    PlacedAt(c, s, target, header);
  }

  lemma PlacedAt(c: Config, s: State, target: nat, header: Bytes)
    requires Sound(c, s) && s.view.tail <= target <= s.view.Head()
    ensures var f := FixUp(c, s, target, header); !f.deferred ==> f.state.view.current == NextBoundary(StripCursor(s).view, target)
  {
    hide NextBoundary, AddHeader, StripCursor;
  }

  /** Which unsent items a reconnect skips: the ones with no item to begin with between the rollback's
      target and them. In particular a rollback that does not move skips the item the last session had
      stopped in front of. */
  lemma ReconnectSkips(c: Config, s: State, target: nat, header: Bytes, x: nat)
    requires Sound(c, s) && s.view.tail <= target <= s.view.Head() && s.connection == InUse
    requires !FixUp(c, s, target, header).deferred && Unsent(s) <= x && s.view.Holds(x)
    ensures var v, r := StripCursor(s).view, Resume(c, s, target, header);
            && r.cursor.Idle? && (x < r.view.current <==> forall k: nat :: target <= k <= x ==> !StartsSession(v.At(k)))
            && (target > x ==> x < r.view.current)
  {
    hide Linked, StripCursor, FixUp;
    PlacedAt(c, s, target, header);
    var v := StripCursor(s).view;
    var b := NextBoundary(v, target);
    PlacedIff(c, s, target, header);
    if b <= x {
      assert StartsSession(v.At(b));
    }
  }

  /** Where a session of a drain ended in front of a header, the next one begins there or before it exactly
      if its rollback does not go past that item. */
  lemma NoSkipIff(c: Config, span: Span, h: nat, s: State, target: nat, header: Bytes)
    requires Over(c, span.ended, h) && Leaves(c, span, h, s) && CanBegin(c, s, target) && AtRest(c, Resume(c, s, target, header))
    requires span.ended.view.Holds(span.ended.cursor.index) && span.ended.cursor.index + 1 == span.ended.view.current
    ensures Unsent(Start(c, s, target, header)) <= Unsent(span.ended) <==> (s.connection == InUse ==> target <= Unsent(span.ended))
  {
    hide NextBoundary, StripCursor, FixUp, Rested, Linked, CleanView, CleanCursor, Resume;
    var r := span.ended;
    RestsThere(c, r, h);
    EndedFront(c, r, h);
    if s.connection == InUse {
      StartsAt(c, s, target, header);
      StaysBoundary(s);
      BoundaryUpTo(StripCursor(s).view, target, r.cursor.index);
    } else {
      StartsThere(c, s, target, header);
    }
  }

  /** After such an end a session can begin again if the rollback does not go past that item; at a base
      boundary exactly if fragment times are absolute. */
  lemma BeginsAgain(c: Config, span: Span, h: nat, s: State, target: nat)
    requires Over(c, span.ended, h) && Leaves(c, span, h, s) && s.view.tail <= target <= s.view.Head()
    requires span.ended.view.Holds(span.ended.cursor.index) && span.ended.cursor.index + 1 == span.ended.view.current
    ensures if s.connection == InUse then target <= Unsent(s) ==> CanBegin(c, s, target) else CanBegin(c, s, target) <==> c.absoluteTimes
  {
    hide NextBoundary, StripCursor, Rested, CleanView, CleanCursor;
    RestsThere(c, span.ended, h);
    StaysBoundary(s);
    BoundaryUpTo(StripCursor(s).view, target, s.cursor.index);
  }

  lemma StartsThere(c: Config, s: State, target: nat, header: Bytes)
    requires Sound(c, s) && s.view.tail <= target <= s.view.Head() && s.connection != InUse && s.cursor.On?
    ensures Begun(Resume(c, s, target, header)) == s.(connection := Fine)
  {
  }

  lemma StaysBoundary(s: State)
    requires s.view.Ok() && Linked(s.view, s.cursor) && Clean(s) && s.cursor.On? && s.view.Holds(s.cursor.index) && s.cursor.item.streamStart
    ensures StartsSession(StripCursor(s).view.At(s.cursor.index))
  {
  }

  lemma BoundaryUpTo(v: View, i: nat, x: nat)
    requires v.tail <= i <= v.Head() && v.Holds(x) && StartsSession(v.At(x))
    ensures NextBoundary(v, i) <= x <==> i <= x
  {
  }

  // ---------------------------------------------------------------- the whole drain

  predicate SameBodies(v: View, w: View) {
    && v.tail == w.tail && |v.items| == |w.items|
    && forall i :: 0 <= i < |v.items| ==> w.items[i].Body() == v.items[i].Body()
  }

  lemma BodiesTwice(u: View, v: View, w: View)
    requires SameBodies(u, v) && SameBodies(v, w)
    ensures SameBodies(u, w)
  {
  }

  lemma StartBodies(c: Config, s: State, target: nat, header: Bytes)
    requires CanBegin(c, s, target) && AtRest(c, Resume(c, s, target, header)) && Clean(s) && IsHeader(header)
    ensures SameBodies(s.view, Start(c, s, target, header).view)
  {
    hide NextBoundary, FixUp, Linked, SameBodies, StripCursor, Begun, CleanView, CleanCursor;
    var t := Resume(c, s, target, header);
    BegunBodies(t);
    if s.connection == InUse {
      PlacedIff(c, s, target, header);
      FixUpBodies(c, s, target, header);
      BodiesTwice(s.view, t.view, Begun(t).view);
    }
  }

  lemma BegunBodies(s: State)
    requires s.view.Ok() && (s.cursor.Idle? ==> NextBoundary(s.view, s.view.current) < s.view.Head())
    ensures SameBodies(s.view, Begun(s).view)
  {
    hide NextBoundary;
  }

  lemma FixUpBodies(c: Config, s: State, target: nat, header: Bytes)
    requires Sound(c, s) && s.view.tail <= target <= s.view.Head() && Clean(s) && IsHeader(header)
    ensures var f := FixUp(c, s, target, header); !f.deferred ==> SameBodies(s.view, f.state.view)
  {
    hide NextBoundary, FixUp, StripCursor, AddHeader, Linked, SameBodies;
    var v, f := StripCursor(s).view, FixUp(c, s, target, header);
    StripBodies(s);
    StripCursorClean(s);
    FixUpPlaces(c, s, target, header);
    if !f.deferred {
      var w := f.state.view;
      assert v.items[w.current - v.tail].Ok();
      PlacedAt(c, s, target, header);
      AddedBodies(v, w, w.current, header);
      BodiesTwice(s.view, v, w);
    }
  }

  lemma AddedBodies(v: View, w: View, b: nat, header: Bytes)
    requires v.Holds(b) && v.At(b).Ok() && v.At(b).Boundary() && IsHeader(header)
    requires w.tail == v.tail && w.items == if v.At(b).streamStart then v.items else v.items[b - v.tail := AddHeader(v.At(b), header)]
    ensures SameBodies(v, w)
  {
    hide AddHeader;
    if !v.At(b).streamStart {
      AddHeaderOk(v.At(b), header);
    }
  }

  lemma StripBodies(s: State)
    requires s.view.Ok() && Linked(s.view, s.cursor)
    ensures SameBodies(s.view, StripCursor(s).view)
  {
  }

  /** The session sent item x whole, with this body. */
  ghost predicate Covers(c: Config, s: State, target: nat, header: Bytes, span: Span, x: nat, body: Bytes) {
    && CanBegin(c, s, target) && AtRest(c, Resume(c, s, target, header))
    && var b := Start(c, s, target, header);
       var i, j := Unsent(b), Unsent(span.ended);
       && b.view.tail <= i <= x < j <= b.view.Head() && b.view.At(x).Body() == body
       && b.cursor.On? && b.cursor.offset <= |b.cursor.item.data|
       && MediaBytes(span.sent) == Front(b) + Concat(b.view.items[i - b.view.tail..j - b.view.tail])
  }

  /** No rollback of the drain goes past the item the session before it ended in front of. */
  ghost predicate Steady(targets: State -> nat, rests: seq<State>) {
    forall i :: 0 < i < |rests| && rests[i].connection == InUse ==> targets(rests[i]) <= Unsent(rests[i])
  }

  lemma LeavesUnsent(c: Config, s: State, h: nat, target: nat, header: Bytes, span: Span, r: State)
    requires Ran(c, s, h, target, header, span) && Leaves(c, span, h, r)
    ensures Over(c, span.ended, h) && r.view == span.ended.view && Unsent(r) == Unsent(span.ended)
    ensures span.ended.view.Holds(span.ended.cursor.index) && span.ended.cursor.index + 1 == span.ended.view.current
  {
    hide Resume, Begun, Onward, Pending, StartsAhead, LooseHeaders, NextBoundary, OnLoose, Concat, CanBegin, Resting,
         Over, Rested;
    RestsThere(c, span.ended, h);
  }

  /** Every session of a chain keeps the bodies. */
  lemma {:induction false} ChainBodies(c: Config, first: nat, targets: State -> nat, header: Bytes, rests: seq<State>, spans: seq<Span>, n: nat)
    requires Chained(c, first, targets, header, rests, spans) && IsHeader(header) && n < |spans|
    ensures Ran(c, rests[n], first + n, targets(rests[n]), header, spans[n])
    ensures SameBodies(rests[0].view, Start(c, rests[n], targets(rests[n]), header).view)
  {
    hide Completed, Onward, Start, Resume, AtRest, Leaves, SameBodies, Linked, CleanView, CleanCursor, NextBoundary, StripCursor;
    StartBodies(c, rests[n], targets(rests[n]), header);
    if n > 0 {
      ChainBodies(c, first, targets, header, rests, spans, n - 1);
      var s, r := rests[n - 1], rests[n];
      RanBodies(c, s, first + n - 1, targets(s), header, spans[n - 1], r);
      BodiesTwice(rests[0].view, Start(c, s, targets(s), header).view, r.view);
      BodiesTwice(rests[0].view, r.view, Start(c, r, targets(r), header).view);
    }
  }

  lemma RanBodies(c: Config, s: State, h: nat, target: nat, header: Bytes, span: Span, r: State)
    requires Ran(c, s, h, target, header, span) && Leaves(c, span, h, r)
    ensures SameBodies(Start(c, s, target, header).view, r.view)
  {
    hide Completed, Onward, Start, Resume, AtRest, Leaves, SameBodies, Resting, NextBoundary, StripCursor, Concat,
         MediaBytes, Unsent, Over;
    RanSends(c, s, h, target, header, span);
    LeavesUnsent(c, s, h, target, header, span, r);
    OnwardBodies(Start(c, s, target, header), span.ended);
  }

  lemma OnwardBodies(s: State, r: State)
    requires Onward(s, r)
    ensures SameBodies(s.view, r.view)
  {
    forall i | 0 <= i < |s.view.items|
      ensures r.view.items[i].Body() == s.view.items[i].Body()
    {
      assert s.view.Holds(s.view.tail + i) && r.view.At(s.view.tail + i).Body() == s.view.At(s.view.tail + i).Body();
    }
  }

  /** With steady rollbacks session n begins no later than where the one before it ended. */
  lemma ChainSteady(c: Config, first: nat, targets: State -> nat, header: Bytes, rests: seq<State>, spans: seq<Span>, n: nat)
    requires Chained(c, first, targets, header, rests, spans) && Steady(targets, rests) && 0 < n < |spans|
    requires Ran(c, rests[n], first + n, targets(rests[n]), header, spans[n])
    ensures Unsent(Start(c, rests[n], targets(rests[n]), header)) <= Unsent(spans[n - 1].ended)
  {
    hide Completed, Start, Resume, AtRest, Leaves, Linked, NextBoundary, StripCursor, Unsent, Over, Resting;
    var s, span := rests[n - 1], spans[n - 1];
    assert Leaves(c, span, first + n - 1, rests[n]);
    LeavesUnsent(c, s, first + n - 1, targets(s), header, span, rests[n]);
    NoSkipIff(c, span, first + n - 1, rests[n], targets(rests[n]), header);
  }

  lemma RanCovers(c: Config, s: State, h: nat, target: nat, header: Bytes, span: Span, v: View, x: nat)
    requires Ran(c, s, h, target, header, span) && SameBodies(v, Start(c, s, target, header).view) && v.Holds(x)
    requires Unsent(Start(c, s, target, header)) <= x < Unsent(span.ended)
    ensures Covers(c, s, target, header, span, x, v.At(x).Body())
  {
    hide Completed, Start, Resume, AtRest, Resting, Linked, NextBoundary, StripCursor, Unsent, Concat, MediaBytes, Onward;
    RanSends(c, s, h, target, header, span);
    var b := Start(c, s, target, header);
    assert b.view.At(x) == b.view.items[x - b.view.tail];
  }

  /** By the end of session n every item up to where it ended has been sent whole by one of the sessions,
      from where the first began. */
  lemma {:induction false} DrainCovers(c: Config, first: nat, targets: State -> nat, header: Bytes,
                                       rests: seq<State>, spans: seq<Span>, n: nat, x: nat)
    requires Chained(c, first, targets, header, rests, spans) && Steady(targets, rests) && IsHeader(header) && n < |spans|
    requires Ran(c, rests[0], first, targets(rests[0]), header, spans[0])
    requires Unsent(Start(c, rests[0], targets(rests[0]), header)) <= x < Unsent(spans[n].ended)
    requires rests[0].view.Holds(x)
    ensures exists j :: 0 <= j <= n && Covers(c, rests[j], targets(rests[j]), header, spans[j], x, rests[0].view.At(x).Body())
  {
    hide Completed, Start, Resume, AtRest, Leaves, Resting, Linked, NextBoundary, StripCursor, Unsent, Covers, SameBodies;
    ChainBodies(c, first, targets, header, rests, spans, n);
    var b := Start(c, rests[n], targets(rests[n]), header);
    if Unsent(b) <= x {
      RanCovers(c, rests[n], first + n, targets(rests[n]), header, spans[n], rests[0].view, x);
    } else {
      ChainSteady(c, first, targets, header, rests, spans, n);
      DrainCovers(c, first, targets, header, rests, spans, n - 1, x);
    }
  }

  /** A drain that comes to its end with steady rollbacks has delivered every item, from where it began to the
      head of the view, whole and with its own body; and the bytes of the sessions, in order, are all it sent. */
  lemma DrainDelivers(c: Config, first: nat, targets: State -> nat, header: Bytes, rests: seq<State>, spans: seq<Span>, x: nat)
    requires Chained(c, first, targets, header, rests, spans) && Steady(targets, rests) && IsHeader(header)
    requires |spans| == |rests| && !AtHeader(spans[|spans| - 1].ended)
    requires Ran(c, rests[0], first, targets(rests[0]), header, spans[0])
    requires Unsent(Start(c, rests[0], targets(rests[0]), header)) <= x && rests[0].view.Holds(x)
    ensures exists j :: 0 <= j < |spans| && Covers(c, rests[j], targets(rests[j]), header, spans[j], x, rests[0].view.At(x).Body())
  {
    hide Completed, Start, Resume, AtRest, Leaves, Resting, Linked, NextBoundary, StripCursor, Unsent, Covers, SameBodies;
    var n := |spans| - 1;
    ChainBodies(c, first, targets, header, rests, spans, n);
    RanEnds(c, rests[n], first + n, targets(rests[n]), header, spans[n]);
    BodiesHead(rests[0].view, Start(c, rests[n], targets(rests[n]), header).view);
    DrainCovers(c, first, targets, header, rests, spans, n, x);
  }

  lemma BodiesHead(v: View, w: View)
    requires SameBodies(v, w)
    ensures v.tail == w.tail && v.Head() == w.Head()
  {
  }

  lemma RanEnds(c: Config, s: State, h: nat, target: nat, header: Bytes, span: Span)
    requires Ran(c, s, h, target, header, span) && !AtHeader(span.ended)
    ensures Unsent(span.ended) == Start(c, s, target, header).view.Head()
  {
    hide Resume, Begun, Pending, StartsAhead, LooseHeaders, NextBoundary, OnLoose, Concat, CanBegin, Resting, Over;
    EndedFront(c, span.ended, h);
  }
}

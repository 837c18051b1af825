/** The rolling content view as a value: the window of items, its tail index and the send pointer
    `current`. The ring-buffer class in RollingView refines these operations. */
module ContentView {
  import opened Arithmetic
  import opened ViewItems

  datatype Policy = DropTailItem | DropUntilFragmentStart

  /** An item handed to the remove callback, and whether it is reported as dropped. */
  datatype Removed = Removed(item: Item, dropped: bool)

  datatype View = View(tail: nat, items: seq<Item>, current: nat) {
    function Head(): nat { tail + |items| }

    predicate Ok() { tail <= current <= Head() }

    predicate Holds(i: nat) { tail <= i < Head() }

    function At(i: nat): Item
      requires Holds(i)
    {
      items[i - tail]
    }

    function Put(i: nat, item: Item): View
      requires Holds(i)
    {
      this.(items := items[i - tail := item])
    }
  }

  datatype Trimmed = Trimmed(view: View, removed: seq<Removed>)

  // ---------------------------------------------------------------- overflow trimming

  /** The item being sent is the one just behind the send pointer, when it is in the window. */
  predicate StreamingInside(v: View) { v.current > v.tail }

  /** The one state in which frame-at-a-time eviction has nothing to evict: the whole window is
      the item being sent. */
  predicate NothingToEvict(v: View, p: Policy) {
    p == DropTailItem && |v.items| == 1 && StreamingInside(v)
  }

  /** How many slots the tail steps over. The streaming item is stepped over but kept. */
  function Passed(v: View, p: Policy): (n: nat)
    requires v.Ok() && |v.items| > 0
    ensures 1 <= n && (n <= |v.items| <==> !NothingToEvict(v, p))
  {
    match p
    case DropTailItem => if v.current == v.tail + 1 then 2 else 1
    case DropUntilFragmentStart => FragmentStop(v, 1)
  }

  /** The least k >= j at which the fragment-wise eviction stops. */
  function FragmentStop(v: View, j: nat): (n: nat)
    requires v.Ok() && 1 <= j <= |v.items|
    ensures j <= n <= |v.items|
    ensures n == |v.items| || Stops(v, n)
    ensures forall k :: j <= k < n ==> !Stops(v, k)
    decreases |v.items| - j
  {
    if j == |v.items| || Stops(v, j) then j else FragmentStop(v, j + 1)
  }

  /** Something has been dropped before slot k, and slot k starts a fragment. */
  predicate Stops(v: View, k: nat)
    requires k < |v.items|
  {
    Dropped(v, k) > 0 && v.items[k].fragStart
  }

  /** How many of the first k items are removed: all but the streaming one. */
  function Dropped(v: View, k: nat): int {
    if StreamingInside(v) && v.current - 1 < v.tail + k then k - 1 else k
  }

  /** The streaming item moved into a later slot; the slot keeps its own times. */
  function Retained(slot: Item, streaming: Item): Item {
    streaming.(timestamp := slot.timestamp, ackTimestamp := slot.ackTimestamp, duration := slot.duration)
  }

  /** The items reported removed among the first n, oldest first. */
  function RemovedOf(v: View, p: Policy, n: nat): seq<Removed>
    requires v.Ok() && n <= |v.items|
  {
    if n == 0 then []
    else
      var before := RemovedOf(v, p, n - 1);
      if StreamingInside(v) && v.tail + n == v.current then before
      else before + [Removed(v.items[n - 1], p == DropTailItem || !StreamingInside(v) || v.current < v.tail + n)]
  }

  /** The window after the tail has stepped over n slots. */
  function Stepped(v: View, n: nat): View
    requires v.Ok() && 0 < n <= |v.items|
  {
    var t := v.tail + n;
    if StreamingInside(v) && v.current <= t
    then View(t - 1, [Retained(v.items[n - 1], v.items[v.current - 1 - v.tail])] + v.items[n..], t)
    else View(t, v.items[n..], if v.current < t then t else v.current)
  }

  /** Making room. `stale` is what the slot behind the window holds: with nothing to evict but the item
      being sent, that leftover is handed over instead, and the tail ends up in front of the pointer. */
  function Trim(v: View, p: Policy, stale: Item): Trimmed
    requires v.Ok() && |v.items| > 0
  {
    if NothingToEvict(v, p) then Trimmed(View(v.Head(), [], v.Head() + 1), [Removed(stale, true)])
    else
      var n := Passed(v, p);
      Trimmed(Stepped(v, n), RemovedOf(v, p, n))
  }

  /** How many of the items own frame x's storage. */
  function Owners(items: seq<Item>, x: nat): nat {
    if items == [] then 0 else (if items[0].store == x then 1 else 0) + Owners(items[1..], x)
  }

  function RemovedOwners(r: seq<Removed>, x: nat): nat {
    if r == [] then 0 else (if r[|r| - 1].item.store == x then 1 else 0) + RemovedOwners(r[..|r| - 1], x)
  }

  lemma OwnersOne(i: Item, x: nat)
    ensures Owners([i], x) == if i.store == x then 1 else 0
  {
  }

  lemma {:induction false} OwnersConcat(a: seq<Item>, b: seq<Item>, x: nat)
    ensures Owners(a + b, x) == Owners(a, x) + Owners(b, x)
  {
    if a == [] {
      assert a + b == b;
    } else {
      assert (a + b)[0] == a[0] && (a + b)[1..] == a[1..] + b;
      OwnersConcat(a[1..], b, x);
    }
  }

  lemma OwnersSplit(items: seq<Item>, n: nat, x: nat)
    requires n <= |items|
    ensures Owners(items, x) == Owners(items[..n], x) + Owners(items[n..], x)
  {
    assert items == items[..n] + items[n..];
    OwnersConcat(items[..n], items[n..], x);
  }

  lemma OwnersLast(items: seq<Item>, n: nat, x: nat)
    requires 0 < n <= |items|
    ensures Owners(items[..n], x) == Owners(items[..n - 1], x) + Owners([items[n - 1]], x)
  {
    assert items[..n] == items[..n - 1] + [items[n - 1]];
    OwnersConcat(items[..n - 1], [items[n - 1]], x);
  }

  /** What the streaming item owns, once the tail has stepped over it. */
  function Kept(v: View, n: nat, x: nat): nat
    requires v.Ok() && n <= |v.items|
  {
    if StreamingInside(v) && v.current <= v.tail + n then Owners([v.items[v.current - 1 - v.tail]], x) else 0
  }

  lemma {:induction false} RemovedAccount(v: View, p: Policy, n: nat, x: nat)
    requires v.Ok() && n <= |v.items|
    ensures Owners(v.items[..n], x) == RemovedOwners(RemovedOf(v, p, n), x) + Kept(v, n, x)
  {
    if n == 0 {
      assert v.items[..0] == [] && RemovedOf(v, p, 0) == [];
    } else {
      calc {
        Owners(v.items[..n], x);
        { OwnersLast(v.items, n, x); }
        Owners(v.items[..n - 1], x) + Owners([v.items[n - 1]], x);
        { RemovedAccount(v, p, n - 1, x); }
        RemovedOwners(RemovedOf(v, p, n - 1), x) + Kept(v, n - 1, x) + Owners([v.items[n - 1]], x);
        { RemovedStep(v, p, n, x); }
        RemovedOwners(RemovedOf(v, p, n), x) + Kept(v, n, x);
      }
    }
  }

  lemma RemovedStep(v: View, p: Policy, n: nat, x: nat)
    requires v.Ok() && 0 < n <= |v.items|
    ensures RemovedOwners(RemovedOf(v, p, n), x) + Kept(v, n, x)
         == RemovedOwners(RemovedOf(v, p, n - 1), x) + Kept(v, n - 1, x) + Owners([v.items[n - 1]], x)
  {
    OwnersOne(v.items[n - 1], x);
    if !(StreamingInside(v) && v.tail + n == v.current) {
      var r := RemovedOf(v, p, n);
      assert r[..|r| - 1] == RemovedOf(v, p, n - 1);
    }
  }

  lemma {:induction false} RemovedCount(v: View, p: Policy, n: nat)
    requires v.Ok() && n <= |v.items|
    ensures |RemovedOf(v, p, n)| == Dropped(v, n)
  {
    if n > 0 {
      RemovedCount(v, p, n - 1);
    }
  }

  /** Eviction leaves the item count and the head accounted for and evicts something from a window of
      two or more; it keeps the window well formed exactly when there is something to evict. */
  lemma TrimCounts(v: View, p: Policy, stale: Item)
    requires v.Ok() && |v.items| > 0
    ensures Trim(v, p, stale).view.Ok() <==> !NothingToEvict(v, p)
    ensures |v.items| == |Trim(v, p, stale).view.items| + |Trim(v, p, stale).removed|
    ensures |v.items| > 1 ==> |Trim(v, p, stale).removed| > 0
    ensures Trim(v, p, stale).view.Head() == v.Head()
  {
    if !NothingToEvict(v, p) {
      RemovedCount(v, p, Passed(v, p));
    }
  }

  /** Eviction neither loses nor duplicates an allocation, for every frame x, exactly when there is
      something to evict or the leftover slot happens to hold the same frame as the item being sent:
      otherwise that item has no owner any more, and the leftover is handed over again. */
  lemma TrimConserves(v: View, p: Policy, stale: Item, x: nat)
    requires v.Ok() && |v.items| > 0
    ensures Owners(v.items, x) == Owners(Trim(v, p, stale).view.items, x) + RemovedOwners(Trim(v, p, stale).removed, x)
       <==> (NothingToEvict(v, p) ==> (v.items[0].store == x <==> stale.store == x))
  {
    if NothingToEvict(v, p) {
      OwnersOne(v.items[0], x);
      assert v.items == [v.items[0]];
      assert [Removed(stale, true)][..0] == [];
    } else {
      SteppedConserves(v, p, x);
    }
  }

  lemma SteppedConserves(v: View, p: Policy, x: nat)
    requires v.Ok() && |v.items| > 0 && !NothingToEvict(v, p)
    ensures var n := Passed(v, p);
            Owners(v.items, x) == Owners(Stepped(v, n).items, x) + RemovedOwners(RemovedOf(v, p, n), x)
  {
    var n := Passed(v, p);
    RemovedAccount(v, p, n, x);
    OwnersSplit(v.items, n, x);
    if StreamingInside(v) && v.current <= v.tail + n {
      var kept := [Retained(v.items[n - 1], v.items[v.current - 1 - v.tail])];
      OwnersOne(kept[0], x);
      OwnersOne(v.items[v.current - 1 - v.tail], x);
      OwnersConcat(kept, v.items[n..], x);
      assert Stepped(v, n).items == kept + v.items[n..];
    }
  }

  /** Fragment-wise eviction removes the shortest prefix that drops something and leaves a
      fragment start next to be kept; only a window without one is emptied. Frame-wise eviction
      removes exactly one item. */
  lemma TrimIsLeast(v: View, p: Policy, stale: Item)
    requires v.Ok() && |v.items| > 0
    ensures p == DropTailItem ==> |Trim(v, p, stale).removed| == 1
    ensures p == DropUntilFragmentStart ==>
              var n := Passed(v, p);
              && (n < |v.items| ==> Stops(v, n))
              && (forall k :: 1 <= k < n ==> !Stops(v, k))
  {
    if !NothingToEvict(v, p) {
      RemovedCount(v, p, Passed(v, p));
    }
  }

  /** The index of the k-th item handed over: from the tail on, passing over the item being sent. */
  function HandedOver(v: View, k: nat): nat {
    if v.tail < v.current <= v.tail + k + 1 then v.tail + k + 1 else v.tail + k
  }

  /** What is handed over, in order: the evicted items but the one being sent. Frame by frame each counts as dropped;
      fragment-wise exactly those the send pointer has not passed do. */
  lemma {:induction false} TrimReports(v: View, p: Policy, stale: Item, k: nat)
    requires v.Ok() && |v.items| > 0 && !NothingToEvict(v, p) && k < |Trim(v, p, stale).removed|
    ensures var x := HandedOver(v, k);
            v.Holds(x) && Trim(v, p, stale).removed[k] == Removed(v.At(x), p == DropTailItem || x >= v.current)
  {
    RemovedAt(v, p, Passed(v, p), k);
  }

  /** With nothing to evict but the item being sent, what the slot behind it was left with is handed over as dropped, and
      the window is empty in front of the pointer. */
  lemma TrimOfSentItem(v: View, stale: Item)
    requires v.Ok() && |v.items| == 1 && v.current == v.tail + 1
    ensures Trim(v, DropTailItem, stale) == Trimmed(View(v.tail + 1, [], v.tail + 2), [Removed(stale, true)])
  {
  }

  lemma {:induction false} RemovedAt(v: View, p: Policy, n: nat, k: nat)
    requires v.Ok() && n <= |v.items| && k < |RemovedOf(v, p, n)|
    ensures var x := HandedOver(v, k);
            && v.tail <= x < v.tail + n
            && RemovedOf(v, p, n)[k] == Removed(v.At(x), p == DropTailItem || x >= v.current)
  {
    RemovedCount(v, p, n - 1);
    if k < |RemovedOf(v, p, n - 1)| {
      RemovedAt(v, p, n - 1, k);
    }
  }

  /** How far the tail goes. Frame by frame it passes one item, and the one being sent if that is the oldest.
      Fragment-wise it stops at the first item behind what it drops first that begins a fragment. */
  lemma {:induction false} PassesUntil(v: View, p: Policy)
    requires v.Ok() && |v.items| > 0
    ensures var n, first := Passed(v, p), if v.current == v.tail + 1 then 1 else 0;
            if p == DropTailItem then n == first + 1
            else && 1 <= n <= |v.items| && (n < |v.items| ==> first < n && v.items[n].fragStart)
                 && forall i :: first < i < n ==> !v.items[i].fragStart
  {
    if p == DropUntilFragmentStart {
      var n, first := Passed(v, p), if v.current == v.tail + 1 then 1 else 0;
      forall i | first < i < n
        ensures !v.items[i].fragStart
      {
        assert !Stops(v, i);
      }
    }
  }

  /** What stays: the items behind those passed, and in front of them the item being sent if it was passed, in the
      last slot passed, with that slot's times. The pointer stays where it is or goes behind what was passed. */
  lemma {:induction false} TrimLeaves(v: View, p: Policy, stale: Item)
    requires v.Ok() && |v.items| > 0 && !NothingToEvict(v, p)
    ensures var n, w := Passed(v, p), Trim(v, p, stale).view;
            var rest, slot := v.items[n..], v.items[n - 1];
            && w.current == (if v.current < v.tail + n then v.tail + n else v.current) && w.Head() == v.Head()
            && if v.tail < v.current <= v.tail + n then
                 var sent := v.items[v.current - 1 - v.tail];
                 w.items == [sent.(timestamp := slot.timestamp, ackTimestamp := slot.ackTimestamp, duration := slot.duration)] + rest
               else w.items == rest
  {
  }

  // ---------------------------------------------------------------- the send path

  /** The first item at or after i that is not marked to be skipped, or the head. */
  function NextIndex(v: View, i: nat): (n: nat)
    requires v.tail <= i <= v.Head()
    ensures i <= n <= v.Head()
    ensures n < v.Head() ==> !v.At(n).skip
    ensures forall k :: i <= k < n ==> v.At(k).skip
    decreases v.Head() - i
  {
    if i == v.Head() || !v.At(i).skip then i else NextIndex(v, i + 1)
  }

  predicate StartsSession(i: Item) { !i.skip && i.Boundary() }

  /** The first item at or after i on which a session may begin, or the head. */
  function NextBoundary(v: View, i: nat): (n: nat)
    requires v.tail <= i <= v.Head()
    ensures i <= n <= v.Head()
    ensures n < v.Head() ==> StartsSession(v.At(n))
    ensures forall k :: i <= k < n ==> !StartsSession(v.At(k))
    decreases v.Head() - i
  {
    if i == v.Head() || StartsSession(v.At(i)) then i else NextBoundary(v, i + 1)
  }

  /** A session begins on the first item that starts or ends a fragment and is not marked to be skipped. */
  lemma {:induction false} SessionBegins(v: View, i: nat)
    requires v.tail <= i <= v.Head()
    ensures var n := NextBoundary(v, i);
            && i <= n <= v.Head() && (n < v.Head() ==> !v.At(n).skip && (v.At(n).fragStart || v.At(n).fragEnd))
            && forall k: nat :: i <= k < n ==> v.At(k).skip || (!v.At(k).fragStart && !v.At(k).fragEnd)
  {
    var n := NextBoundary(v, i);
    assert forall k: nat :: i <= k < n ==> !StartsSession(v.At(k));
  }

  /** The boundary search depends only on which items from i on a session may begin with. */
  lemma {:induction false} SameBoundary(v: View, w: View, i: nat)
    requires v.tail <= i <= v.Head() == w.Head() && w.tail <= i
    requires forall k: nat :: i <= k < v.Head() ==> StartsSession(w.At(k)) == StartsSession(v.At(k))
    ensures NextBoundary(w, i) == NextBoundary(v, i)
    decreases v.Head() - i
  {
  }

  /** Searching from any place up to the answer gives the same answer. */
  lemma {:induction false} BoundaryFrom(v: View, i: nat, j: nat)
    requires v.tail <= i <= v.Head() && i <= j <= NextBoundary(v, i)
    ensures NextBoundary(v, j) == NextBoundary(v, i)
    decreases j - i
  {
  }

  /** Appending does not change a search that has an answer. */
  lemma {:induction false} BoundaryAppend(v: View, item: Item, i: nat)
    requires v.tail <= i <= v.Head() && NextBoundary(v, i) < v.Head()
    ensures NextBoundary(Append(v, item), i) == NextBoundary(v, i)
    decreases v.Head() - i
  {
    assert Append(v, item).At(i) == v.At(i);
    if !StartsSession(v.At(i)) {
      BoundaryAppend(v, item, i + 1);
    }
  }

  /** A fragment start behind the send pointer, or the pointer itself. */
  ghost predicate RollbackStart(v: View, r: nat)
    requires v.Ok()
  {
    v.tail <= r <= v.current && (r < v.current ==> v.At(r).fragStart)
  }

  /** What a backward search is asked for: the replay duration, the time of the slot the pointer
      is on, and whether to stop at acknowledged fragments. */
  datatype Search = Search(duration: nat, from: nat, byAck: bool) {
    /** A fragment start that ends the search: acknowledged, or the replay window away. */
    predicate Ends(f: Item) {
      f.fragStart && (AtAck(f) || Wrap64(f.ackTimestamp + duration) <= from)
    }

    predicate AtAck(f: Item) { byAck && f.received }
  }

  /** The exact rollback rule. `probe` is the slot the send pointer is on, which is stale when the
      view is drained. Going back from the pointer, the search stops at the nearest fragment start
      that ends it; one that ends it by its acknowledgement is itself not replayed. */
  ghost predicate RollbackRule(v: View, probe: Item, q: Search, r: nat)
    requires v.Ok()
  {
    if v.current == v.tail || q.duration == 0 || q.Ends(probe) then r == v.current
    else
      && RollbackStart(v, r)
      && (forall k :: r < k < v.current ==> !q.Ends(v.At(k)))
      && (|| (r < v.current && q.Ends(v.At(r)) && !q.AtAck(v.At(r)))
          || ((r < v.current ==> !q.Ends(v.At(r))) && ReplayFrom(v, q, r)))
  }

  /** No fragment start lies between r and the nearest acknowledged one behind it, or the tail. */
  ghost predicate ReplayFrom(v: View, q: Search, r: nat)
    requires v.Ok() && v.tail <= r <= v.current
  {
    || (forall k :: v.tail <= k < r ==> !v.At(k).fragStart)
    || exists g :: v.tail <= g < r && v.At(g).fragStart && q.AtAck(v.At(g))
                   && forall k :: g < k < r ==> !v.At(k).fragStart
  }

  /** The rule has one answer, so the search is a function of the view and its arguments. */
  lemma RollbackRuleUnique(v: View, probe: Item, q: Search, r: nat, s: nat)
    requires v.Ok() && RollbackRule(v, probe, q, r) && RollbackRule(v, probe, q, s)
    ensures r == s
  {
  }

  /** What acknowledgement-driven replay promises: no acknowledged fragment is sent again. */
  lemma ReplaysOnlyUnacknowledged(v: View, probe: Item, q: Search, r: nat, k: nat)
    requires v.Ok() && v.current > v.tail && q.duration > 0 && q.byAck && RollbackRule(v, probe, q, r)
    requires r <= k < v.current && v.At(k).fragStart
    ensures !v.At(k).received
  {
  }

  /** The pointer is rolled back to where the rule says, and past skipped items. `probe` is what the slot
      under the pointer holds. */
  ghost predicate RollsBack(v: View, probe: Item, duration: nat, byAck: bool, target: nat)
    requires v.Ok()
  {
    exists r: nat ::
      && RollbackRule(v, probe, Search(duration, probe.ackTimestamp, byAck), r)
      && target == (if v.current == v.tail || duration == 0 then r else NextIndex(v, r))
  }

  /** Nothing is replayed exactly when there is nothing behind the pointer or no time to go back, when
      the slot the pointer is on ends the search at once, or when the nearest fragment start behind it
      is acknowledged or there is none. */
  lemma ReplaySuppressedIff(v: View, probe: Item, q: Search, r: nat)
    requires v.Ok() && RollbackRule(v, probe, q, r)
    ensures r == v.current <==>
            v.current == v.tail || q.duration == 0 || q.Ends(probe) || ReplayFrom(v, q, v.current)
  {
    if ReplayFrom(v, q, v.current) {
      RollbackRuleUnique(v, probe, q, r, v.current);
    }
  }

  /** A fragment start that is not to be replayed past: acknowledged, if that counts, or at least the replay duration
      older than the slot the pointer is on, in 64 bits. */
  predicate Cuts(f: Item, probe: Item, duration: nat, byAck: bool) {
    && f.fragStart
    && ((byAck && f.received) || (f.ackTimestamp + duration) % 0x1_0000_0000_0000_0000 <= probe.ackTimestamp)
  }

  /** The oldest fragment start from i on behind the pointer, or the pointer. */
  ghost predicate OldestStart(v: View, i: nat, r: nat)
    requires v.Ok()
  {
    v.tail <= i <= r <= v.current && (r < v.current ==> v.At(r).fragStart) && forall k: nat :: i <= k < r ==> !v.At(k).fragStart
  }

  /** The nearest fragment start behind the pointer that cuts the replay. */
  ghost predicate NearestCut(v: View, probe: Item, duration: nat, byAck: bool, y: nat)
    requires v.Ok()
  {
    v.tail <= y < v.current && Cuts(v.At(y), probe, duration, byAck)
    && forall k: nat :: y < k < v.current ==> !Cuts(v.At(k), probe, duration, byAck)
  }

  /** From the nearest fragment start that is old enough everything is replayed, and behind one that is acknowledged
      everything; with neither, all that is in view. A slot under the pointer that cuts the replay leaves the pointer. */
  ghost predicate ReplayPoint(v: View, probe: Item, duration: nat, byAck: bool, r: nat)
    requires v.Ok()
  {
    if v.current == v.tail || duration == 0 || Cuts(probe, probe, duration, byAck) then r == v.current
    else
      || (exists y: nat :: NearestCut(v, probe, duration, byAck, y)
                           && if byAck && v.At(y).received then OldestStart(v, y + 1, r) else r == y)
      || ((forall k: nat :: v.tail <= k < v.current ==> !Cuts(v.At(k), probe, duration, byAck)) && OldestStart(v, v.tail, r))
  }

  /** The pointer goes to the replay point, and past skipped items. */
  lemma {:induction false} ReplayTarget(v: View, probe: Item, duration: nat, byAck: bool, target: nat, r: nat)
    requires v.Ok() && RollsBack(v, probe, duration, byAck, target) && ReplayPoint(v, probe, duration, byAck, r)
    ensures r <= v.current && target == if v.current == v.tail || duration == 0 then r else NextIndex(v, r)
  {
    hide NextIndex;
    var q := Search(duration, probe.ackTimestamp, byAck);
    var r': nat :| RollbackRule(v, probe, q, r') && target == (if v.current == v.tail || duration == 0 then r' else NextIndex(v, r'));
    CutsEnd(v, probe, q);
    PointRules(v, probe, q, r);
    RollbackRuleUnique(v, probe, q, r, r');
  }

  lemma CutsEnd(v: View, probe: Item, q: Search)
    requires q.from == probe.ackTimestamp
    ensures forall f: Item :: q.Ends(f) == Cuts(f, probe, q.duration, q.byAck)
  {
  }

  lemma PointRules(v: View, probe: Item, q: Search, r: nat)
    requires v.Ok() && ReplayPoint(v, probe, q.duration, q.byAck, r) && q.from == probe.ackTimestamp
    requires forall f: Item :: q.Ends(f) == Cuts(f, probe, q.duration, q.byAck)
    ensures r <= v.current && RollbackRule(v, probe, q, r)
  {
    hide Search.Ends;
    if v.current != v.tail && q.duration != 0 && !Cuts(probe, probe, q.duration, q.byAck) {
      if y: nat :| NearestCut(v, probe, q.duration, q.byAck, y) && if q.byAck && v.At(y).received then OldestStart(v, y + 1, r) else r == y {
        assert q.Ends(v.At(y)) && q.AtAck(v.At(y)) == (q.byAck && v.At(y).received);
        if r > y {
          assert v.At(y).fragStart;
          assert ReplayFrom(v, q, r);
        }
      } else {
        assert ReplayFrom(v, q, r);
      }
    }
  }

  /** There always is one. */
  lemma ReplayPointExists(v: View, probe: Item, duration: nat, byAck: bool)
    requires v.Ok()
    ensures exists r: nat :: ReplayPoint(v, probe, duration, byAck, r)
  {
    if v.current == v.tail || duration == 0 || Cuts(probe, probe, duration, byAck) {
      assert ReplayPoint(v, probe, duration, byAck, v.current);
    } else {
      CutOrNone(v, probe, duration, byAck, v.tail);
      if y: nat :| NearestCut(v, probe, duration, byAck, y) {
        StartOrPointer(v, y + 1);
        var x: nat :| OldestStart(v, y + 1, x);
        assert ReplayPoint(v, probe, duration, byAck, if byAck && v.At(y).received then x else y);
      } else {
        StartOrPointer(v, v.tail);
        var x: nat :| OldestStart(v, v.tail, x);
        assert ReplayPoint(v, probe, duration, byAck, x);
      }
    }
  }

  lemma {:induction false} CutOrNone(v: View, probe: Item, duration: nat, byAck: bool, i: nat)
    requires v.Ok() && v.tail <= i <= v.current
    ensures || (exists y: nat :: i <= y && NearestCut(v, probe, duration, byAck, y))
            || forall k: nat :: i <= k < v.current ==> !Cuts(v.At(k), probe, duration, byAck)
    decreases v.current - i
  {
    hide Cuts;
    if i < v.current {
      CutOrNone(v, probe, duration, byAck, i + 1);
      if (forall k: nat :: i < k < v.current ==> !Cuts(v.At(k), probe, duration, byAck)) && Cuts(v.At(i), probe, duration, byAck) {
        assert NearestCut(v, probe, duration, byAck, i);
      }
    }
  }

  lemma {:induction false} StartOrPointer(v: View, i: nat)
    requires v.Ok() && v.tail <= i <= v.current
    ensures exists r: nat :: OldestStart(v, i, r)
    decreases v.current - i
  {
    if i == v.current || v.At(i).fragStart {
      assert OldestStart(v, i, i);
    } else {
      StartOrPointer(v, i + 1);
      var r: nat :| OldestStart(v, i + 1, r);
      assert OldestStart(v, i, r);
    }
  }

  /** By time alone: the replay begins at the nearest fragment start that is at least the replay duration older than
      the slot the pointer is on; with none that old, at the oldest in view. */
  lemma {:induction false} ReplaysDuration(v: View, probe: Item, duration: nat, target: nat, x: nat)
    requires v.Ok() && v.tail < v.current && duration > 0 && RollsBack(v, probe, duration, false, target)
    requires probe.ackTimestamp + duration < 0x1_0000_0000_0000_0000
    requires forall k: nat :: v.tail <= k < v.current ==> v.At(k).ackTimestamp + duration < 0x1_0000_0000_0000_0000
    requires v.tail <= x <= v.current && (x < v.current ==> v.At(x).fragStart)
    requires forall k: nat :: x < k < v.current && v.At(k).fragStart ==> v.At(k).ackTimestamp + duration > probe.ackTimestamp
    requires || (x < v.current && v.At(x).ackTimestamp + duration <= probe.ackTimestamp)
             || ((x < v.current ==> v.At(x).ackTimestamp + duration > probe.ackTimestamp)
                 && forall k: nat :: v.tail <= k < x ==> !v.At(k).fragStart)
    ensures target == NextIndex(v, x)
  {
    hide NextIndex, RollsBack, NearestCut, OldestStart;
    assert !Cuts(probe, probe, duration, false);
    if x < v.current && v.At(x).ackTimestamp + duration <= probe.ackTimestamp {
      NearestByTime(v, probe, duration, x);
    } else {
      OldestByTime(v, probe, duration, x);
    }
    ReplayTarget(v, probe, duration, false, target, x);
  }

  lemma NearestByTime(v: View, probe: Item, duration: nat, x: nat)
    requires v.Ok() && v.tail <= x < v.current && v.At(x).fragStart && v.At(x).ackTimestamp + duration <= probe.ackTimestamp
    requires forall k: nat :: v.tail <= k < v.current ==> v.At(k).ackTimestamp + duration < 0x1_0000_0000_0000_0000
    requires forall k: nat :: x < k < v.current && v.At(k).fragStart ==> v.At(k).ackTimestamp + duration > probe.ackTimestamp
    ensures NearestCut(v, probe, duration, false, x)
  {
  }

  lemma OldestByTime(v: View, probe: Item, duration: nat, x: nat)
    requires v.Ok() && v.tail <= x <= v.current && (x < v.current ==> v.At(x).fragStart)
    requires forall k: nat :: v.tail <= k < v.current ==> v.At(k).ackTimestamp + duration < 0x1_0000_0000_0000_0000
    requires forall k: nat :: x <= k < v.current && v.At(k).fragStart ==> v.At(k).ackTimestamp + duration > probe.ackTimestamp
    requires forall k: nat :: v.tail <= k < x ==> !v.At(k).fragStart
    ensures OldestStart(v, v.tail, x) && forall k: nat :: v.tail <= k < v.current ==> !Cuts(v.At(k), probe, duration, false)
  {
  }

  // ---------------------------------------------------------------- adding an item

  /** The time the window spans, in the source's unsigned 64-bit arithmetic. */
  function WindowDuration(v: View): nat
    requires |v.items| > 0
  {
    var head := v.items[|v.items| - 1];
    Wrap64(head.ackTimestamp + head.duration - v.items[0].ackTimestamp)
  }

  datatype Limits = Limits(itemCount: nat, bufferDuration: nat, policy: Policy)

  predicate Available(v: View, l: Limits) {
    |v.items| == 0 || (|v.items| < l.itemCount && WindowDuration(v) < l.bufferDuration)
  }

  predicate Accepts(v: View, item: Item) {
    |item.data| > 0 && (|v.items| > 0 ==> v.items[|v.items| - 1].timestamp <= item.timestamp)
  }

  function Append(v: View, item: Item): View { v.(items := v.items + [item]) }

  /** Adding an item that passes the checks, evicting first when the window is full. */
  function AddItem(v: View, item: Item, l: Limits, stale: Item): Trimmed
    requires v.Ok()
  {
    if Available(v, l) then Trimmed(Append(v, item), [])
    else var t := Trim(v, l.policy, stale); Trimmed(Append(t.view, item), t.removed)
  }

  /** The add has nothing to evict but the item being sent. */
  predicate Squeezed(v: View, l: Limits) { !Available(v, l) && NothingToEvict(v, l.policy) }

  /** The window never outgrows the item limit and every put is counted: what was held plus the new
      item is, in number, what is held now plus what the callback was given. Frame by frame this
      holds exactly when the item being sent is not squeezed out. */
  lemma AddItemConserves(v: View, item: Item, l: Limits, stale: Item, x: nat)
    requires v.Ok() && l.itemCount > 1 && |v.items| <= l.itemCount
    ensures var r := AddItem(v, item, l, stale);
            && r.view.Ok() && |r.view.items| <= l.itemCount
            && |v.items| + 1 == |r.view.items| + |r.removed|
            && r.view.Head() == v.Head() + 1
            && (Owners(v.items, x) + Owners([item], x) == Owners(r.view.items, x) + RemovedOwners(r.removed, x)
                <==> (Squeezed(v, l) ==> (v.items[0].store == x <==> stale.store == x)))
  {
    if Available(v, l) {
      OwnersConcat(v.items, [item], x);
    } else {
      TrimCounts(v, l.policy, stale);
      TrimConserves(v, l.policy, stale, x);
      OwnersConcat(Trim(v, l.policy, stale).view.items, [item], x);
    }
  }

  /** An add evicts exactly when the window holds items, and as many as it may or for as long as it may; the new item
      comes last. */
  lemma {:induction false} AddItemEvictsIff(v: View, item: Item, l: Limits, stale: Item)
    requires v.Ok()
    ensures var n, r := |v.items|, AddItem(v, item, l, stale);
            var full := n > 0 && (n >= l.itemCount
              || (v.items[n - 1].ackTimestamp + v.items[n - 1].duration - v.items[0].ackTimestamp) % 0x1_0000_0000_0000_0000 >= l.bufferDuration);
            && (!full ==> r.removed == [] && r.view == View(v.tail, v.items + [item], v.current))
            && (full ==> var t := Trim(v, l.policy, stale);
                         r.removed == t.removed && r.view == View(t.view.tail, t.view.items + [item], t.view.current))
  {
  }

  /** The item whose time the window begins with once the new one is added: the oldest, or with the
      window full the slot the eviction leaves at the tail. */
  function FirstKept(v: View, item: Item, l: Limits): Item
    requires v.Ok()
  {
    if v.items == [] || Squeezed(v, l) then item
    else if Available(v, l) then v.items[0]
    else
      var n := Passed(v, l.policy);
      if StreamingInside(v) && v.current <= v.tail + n then v.items[n - 1]
      else if n < |v.items| then v.items[n]
      else item
  }

  /** The span after an add, for any frames: from the first slot kept to the end of the new item. So the
      window stays within its duration limit exactly when that does. */
  lemma AddItemSpan(v: View, item: Item, l: Limits, stale: Item)
    requires v.Ok()
    ensures var w := AddItem(v, item, l, stale).view;
            && |w.items| > 0
            && WindowDuration(w) == Wrap64(item.ackTimestamp + item.duration - FirstKept(v, item, l).ackTimestamp)
  {
  }

  /** Frames of one duration d following each other without a gap. */
  ghost predicate Uniform(items: seq<Item>, d: nat) {
    && (forall i :: 0 <= i < |items| ==> items[i].duration == d)
    && (forall i :: 0 < i < |items| ==> items[i].ackTimestamp == items[i - 1].ackTimestamp + d)
  }

  lemma {:induction false} UniformSpan(items: seq<Item>, d: nat)
    requires Uniform(items, d) && |items| > 0
    ensures items[|items| - 1].ackTimestamp == items[0].ackTimestamp + (|items| - 1) * d
  {
    if |items| > 1 {
      UniformSpan(items[..|items| - 1], d);
      assert items[|items| - 1].ackTimestamp == items[|items| - 2].ackTimestamp + d;
      calc { (|items| - 2) * d + d; == (|items| - 1) * d; }
    }
  }

  /** The span of a gapless window is its frame count times the frame duration. */
  lemma SpanIs(v: View, d: nat)
    requires |v.items| > 0 && Uniform(v.items, d) && |v.items| * d < 0x1_0000_0000_0000_0000
    ensures WindowDuration(v) == |v.items| * d
  {
    UniformSpan(v.items, d);
    var first, last := v.items[0], v.items[|v.items| - 1];
    calc {
      last.ackTimestamp + last.duration - first.ackTimestamp;
      == (|v.items| - 1) * d + d;
      == |v.items| * d;
    }
  }

  /** Every slot keeps its times when the tail steps over n slots. */
  lemma SteppedTimes(v: View, n: nat, i: nat)
    requires v.Ok() && 0 < n <= |v.items| && i < |Stepped(v, n).items|
    ensures var w, k := Stepped(v, n).items, v.Head() - |Stepped(v, n).items| - v.tail;
            && 0 <= k && i + k < |v.items|
            && w[i].ackTimestamp == v.items[i + k].ackTimestamp && w[i].duration == v.items[i + k].duration
  {
  }

  /** Evicting leaves the window gapless: the retained item takes over its slot's times. */
  lemma SteppedUniform(v: View, n: nat, d: nat)
    requires v.Ok() && 0 < n <= |v.items| && Uniform(v.items, d)
    ensures Uniform(Stepped(v, n).items, d)
    ensures var w := Stepped(v, n).items;
            |w| > 0 ==> w[|w| - 1].ackTimestamp == v.items[|v.items| - 1].ackTimestamp
  {
    hide Stepped;
    var w := Stepped(v, n).items;
    forall i | 0 <= i < |w|
      ensures w[i].duration == d && (0 < i ==> w[i].ackTimestamp == w[i - 1].ackTimestamp + d)
    {
      SteppedTimes(v, n, i);
      if 0 < i {
        SteppedTimes(v, n, i - 1);
      }
    }
    if |w| > 0 {
      SteppedTimes(v, n, |w| - 1);
    }
  }

  lemma AppendUniform(items: seq<Item>, item: Item, d: nat)
    ensures Uniform(items + [item], d) <==>
            && Uniform(items, d) && item.duration == d
            && (items != [] ==> item.ackTimestamp == items[|items| - 1].ackTimestamp + d)
  {
    var all := items + [item];
    assert forall i :: 0 <= i < |items| ==> all[i] == items[i];
    assert all[|items|] == item;
  }

  /** The temporal limit: with gapless frames of duration d the span stays below the limit plus
      one frame, so it never passes the limit when d divides it. */
  lemma AddItemKeepsDuration(v: View, item: Item, l: Limits, stale: Item, d: nat)
    requires v.Ok()
    requires l.itemCount > 1 && 0 < d < l.bufferDuration && l.bufferDuration + d < 0x1_0000_0000_0000_0000
    requires Uniform(v.items + [item], d)
    requires |v.items| * d < l.bufferDuration + d
    ensures var w := AddItem(v, item, l, stale).view;
            && Uniform(w.items, d) && |w.items| * d < l.bufferDuration + d
            && WindowDuration(w) == |w.items| * d
            && (l.bufferDuration % d == 0 ==> WindowDuration(w) <= l.bufferDuration)
  {
    hide Uniform, AddItem, WindowDuration;
    var w := AddItem(v, item, l, stale).view;
    AddItemUniform(v, item, l, stale, d);
    if |v.items| > 0 {
      SpanIs(v, d);
    }
    if Available(v, l) {
      assert (|v.items| + 1) * d == |v.items| * d + d;
    } else {
      FewerTimes(|w.items|, |v.items|, d);
    }
    SpanIs(w, d);
    if l.bufferDuration % d == 0 {
      DividesBound(|w.items|, d, l.bufferDuration);
    }
  }

  lemma AddItemUniform(v: View, item: Item, l: Limits, stale: Item, d: nat)
    requires v.Ok() && Uniform(v.items + [item], d)
    ensures var w := AddItem(v, item, l, stale).view;
            && Uniform(v.items, d) && Uniform(w.items, d) && |w.items| > 0
            && (if Available(v, l) then |w.items| == |v.items| + 1 else |v.items| > 1 ==> |w.items| <= |v.items|)
            && (Squeezed(v, l) ==> |w.items| == 1 == |v.items|)
  {
    hide Uniform, Stepped, RemovedOf;
    AppendUniform(v.items, item, d);
    if !Available(v, l) {
      TrimCounts(v, l.policy, stale);
      TrimUniform(v, l.policy, stale, item, d);
    }
  }

  lemma TrimUniform(v: View, p: Policy, stale: Item, item: Item, d: nat)
    requires v.Ok() && |v.items| > 0 && Uniform(v.items + [item], d)
    ensures Uniform(Trim(v, p, stale).view.items + [item], d)
  {
    hide Uniform;
    AppendUniform(v.items, item, d);
    if NothingToEvict(v, p) {
      EmptyUniform(d);
    } else {
      SteppedUniform(v, Passed(v, p), d);
    }
    AppendUniform(Trim(v, p, stale).view.items, item, d);
  }

  lemma EmptyUniform(d: nat)
    ensures Uniform([], d)
  {
  }
}

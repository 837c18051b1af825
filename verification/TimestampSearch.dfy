/** The search for the item an acknowledgement belongs to: a bisection of the window by timestamp. An item
    spans its whole duration, both ends included, so where frames follow each other without a gap the end of
    one is the start of the next, and either may be found. */
module TimestampSearch {
  import opened ViewItems
  import opened ContentView

  function EndOf(i: Item): nat { i.ackTimestamp + i.duration }

  predicate Spans(i: Item, t: nat) { i.ackTimestamp <= t <= EndOf(i) }

  function Middle(lo: nat, hi: int): (m: nat)
    requires lo <= hi
    ensures lo <= m <= hi
  {
    (lo + hi) / 2
  }

  /** The bisection of the indices from lo to hi; `last` is what it looked at before. */
  function Bisect(v: View, lo: nat, hi: int, t: nat, last: nat): (r: nat)
    requires v.tail <= lo && hi < v.Head() && v.Holds(last)
    ensures v.Holds(r)
    decreases hi - lo + 1
  {
    if lo > hi then last
    else
      var mid := Middle(lo, hi);
      if Spans(v.At(mid), t) then mid
      else if v.At(mid).ackTimestamp > t then Bisect(v, lo, mid - 1, t, mid)
      else Bisect(v, mid + 1, hi, t, mid)
  }

  lemma BisectUnrolled(v: View, lo: nat, hi: int, t: nat, last: nat)
    requires v.tail <= lo <= hi < v.Head() && v.Holds(last)
    ensures var mid := Middle(lo, hi);
            Bisect(v, lo, hi, t, last) ==
              if Spans(v.At(mid), t) then mid
              else if v.At(mid).ackTimestamp > t then Bisect(v, lo, mid - 1, t, mid)
              else Bisect(v, mid + 1, hi, t, mid)
  {
    hide Middle;
  }

  lemma BisectOver(v: View, lo: nat, hi: int, t: nat, last: nat)
    requires v.tail <= lo && hi < v.Head() && v.Holds(last) && lo > hi
    ensures Bisect(v, lo, hi, t, last) == last
  {
  }

  /** The item found for timestamp t. */
  function Found(v: View, t: nat): (r: nat)
    requires v.items != []
    ensures v.Holds(r)
  {
    Bisect(v, v.tail, v.Head() - 1, t, v.tail)
  }

  /** Items begin and end in order, as their acknowledgements are to come. */
  ghost predicate Ordered(v: View) {
    forall i: nat, j: nat :: v.Holds(i) && v.Holds(j) && i <= j ==>
      v.At(i).ackTimestamp <= v.At(j).ackTimestamp && EndOf(v.At(i)) <= EndOf(v.At(j))
  }

  /** What the bisection knows: everything before lo is over at t, everything after hi begins later, and it has
      just looked at one of the two around. */
  ghost predicate Narrowed(v: View, lo: nat, hi: int, t: nat, last: nat) {
    && v.tail <= lo <= hi + 1 <= v.Head() && v.Holds(last)
    && (forall i: nat :: v.tail <= i < lo ==> EndOf(v.At(i)) < t)
    && (forall i: nat :: hi < i < v.Head() ==> v.At(i).ackTimestamp > t)
    && (lo == hi + 1 ==> last == lo || last + 1 == lo)
  }

  /** The item spans t, or t falls into the gap before or behind it. */
  ghost predicate NextTo(v: View, t: nat, r: nat)
    requires v.Holds(r)
  {
    || Spans(v.At(r), t)
    || ((forall i: nat :: v.tail <= i < r ==> EndOf(v.At(i)) < t) && (forall i: nat :: r < i < v.Head() ==> v.At(i).ackTimestamp > t))
  }

  lemma {:induction false} BisectFinds(v: View, lo: nat, hi: int, t: nat, last: nat)
    requires Ordered(v) && Narrowed(v, lo, hi, t, last)
    ensures NextTo(v, t, Bisect(v, lo, hi, t, last))
    decreases hi - lo + 1
  {
    hide Bisect, Middle, Ordered, Narrowed, NextTo;
    NarrowedIn(v, lo, hi, t, last);
    if lo <= hi {
      BisectUnrolled(v, lo, hi, t, last);
      var mid := Middle(lo, hi);
      if Spans(v.At(mid), t) {
        SpansNext(v, t, mid);
      } else if v.At(mid).ackTimestamp > t {
        NarrowsBelow(v, lo, hi, t, last, mid);
        BisectFinds(v, lo, mid as int - 1, t, mid);
      } else {
        NarrowsAbove(v, lo, hi, t, last, mid);
        BisectFinds(v, mid + 1, hi, t, mid);
      }
    } else {
      NarrowedOut(v, lo, hi, t, last);
    }
  }

  lemma NarrowedIn(v: View, lo: nat, hi: int, t: nat, last: nat)
    requires Narrowed(v, lo, hi, t, last)
    ensures v.tail <= lo <= hi + 1 <= v.Head() && v.Holds(last)
  {
  }

  lemma NarrowedOut(v: View, lo: nat, hi: int, t: nat, last: nat)
    requires Narrowed(v, lo, hi, t, last) && lo > hi
    ensures NextTo(v, t, last) && Bisect(v, lo, hi, t, last) == last
  {
  }

  lemma SpansNext(v: View, t: nat, r: nat)
    requires v.Holds(r) && Spans(v.At(r), t)
    ensures NextTo(v, t, r)
  {
  }

  lemma NarrowsBelow(v: View, lo: nat, hi: int, t: nat, last: nat, mid: nat)
    requires Ordered(v) && Narrowed(v, lo, hi, t, last) && lo <= mid <= hi && v.At(mid).ackTimestamp > t
    ensures Narrowed(v, lo, mid - 1, t, mid)
  {
  }

  lemma NarrowsAbove(v: View, lo: nat, hi: int, t: nat, last: nat, mid: nat)
    requires Ordered(v) && Narrowed(v, lo, hi, t, last) && lo <= mid <= hi && EndOf(v.At(mid)) < t
    ensures Narrowed(v, mid + 1, hi, t, mid)
  {
  }

  /** With the items in order an item that spans t is found exactly if there is one; if not, one next to the
      gap t falls into. */
  lemma {:induction false} FoundSpans(v: View, t: nat)
    requires v.items != [] && Ordered(v)
    ensures Spans(v.At(Found(v, t)), t) <==> exists i: nat :: v.Holds(i) && Spans(v.At(i), t)
    ensures NextTo(v, t, Found(v, t))
  {
    BisectFinds(v, v.tail, v.Head() - 1, t, v.tail);
  }

  // ---------------------------------------------------------------- frames without gaps

  predicate Gapless(v: View) {
    && (forall i :: 0 <= i < |v.items| ==> v.items[i].duration > 0)
    && (forall i :: 0 < i < |v.items| ==> v.items[i].ackTimestamp == EndOf(v.items[i - 1]))
  }

  lemma {:induction false} GaplessOrder(v: View, i: nat, j: nat)
    requires Gapless(v) && v.Holds(i) && v.Holds(j) && i < j
    ensures EndOf(v.At(i)) <= v.At(j).ackTimestamp && (i + 1 < j ==> EndOf(v.At(i)) < v.At(j).ackTimestamp)
    decreases j
  {
    assert v.items[j - v.tail].ackTimestamp == EndOf(v.items[j - v.tail - 1]);
    if i + 1 < j {
      GaplessOrder(v, i, j - 1);
    }
  }

  /** The bisection of the indices from lo to hi comes to x before it comes to x - 1. */
  predicate Meets(lo: nat, hi: int, x: nat)
    decreases hi - lo + 1
  {
    lo <= hi &&
    var mid := Middle(lo, hi);
    mid == x || (mid + 1 != x && if mid > x then Meets(lo, mid - 1, x) else Meets(mid + 1, hi, x))
  }

  lemma MeetsUnrolled(lo: nat, hi: int, x: nat)
    requires lo <= hi
    ensures var mid := Middle(lo, hi);
            Meets(lo, hi, x) <==> mid == x || (mid + 1 != x && if mid > x then Meets(lo, mid - 1, x) else Meets(mid + 1, hi, x))
  {
    hide Middle;
  }

  lemma {:induction false} BisectPair(v: View, lo: nat, hi: int, last: nat, x: nat)
    requires Gapless(v) && v.tail <= lo && hi < v.Head() && v.Holds(last) && lo <= x <= hi && (x > v.tail ==> lo < x)
    ensures Bisect(v, lo, hi, v.At(x).ackTimestamp, last) == if x == v.tail || Meets(lo, hi, x) then x else x - 1
    decreases hi - lo + 1
  {
    hide Bisect, Middle, Meets, Gapless;
    var mid := Middle(lo, hi);
    BisectUnrolled(v, lo, hi, v.At(x).ackTimestamp, last);
    MeetsUnrolled(lo, hi, x);
    GaplessSpans(v, mid, x);
    if mid + 1 < x {
      BisectPair(v, mid + 1, hi, mid, x);
    } else if x < mid {
      BisectPair(v, lo, mid - 1, mid, x);
    }
  }

  lemma GaplessSpans(v: View, i: nat, x: nat)
    requires Gapless(v) && v.Holds(i) && v.Holds(x)
    ensures var t := v.At(x).ackTimestamp;
            (Spans(v.At(i), t) <==> i == x || i + 1 == x) && (v.At(i).ackTimestamp > t <==> x < i)
  {
    assert v.items[i - v.tail].duration > 0 && v.items[x - v.tail].duration > 0;
    if i < x {
      GaplessOrder(v, i, x);
      assert i + 1 == x ==> v.items[x - v.tail].ackTimestamp == EndOf(v.items[x - v.tail - 1]);
    } else if x < i {
      GaplessOrder(v, x, i);
    }
  }

  /** So the acknowledgement of an item of a gapless window, which carries the time the item begins at, is put
      down to it exactly if it is the oldest, or the bisection of the window comes to it before it comes to the
      item in front of it, which ends at that time; otherwise to that one. */
  lemma {:induction false} GaplessFound(v: View, x: nat)
    requires Gapless(v) && v.Holds(x)
    ensures Found(v, v.At(x).ackTimestamp) == if x == v.tail || Meets(v.tail, v.Head() - 1, x) then x else x - 1
  {
    hide Bisect, Meets, Gapless, Spans, EndOf;
    var last := v.Head() - 1;
    assert v.tail <= x <= last;
    BisectPair(v, v.tail, v.Head() - 1, v.tail, x);
  }

  // ---------------------------------------------------------------- the fragment behind

  /** The next fragment boundary from i on that is not a fragment persisted already, or the head. */
  function Behind(v: View, i: nat, persisted: set<nat>): (n: nat)
    requires v.tail <= i <= v.Head()
    ensures i <= n <= v.Head()
    decreases v.Head() - i
  {
    var n := NextBoundary(v, i);
    if n < v.Head() && v.At(n).fragStart && n in persisted then Behind(v, n + 1, persisted) else n
  }

  /** Partway through the search behind index i: the boundary found last is in front of cur. */
  ghost predicate Sought(v: View, i: nat, persisted: set<nat>, found: bool, item: Item, cur: nat) {
    && v.tail <= i <= cur <= v.Head()
    && if found then i < cur && item == v.At(cur - 1) && StartsSession(item) && Behind(v, i, persisted) == Behind(v, cur - 1, persisted)
       else cur == v.Head() && Behind(v, i, persisted) == v.Head()
  }

  lemma SoughtFirst(v: View, i: nat, persisted: set<nat>, found: bool, item: Item, cur: nat)
    requires v.tail <= i <= v.Head()
    requires var n := NextBoundary(v.(current := i), i);
             found == (n < v.Head()) && cur == (if found then n + 1 else n) && (found ==> item == v.At(n))
    ensures Sought(v, i, persisted, found, item, cur)
  {
    SameBoundary(v, v.(current := i), i);
    BoundaryFrom(v, i, NextBoundary(v, i));
  }

  /** Past a fragment that is persisted the search goes on from the next item; at any other it is over. */
  lemma SoughtOn(v: View, i: nat, persisted: set<nat>, item: Item, cur: nat)
    requires Sought(v, i, persisted, true, item, cur)
    ensures Behind(v, i, persisted) == if item.fragStart && cur - 1 in persisted then Behind(v, cur, persisted) else cur - 1
  {
  }

  lemma SoughtIn(v: View, i: nat, persisted: set<nat>, found: bool, item: Item, cur: nat)
    requires Sought(v, i, persisted, found, item, cur)
    ensures v.tail <= i <= cur <= v.Head()
    ensures if found then i < cur && item == v.At(cur - 1) else cur == v.Head() && Behind(v, i, persisted) == v.Head()
  {
    hide Behind;
  }

  lemma SoughtFrom(v: View, i: nat, j: nat, persisted: set<nat>, found: bool, item: Item, cur: nat)
    requires v.tail <= i <= j && Sought(v, j, persisted, found, item, cur) && Behind(v, i, persisted) == Behind(v, j, persisted)
    ensures Sought(v, i, persisted, found, item, cur)
  {
    hide Behind;
  }
}

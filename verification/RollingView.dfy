/** The ring buffer behind the content view: item i lives in slot i modulo the slot count. */
module RollingView {
  import opened Arithmetic
  import opened ViewItems
  import opened ContentView
  import opened TimestampSearch

  datatype Status = Success | InvalidLength | InvalidTimestamp | InvalidIndex | NoMoreItems

  /** The slot of index i among n, by repeated subtraction; SlotIsModulo relates it to i % n. */
  function SlotOf(i: nat, n: nat): (s: nat)
    requires n > 0
    ensures s < n
  {
    if i < n then i else SlotOf(i - n, n)
  }

  lemma {:induction false} SlotIsModulo(i: nat, n: nat)
    requires n > 0
    ensures SlotOf(i, n) == i % n
  {
    if i >= n {
      SlotIsModulo(i - n, n);
      RemainderBack(i, n);
    }
  }

  /** Indices less than a buffer apart do not share a slot. */
  lemma {:induction false} SlotsDistinct(i: nat, j: nat, n: nat)
    requires n > 0 && i < j < i + n
    ensures SlotOf(i, n) != SlotOf(j, n)
  {
    if n <= i {
      SlotsDistinct(i - n, j - n, n);
    }
  }

  const BLANK := Item(0, 0, 0, 0, [], 0, 0, false, false, false, false, false, false)

  const MIN_CONTENT_VIEW_ITEMS: nat := 10

  class RollingContentView {
    const slots: array<Item>
    const bufferDuration: nat
    const policy: Policy
    var head: nat
    var tail: nat
    var current: nat
    ghost var items: seq<Item>

    ghost predicate Shaped() {
      slots.Length > MIN_CONTENT_VIEW_ITEMS
    }

    ghost predicate Valid()
      reads this, slots
    {
      && Shaped()
      && tail <= current <= head <= tail + slots.Length && |items| == head - tail
      && Shows(items, tail)
    }

    /** Item k of the list is in the slot of index from + k. */
    ghost predicate Shows(list: seq<Item>, from: nat)
      reads slots
      requires Shaped()
    {
      forall i: nat :: from <= i < from + |list| ==> slots[SlotOf(i, slots.Length)] == list[i - from]
    }

    ghost function Window(): (v: View)
      requires Valid()
      reads this, slots
      ensures v.Ok()
    {
      View(tail, items, current)
    }

    ghost function Limit(): Limits {
      Limits(slots.Length, bufferDuration, policy)
    }

    constructor (maxItemCount: nat, duration: nat, overflow: Policy)
      requires maxItemCount > MIN_CONTENT_VIEW_ITEMS && duration > 0
      ensures Valid() && fresh(slots) && Window() == View(0, [], 0)
      ensures Limit() == Limits(maxItemCount, duration, overflow)
    {
      slots := new Item[maxItemCount](_ => BLANK);
      bufferDuration, policy := duration, overflow;
      head, tail, current, items := 0, 0, 0, [];
    }

    function Read(i: nat): (item: Item)
      requires Shaped()
      reads this, slots
      ensures Valid() && tail <= i < head ==> item == items[i - tail]
    {
      slots[SlotOf(i, slots.Length)]
    }

    method GetNext() returns (status: Status, item: Item)
      requires Valid()
      modifies this`current
      ensures Valid()
      ensures status == Success <==> old(current) < head
      ensures status == Success ==> item == old(Window()).At(old(current)) && Window() == old(Window()).(current := old(current) + 1)
      ensures status != Success ==> status == NoMoreItems && Window() == old(Window())
    {
      item := BLANK;
      if head == tail || current == head {
        return NoMoreItems, item;
      }
      item := Read(current);
      current := current + 1;
      status := Success;
    }

    method GetItemAt(i: nat) returns (status: Status, item: Item)
      requires Valid()
      ensures status == Success <==> Window().Holds(i)
      ensures if status == Success then item == Window().At(i) else status == InvalidIndex
    {
      item := BLANK;
      if tail <= i < head {
        status, item := Success, Read(i);
      } else {
        status := InvalidIndex;
      }
    }

    /** The item for a timestamp that is not before the oldest: an index below the tail is never asked for, so
        the upper end does not wrap. */
    method FindItem(t: nat) returns (i: nat)
      requires Valid() && tail < head && Read(tail).ackTimestamp <= t
      ensures i == Found(Window(), t)
    {
      hide Shows, Bisect, Middle, SlotOf;
      ghost var v := Window();
      i := tail;
      var oldest, newest := tail, head - 1;
      while oldest <= newest
        invariant tail <= oldest <= newest + 1 <= head && tail <= i < head
        invariant Bisect(v, oldest, newest, t, i) == Found(v, t)
        decreases newest + 1 - oldest
      {
        var mid := Middle(oldest, newest);
        var status, item := GetItemAt(mid);
        BisectUnrolled(v, oldest, newest, t, i);
        i := mid;
        if item.ackTimestamp <= t <= item.ackTimestamp + item.duration {
          return;
        }
        if item.ackTimestamp > t {
          newest := mid - 1;
        } else {
          oldest := mid + 1;
        }
      }
      BisectOver(v, oldest, newest, t, i);
    }

    method SetCurrentIndex(i: nat) returns (status: Status)
      requires Valid()
      modifies this`current
      ensures Valid()
      ensures status == (if tail <= i <= head then Success else InvalidIndex)
      ensures Window() == old(Window()).(current := if status == Success then i else old(current))
    {
      if tail <= i <= head {
        current := i;
        status := Success;
      } else {
        status := InvalidIndex;
      }
    }

    /** Writes to an item of the window through the pointer GetItemAt or GetNext gave out. */
    method SetItem(i: nat, item: Item)
      requires Valid() && tail <= i < head
      modifies this`items, slots
      ensures Valid() && Window() == old(Window()).Put(i, item)
    {
      forall k: nat | tail <= k < head && k != i
        ensures SlotOf(k, slots.Length) != SlotOf(i, slots.Length)
      {
        SlotsDistinct(if k < i then k else i, if k < i then i else k, slots.Length);
      }
      slots[SlotOf(i, slots.Length)] := item;
      items := items[i - tail := item];
    }

    /** Moves the tail up to i, handing every item passed over to the callback. */
    method TrimTail(i: nat) returns (status: Status, removed: seq<Removed>)
      requires Valid()
      modifies this`tail, this`current, this`items
      ensures Valid()
      ensures status == (if old(tail) <= i <= head then Success else InvalidIndex)
      ensures status == InvalidIndex ==> removed == [] && Window() == old(Window())
      ensures status == Success ==>
                && Window() == View(i, old(items)[i - old(tail)..], if old(current) < i then i else old(current))
                && |removed| == i - old(tail)
                && forall k :: 0 <= k < |removed| ==> removed[k] == Removed(old(items)[k], old(current) <= old(tail) + k)
    {
      hide Shows, SlotOf;
      removed := [];
      if i < tail || head < i {
        return InvalidIndex, removed;
      }
      while tail != i
        invariant old(tail) <= tail <= i && items == old(items)
        invariant current == if old(current) < tail then tail else old(current)
        invariant |removed| == tail - old(tail)
        invariant forall k :: 0 <= k < |removed| ==> removed[k] == Removed(old(items)[k], old(current) <= old(tail) + k)
        decreases i - tail
      {
        ShownAt(items, old(tail), tail);
        var item := slots[SlotOf(tail, slots.Length)];
        tail := tail + 1;
        var currentRemoved := false;
        if current < tail {
          current := tail;
          currentRemoved := true;
        }
        removed := removed + [Removed(item, currentRemoved)];
      }
      ShowsSuffix(items, old(tail), i - old(tail));
      items := items[i - old(tail)..];
      status := Success;
    }

    lemma ShownAt(list: seq<Item>, from: nat, i: nat)
      requires Shaped() && Shows(list, from) && from <= i < from + |list|
      ensures slots[SlotOf(i, slots.Length)] == list[i - from]
    {
    }

    /** Makes room by the overflow policy. The window stays well formed exactly when there is
        something to evict besides the item being sent. */
    method TrimTailItems() returns (removed: seq<Removed>)
      requires Valid() && tail < head
      modifies this`tail, this`current, this`items, slots
      ensures Shaped() && head == old(head)
      ensures Valid() <==> !NothingToEvict(old(Window()), policy)
      ensures Trimmed(View(tail, items, current), removed) == Trim(old(Window()), policy, old(Read(head)))
    {
      ghost var v := Window();
      if policy == DropTailItem {
        // When the tail is the item being sent, the one after it goes instead.
        var passed := if current == tail + 1 then 2 else 1;
        removed := [Removed(Read(tail + passed - 1), true)];
        if !NothingToEvict(v, policy) {
          OneRemoved(v);
        }
        KeepStreaming(v, passed);
      } else {
        var passed;
        passed, removed := DropFragment();
        KeepStreaming(v, passed);
      }
    }

    lemma OneRemoved(v: View)
      requires v.Ok() && |v.items| > 0 && !NothingToEvict(v, DropTailItem)
      ensures var n := Passed(v, DropTailItem);
              RemovedOf(v, DropTailItem, n) == [Removed(v.items[n - 1], true)]
    {
      assert RemovedOf(v, DropTailItem, 0) == [];
      var n := Passed(v, DropTailItem);
      assert n == 2 ==> RemovedOf(v, DropTailItem, 1) == [];
    }

    /** Moves the tail over the passed slots and the send pointer out of them, keeping the item
        being sent at the tail. Passing one slot more than there is breaks the window. */
    method KeepStreaming(ghost v: View, passed: nat)
      requires Valid() && v == Window()
      requires 0 < passed <= |v.items| || (passed == 2 && |v.items| == 1 && StreamingInside(v))
      modifies this`tail, this`current, this`items, slots
      ensures Shaped() && head == old(head)
      ensures Valid() <==> passed <= |v.items|
      ensures Valid() ==> Window() == Stepped(v, passed)
      ensures !Valid() ==> tail == head && current == head + 1 && items == []
    {
      if current > tail && current <= tail + passed {
        RetainAtTail(v, passed);
      } else {
        tail := tail + passed;
        if current <= tail {
          current := tail;
        }
        items := v.items[passed..];
      }
    }

    /** The tail passes the item being sent, which is moved into the last slot passed. */
    method RetainAtTail(ghost v: View, passed: nat)
      requires Valid() && v == Window() && tail < current <= tail + passed && tail + passed - 1 <= head
      modifies this`tail, this`current, this`items, slots
      ensures Shaped() && head == old(head)
      ensures Valid() <==> passed <= |v.items|
      ensures Valid() ==> Window() == Stepped(v, passed)
      ensures !Valid() ==> tail == head && current == head + 1 && items == []
    {
      hide SlotOf, Stepped, Shows;
      if tail + passed - 1 < head {
        RetainInside(v, passed);
      } else {
        RetainPast();
      }
    }

    /** The last slot passed is in the window: the item stays in front of what is left. */
    method RetainInside(ghost v: View, passed: nat)
      requires Valid() && v == Window() && tail < current <= tail + passed <= head
      modifies this`tail, this`current, this`items, slots
      ensures Valid() && head == old(head) && Window() == Stepped(v, passed)
    {
      hide SlotOf, Stepped, Shows;
      var streaming, last := current - 1, tail + passed - 1;
      ghost var rest := v.items[passed..];
      ShowsSuffix(items, tail, passed);
      RetainedStep(v, passed);
      MoveInto(last, streaming, rest);
      tail, current := last, last + 1;
      items := [Read(tail)] + rest;
    }

    lemma ShowsSuffix(list: seq<Item>, from: nat, n: nat)
      requires Shaped() && Shows(list, from) && n <= |list|
      ensures Shows(list[n..], from + n)
    {
    }

    /** It is behind the window: the item is written where nothing is read, and the pointer is past the head. */
    method RetainPast()
      requires Valid() && tail < current
      modifies this`tail, this`current, this`items, slots
      ensures Shaped() && head == old(head) && tail == head && current == head + 1 && items == []
    {
      var streaming := current - 1;
      MoveInto(head, streaming, []);
      tail, current, items := head, head + 1, [];
    }

    lemma RetainedStep(v: View, passed: nat)
      requires v.Ok() && v.tail < v.current <= v.tail + passed && passed <= |v.items|
      ensures var kept := Retained(v.items[passed - 1], v.items[v.current - 1 - v.tail]);
              Stepped(v, passed) == View(v.tail + passed - 1, [kept] + v.items[passed..], v.tail + passed)
    {
    }

    lemma ShowsCons(first: Item, rest: seq<Item>, from: nat)
      requires Shaped() && slots[SlotOf(from, slots.Length)] == first && Shows(rest, from + 1)
      ensures Shows([first] + rest, from)
    {
    }

    /** Copies what the allocation of slot src's item carries into slot dst. */
    method MoveInto(dst: nat, src: nat, ghost rest: seq<Item>)
      requires Shaped() && dst + 1 + |rest| <= dst + slots.Length && Shows(rest, dst + 1)
      modifies slots
      ensures slots[SlotOf(dst, slots.Length)] == old(Retained(Read(dst), Read(src)))
      ensures Shows([Read(dst)] + rest, dst)
    {
      forall i: nat | dst < i < dst + 1 + |rest|
        ensures SlotOf(i, slots.Length) != SlotOf(dst, slots.Length)
      {
        SlotsDistinct(dst, i, slots.Length);
      }
      slots[SlotOf(dst, slots.Length)] := Retained(Read(dst), Read(src));
      ShowsCons(Read(dst), rest, dst);
    }

    /** The loop of the fragment-wise policy: how many slots to pass, and what is removed. */
    method DropFragment() returns (n: nat, removed: seq<Removed>)
      requires Valid() && tail < head
      ensures n == Passed(Window(), DropUntilFragmentStart)
      ensures removed == RemovedOf(Window(), DropUntilFragmentStart, n)
    {
      ghost var v := Window();
      n, removed := 0, [];
      var dropped := current <= tail;
      while n == 0 || (tail + n != head && (|removed| == 0 || !Read(tail + n).fragStart))
        invariant n <= |v.items|
        invariant removed == RemovedOf(v, DropUntilFragmentStart, n) && |removed| == Dropped(v, n)
        invariant dropped == (!StreamingInside(v) || v.current <= tail + n)
        invariant forall k :: 1 <= k < n ==> !Stops(v, k)
        decreases |v.items| - n
      {
        if !(current > tail && tail + n == current - 1) {
          removed := removed + [Removed(Read(tail + n), dropped)];
        } else {
          // Items past the one being sent were never sent.
          dropped := true;
        }
        n := n + 1;
      }
      PassedIs(v, n);
    }

    lemma PassedIs(v: View, n: nat)
      requires v.Ok() && 0 < n <= |v.items| && (n == |v.items| || Stops(v, n))
      requires forall k :: 1 <= k < n ==> !Stops(v, k)
      ensures Passed(v, DropUntilFragmentStart) == n
    {
    }

    method CheckAvailability() returns (available: bool)
      requires Valid()
      ensures available == Available(Window(), Limit())
    {
      available := true;
      if head != tail {
        var first, last := Read(tail), Read(head - 1);
        if head - tail >= slots.Length || Wrap64(last.ackTimestamp + last.duration - first.ackTimestamp) >= bufferDuration {
          available := false;
        }
      }
    }

    /** Appends an item, evicting first when the window is full. When all there is to evict is the
        item being sent, what the slot behind it holds is reported instead, the sent item's storage
        has no owner any more, and the new item counts as sent. */
    method AddItem(item: Item) returns (status: Status, removed: seq<Removed>)
      requires Valid()
      modifies this`head, this`tail, this`current, this`items, slots
      ensures Valid()
      ensures status == Success <==> Accepts(old(Window()), item)
      ensures status != Success ==> removed == [] && Window() == old(Window())
      ensures status == Success ==>
                Trimmed(Window(), removed) == ContentView.AddItem(old(Window()), item, Limit(), old(Read(head)))
    {
      ghost var v, stale := Window(), Read(head);
      removed := [];
      if |item.data| == 0 {
        return InvalidLength, removed;
      }
      if head != tail {
        if Read(head - 1).timestamp > item.timestamp {
          return InvalidTimestamp, removed;
        }
        var available := CheckAvailability();
        if !available {
          removed := TrimTailItems();
          TrimCounts(v, policy, stale);
        }
      }
      PutHead(item);
      status := Success;
    }

    /** Writes the slot at the head; with room for it, the rest of the window is untouched. */
    method PutHead(item: Item)
      requires Shaped() && tail <= current && head < tail + slots.Length
      requires Valid() || (tail == head && current == head + 1)
      modifies this`head, this`items, slots
      ensures Valid() && head == old(head) + 1
      ensures items == (if old(Valid()) then old(items) else []) + [item]
    {
      items := if Valid() then items + [item] else [item];
      forall i: nat | tail <= i < head
        ensures SlotOf(i, slots.Length) != SlotOf(head, slots.Length)
      {
        SlotsDistinct(i, head, slots.Length);
      }
      slots[SlotOf(head, slots.Length)] := item;
      head := head + 1;
    }

    /** Rolls the send pointer back to replay up to `duration`, then past skipped items. */
    method RollbackCurrent(duration: nat, byAck: bool)
      requires Valid()
      modifies this`current
      ensures Valid()
      ensures Window() == old(Window()).(current := current)
      ensures RollsBack(old(Window()), old(Read(current)), duration, byAck, current)
    {
      ghost var v, probe := Window(), Read(current);
      ghost var q := Search(duration, probe.ackTimestamp, byAck);
      if current == tail || duration == 0 {
        assert RollbackRule(v, probe, q, current);
        return;
      }
      var r := SearchBack(duration, byAck);
      current := PassSkipped(r);
      assert RollbackRule(v, probe, q, r);
    }

    /** The backward search for the fragment start to replay from. */
    method SearchBack(duration: nat, byAck: bool) returns (r: nat)
      requires Valid() && tail < current && duration > 0
      ensures RollbackRule(Window(), Read(current), Search(duration, Read(current).ackTimestamp, byAck), r)
    {
      var cur := current;
      var search := Search(duration, Read(cur).ackTimestamp, byAck);
      ghost var v, probe := Window(), Read(current);
      r := cur;
      while true
        invariant tail <= cur <= current && Searched(v, probe, search, cur, r)
        decreases cur
      {
        var item := Read(cur);
        if search.Ends(item) {
          SearchEnds(v, probe, search, cur, r);
          // Past an acknowledged fragment to the one after it.
          r := if search.AtAck(item) then r else cur;
          return;
        }
        SearchContinues(v, probe, search, cur, r);
        r := if item.fragStart then cur else r;
        if cur == tail {
          return;
        }
        cur := cur - 1;
      }
    }

    /** The item the search finds in slot cur. */
    ghost function Examined(v: View, probe: Item, cur: nat): Item
      requires v.Ok() && v.tail <= cur <= v.current
    {
      if cur == v.current then probe else v.At(cur)
    }

    /** The state of the search before slot cur is examined: no fragment start after cur ends it,
        and last is the earliest one seen, or the pointer. */
    ghost predicate Searched(v: View, probe: Item, q: Search, cur: nat, last: nat)
      requires v.Ok() && v.tail <= cur <= v.current
    {
      && cur <= last && RollbackStart(v, last)
      && (cur < v.current ==> !q.Ends(probe))
      && (forall k :: cur < k < v.current ==> !q.Ends(v.At(k)))
      && (forall k :: cur < k < last ==> !v.At(k).fragStart)
      && (last < v.current ==> cur < last)
    }

    lemma SearchEnds(v: View, probe: Item, q: Search, cur: nat, last: nat)
      requires v.Ok() && v.tail <= cur <= v.current && v.tail < v.current && q.duration > 0
      requires Searched(v, probe, q, cur, last) && q.Ends(Examined(v, probe, cur))
      ensures RollbackRule(v, probe, q, if q.AtAck(Examined(v, probe, cur)) then last else cur)
    {
    }

    lemma SearchContinues(v: View, probe: Item, q: Search, cur: nat, last: nat)
      requires v.Ok() && v.tail <= cur <= v.current && v.tail < v.current && q.duration > 0
      requires Searched(v, probe, q, cur, last) && !q.Ends(Examined(v, probe, cur))
      ensures var r := if Examined(v, probe, cur).fragStart then cur else last;
              if cur == v.tail then RollbackRule(v, probe, q, r) else Searched(v, probe, q, cur - 1, r)
    {
    }

    /** The first index from r on that is not to be skipped. */
    method PassSkipped(r: nat) returns (cur: nat)
      requires Valid() && tail <= r <= head
      ensures cur == NextIndex(Window(), r)
    {
      cur := r;
      while cur != head && Read(cur).skip
        invariant r <= cur <= head
        invariant NextIndex(Window(), cur) == NextIndex(Window(), r)
        decreases head - cur
      {
        cur := cur + 1;
      }
    }
  }

  // ---------------------------------------------------------------- a stale slot

  /** Frame i of a stream of two fragments, the second of which begins at frame 5. */
  function Frame(i: nat): Item {
    Item(i, i, 1, i, [0], 0, 1, false, false, i == 0 || i == 5, false, false, false)
  }

  function Frames(n: nat): (s: seq<Item>)
    ensures |s| == n && forall i :: 0 <= i < n ==> s[i] == Frame(i)
  {
    seq(n, i requires 0 <= i < n => Frame(i))
  }

  lemma FramesFit(n: nat)
    requires n < 11
    ensures Available(View(0, Frames(n), n), Limits(11, 1000, DropTailItem)) && Frames(n) + [Frame(n)] == Frames(n + 1)
    ensures Accepts(View(0, Frames(n), n), Frame(n))
  {
  }

  /** The ring is filled and read to the end, the first fragment's start is acknowledged and its frame
      trimmed: the pointer is now on the slot that frame was in. A rollback of any length by
      acknowledgements looks there first, and leaves the pointer, although the second fragment was never
      acknowledged. */
  method StaleSlotSuppressesReplay(duration: nat) returns (view: RollingContentView, lost: nat)
    requires duration > 0
    ensures view.Valid() && view.Window() == View(1, Frames(11)[1..], 11) && lost == 5
    ensures var v := view.Window();
            && v.tail <= lost < v.current && v.At(lost).fragStart && !v.At(lost).received
            && RollbackRule(v, view.Read(v.current), Search(duration, view.Read(v.current).ackTimestamp, true), v.current)
  {
    view := new RollingContentView(11, 1000, DropTailItem);
    var i := 0;
    while i < 11
      invariant i <= 11 && view.Valid() && fresh(view) && fresh(view.slots) && view.Limit() == Limits(11, 1000, DropTailItem)
      invariant view.Window() == View(0, Frames(i), i)
    {
      FramesFit(i);
      var added, removed := view.AddItem(Frame(i));
      var status, item := view.GetNext();
      i := i + 1;
    }
    view.SetItem(0, Frame(0).(received := true));
    assert view.slots[SlotOf(0, 11)] == Frame(0).(received := true);
    var trimmed, gone := view.TrimTail(1);
    ghost var v, probe := view.Window(), view.Read(view.current);
    assert SlotOf(11, 11) == SlotOf(0, 11);
    view.RollbackCurrent(duration, true);
    lost := 5;
    ghost var q := Search(duration, probe.ackTimestamp, true);
    ghost var r: nat :| RollbackRule(v, probe, q, r) && view.current == NextIndex(v, r);
    ReplaySuppressedIff(v, probe, q, r);
  }
}

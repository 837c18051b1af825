/** Error acknowledgements: a fragment the service has refused for good is marked, so that it is not sent again,
    and the connection ends. Marking may hide the base boundary a later session should stop at. */
module ErrorAcks {
  import opened ViewItems
  import opened ContentView
  import opened TimestampSearch
  import opened Upload
  import opened Recovery
  import opened TimecodeBases
  import opened MixedBases

  // ---------------------------------------------------------------- which items are marked

  predicate Stopper(i: Item) { i.fragStart || i.streamStart || i.fragEnd }

  /** The end of the fragment item i is in: the next item from j on that begins or ends one, or the head. */
  function EndFrom(v: View, j: nat): (n: nat)
    requires v.tail <= j <= v.Head()
    ensures j <= n <= v.Head()
    ensures n < v.Head() ==> Stopper(v.At(n))
    ensures forall k: nat :: j <= k < n ==> !Stopper(v.At(k))
    decreases v.Head() - j
  {
    if j == v.Head() || Stopper(v.At(j)) then j else EndFrom(v, j + 1)
  }

  /** How far back from item i the items are not older than `start`. */
  function BackTo(v: View, i: nat, start: nat): (n: nat)
    requires v.tail <= i <= v.Head()
    ensures v.tail <= n <= i
    ensures n > v.tail ==> v.At(n - 1).ackTimestamp < start
    ensures forall k: nat :: n <= k < i ==> v.At(k).ackTimestamp >= start
  {
    if i == v.tail || v.At(i - 1).ackTimestamp < start then i else BackTo(v, i - 1, start)
  }

  /** The items from lo up to hi marked. */
  function Marking(v: View, lo: nat, hi: nat): (w: View)
    ensures w.tail == v.tail && w.Head() == v.Head() && w.current == v.current
    ensures forall x: nat :: v.Holds(x) ==> w.At(x) == if lo <= x < hi then v.At(x).(skip := true) else v.At(x)
  {
    v.(items := seq(|v.items|, k requires 0 <= k < |v.items| => if lo <= v.tail + k < hi then v.items[k].(skip := true) else v.items[k]))
  }

  /** The error is for item i and the time ts. The pointer goes back to it; if it is no use to send it again the
      fragment is marked, and before it everything since `start`, and the pointer goes behind. */
  function ErrorView(v: View, i: nat, ts: nat, start: nat, retry: bool): (w: View)
    requires v.Holds(i)
    ensures w.Ok() && w.tail == v.tail && w.Head() == v.Head()
  {
    if retry then v.(current := i)
    else
      var hi := EndFrom(v, i + 1);
      Marking(v, if start == ts then i else BackTo(v, i, start), hi).(current := hi)
  }

  /** And the session h ends. */
  function ErrorAck(s: State, h: nat, i: nat, ts: nat, start: nat, retry: bool): State
    requires s.view.Holds(i)
  {
    Terminate(s.(view := ErrorView(s.view, i, ts, start, retry)), Some(h), true)
  }

  /** The first session that is not through. */
  function CurrentSession(ss: seq<Session>): (j: nat)
    ensures j <= |ss| && (j < |ss| ==> ss[j].phase != Terminated && ss[j].phase != AckReceived)
  {
    if ss == [] then 0
    else if ss[0].phase != Terminated && ss[0].phase != AckReceived then 0
    else 1 + CurrentSession(ss[1..])
  }

  /** An error for a time out of the view is put down to the oldest item. */
  function ErrorTime(v: View, ts: nat): nat
    requires v.items != []
  {
    if InView(v, ts) then ts else v.items[0].ackTimestamp
  }

  /** The acknowledgement as it comes in, for the session with handle h; the current session ends. */
  function ErrorFor(s: State, h: nat, ts: nat, start: nat, retry: bool): State {
    var k, j := Find(s.sessions, h), CurrentSession(s.sessions);
    if k == |s.sessions| || s.sessions[k].phase == Terminated || s.view.items == [] then s
    else
      var t := ErrorTime(s.view, ts);
      var i := Found(s.view, t);
      if j < |s.sessions| then ErrorAck(s, s.sessions[j].handle, i, t, start, retry)
      else s.(view := ErrorView(s.view, i, t, start, retry))
  }

  /** One more item marked, behind or in front. */
  lemma MarkingMore(v: View, lo: nat, hi: nat)
    requires v.tail <= lo <= hi <= v.Head()
    ensures hi < v.Head() ==> Marking(v, lo, hi).Put(hi, v.At(hi).(skip := true)) == Marking(v, lo, hi + 1)
    ensures lo > v.tail ==> Marking(v, lo, hi).Put(lo - 1, v.At(lo - 1).(skip := true)) == Marking(v, lo - 1, hi)
    ensures Marking(v, lo, lo) == v
  {
  }

  /** Partway through marking the items in front of i. */
  ghost predicate Backing(v: View, i: nat, start: nat, w: View, lo: nat) {
    && v.tail <= lo <= i < v.Head() && w == Marking(v, lo, i) && BackTo(v, lo, start) == BackTo(v, i, start)
  }

  lemma {:induction false} BackingOn(v: View, i: nat, start: nat, w: View, lo: nat)
    requires Backing(v, i, start, w, lo)
    ensures v.tail == w.tail && v.Head() == w.Head() && w.current == v.current && v.tail <= lo <= i < v.Head() && w == Marking(v, lo, i)
    ensures lo > v.tail ==> w.At(lo - 1) == v.At(lo - 1)
    ensures lo > v.tail && v.At(lo - 1).ackTimestamp >= start ==> Backing(v, i, start, w.Put(lo - 1, v.At(lo - 1).(skip := true)), lo - 1)
    ensures lo == v.tail || v.At(lo - 1).ackTimestamp < start ==> BackTo(v, i, start) == lo
  {
    hide Marking;
    MarkingMore(v, lo, i);
  }

  /** Partway through marking the fragment of item i: the next one to mark is the one just taken. */
  ghost predicate Partway(v: View, lo: nat, i: nat, w: View, item: Item) {
    && v.tail <= lo <= i < w.current <= v.Head() && item == v.At(w.current - 1)
    && w == Marking(v, lo, w.current - 1).(current := w.current) && EndFrom(v, i + 1) == EndFrom(v, w.current)
  }

  /** It is marked, and then the fragment is over or the next one is taken. */
  lemma {:induction false} PartwayOn(v: View, lo: nat, i: nat, w: View, item: Item)
    requires Partway(v, lo, i, w, item)
    ensures var j := w.current;
            && w.Holds(j - 1) && w.tail == v.tail && w.Head() == v.Head()
            && var m := w.Put(j - 1, item.(skip := true));
               && m == Marking(v, lo, j).(current := j)
               && (j == v.Head() || Stopper(v.At(j)) ==> EndFrom(v, i + 1) == j)
               && (j < v.Head() ==> m.At(j) == v.At(j))
               && (j < v.Head() && !Stopper(v.At(j)) ==> Partway(v, lo, i, m.(current := j + 1), v.At(j)))
  {
    hide Marking, EndFrom, Stopper;
    MarkingMore(v, lo, w.current - 1);
    EndFromStep(v, w.current);
  }

  lemma {:induction false} EndFromStep(v: View, j: nat)
    requires v.tail <= j <= v.Head()
    ensures EndFrom(v, j) == if j == v.Head() || Stopper(v.At(j)) then j else EndFrom(v, j + 1)
  {
  }

  /** Exactly the items of the fragment from i on are marked, and those before it with nothing older than
      `start` between. */
  lemma {:induction false} MarkedIff(v: View, i: nat, ts: nat, start: nat, x: nat)
    requires v.Holds(i) && v.Holds(x) && !v.At(x).skip
    ensures ErrorView(v, i, ts, start, false).At(x).skip <==>
              if x < i then start != ts && forall k: nat :: x <= k < i ==> v.At(k).ackTimestamp >= start
              else forall k: nat :: i < k <= x ==> !v.At(k).fragStart && !v.At(k).streamStart && !v.At(k).fragEnd
  {
    hide Marking, EndFrom, BackTo;
    var n, m := EndFrom(v, i + 1), BackTo(v, i, start);
    if x < m && m > v.tail {
      assert v.At(m - 1).ackTimestamp < start;
    }
    if n <= x {
      assert Stopper(v.At(n));
    }
  }

  /** The pointer goes to the item, to send it again, or behind what is marked: to the next item that starts or ends a
      fragment, or to the head. */
  lemma {:induction false} ErrorPoints(v: View, i: nat, ts: nat, start: nat, retry: bool)
    requires v.Holds(i)
    ensures var w := ErrorView(v, i, ts, start, retry);
            && w.tail == v.tail && |w.items| == |v.items|
            && (forall x: nat :: v.Holds(x) ==> w.At(x) == v.At(x) || w.At(x) == v.At(x).(skip := true))
            && (retry ==> w == View(v.tail, v.items, i))
            && (!retry ==> && i < w.current <= v.Head()
                           && (forall k: nat :: i < k < w.current ==> !v.At(k).fragStart && !v.At(k).streamStart && !v.At(k).fragEnd)
                           && (w.current < v.Head() ==>
                                 var next := v.At(w.current); next.fragStart || next.streamStart || next.fragEnd))
  {
    hide Marking, EndFrom, BackTo;
    if !retry {
      var n := EndFrom(v, i + 1);
      assert n < v.Head() ==> Stopper(v.At(n));
      assert forall k: nat :: i < k < n ==> !Stopper(v.At(k));
      var m := Marking(v, if start == ts then i else BackTo(v, i, start), n);
      assert forall x: nat :: v.Holds(x) ==> m.(current := n).At(x) == m.At(x);
    }
  }

  predicate IsOver(u: Session) { u.phase == Terminated || u.phase == AckReceived }

  /** An error for a session the stream does not have, or that is terminated, or with nothing in view, changes nothing.
      Any other is put down to its time, or to the oldest item when the view does not span that, whichever session it
      is for; and the first session that is not over ends, if there is one. */
  lemma {:induction false} ErrorChanges(s: State, h: nat, ts: nat, start: nat, retry: bool)
    requires forall i, j :: 0 <= i < j < |s.sessions| ==> s.sessions[i].handle != s.sessions[j].handle
    ensures var r, v, k := ErrorFor(s, h, ts, start, retry), s.view.items, Find(s.sessions, h);
            if k == |s.sessions| || s.sessions[k].phase == Terminated || v == [] then r == s
            else
              var last := v[|v| - 1];
              var t := if v[0].ackTimestamp <= ts <= last.ackTimestamp + last.duration then ts else v[0].ackTimestamp;
              && r == s.(view := ErrorView(s.view, Found(s.view, t), t, start, retry), sessions := r.sessions, connection := r.connection)
              && |r.sessions| == |s.sessions|
              && forall j :: 0 <= j < |s.sessions| ==>
                   r.sessions[j] == if !IsOver(s.sessions[j]) && forall i :: 0 <= i < j ==> IsOver(s.sessions[i])
                                    then s.sessions[j].(phase := Terminated) else s.sessions[j]
  {
    hide ErrorView, Found;
    FirstNotOver(s.sessions);
    var c := CurrentSession(s.sessions);
    if c < |s.sessions| {
      FindsIt(s.sessions, c);
    }
  }

  lemma {:induction false} FirstNotOver(ss: seq<Session>)
    ensures var c := CurrentSession(ss); (c < |ss| ==> !IsOver(ss[c])) && forall i :: 0 <= i < c ==> IsOver(ss[i])
  {
    if ss != [] && IsOver(ss[0]) {
      FirstNotOver(ss[1..]);
    }
  }

  lemma {:induction false} FindsIt(ss: seq<Session>, j: nat)
    requires j < |ss| && forall i :: 0 <= i < j ==> ss[i].handle != ss[j].handle
    ensures Find(ss, ss[j].handle) == j
  {
  }

  /** A session that begins anywhere in what was marked begins behind it, as if the search had started there. */
  lemma {:induction false} BeginsBehind(v: View, i: nat, ts: nat, start: nat, target: nat)
    requires v.Holds(i) && v.tail <= target <= EndFrom(v, i + 1)
    requires target >= if start == ts then i else BackTo(v, i, start)
    ensures var w, hi := ErrorView(v, i, ts, start, false), EndFrom(v, i + 1);
            NextBoundary(w, target) == NextBoundary(v, hi) >= hi
  {
    hide EndFrom, BackTo, Marking, NextBoundary, Stopper;
    var w, hi := ErrorView(v, i, ts, start, false), EndFrom(v, i + 1);
    var m := Marking(v, if start == ts then i else BackTo(v, i, start), hi);
    forall k: nat | target <= k < v.Head()
      ensures if k < hi then w.At(k).skip else w.At(k) == v.At(k)
    {
      assert w.At(k) == m.At(k);
    }
    PastMarked(w, target, hi);
    SameBoundary(v, w, hi);
  }

  lemma {:induction false} PastMarked(w: View, i: nat, hi: nat)
    requires w.tail <= i <= hi <= w.Head() && forall k: nat :: i <= k < hi ==> w.At(k).skip
    ensures NextBoundary(w, i) == NextBoundary(w, hi)
    decreases hi - i
  {
    if i < hi {
      PastMarked(w, i + 1, hi);
    }
  }

  /** The drop of the only session leaves a header due, retry or not. */
  lemma ErrorOwesHeader(c: Config, s: State, h: nat, i: nat, ts: nat, start: nat, retry: bool)
    requires s.view.Holds(i) && CleanCursor(s.cursor)
    requires var k := Find(s.sessions, h);
             k < |s.sessions| ==> Used(s.sessions[k].phase) && !Active(s.sessions[k := s.sessions[k].(phase := Terminated)])
    ensures HeaderDue(ErrorAck(s, h, i, ts, start, retry))
  {
    hide ErrorView;
  }

  // ---------------------------------------------------------------- base boundaries that are hidden

  /** b is the next item after a that is not marked. */
  predicate Adjacent(v: View, a: nat, b: nat) {
    && v.Holds(a) && v.Holds(b) && a < b && !v.At(a).skip && !v.At(b).skip
    && forall k: nat :: a < k < b ==> v.At(k).skip
  }

  /** Where the base changes between items that are sent one after the other, the second stops the session. */
  ghost predicate Fenced(v: View) {
    forall a: nat, b: nat :: Adjacent(v, a, b) && v.At(a).base != v.At(b).base ==> v.At(b).streamStart
  }

  /** The items around the marked ones are in different bases, and the second does not stop a session. */
  ghost predicate Hides(v: View, lo: nat, hi: nat) {
    exists a: nat, b: nat :: Straddles(v, lo, hi, a, b)
  }

  predicate Straddles(v: View, lo: nat, hi: nat, a: nat, b: nat) {
    && v.Holds(a) && v.Holds(b) && a < lo && hi <= b && !v.At(a).skip && !v.At(b).skip
    && (forall k: nat :: a < k < lo && v.Holds(k) ==> v.At(k).skip) && (forall k: nat :: hi <= k < b && v.Holds(k) ==> v.At(k).skip)
    && v.At(a).base != v.At(b).base && !v.At(b).streamStart
  }

  /** Marking keeps every change of base fenced exactly if it does not hide one. */
  lemma MarkingFences(v: View, lo: nat, hi: nat)
    requires v.tail <= lo <= hi <= v.Head() && Fenced(v)
    ensures Fenced(Marking(v, lo, hi)) <==> !Hides(v, lo, hi)
  {
    var w := Marking(v, lo, hi);
    if Hides(v, lo, hi) {
      var a: nat, b: nat :| Straddles(v, lo, hi, a, b);
      assert Adjacent(w, a, b);
    } else {
      forall a: nat, b: nat | Adjacent(w, a, b) && w.At(a).base != w.At(b).base
        ensures w.At(b).streamStart
      {
        StillAdjacent(v, lo, hi, a, b);
      }
    }
  }

  lemma StillAdjacent(v: View, lo: nat, hi: nat, a: nat, b: nat)
    requires v.tail <= lo <= hi <= v.Head() && Fenced(v) && !Hides(v, lo, hi)
    requires var w := Marking(v, lo, hi); Adjacent(w, a, b) && w.At(a).base != w.At(b).base
    ensures v.At(b).streamStart
  {
    var w := Marking(v, lo, hi);
    if a < lo && hi <= b {
      assert !Straddles(v, lo, hi, a, b);
    } else {
      assert Adjacent(v, a, b);
    }
  }

  /** In every state the protocol keeps in order the changes of base are fenced, and an error that is not to be
      retried keeps them so exactly if what it marks does not hide one. */
  lemma {:induction false} ErrorFences(v: View, i: nat, ts: nat, start: nat)
    requires v.Holds(i) && CleanView(v) && Chain(v.items)
    ensures Fenced(v)
    ensures var lo := if start == ts then i else BackTo(v, i, start);
            Fenced(ErrorView(v, i, ts, start, false)) <==> !Hides(v, lo, EndFrom(v, i + 1))
  {
    hide CleanView, Chain, EndFrom, BackTo, Hides, Fenced, Marking;
    ChainFenced(v);
    var lo, hi := if start == ts then i else BackTo(v, i, start), EndFrom(v, i + 1);
    MarkingFences(v, lo, hi);
    FencedSame(Marking(v, lo, hi), hi);
  }

  lemma FencedSame(v: View, p: nat)
    ensures Fenced(v.(current := p)) <==> Fenced(v)
  {
    hide Adjacent;
    forall a: nat, b: nat
      ensures Adjacent(v.(current := p), a, b) <==> Adjacent(v, a, b)
    {
      AdjacentSame(v, p, a, b);
    }
    forall a: nat, b: nat | Adjacent(v, a, b)
      ensures v.Holds(a) && v.Holds(b)
    {
      AdjacentSame(v, p, a, b);
    }
  }

  lemma AdjacentSame(v: View, p: nat, a: nat, b: nat)
    ensures Adjacent(v.(current := p), a, b) <==> Adjacent(v, a, b)
    ensures Adjacent(v, a, b) ==> v.Holds(a) && v.Holds(b)
  {
    assert forall k: nat :: v.Holds(k) ==> v.(current := p).At(k) == v.At(k);
  }

  lemma AdjacentNext(v: View, a: nat, b: nat)
    requires CleanView(v) && Adjacent(v, a, b)
    ensures b == a + 1
  {
    assert !v.items[a + 1 - v.tail].skip && v.At(a + 1) == v.items[a + 1 - v.tail];
  }

  lemma ChainFenced(v: View)
    requires CleanView(v) && Chain(v.items)
    ensures Fenced(v)
  {
    forall a: nat, b: nat | Adjacent(v, a, b) && v.At(a).base != v.At(b).base
      ensures v.At(b).streamStart
    {
      AdjacentNext(v, a, b);
      assert Follows(v.items[b - 1 - v.tail], v.items[b - v.tail]) && v.items[b - v.tail].Ok();
    }
  }

  /** A session whose next unmarked item is of another base and does not stop it sends from it. */
  lemma GoesOver(c: Config, s: State, k: nat, room: nat)
    requires Sound(c, s) && k < |s.sessions| && !SendingEos(s, k) && s.cursor.Spent() && room > 0
    requires var n := NextIndex(s.view, s.view.current);
             n < s.view.Head() && !s.view.At(n).streamStart && |s.view.At(n).data| > 0
    ensures var m := FirstMedia(Fill(c, s, k, room).out);
            m.Some? && m.value.base == s.view.At(NextIndex(s.view, s.view.current)).base
  {
    hide Fill, StripCursor, NextIndex, Linked;
    StripAhead(s);
    var p := OnePass(c, s, k, room);
    FillFirst(c, s, k, room);
    FillFirst(c, p.state, k, room);
  }
}

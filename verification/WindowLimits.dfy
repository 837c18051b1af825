/** The limits of the window over whole runs: its item count for all frames, and the time it spans for
    frames of one duration without gaps. */
module WindowLimits {
  import opened Arithmetic
  import opened ViewItems
  import opened ContentView
  import opened Upload
  import opened Recovery

  /** The same frame: only its header and its received flag may differ. */
  predicate SameFrame(a: Item, b: Item) {
    && b.timestamp == a.timestamp && b.ackTimestamp == a.ackTimestamp && b.duration == a.duration && b.store == a.store && b.base == a.base
    && b.baseStart == a.baseStart && b.fragStart == a.fragStart && b.fragEnd == a.fragEnd && b.skip == a.skip
  }

  predicate SameFrames(v: View, w: View) {
    w.tail == v.tail && |w.items| == |v.items| && forall i :: 0 <= i < |v.items| ==> SameFrame(v.items[i], w.items[i])
  }

  lemma {:induction false} FillFrames(c: Config, s: State, k: nat, room: nat)
    requires k < |s.sessions| && Sound(c, s)
    ensures SameFrames(s.view, Fill(c, s, k, room).state.view)
    decreases room, s.view.Head() - s.view.current, if SendingEos(s, k) then 0 else 1
  {
    hide Fill, OnePass, Sound;
    FillUnrolled(c, s, k, room);
    if room > 0 {
      PassFrames(c, s, k, room);
      var p := OnePass(c, s, k, room);
      if p.Next? {
        FillFrames(c, p.state, k, room - p.used);
      }
    }
  }

  lemma PutFrames(v: View, i: nat, item: Item, current: nat)
    requires v.Holds(i) && SameFrame(v.At(i), item)
    ensures SameFrames(v, v.Put(i, item).(current := current)) && SameFrames(v, v.Put(i, item))
  {
  }

  lemma MovedFrames(v: View, current: nat)
    ensures SameFrames(v, v.(current := current))
  {
  }

  lemma FramesTwice(u: View, v: View, w: View)
    requires SameFrames(u, v) && SameFrames(v, w)
    ensures SameFrames(u, w)
  {
  }

  lemma StripFrames(s: State)
    requires s.view.Ok() && Linked(s.view, s.cursor)
    ensures SameFrames(s.view, StripCursor(s).view)
  {
    hide SameFrames;
    MovedFrames(s.view, s.view.current);
    if s.cursor.On? && s.view.Holds(s.cursor.index) {
      var held := s.view.At(s.cursor.index);
      PutFrames(s.view, s.cursor.index, StripHeader(held), s.view.current);
    }
  }

  lemma TakeFrames(s: State, n: nat)
    requires s.view.Holds(n)
    ensures SameFrames(s.view, Take(s, n).view)
  {
    hide SameFrames;
    PutFrames(s.view, n, s.view.At(n).(received := false), n + 1);
  }

  lemma PassFrames(c: Config, s: State, k: nat, room: nat)
    requires k < |s.sessions| && Sound(c, s) && room > 0
    ensures SameFrames(s.view, OnePass(c, s, k, room).state.view)
  {
    hide SameFrames, StripCursor, Take, Linked;
    MovedFrames(s.view, s.view.current);
    if SendingEos(s, k) {
    } else if s.cursor.Idle? {
      var n := NextBoundary(s.view, s.view.current);
      MovedFrames(s.view, n);
      if n < s.view.Head() {
        TakeFrames(s, n);
      }
    } else if s.cursor.Spent() {
      NextFrames(c, s, k);
    }
  }

  lemma NextFrames(c: Config, s: State, k: nat)
    requires k < |s.sessions| && Sound(c, s) && s.cursor.Spent()
    ensures SameFrames(s.view, SendNext(c, s, k).state.view)
  {
    hide SameFrames, StripCursor, Take, Linked;
    StripFrames(s);
    var s' := StripCursor(s);
    var n := NextIndex(s'.view, s'.view.current);
    if n < s'.view.Head() {
      TakeFrames(s', n);
      FramesTwice(s.view, s'.view, Take(s', n).view);
    } else {
      MovedFrames(s'.view, n);
      FramesTwice(s.view, s'.view, s'.view.(current := n));
    }
  }

  lemma ResumeFrames(c: Config, s: State, target: nat, header: Bytes)
    requires Sound(c, s) && s.view.tail <= target <= s.view.Head()
    ensures SameFrames(s.view, Resume(c, s, target, header).view)
  {
    hide SameFrames, StripCursor, NextBoundary, Linked;
    MovedFrames(s.view, s.view.current);
    StripFrames(s);
    var v := StripCursor(s).view;
    var b := NextBoundary(v, target);
    MovedFrames(v, target);
    FramesTwice(s.view, v, v.(current := target));
    MovedFrames(v, b);
    FramesTwice(s.view, v, v.(current := b));
    if b < v.Head() {
      PutFrames(v, b, AddHeader(v.At(b), header), b);
      FramesTwice(s.view, v, v.Put(b, AddHeader(v.At(b), header)).(current := b));
    }
  }

  lemma ReadFrames(c: Config, s: State, h: nat, room: nat, target: nat, header: Bytes)
    requires Sound(c, s) && s.view.tail <= target <= s.view.Head()
    ensures SameFrames(s.view, Read(c, s, h, room, target, header).state.view)
  {
    hide Fill, Resume;
    var s1 := Resume(c, s, target, header);
    ResumeFrames(c, s, target, header);
    var k := Find(s1.sessions, h);
    if k < |s1.sessions| {
      FillFrames(c, if s1.sessions[k].phase == Ready then SetPhase(s1, k, Streaming).(timed := false) else s1, k, room);
    }
  }

  // ---------------------------------------------------------------- the item limit

  lemma StepWindow(c: Config, s: State, e: Event)
    requires Sound(c, s) && Enabled(s, e) && c.limits.itemCount > 1 && |s.view.items| <= c.limits.itemCount
    ensures |Step(c, s, e).state.view.items| <= c.limits.itemCount
  {
    hide Read, PersistedAck;
    match e
    case Put(f, p) =>
      if !Available(s.view, c.limits) {
        TrimCounts(s.view, c.limits.policy, ItemOf(s, f, p));
      }
    case Get(h, room, target, header) => ReadFrames(c, s, h, room, target, header);
    case _ =>
  }

  /** Over every run the window holds no more items than its limit. */
  lemma {:induction false} WindowBounded(c: Config, s: State, es: seq<Event>)
    requires Sound(c, s) && Feasible(c, s, es) && c.limits.itemCount > 1 && |s.view.items| <= c.limits.itemCount
    ensures |After(c, s, es).view.items| <= c.limits.itemCount
    decreases |es|
  {
    hide Step, Sound;
    if es != [] {
      StepSound(c, s, es[0]);
      StepWindow(c, s, es[0]);
      WindowBounded(c, Step(c, s, es[0]).state, es[1..]);
    }
  }

  // ---------------------------------------------------------------- the duration limit

  /** The span after a stored frame, for any frames. */
  lemma StoredSpan(v: View, item: Item, l: Limits)
    requires v.Ok()
    ensures var w := Stored(v, item, l);
            && |w.items| > 0
            && WindowDuration(w) == Wrap64(item.ackTimestamp + item.duration - FirstKept(v, item, l).ackTimestamp)
  {
    AddItemSpan(v, item, l, item);
  }

  predicate Sensible(c: Config, d: nat) {
    c.limits.itemCount > 1 && 0 < d < c.limits.bufferDuration && c.limits.bufferDuration + d < 0x1_0000_0000_0000_0000
  }

  /** Frames of duration d without gaps, and no more of them than the limit and one. */
  ghost predicate Within(c: Config, v: View, d: nat) {
    Uniform(v.items, d) && |v.items| * d < c.limits.bufferDuration + d
  }

  /** A frame that is stored follows on the last one. */
  ghost predicate Gapless(c: Config, s: State, e: Event, d: nat) {
    e.Put? && !Unpackaged(s, e.frame, e.packaged) && Accepts(s.view, ItemOf(s, e.frame, e.packaged)) ==>
      Uniform(s.view.items + [ItemOf(s, e.frame, e.packaged)], d)
  }

  lemma StoredWithin(c: Config, v: View, item: Item, d: nat)
    requires v.Ok() && Sensible(c, d) && Within(c, v, d) && Uniform(v.items + [item], d)
    ensures Within(c, Stored(v, item, c.limits), d)
  {
    AddItemKeepsDuration(v, item, c.limits, item, d);
  }

  lemma SameWithin(c: Config, v: View, w: View, d: nat)
    requires SameFrames(v, w) && Within(c, v, d)
    ensures Within(c, w, d)
  {
  }

  lemma TrimWithin(c: Config, v: View, b: nat, d: nat)
    requires v.Ok() && v.tail <= b <= v.Head() && Within(c, v, d)
    ensures Within(c, TrimUpTo(v, b), d)
  {
    hide TrimUpTo;
    var w := TrimUpTo(v, b);
    var n := w.tail - v.tail;
    assert forall i :: 0 <= i < |w.items| ==> w.items[i] == v.items[n + i];
    FewerTimes(|w.items|, |v.items|, d);
  }

  lemma StepWithin(c: Config, s: State, e: Event, d: nat)
    requires Sound(c, s) && Enabled(s, e) && Sensible(c, d) && Within(c, s.view, d) && Gapless(c, s, e, d)
    ensures Within(c, Step(c, s, e).state.view, d)
  {
    hide Read, PersistedAck, Stored, Within, Uniform, Sensible;
    match e
    case Put(f, p) =>
      if !Unpackaged(s, f, p) && Accepts(s.view, ItemOf(s, f, p)) {
        StoredWithin(c, s.view, ItemOf(s, f, p), d);
      }
    case Get(h, room, target, header) =>
      ReadFrames(c, s, h, room, target, header);
      SameWithin(c, s.view, Step(c, s, e).state.view, d);
    case Received(i) => SameWithin(c, s.view, ReceivedAck(s, i).view, d);
    case Persisted(h, ts, b) => TrimWithin(c, s.view, b, d);
    case _ =>
  }

  ghost predicate GaplessRun(c: Config, s: State, es: seq<Event>, d: nat)
    requires Sound(c, s) && Feasible(c, s, es)
    decreases |es|
  {
    es == [] || (Gapless(c, s, es[0], d) && (StepSound(c, s, es[0]); GaplessRun(c, Step(c, s, es[0]).state, es[1..], d)))
  }

  lemma {:induction false} RunWithin(c: Config, s: State, es: seq<Event>, d: nat)
    requires Sound(c, s) && Feasible(c, s, es) && Sensible(c, d) && Within(c, s.view, d) && GaplessRun(c, s, es, d)
    ensures Within(c, After(c, s, es).view, d)
    decreases |es|
  {
    hide Step, Sound, Within, Gapless, Sensible;
    if es != [] {
      StepSound(c, s, es[0]);
      StepWithin(c, s, es[0], d);
      RunWithin(c, Step(c, s, es[0]).state, es[1..], d);
    }
  }

  /** Over every run of gapless frames of one duration, with any reads, drops and acknowledgements, the
      window spans less than its limit and one frame, and never more than the limit if the duration
      divides it. */
  lemma DurationBounded(c: Config, es: seq<Event>, d: nat)
    requires Feasible(c, INITIAL, es) && Sensible(c, d) && GaplessRun(c, INITIAL, es, d)
    ensures var v := After(c, INITIAL, es).view;
            v.items != [] ==> && WindowDuration(v) < c.limits.bufferDuration + d
                              && (c.limits.bufferDuration % d == 0 ==> WindowDuration(v) <= c.limits.bufferDuration)
  {
    RunWithin(c, INITIAL, es, d);
    var v := After(c, INITIAL, es).view;
    if v.items != [] {
      SpanIs(v, d);
      if c.limits.bufferDuration % d == 0 {
        DividesBound(|v.items|, d, c.limits.bufferDuration);
      }
    }
  }
}

/** The two clocks of a frame: it is decoded at one time and shown at another. The view keeps frames in decoding
    order; acknowledgements come for the times they are shown. */
module FrameTimes {
  import opened ViewItems
  import opened ContentView
  import opened TimestampSearch
  import opened Upload
  import opened Recovery
  import opened Witnesses

  /** The frame opens a timecode base: the first key frame, and one the generator was reset for. */
  predicate OpensBase(s: State, f: Frame) { f.Key? && (f.rebase || s.generator.base == 0) }

  /** The generator packages the frame: a live stream, in a cluster unless the frame begins one, not from before the
      cluster, and an end of fragment only behind something. */
  predicate Taken(s: State, f: Frame, p: Packaged) {
    && !s.stopped && (f.Key? || (s.generator.base > 0 && !s.generator.eofr)) && (f.EndOfFragment? ==> s.view.items != [])
    && (f.EndOfFragment? || OpensBase(s, f) || (s.generator.dts <= p.timestamp && s.generator.pts <= p.ackTimestamp))
  }

  /** It is decoded before the view's last item. */
  predicate Late(s: State, f: Frame, p: Packaged) {
    !f.EndOfFragment? && s.view.items != [] && p.timestamp < s.view.items[|s.view.items| - 1].timestamp
  }

  /** There is something to store. */
  predicate HasBytes(s: State, f: Frame, p: Packaged) { |p.body| > 0 || (OpensBase(s, f) && |p.header| > 0) }

  /** A frame is stored exactly if it is packaged, has bytes and is not decoded before the last item; if it is packaged
      only, it has moved the generator and nothing else, and if not packaged, nothing. */
  lemma {:induction false} StoredIff(c: Config, s: State, f: Frame, p: Packaged)
    requires s.view.Ok()
    ensures var r, stored := PutFrame(c, s, f, p), Taken(s, f, p) && HasBytes(s, f, p) && !Late(s, f, p);
            && r.view.Head() == s.view.Head() + (if stored then 1 else 0)
            && (!Taken(s, f, p) ==> r == s)
            && (!stored ==> r == s.(generator := r.generator))
            && r == s.(view := r.view, generator := r.generator, timed := s.timed || (stored && OpensBase(s, f)))
  {
    hide Stored;
  }

  /** The item stored last is the frame: decoded and shown at its own times, or, for an end of fragment, in both
      clocks when the item before it ends, and lasting no time. */
  lemma {:induction false} StoredItem(c: Config, s: State, f: Frame, p: Packaged)
    requires s.view.Ok() && Taken(s, f, p) && HasBytes(s, f, p) && !Late(s, f, p)
    ensures var v, w := s.view.items, PutFrame(c, s, f, p).view.items;
            && w != []
            && var i := w[|w| - 1];
               && (if f.EndOfFragment? then
                     var last := v[|v| - 1];
                     i.timestamp == last.timestamp + last.duration && i.ackTimestamp == last.ackTimestamp + last.duration && i.duration == 0
                   else i.timestamp == p.timestamp && i.ackTimestamp == p.ackTimestamp && i.duration == p.duration)
               && i.store == p.store && i.data == (if OpensBase(s, f) then p.header + p.body else p.body)
               && (|p.header| < DATA_OFFSET_LIMIT ==> i.Body() == p.body)
               && i.fragStart == f.Key? && i.fragEnd == f.EndOfFragment? && !i.received && !i.skip
               && i.streamStart == OpensBase(s, f) && i.baseStart == (OpensBase(s, f) && v != [])
               && i.base == s.generator.base + (if OpensBase(s, f) then 1 else 0)
  {
    StoredLast(s.view, ItemOf(s, f, p), c.limits);
  }

  lemma StoredLast(v: View, item: Item, l: Limits)
    requires v.Ok()
    ensures var w := Stored(v, item, l).items; w != [] && w[|w| - 1] == item
  {
  }

  /** Packaging moves the generator to the frame's cluster, stored or not. */
  lemma {:induction false} GeneratorMoves(c: Config, s: State, f: Frame, p: Packaged)
    requires s.view.Ok() && Taken(s, f, p)
    ensures PutFrame(c, s, f, p).generator
         == Generator(s.generator.base + (if OpensBase(s, f) then 1 else 0), if f.Key? then p.timestamp else s.generator.dts,
                      if f.Key? then p.ackTimestamp else s.generator.pts, f.EndOfFragment?)
  {
    hide Stored;
  }

  /** Once a frame is stored, an acknowledgement for the time it is shown is put down to it, if the window is in
      order, or to an item that is still shown at that time; with no gaps that is the one before, which ends there. */
  lemma {:induction false} ShownIsFound(c: Config, s: State, f: Frame, p: Packaged)
    requires s.view.Ok() && Taken(s, f, p) && HasBytes(s, f, p) && !Late(s, f, p) && !f.EndOfFragment?
    requires Ordered(PutFrame(c, s, f, p).view)
    ensures var w := PutFrame(c, s, f, p).view;
            && w.items != []
            && var i, newest := Found(w, p.ackTimestamp), w.Head() - 1;
               && i <= newest && (i < newest ==> w.At(i).ackTimestamp <= p.ackTimestamp <= EndOf(w.At(i)))
               && (Gapless(w) ==> i == newest || (i == newest - 1 && EndOf(w.At(i)) == p.ackTimestamp))
  {
    hide PutFrame, Found, Ordered, Gapless, Taken, Late, HasBytes;
    StoredItem(c, s, f, p);
    var w := PutFrame(c, s, f, p).view;
    NewestFound(w, p.ackTimestamp);
  }

  lemma {:induction false} NewestFound(w: View, t: nat)
    requires w.items != [] && w.items[|w.items| - 1].ackTimestamp == t && Ordered(w)
    ensures var i, newest := Found(w, t), w.Head() - 1;
            && i <= newest && (i < newest ==> w.At(i).ackTimestamp <= t <= EndOf(w.At(i)))
            && (Gapless(w) ==> i == newest || (i == newest - 1 && EndOf(w.At(i)) == t))
  {
    hide Found, Ordered, Gapless, Meets;
    FoundSpans(w, t);
    assert Spans(w.At(w.Head() - 1), t);
    if Gapless(w) {
      GaplessFound(w, w.Head() - 1);
      if |w.items| > 1 {
        GaplessEnds(w);
      }
    }
  }

  lemma GaplessEnds(w: View)
    requires Gapless(w) && |w.items| > 1
    ensures EndOf(w.At(w.Head() - 2)) == w.At(w.Head() - 1).ackTimestamp
  {
  }

  // ---------------------------------------------------------------- frames shown out of order

  function FrameAt(f: Frame, decoded: nat, shown: nat): Event { Put(f, Packaged(decoded, shown, 1, decoded, [0], EBML_MAGIC)) }

  const REORDERED_RUN: seq<Event> :=
    [FrameAt(Key(false), 0, 0), FrameAt(Delta, 1, 3), FrameAt(Delta, 2, 2), FrameAt(Delta, 1, 4)]

  /** Frames shown out of decoding order are stored as they come; one decoded out of order is refused. */
  lemma ReorderedStored()
    ensures Sound(ROOMY, INITIAL) && Feasible(ROOMY, INITIAL, REORDERED_RUN)
    ensures var v := After(ROOMY, INITIAL, REORDERED_RUN).view;
            && |v.items| == 3 && v.tail == 0
            && forall k :: 0 <= k < 3 ==> v.items[k].timestamp == k && v.items[k].ackTimestamp == [0, 3, 2][k]
  {
    hide Step, Enabled;
    var c := ROOMY;
    var s1 := PutsFrame(c, INITIAL, Key(false), 0, 0);
    var s2 := PutsFrame(c, s1, Delta, 1, 3);
    var s3 := PutsFrame(c, s2, Delta, 2, 2);
    var s4 := RefusesFrame(c, s3, Delta, 1, 4);
    PathFeasible(c, REORDERED_RUN, [INITIAL, s1, s2, s3, s4]);
  }

  lemma {:induction false} PutsFrame(c: Config, s: State, f: Frame, decoded: nat, shown: nat) returns (r: State)
    requires Sound(c, s) && !f.EndOfFragment? && Available(s.view, c.limits)
    requires var e := FrameAt(f, decoded, shown); Taken(s, f, e.packaged) && !Late(s, f, e.packaged)
    ensures Leads(c, s, FrameAt(f, decoded, shown), r) && r == s.(view := r.view, generator := r.generator, timed := r.timed)
    ensures r.view.tail == s.view.tail && r.view.current == s.view.current && |r.view.items| == |s.view.items| + 1
    ensures r.view.items[..|s.view.items|] == s.view.items
    ensures var i := r.view.items[|s.view.items|]; i.timestamp == decoded && i.ackTimestamp == shown && i.duration == 1
    ensures r.generator == Generator(s.generator.base + (if OpensBase(s, f) then 1 else 0), if f.Key? then decoded else s.generator.dts,
                                     if f.Key? then shown else s.generator.pts, false)
  {
    var e := FrameAt(f, decoded, shown);
    StepSound(c, s, e);
    r := Step(c, s, e).state;
  }

  lemma {:induction false} RefusesFrame(c: Config, s: State, f: Frame, decoded: nat, shown: nat) returns (r: State)
    requires Sound(c, s) && !f.EndOfFragment?
    requires var e := FrameAt(f, decoded, shown); Taken(s, f, e.packaged) && Late(s, f, e.packaged)
    ensures Leads(c, s, FrameAt(f, decoded, shown), r) && r.view == s.view
  {
    var e := FrameAt(f, decoded, shown);
    StepSound(c, s, e);
    r := Step(c, s, e).state;
  }
}

/** Short runs from the start into the states where a stopped stream is stuck, or an item being sent is
    squeezed out of the window. */
module StallWitnesses {
  import opened ViewItems
  import opened ContentView
  import opened Upload
  import opened Recovery
  import opened Witnesses
  import opened Delivery
  import opened Drain
  import opened Coverage
  import opened Stalls

  // ---------------------------------------------------------------- no item to begin with

  const STUCK_RUN: seq<Event> :=
    [Shot(Key(false), 0), Open(1), Get(1, 5, 0, EBML_MAGIC), Shot(Delta, 1), Get(1, 1, 1, EBML_MAGIC), Shot(Delta, 2), Shot(Delta, 3),
     Stop, Drop(1, false)]

  /** The key frame is evicted while the frame after it is being sent; then the stream is stopped and its
      session dropped. Two frames are left, and nothing is ever sent again. */
  lemma EvictionStrandsStopped()
    ensures Sound(TIGHT, INITIAL) && Feasible(TIGHT, INITIAL, STUCK_RUN)
    ensures var s := After(TIGHT, INITIAL, STUCK_RUN);
            && Resting(TIGHT, s) && s.connection == InUse && s.view.Head() == s.view.current + 2
            && NoneToBegin(StripCursor(s).view)
            && forall es: seq<Event> :: Feasible(TIGHT, s, es) && es != [] && es[0].Get? ==> Log(TIGHT, s, es) == []
  {
    hide Step, Sound, Clean, Enabled, NoneToBegin, StripCursor;
    var c := TIGHT;
    Opening(c, 0);
    var s1 := Filmed(INITIAL, Key(false), 0);
    var i, s2 := s1.view.items[0], Connect(s1, 1);
    Opens(c, s1, 1);
    LeadsClean(c, s1, Open(1), s2);
    ReadsFirst(c, s2, i);
    var s3 := AfterRead(c, s2, 0, 5, 0);
    ShotItem(s3, Delta, 1);
    Films(c, s3, Delta, 1);
    var s4 := Filmed(s3, Delta, 1);
    LeadsClean(c, s3, Shot(Delta, 1), s4);
    var s5 := ReadsDelta(c, s4);
    var s6, s7 := FilmsKeyAway(c, s5);
    var s8, s9 := StopsAndDrops(c, s7);
    PathFeasible(c, STUCK_RUN, [INITIAL, s1, s2, s3, s4, s5, s6, s7, s8, s9]);
    StuckSilent(c, s9);
  }

  lemma StuckSilent(c: Config, s: State)
    requires Sound(c, s) && s.stopped && s.connection == InUse && NoneToBegin(StripCursor(s).view)
    ensures forall es: seq<Event> :: Feasible(c, s, es) && es != [] && es[0].Get? ==> Log(c, s, es) == []
  {
    hide NoneToBegin, StripCursor, Linked;
    forall es: seq<Event> | Feasible(c, s, es) && es != [] && es[0].Get?
      ensures Log(c, s, es) == []
    {
      StuckForever(c, s, es);
    }
  }

  /** The session goes on to the frame behind the key frame and sends it; the key frame's header comes off. */
  lemma ReadsDelta(c: Config, s: State) returns (r: State)
    requires Sound(c, s) && Clean(s) && c == TIGHT && |s.sessions| == 1 && s.sessions[0].handle == 1 && s.sessions[0].phase == Streaming
    requires s.connection == Fine && !s.stopped && !s.eos.send && s.view.tail == 0 && s.view.current == 1 && |s.view.items| == 2
    requires s.cursor == On(s.view.items[0], 0, |s.view.items[0].data|) && |s.view.items[1].data| == 1 && !s.view.items[1].streamStart
    requires s.view.items[0].streamStart && !s.view.items[0].baseStart && !s.view.items[1].received
    ensures Leads(c, s, Get(1, 1, 1, EBML_MAGIC), r) && Clean(r)
    ensures |r.sessions| == 1 && r.sessions[0].handle == 1 && r.sessions[0].phase == Streaming
    ensures r == s.(view := View(0, [StripHeader(s.view.items[0]), s.view.items[1]], 2), cursor := On(s.view.items[1], 1, 1),
                    sessions := r.sessions)
  {
    hide Fill, Read, CleanView, CleanCursor;
    var e := Get(1, 1, 1, EBML_MAGIC);
    StepSound(c, s, e);
    assert Find(s.sessions, 1) == 0;
    ServesFill(c, s, 0, 1, 1);
    assert SetPhase(s, 0, Streaming).(connection := Fine) == s;
    r := FillsDelta(c, s);
    LeadsClean(c, s, e, r);
  }

  lemma FillsDelta(c: Config, s: State) returns (r: State)
    requires Sound(c, s) && Clean(s) && |s.sessions| == 1 && s.sessions[0].handle == 1 && s.sessions[0].phase == Streaming
    requires !s.eos.send && s.view.tail == 0 && s.view.current == 1 && |s.view.items| == 2
    requires s.cursor == On(s.view.items[0], 0, |s.view.items[0].data|) && |s.view.items[1].data| == 1 && !s.view.items[1].streamStart
    requires s.view.items[0].streamStart && !s.view.items[0].baseStart && !s.view.items[1].received
    ensures r == Fill(c, s, 0, 1).state && |r.sessions| == 1 && r.sessions[0].handle == 1 && r.sessions[0].phase == Streaming
    ensures r == s.(view := View(0, [StripHeader(s.view.items[0]), s.view.items[1]], 2), cursor := On(s.view.items[1], 1, 1),
                    sessions := r.sessions)
  {
    hide Fill, StripHeader;
    var t := StripCursor(s);
    assert t.view == View(0, [StripHeader(s.view.items[0]), s.view.items[1]], 1);
    assert !t.view.items[1].skip && NextIndex(t.view, 1) == 1;
    FillUnrolled(c, s, 0, 1);
    var p := OnePass(c, s, 0, 1);
    assert p.state == Take(t, 1);
    FillUnrolled(c, p.state, 0, 1);
    var q := OnePass(c, p.state, 0, 1);
    FillUnrolled(c, q.state, 0, 0);
    r := Fill(c, s, 0, 1).state;
  }

  /** Two more frames; the second has the key frame evicted. */
  lemma FilmsKeyAway(c: Config, s: State) returns (r: State, t: State)
    requires c == TIGHT && Sound(c, s) && Clean(s) && !s.stopped && s.generator == Generator(1, 0, 0, false)
    requires s.view.tail == 0 && s.view.current == 2 && |s.view.items| == 2
    requires forall k :: 0 <= k < 2 ==> var i := s.view.items[k]; i.timestamp == k && i.ackTimestamp == k && i.duration == 1
    requires !s.view.items[1].Boundary()
    ensures Leads(c, s, Shot(Delta, 2), r) && Leads(c, r, Shot(Delta, 3), t) && Clean(t)
    ensures t == s.(view := t.view, generator := t.generator) && t.view.tail == 1 && t.view.current == 2 && |t.view.items| == 3
    ensures forall k :: 0 <= k < 3 ==> !t.view.items[k].Boundary()
  {
    hide Step, Sound, Clean, Enabled;
    ShotItem(s, Delta, 2);
    Films(c, s, Delta, 2);
    r := Filmed(s, Delta, 2);
    LeadsClean(c, s, Shot(Delta, 2), r);
    ShotItem(r, Delta, 3);
    t := FilmsPastTail(c, r, Delta, 3);
    LeadsClean(c, r, Shot(Delta, 3), t);
  }

  /** When the item being sent is further on, a frame that does not fit evicts the tail. */
  lemma FilmsPastTail(c: Config, s: State, f: Frame, t: nat) returns (r: State)
    requires Sound(c, s) && !f.EndOfFragment? && !Unpackaged(s, f, Shot(f, t).packaged)
    requires Accepts(s.view, ItemOf(s, f, Shot(f, t).packaged)) && !Available(s.view, c.limits)
    requires c.limits.policy == DropTailItem && s.view.current > s.view.tail + 1
    ensures Leads(c, s, Shot(f, t), r)
    ensures var v := View(s.view.tail + 1, s.view.items[1..], s.view.current);
            r == Filmed(s, f, t).(view := Append(v, ItemOf(s, f, Shot(f, t).packaged)))
  {
    ShotItem(s, f, t);
    StepSound(c, s, Shot(f, t));
    var v := View(s.view.tail + 1, s.view.items[1..], s.view.current);
    r := Filmed(s, f, t).(view := Append(v, ItemOf(s, f, Shot(f, t).packaged)));
  }

  lemma StopsAndDrops(c: Config, s: State) returns (r: State, t: State)
    requires Sound(c, s) && Clean(s) && !s.stopped && s.view.tail == 1 && s.view.current == 2 && |s.view.items| == 3 && !s.eos.send
    requires |s.sessions| == 1 && s.sessions[0].handle == 1 && s.sessions[0].phase == Streaming && s.cursor.On? && !s.cursor.item.streamStart
    requires s.cursor.offset > 0 && forall k :: 0 <= k < 3 ==> !s.view.items[k].Boundary()
    ensures Leads(c, s, Stop, r) && Leads(c, r, Drop(1, false), t)
    ensures Resting(c, t) && t.connection == InUse && t.view == s.view && NoneToBegin(StripCursor(t).view)
  {
    r := s.(stopped := true);
    t := Terminate(r, Some(1), false);
    DropArmsReplay(r, 1, false);
    Drops(c, r, 1, false);
  }

  // ---------------------------------------------------------------- in front of a base boundary

  /** A frame is sent, and the session is read once more, with a base boundary next. */
  const ENDED_RUN: seq<Event> :=
    [Shot(Key(false), 0), Shot(Key(true), 1), Open(1), Get(1, 5, 0, EBML_MAGIC), Get(1, 1, 0, EBML_MAGIC)]

  lemma BeforeBoundary(c: Config) returns (s1: State, s2: State, s3: State, s4: State)
    requires c.limits == ROOMY.limits
    ensures Leads(c, INITIAL, Shot(Key(false), 0), s1) && Leads(c, s1, Shot(Key(true), 1), s2) && Leads(c, s2, Open(1), s3)
    ensures Leads(c, s3, Get(1, 5, 0, EBML_MAGIC), s4) && Clean(s4) && s4.cursor.Spent() && !s4.timed && s4.connection == Fine
    ensures s4.view.tail == 0 && s4.view.current == 1 && |s4.view.items| == 2 && !s4.stopped && !s4.eos.send
    ensures s4.view.items[1].streamStart && s4.view.items[1].baseStart && |s4.view.items[1].data| == 5 && s4.view.items[1].timestamp == 1
    ensures |s4.sessions| == 1 && s4.sessions[0].handle == 1 && s4.sessions[0].phase == Streaming && s4.sessions[0].lastPersisted == None
    ensures s4.generator == Generator(2, 1, 1, false) && s4.view.items[0].ackTimestamp == 0 && s4.view.items[1].ackTimestamp == 1
    ensures s4.view.items[1].duration == 1 && !s4.cursor.item.fragEnd
  {
    hide Step, Sound, Clean, Enabled;
    s1, s2 := TwoBases(c);
    s3 := Connect(s2, 1);
    Opens(c, s2, 1);
    LeadsClean(c, s2, Open(1), s3);
    ReadsFirst(c, s3, s3.view.items[0]);
    s4 := AfterRead(c, s3, 0, 5, 0);
  }

  /** The session of a stream that waits for acknowledgements is over in front of the boundary. */
  lemma EndsBefore(c: Config) returns (s1: State, s2: State, s3: State, s4: State, s5: State)
    requires c.limits == ROOMY.limits && c.waitForAck && c.eos == []
    ensures Path(c, ENDED_RUN, [INITIAL, s1, s2, s3, s4, s5]) && Sound(c, s5) && Clean(s5)
    ensures !s5.timed && s5.connection == Fine && !s5.stopped && !s5.eos.send
    ensures s5.view.tail == 0 && s5.view.current == 2 && |s5.view.items| == 2 && s5.generator == Generator(2, 1, 1, false)
    ensures s5.cursor.On? && s5.cursor.index == 1 && s5.cursor.offset == 0 && s5.cursor.item.baseStart && |s5.cursor.item.data| == 5
    ensures |s5.sessions| == 1 && s5.sessions[0].handle == 1 && s5.sessions[0].phase == AwaitingAck
    ensures var i, j := s5.view.items[0], s5.view.items[1];
            i.ackTimestamp == 0 && j.ackTimestamp == 1 && j.timestamp == 1 && j.duration == 1
  {
    hide Step, Linked, Clean, Enabled;
    s1, s2, s3, s4 := BeforeBoundary(c);
    assert Find(s4.sessions, 1) == 0;
    ReadsToEnd(c, s4, 0, 0);
    s5 := AfterEnd(s4, 0);
    LeadsClean(c, s4, Get(1, 1, 0, EBML_MAGIC), s5);
    EndsAt(s4, 0);
  }

  const RELATIVE := ROOMY.(absoluteTimes := false)

  const UNTIMED_RUN: seq<Event> := ENDED_RUN + [Stop, Drop(1, false)]

  /** With relative fragment times the one stream-start time is used up by the session before the boundary:
      the stream is stopped there with a whole base left, and no new session gets anything of it. */
  lemma BoundaryStrandsRelative()
    ensures Sound(RELATIVE, INITIAL) && Feasible(RELATIVE, INITIAL, UNTIMED_RUN)
    ensures var s := After(RELATIVE, INITIAL, UNTIMED_RUN);
            && Resting(RELATIVE, s) && Untimed(s) && s.cursor.On? && s.cursor.offset == 0 && |s.cursor.item.data| > 0
            && forall es: seq<Event> :: Feasible(RELATIVE, s, es) && (forall i :: 0 <= i < |es| ==> es[i].Open? || es[i].Get?) ==>
                 Log(RELATIVE, s, es) == []
  {
    hide Step, Clean, Enabled, Linked;
    var c := RELATIVE;
    var s1, s2, s3, s4, s5 := EndsBefore(c);
    var s6 := s5.(stopped := true);
    var s7 := Terminate(s6, Some(1), false);
    var states := [INITIAL, s1, s2, s3, s4, s5];
    assert Leads(c, states[4], ENDED_RUN[4], states[5]);
    Stops(c, s5);
    Drops(c, s6, 1, false);
    DropArmsReplay(s6, 1, false);
    LeadsClean(c, s5, Stop, s6);
    LeadsClean(c, s6, Drop(1, false), s7);
    PathMore(c, ENDED_RUN, states, Stop, s6);
    PathMore(c, ENDED_RUN + [Stop], states + [s6], Drop(1, false), s7);
    assert UNTIMED_RUN == ENDED_RUN + [Stop] + [Drop(1, false)];
    PathFeasible(c, UNTIMED_RUN, states + [s6] + [s7]);
    forall es: seq<Event> | Feasible(c, s7, es) && (forall i :: 0 <= i < |es| ==> es[i].Open? || es[i].Get?)
      ensures Log(c, s7, es) == []
    {
      RelativeTimesStall(c, s7, es);
    }
  }

  lemma Stops(c: Config, s: State)
    requires Sound(c, s)
    ensures Leads(c, s, Stop, s.(stopped := true))
  {
  }

  lemma PathMore(c: Config, es: seq<Event>, states: seq<State>, e: Event, r: State)
    requires Path(c, es, states) && Leads(c, states[|es|], e, r)
    ensures Path(c, es + [e], states + [r])
  {
    hide Leads;
    forall i | 0 <= i < |es + [e]|
      ensures Leads(c, (states + [r])[i], (es + [e])[i], (states + [r])[i + 1])
    {
      assert i < |es| ==> Leads(c, states[i], es[i], states[i + 1]);
    }
  }

  const SKIPPED_RUN: seq<Event> := ENDED_RUN + [Shot(Key(false), 2), Drop(1, false)]

  /** A live stream's session is dropped in front of a base boundary: a rollback that does not move goes on
      behind it, and the first fragment of the base is never sent. */
  lemma ReconnectSkipsBoundary()
    ensures Sound(ROOMY, INITIAL) && Feasible(ROOMY, INITIAL, SKIPPED_RUN)
    ensures var s := After(ROOMY, INITIAL, SKIPPED_RUN);
            && s.connection == InUse && Unsent(s) == 1 && s.view.Holds(1) && s.view.tail <= s.view.current <= s.view.Head()
            && Resume(ROOMY, s, s.view.current, EBML_MAGIC).view.current == 2
  {
    hide Step, Linked, Clean, Enabled;
    var c := ROOMY;
    var s1, s2, s3, s4, s5 := EndsBefore(c);
    ShotItem(s5, Key(false), 2);
    Films(c, s5, Key(false), 2);
    var s6 := Filmed(s5, Key(false), 2);
    var s7 := Terminate(s6, Some(1), false);
    var states := [INITIAL, s1, s2, s3, s4, s5];
    Drops(c, s6, 1, false);
    DropsOnly(s6, 1, false);
    PathMore(c, ENDED_RUN, states, Shot(Key(false), 2), s6);
    PathMore(c, ENDED_RUN + [Shot(Key(false), 2)], states + [s6], Drop(1, false), s7);
    assert SKIPPED_RUN == ENDED_RUN + [Shot(Key(false), 2)] + [Drop(1, false)];
    PathFeasible(c, SKIPPED_RUN, states + [s6] + [s7]);
    SkipsTo(c, s7);
  }

  lemma SkipsTo(c: Config, s: State)
    requires Sound(c, s) && s.connection == InUse && s.view.tail == 0 && s.view.current == 2 && |s.view.items| == 3
    requires s.cursor.On? && s.cursor.item.baseStart && StartsSession(s.view.items[2])
    ensures Resume(c, s, 2, EBML_MAGIC).view.current == 2
  {
  }

  // ---------------------------------------------------------------- a cut end-of-stream tag

  const TERSE := Config(ROOMY.limits, false, true, [7, 8])

  /** Without acknowledgements, a one-byte buffer and a boundary next: the session is retired with one byte of
      its two-byte tag sent. */
  lemma BoundaryCutsTag()
    ensures Sound(TERSE, INITIAL) && Feasible(TERSE, INITIAL, ENDED_RUN[..4])
    ensures var s := After(TERSE, INITIAL, ENDED_RUN[..4]);
            && s.view.tail == 0
            && var r := Read(TERSE, s, 1, 1, 0, EBML_MAGIC);
               r.out == [Eos([7])] && r.state.sessions == []
  {
    hide Step, Clean, Enabled;
    var c := TERSE;
    var s1, s2, s3, s4 := BeforeBoundary(c);
    var es := ENDED_RUN[..4];
    assert es == [Shot(Key(false), 0), Shot(Key(true), 1), Open(1), Get(1, 5, 0, EBML_MAGIC)];
    PathFeasible(c, es, [INITIAL, s1, s2, s3, s4]);
    TagSentIff(c, s4, 1, 1, 0, EBML_MAGIC);
    assert c.eos[..1] == [7];
  }

  // ---------------------------------------------------------------- an item squeezed out

  const NARROW := Config(Limits(16, 1, DropTailItem), true, true, [])

  const SQUEEZED_RUN: seq<Event> := [Shot(Key(false), 0), Open(1), Get(1, 5, 0, EBML_MAGIC), Shot(Delta, 1)]

  /** The only item lasts as long as the window may and is being sent: the next frame squeezes it out, its
      storage has no owner any more, and the frame itself is behind the send pointer. */
  lemma SentItemSqueezedOut()
    ensures Sound(NARROW, INITIAL) && Feasible(NARROW, INITIAL, SQUEEZED_RUN)
    ensures Feasible(NARROW, INITIAL, SQUEEZED_RUN[..3])
    ensures var v, w := After(NARROW, INITIAL, SQUEEZED_RUN[..3]).view, After(NARROW, INITIAL, SQUEEZED_RUN).view;
            && Squeezed(v, NARROW.limits) && Owners(v.items, 0) == 1
            && Owners(w.items, 0) == 0 && |w.items| == 1 && w.current == w.Head()
  {
    hide Step, Sound, Clean, Enabled;
    var c := NARROW;
    Opening(c, 0);
    var s1 := Filmed(INITIAL, Key(false), 0);
    var i, s2 := s1.view.items[0], Connect(s1, 1);
    Opens(c, s1, 1);
    LeadsClean(c, s1, Open(1), s2);
    ReadsFirst(c, s2, i);
    var s3 := AfterRead(c, s2, 0, 5, 0);
    LeadsClean(c, s2, Get(1, 5, 0, EBML_MAGIC), s3);
    var s4 := FilmsSqueezed(c, s3);
    var es := SQUEEZED_RUN[..3];
    assert es == [Shot(Key(false), 0), Open(1), Get(1, 5, 0, EBML_MAGIC)];
    PathFeasible(c, es, [INITIAL, s1, s2, s3]);
    PathFeasible(c, SQUEEZED_RUN, [INITIAL, s1, s2, s3, s4]);
  }

  lemma FilmsSqueezed(c: Config, s: State) returns (r: State)
    requires c == NARROW && Sound(c, s) && Clean(s) && !s.stopped && s.generator == Generator(1, 0, 0, false)
    requires s.view.tail == 0 && s.view.current == 1 && |s.view.items| == 1
    requires var i := s.view.items[0]; i.timestamp == 0 && i.ackTimestamp == 0 && i.duration == 1
    ensures Leads(c, s, Shot(Delta, 1), r) && Squeezed(s.view, c.limits)
    ensures |r.view.items| == 1 && r.view.items[0].store == 1 && r.view.current == r.view.Head()
  {
    ShotItem(s, Delta, 1);
    StepSound(c, s, Shot(Delta, 1));
    r := Step(c, s, Shot(Delta, 1)).state;
  }
}

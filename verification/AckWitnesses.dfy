/** Short runs in which an acknowledgement does not do what it is for. */
module AckWitnesses {
  import opened ViewItems
  import opened ContentView
  import opened TimestampSearch
  import opened Upload
  import opened Recovery
  import opened TimecodeBases
  import opened Witnesses
  import opened FragmentAcks
  import opened ErrorAcks

  const FOUR_FRAMES: seq<Event> :=
    [Shot(Key(false), 0), Shot(Key(true), 1), Shot(Key(false), 2), Shot(Key(false), 3), Open(1), Get(1, 5, 0, EBML_MAGIC)]

  lemma FirstSent(c: Config) returns (s1: State, s2: State, s3: State, s4: State, s5: State, s6: State)
    requires c == ROOMY
    ensures Path(c, FOUR_FRAMES, [INITIAL, s1, s2, s3, s4, s5, s6]) && Sound(c, s6) && Clean(s6)
    ensures s6.view.tail == 0 && s6.view.current == 1 && |s6.view.items| == 4 && s6.connection == Fine && !s6.stopped && !s6.eos.send
    ensures |s6.sessions| == 1 && s6.sessions[0].handle == 1 && s6.sessions[0].phase == Streaming
    ensures var v := s6.view.items;
            && s6.cursor == On(v[0], 0, 5) && |v[0].data| == 5 && v[0].base == 1 && v[0].fragStart
            && v[2].base == 2 && !v[2].streamStart && v[2].fragStart
            && v[0].Ok() && v[0].streamStart && !v[0].baseStart && !v[0].skip && !v[2].skip && |v[2].data| > 0
            && !v[2].fragEnd && forall k :: 0 <= k < 4 ==> v[k].ackTimestamp == k && v[k].duration == 1
  {
    hide Step, Sound, Clean, Enabled;
    s1, s2, s3, s4 := ThreeMore(c);
    s5 := Connect(s4, 1);
    Opens(c, s4, 1);
    LeadsClean(c, s4, Open(1), s5);
    ReadsFirst(c, s5, s5.view.items[0]);
    s6 := AfterRead(c, s5, 0, 5, 0);
    CleanAt(s6, 0);
    CleanAt(s6, 2);
  }

  lemma CleanAt(s: State, k: nat)
    requires Clean(s) && k < |s.view.items|
    ensures var i := s.view.items[k]; i.Ok() && !i.skip && |i.data| > 0
  {
  }

  /** Four frames of one tick each, and the persisted acknowledgement of the third: it is put down to the second,
      which ends when the third begins, and the third stays in the view. */
  lemma AckLandsInFront()
    ensures Sound(ROOMY, INITIAL) && Feasible(ROOMY, INITIAL, FOUR_FRAMES)
    ensures var s := After(ROOMY, INITIAL, FOUR_FRAMES);
            && |s.view.items| == 4 && s.view.tail == 0 && s.view.At(2).ackTimestamp == 2
            && Found(s.view, 2) == 1 && PersistedFor(s, 1, 2, {}).view.tail == 2
  {
    hide Step, Linked, Clean, Enabled;
    var c := ROOMY;
    var s1, s2, s3, s4, s5, s := FirstSent(c);
    PathFeasible(c, FOUR_FRAMES, [INITIAL, s1, s2, s3, s4, s5, s]);
    assert Middle(0, 3) == 1 && Spans(s.view.At(1), 2);
    assert Found(s.view, 2) == 1;
    assert Find(s.sessions, 1) == 0 && EarlierReady(s.sessions, 0) && InView(s.view, 2) && Trims(s, 1, 2);
    StartsThird(c, s);
    BehindHere(s.view, 2, {});
  }

  lemma StartsThird(c: Config, s: State)
    requires Clean(s) && |s.view.items| == 4 && s.view.tail == 0 && s.view.items[2].fragStart
    ensures StartsSession(s.view.At(2))
  {
    assert !s.view.items[2].skip;
  }

  const AFTER_ERROR: seq<Event> := [Open(2), Get(2, 5, 0, EBML_MAGIC), Get(2, 1, 0, EBML_MAGIC)]

  /** The first fragment of a base is refused for good while the one before it is replayed: the session goes on
      over the marked base boundary into the next base. */
  lemma ErrorMixesBases()
    ensures Sound(ROOMY, INITIAL) && Feasible(ROOMY, INITIAL, FOUR_FRAMES)
    ensures var s := After(ROOMY, INITIAL, FOUR_FRAMES);
            && s.view.Holds(1)
            && var t := ErrorAck(s, 1, 1, 1, 1, false);
               Sound(ROOMY, t) && Feasible(ROOMY, t, AFTER_ERROR) && !OneBaseEach(Log(ROOMY, t, AFTER_ERROR))
  {
    hide Step, Linked, Clean, Enabled, ErrorAck;
    var c, es := ROOMY, AFTER_ERROR;
    var s1, s2, s3, s4, s5, s := FirstSent(c);
    PathFeasible(c, FOUR_FRAMES, [INITIAL, s1, s2, s3, s4, s5, s]);
    var t := ErrorAck(s, 1, 1, 1, 1, false);
    Refuses(c, s, t);
    var t1 := Connect(t, 2);
    Opens(c, t, 2);
    var t2, t3 := ReplaysOver(c, t1);
    MixedLog(c, es, [t, t1, t2, t3], 1, 2, FirstMedia(Step(c, t1, es[1]).out).value, FirstMedia(Step(c, t2, es[2]).out).value);
  }

  /** The error marks the one fragment and ends the session. */
  lemma Refuses(c: Config, s: State, t: State)
    requires Sound(c, s) && Clean(s) && s.view.tail == 0 && s.view.current == 1 && |s.view.items| == 4 && s.view.items[2].fragStart && !s.stopped
    requires |s.sessions| == 1 && s.sessions[0].handle == 1 && s.sessions[0].phase == Streaming
    requires t == ErrorAck(s, 1, 1, 1, 1, false) && s.cursor == On(s.view.items[0], 0, 5)
    ensures Sound(c, t) && t == s.(view := t.view, sessions := t.sessions, connection := InUse)
    ensures t.sessions == [s.sessions[0].(phase := Terminated)]
    ensures t.view.tail == 0 && t.view.current == 2 && |t.view.items| == 4 && t.view.items[1].skip
    ensures t.view.items[0] == s.view.items[0] && t.view.items[2] == s.view.items[2] && t.view.items[3] == s.view.items[3]
  {
    var v := s.view;
    assert EndFrom(v, 2) == 2;
    var w := ErrorView(v, 1, 1, 1, false);
    assert w.At(0) == v.At(0) && w.At(1) == v.At(1).(skip := true) && w.At(2) == v.At(2) && w.At(3) == v.At(3);
    DropsOnly(s.(view := w), 1, true);
  }

  /** The new session replays the frame before the mark, and then goes over it. */
  lemma ReplaysOver(c: Config, s: State) returns (t: State, r: State)
    requires c == ROOMY && Sound(c, s) && s.connection == InUse && !s.stopped && !s.eos.send
    requires |s.sessions| == 2 && s.sessions[0].handle == 1 && s.sessions[1] == Session(2, Ready, None, None)
    requires s.view.tail == 0 && s.view.current == 2 && |s.view.items| == 4 && s.cursor == On(s.view.items[0], 0, 5)
    requires var v := s.view.items;
             && v[0].Ok() && |v[0].data| == 5 && v[0].base == 1 && v[0].fragStart && v[0].streamStart && !v[0].baseStart && !v[0].skip
             && v[1].skip && v[2].base == 2 && !v[2].streamStart && !v[2].skip && |v[2].data| > 0
    ensures Leads(c, s, Get(2, 5, 0, EBML_MAGIC), t) && Leads(c, t, Get(2, 1, 0, EBML_MAGIC), r)
    ensures var x, y := FirstMedia(Step(c, s, Get(2, 5, 0, EBML_MAGIC)).out), FirstMedia(Step(c, t, Get(2, 1, 0, EBML_MAGIC)).out);
            x.Some? && y.Some? && x.value.base == 1 && y.value.base == 2
  {
    hide Step, Linked, Enabled, Item.Ok, Sound;
    var s1 := RollsBack(c, s);
    ReadsResumed(c, s, 2, 5, 0);
    assert Find(s1.sessions, 2) == 1;
    Reads(c, s1, 1, 5, 0, 0);
    t := AfterRead(c, s1, 1, 5, 0);
    r := GoesOverMark(c, t);
  }

  lemma RollsBack(c: Config, s: State) returns (r: State)
    requires Sound(c, s) && s.connection == InUse && s.view.tail == 0 && s.view.current == 2 && |s.view.items| == 4
    requires s.cursor == On(s.view.items[0], 0, 5)
    requires var i := s.view.items[0]; |i.data| == 5 && i.fragStart && i.streamStart && !i.baseStart && !i.skip && i.Ok()
    ensures r == Resume(c, s, 0, EBML_MAGIC) && Sound(c, r)
    ensures r == s.(view := r.view, cursor := Idle, eos := EosTracker(false, 0), connection := Fine, timed := true)
    ensures r.view.tail == 0 && r.view.current == 0 && |r.view.items| == 4 && NextBoundary(r.view, 0) == 0
    ensures r.view.items[0].base == s.view.items[0].base && |r.view.items[0].data| == 5
    ensures forall k :: 0 < k < 4 ==> r.view.items[k] == s.view.items[k]
  {
    r := Resume(c, s, 0, EBML_MAGIC);
    var v := StripCursor(s).view;
    assert s.view.items[0].dataOffset == 4 && NextBoundary(v, 0) == 0;
  }

  lemma GoesOverMark(c: Config, s: State) returns (r: State)
    requires Sound(c, s) && s.connection == Fine && !s.stopped && !s.eos.send && s.cursor.Spent()
    requires |s.sessions| == 2 && s.sessions[0].handle == 1 && s.sessions[1].handle == 2 && s.sessions[1].phase == Streaming
    requires s.view.tail == 0 && s.view.current == 1 && |s.view.items| == 4
    requires var v := s.view.items; v[1].skip && v[2].base == 2 && !v[2].streamStart && !v[2].skip && |v[2].data| > 0
    ensures var e := Get(2, 1, 0, EBML_MAGIC);
            && Leads(c, s, e, r) && FirstMedia(Step(c, s, e).out).Some? && FirstMedia(Step(c, s, e).out).value.base == 2
  {
    hide Fill, Linked, StripCursor;
    var e := Get(2, 1, 0, EBML_MAGIC);
    assert Find(s.sessions, 2) == 1;
    ServesFill(c, s, 1, 1, 0);
    assert SetPhase(s, 1, Streaming).(connection := Fine) == s;
    assert NextIndex(s.view, 1) == NextIndex(s.view, 2) == 2;
    GoesOver(c, s, 1, 1);
    StepSound(c, s, e);
    r := Step(c, s, e).state;
  }
}

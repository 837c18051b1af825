/** What a persisted acknowledgement trims and whom it lets finish: sessions are acknowledged in the order they
    were opened. */
module TrimOrder {
  import opened ViewItems
  import opened ContentView
  import opened Upload
  import opened Recovery
  import opened WindowLimits
  import opened Handover

  /** The session has had its last acknowledgement, or is through without. */
  predicate Through(u: Session) { u.phase == Terminated || u.phase == AckReceived }

  /** The view spans the time, from the beginning of its oldest item to the end of its newest. */
  predicate Spanned(v: View, ts: nat) {
    v.items != [] && v.items[0].ackTimestamp <= ts <= v.items[|v.items| - 1].ackTimestamp + v.items[|v.items| - 1].duration
  }

  /** The view without what is in front of the boundary b, an end of fragment itself included; a send pointer that
      is overtaken goes on behind it. */
  function Shortened(v: View, b: nat): View
    requires v.tail <= b < v.Head()
  {
    var to := if v.At(b).fragEnd then b + 1 else b;
    View(to, v.items[to - v.tail..], if v.current < to then b + 1 else v.current)
  }

  /** However many sessions there are: the view is trimmed to the boundary if and only if the acknowledgement is for
      a session that is not terminated and a time in view, and every session in front of that one is through. */
  lemma TrimsInOrder(s: State, h: nat, ts: nat, b: nat)
    requires s.view.Ok() && s.view.tail <= b <= s.view.Head()
    ensures var k, r := Find(s.sessions, h), PersistedAck(s, h, ts, b);
            r.view == if && k < |s.sessions| && s.sessions[k].phase != Terminated && Spanned(s.view, ts)
                         && (forall i :: 0 <= i < k ==> Through(s.sessions[i])) && b < s.view.Head()
                      then Shortened(s.view, b) else s.view
  {
  }

  /** The acknowledged session is told apart from the others, which keep all they have; it is let go exactly if it
      waits for just this acknowledgement and every session in front of it is through. */
  lemma FinishesInOrder(s: State, h: nat, ts: nat, b: nat, j: nat)
    requires s.view.Ok() && s.view.tail <= b <= s.view.Head() && j < |s.sessions|
    ensures var k, r, u := Find(s.sessions, h), PersistedAck(s, h, ts, b), s.sessions[j];
            && |r.sessions| == |s.sessions|
            && r.sessions[j] == if j != k || u.phase == Terminated || !Spanned(s.view, ts) then u
                                else if && u.phase == AwaitingAck && u.lastFragment == Some(ts)
                                        && forall i :: 0 <= i < k ==> Through(s.sessions[i])
                                     then u.(lastPersisted := Some(ts), phase := AckReceived)
                                     else u.(lastPersisted := Some(ts))
  {
  }

  /** A session in front holds the trim back. */
  lemma HeldBack(s: State, h: nat, ts: nat, b: nat, i: nat)
    requires s.view.Ok() && s.view.tail <= b <= s.view.Head()
    requires i < Find(s.sessions, h) && !Through(s.sessions[i])
    ensures PersistedAck(s, h, ts, b).view == s.view
  {
    hide TrimUpTo;
  }

  // ---------------------------------------------------------------- whole runs

  /** A call that neither ends session g nor acknowledges it or one in front of it; a frame finds room. */
  ghost predicate Passes(c: Config, s: State, e: Event, g: nat)
    requires Sound(c, s) && Enabled(s, e)
  {
    && Spares(e, g) && !EndsOther(c, s, e, g) && (e.Put? ==> Available(s.view, c.limits))
    && (e.Persisted? ==> Find(s.sessions, g) < Find(s.sessions, e.handle))
  }

  ghost predicate AllPass(c: Config, s: State, es: seq<Event>, g: nat)
    requires Sound(c, s) && Feasible(c, s, es)
    decreases |es|
  {
    es == [] || (StepSound(c, s, es[0]); Passes(c, s, es[0], g) && AllPass(c, Step(c, s, es[0]).state, es[1..], g))
  }

  /** Session g is in the queue and not through. */
  predicate Holds(s: State, g: nat) { Find(s.sessions, g) < |s.sessions| && !Through(s.sessions[Find(s.sessions, g)]) }

  lemma {:induction false} StepHolds(c: Config, s: State, e: Event, g: nat)
    requires Sound(c, s) && Enabled(s, e) && Holds(s, g) && Passes(c, s, e, g)
    ensures var r := Step(c, s, e).state; Holds(r, g) && r.view.tail == s.view.tail && r.view.Head() >= s.view.Head()
  {
    hide Read, PutFrame, PersistedAck, Terminate, EndsOther, Linked, ReceivedAck;
    StepLives(c, s, e, g);
    match e
    case Put(f, p) => PutAppends(c, s, f, p);
    case Get(h, room, target, header) => ReadFrames(c, s, h, room, target, header);
    case Persisted(h, ts, b) => HeldBack(s, h, ts, b, Find(s.sessions, g));
    case Received(i) => ReceivedKeepsEnds(s, i);
    case _ =>
  }

  lemma PutAppends(c: Config, s: State, f: Frame, p: Packaged)
    requires s.view.Ok() && Available(s.view, c.limits)
    ensures var r := PutFrame(c, s, f, p).view; r.tail == s.view.tail && r.Head() >= s.view.Head()
  {
  }

  lemma ReceivedKeepsEnds(s: State, i: nat)
    ensures var r := ReceivedAck(s, i).view; r.tail == s.view.tail && r.Head() == s.view.Head()
  {
  }

  /** Over every run in which a session is not through, nothing leaves the view, whatever acknowledgements come for
      the sessions behind it, as long as frames find room. */
  lemma {:induction false} RunHoldsBack(c: Config, s: State, es: seq<Event>, g: nat)
    requires Sound(c, s) && Feasible(c, s, es) && Holds(s, g) && AllPass(c, s, es, g)
    ensures var r := After(c, s, es); Holds(r, g) && r.view.tail == s.view.tail && r.view.Head() >= s.view.Head()
    decreases |es|
  {
    hide Step, Sound, Enabled, Passes, Holds;
    if es != [] {
      StepSound(c, s, es[0]);
      StepHolds(c, s, es[0], g);
      RunHoldsBack(c, Step(c, s, es[0]).state, es[1..], g);
    }
  }
}

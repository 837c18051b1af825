/** Acknowledgements as they come in, by timestamp: which item they are put down to, and what a persisted
    one trims. */
module FragmentAcks {
  import opened ViewItems
  import opened ContentView
  import opened TimestampSearch
  import opened Upload

  /** The item a counted acknowledgement is put down to. */
  function ReceivedFor(s: State, h: nat, ts: nat): State {
    if Counts(s, h, ts) then ReceivedAck(s, Found(s.view, ts)) else s
  }

  /** A persisted one trims up to the next fragment behind that item that is not persisted yet. */
  function PersistedFor(s: State, h: nat, ts: nat, persisted: set<nat>): State
    requires s.view.Ok()
  {
    if Counts(s, h, ts) then PersistedAck(s, h, ts, Behind(s.view, Found(s.view, ts) + 1, persisted)) else s
  }

  /** Both are steps of the protocol, so its theorems hold of them. */
  lemma {:induction false} AcksAreSteps(c: Config, s: State, h: nat, ts: nat, persisted: set<nat>)
    requires Sound(c, s)
    ensures Sound(c, ReceivedFor(s, h, ts)) && Sound(c, PersistedFor(s, h, ts, persisted))
    ensures ReceivedFor(s, h, ts) == s || exists i :: Step(c, s, Received(i)).state == ReceivedFor(s, h, ts)
    ensures || PersistedFor(s, h, ts, persisted) == s
            || exists b :: Enabled(s, Persisted(h, ts, b)) && Step(c, s, Persisted(h, ts, b)).state == PersistedFor(s, h, ts, persisted)
  {
    hide TrimUpTo, Linked, Found, Behind, PersistedAck, ReceivedAck;
    if Counts(s, h, ts) {
      var i := Found(s.view, ts);
      var b := Behind(s.view, i + 1, persisted);
      StepSound(c, s, Received(i));
      StepSound(c, s, Persisted(h, ts, b));
      assert Step(c, s, Received(i)).state == ReceivedFor(s, h, ts);
      assert Enabled(s, Persisted(h, ts, b)) && Step(c, s, Persisted(h, ts, b)).state == PersistedFor(s, h, ts, persisted);
    }
  }

  lemma {:induction false} AcksSound(c: Config, s: State, h: nat, ts: nat, persisted: set<nat>)
    requires Sound(c, s)
    ensures Sound(c, ReceivedFor(s, h, ts)) && Sound(c, PersistedFor(s, h, ts, persisted))
  {
    hide ReceivedFor, PersistedFor, Linked;
    AcksAreSteps(c, s, h, ts, persisted);
  }

  lemma {:induction false} PersistedForIs(s: State, h: nat, ts: nat, persisted: set<nat>)
    requires s.view.Ok()
    ensures !Counts(s, h, ts) ==> PersistedFor(s, h, ts, persisted) == s
    ensures Counts(s, h, ts) ==>
              var k, v := Find(s.sessions, h), s.view;
              && v.items != [] && k < |s.sessions|
              && PersistedFor(s, h, ts, persisted)
                 == s.(sessions := s.sessions[k := Acknowledged(s, s.sessions[k], h, ts)],
                       view := if Trims(s, h, ts) then TrimUpTo(v, Behind(v, Found(v, ts) + 1, persisted)) else v)
  {
    hide TrimUpTo, Found, Behind, Trims, Acknowledged;
  }

  /** On a gapless window the received acknowledgement of a fragment marks its first item exactly if the
      bisection comes to that before it comes to the last item of the fragment in front. */
  lemma {:induction false} ReceivedMarksIff(s: State, h: nat, x: nat)
    requires s.view.Ok() && Gapless(s.view) && s.view.Holds(x) && Counts(s, h, s.view.At(x).ackTimestamp) && !s.view.At(x).received
    ensures var r := ReceivedFor(s, h, s.view.At(x).ackTimestamp).view;
            r.Holds(x) && (r.At(x).received <==> x == s.view.tail || Meets(s.view.tail, s.view.Head() - 1, x))
  {
    hide Found, Meets, Gapless, Counts;
    GaplessFound(s.view, x);
  }

  /** And the persisted one lets the fragment go exactly then: otherwise the trim stops in front of it. */
  lemma {:induction false} PersistedTrimsIff(s: State, h: nat, x: nat, persisted: set<nat>)
    requires s.view.Ok() && Gapless(s.view) && s.view.Holds(x) && Trims(s, h, s.view.At(x).ackTimestamp)
    requires StartsSession(s.view.At(x)) && !s.view.At(x).fragEnd && x !in persisted
    requires Behind(s.view, x + 1, persisted) < s.view.Head()
    ensures PersistedFor(s, h, s.view.At(x).ackTimestamp, persisted).view.tail > x <==>
              x == s.view.tail || Meets(s.view.tail, s.view.Head() - 1, x)
  {
    hide Found, Meets, Gapless, Counts, Behind;
    GaplessFound(s.view, x);
    BehindHere(s.view, x, persisted);
  }

  lemma {:induction false} BehindHere(v: View, x: nat, persisted: set<nat>)
    requires v.Holds(x) && StartsSession(v.At(x)) && x !in persisted
    ensures Behind(v, x, persisted) == x
  {
  }
}

/** The consumer end of an upload session: it walks the content view behind the send pointer, turns
    each finished fragment into a train of acknowledgements, and submits them when they are due. */
module AckSchedule {
  import opened Arithmetic
  import opened ViewItems
  import opened ContentView
  import Upload

  // ---------------------------------------------------------------- walking the view

  predicate Opens(v: View, i: nat) { v.Holds(i) && !v.At(i).skip && v.At(i).fragStart }

  predicate Closes(v: View, i: nat) { v.Holds(i) && !v.At(i).skip && !v.At(i).fragStart && v.At(i).fragEnd }

  function Timecode(v: View, i: nat): nat
    requires v.Holds(i)
  {
    v.At(i).ackTimestamp / TICKS_PER_MS
  }

  /** The fragments finished so far, and the one that is open. A finished fragment without a time is
      an end of fragment that closed nothing. */
  datatype Scan = Scan(done: seq<Option<nat>>, open: Option<nat>)

  function Visit(v: View, i: nat, s: Scan): Scan {
    if Opens(v, i) then Scan(if s.open.Some? then s.done + [s.open] else s.done, Some(Timecode(v, i)))
    else if Closes(v, i) then Scan(s.done + [s.open], None)
    else s
  }

  /** An item that is not in view or to be skipped counts for nothing; a fragment start finishes the fragment before it,
      and an end of fragment the one that is open. */
  lemma VisitIs(v: View, i: nat, s: Scan)
    ensures !v.Holds(i) || v.At(i).skip ==> Visit(v, i, s) == s
    ensures v.Holds(i) && !v.At(i).skip && v.At(i).fragStart ==>
              Visit(v, i, s) == Scan(s.done + (if s.open == None then [] else [s.open]), Some(v.At(i).ackTimestamp / 10_000))
    ensures v.Holds(i) && !v.At(i).skip && !v.At(i).fragStart ==>
              Visit(v, i, s) == if v.At(i).fragEnd then Scan(s.done + [s.open], None) else s
  {
    assert s.done + [] == s.done;
  }

  function Traverse(v: View, a: nat, b: nat, s: Scan): Scan
    decreases b - a
  {
    if a >= b then s else Traverse(v, a + 1, b, Visit(v, a, s))
  }

  lemma {:induction false} TraverseSplit(v: View, a: nat, m: nat, b: nat, s: Scan)
    requires a <= m <= b
    ensures Traverse(v, a, b, s) == Traverse(v, m, b, Traverse(v, a, m, s))
    decreases m - a
  {
    if a < m {
      TraverseSplit(v, a + 1, m, b, Visit(v, a, s));
    }
  }

  /** Successive calls, each walking from where the one before stopped. */
  function Calls(v: View, a: nat, stops: seq<nat>, s: Scan): Scan
    decreases |stops|
  {
    if stops == [] then s else Calls(v, stops[0], stops[1..], Traverse(v, a, stops[0], s))
  }

  predicate Ascending(a: nat, stops: seq<nat>)
    decreases |stops|
  {
    stops != [] ==> a <= stops[0] && Ascending(stops[0], stops[1..])
  }

  function Last(a: nat, stops: seq<nat>): nat { if stops == [] then a else stops[|stops| - 1] }

  /** However the walk is split into calls, the same fragments are finished and the same is open. */
  lemma {:induction false} ChunkIndependent(v: View, a: nat, stops: seq<nat>, s: Scan)
    requires Ascending(a, stops)
    ensures a <= Last(a, stops) && Calls(v, a, stops, s) == Traverse(v, a, Last(a, stops), s)
    decreases |stops|
  {
    if stops != [] {
      ChunkIndependent(v, stops[0], stops[1..], Traverse(v, a, stops[0], s));
      assert Last(stops[0], stops[1..]) == Last(a, stops);
      TraverseSplit(v, a, stops[0], Last(a, stops), s);
    }
  }

  /** A fragment is open before item i: one opened at j and was not closed since, or the walk began
      inside one. */
  ghost predicate OpenAt(v: View, a: nat, i: nat, open: Option<nat>) {
    || (exists j :: OpenSince(v, a, j, i))
    || (open.Some? && Unclosed(v, a, i))
  }

  ghost predicate OpenSince(v: View, a: nat, j: nat, i: nat) { a <= j < i && Opens(v, j) && Unclosed(v, j, i) }

  ghost predicate Unclosed(v: View, j: nat, i: nat) { forall k :: j <= k < i ==> !Closes(v, k) }

  /** Every end of fragment in the range closes an open fragment. */
  ghost predicate WellFormed(v: View, a: nat, b: nat, open: Option<nat>) {
    forall i :: a <= i < b && Closes(v, i) ==> OpenAt(v, a, i, open)
  }

  lemma TraverseLast(v: View, a: nat, b: nat, s: Scan)
    requires a < b
    ensures Traverse(v, a, b, s) == Visit(v, b - 1, Traverse(v, a, b - 1, s))
  {
    TraverseSplit(v, a, b - 1, b, s);
    assert Traverse(v, b - 1, b, Traverse(v, a, b - 1, s)) == Traverse(v, b, b, Visit(v, b - 1, Traverse(v, a, b - 1, s)));
  }

  lemma {:induction false} OpenIff(v: View, a: nat, b: nat, s: Scan)
    requires a <= b
    ensures Traverse(v, a, b, s).open.Some? <==> OpenAt(v, a, b, s.open)
    decreases b - a
  {
    if a < b {
      OpenIff(v, a, b - 1, s);
      TraverseLast(v, a, b, s);
      OpenStep(v, a, b - 1, s.open);
    }
  }

  lemma OpenStep(v: View, a: nat, i: nat, open: Option<nat>)
    requires a <= i
    ensures OpenAt(v, a, i + 1, open) <==> Opens(v, i) || (!Closes(v, i) && OpenAt(v, a, i, open))
  {
    if Opens(v, i) {
      assert OpenSince(v, a, i, i + 1);
    } else if !Closes(v, i) {
      if j :| OpenSince(v, a, j, i) {
        assert OpenSince(v, a, j, i + 1);
      }
      var next := i + 1;
      if j :| OpenSince(v, a, j, next) {
        assert OpenSince(v, a, j, i);
      }
    }
  }

  /** The times of the fragments that open in a range, in order. */
  function Opened(v: View, a: nat, b: nat): seq<Option<nat>>
    decreases b
  {
    if a >= b then [] else Opened(v, a, b - 1) + (if Opens(v, b - 1) then [Some(Timecode(v, b - 1))] else [])
  }

  /** They are the times, in milliseconds, of the fragment starts in view that are not to be skipped. */
  lemma {:induction false} OpenedAre(v: View, a: nat, b: nat, t: nat)
    ensures Some(t) in Opened(v, a, b) <==>
              exists i: nat :: a <= i < b && v.Holds(i) && v.At(i).fragStart && !v.At(i).skip && t == v.At(i).ackTimestamp / 10_000
    decreases b
  {
    if a < b {
      OpenedAre(v, a, b - 1, t);
    }
  }

  function Listed(open: Option<nat>): seq<Option<nat>> { if open.Some? then [open] else [] }

  /** Over a well-formed range every fragment is finished exactly once, in order, except the last
      one if it is still open. */
  lemma {:induction false} EachFragmentOnce(v: View, a: nat, b: nat, open: Option<nat>)
    requires a <= b && WellFormed(v, a, b, open)
    ensures var t := Traverse(v, a, b, Scan([], open));
            t.done + Listed(t.open) == Listed(open) + Opened(v, a, b)
    decreases b - a
  {
    hide OpenAt, Closes, Timecode;
    if a < b {
      EachFragmentOnce(v, a, b - 1, open);
      TraverseLast(v, a, b, Scan([], open));
      OpenIff(v, a, b - 1, Scan([], open));
      var p, t := Traverse(v, a, b - 1, Scan([], open)), Traverse(v, a, b, Scan([], open));
      if Opens(v, b - 1) {
        assert t.done + Listed(t.open) == (p.done + Listed(p.open)) + [Some(Timecode(v, b - 1))];
      } else {
        assert t.done + Listed(t.open) == p.done + Listed(p.open);
      }
    }
  }

  /** A walk finishes a fragment without a time exactly when some end of fragment closes nothing. */
  lemma {:induction false} InvalidInWalk(v: View, a: nat, b: nat, open: Option<nat>)
    requires a <= b
    ensures None in Traverse(v, a, b, Scan([], open)).done <==> !WellFormed(v, a, b, open)
    decreases b - a
  {
    hide OpenAt, Timecode;
    if a < b {
      InvalidInWalk(v, a, b - 1, open);
      assert WellFormed(v, a, b, open) <==> WellFormed(v, a, b - 1, open) && (Closes(v, b - 1) ==> OpenAt(v, a, b - 1, open));
      TraverseLast(v, a, b, Scan([], open));
      OpenIff(v, a, b - 1, Scan([], open));
    }
  }

  // ---------------------------------------------------------------- the ack timeline

  datatype Kind = Buffering | Received | Persisted

  datatype Ack = Ack(fragment: Option<nat>, kind: Kind, due: nat)

  /** Upload speed in bytes per second, ack delays in milliseconds. */
  datatype Config = Config(speed: nat, buffering: nat, received: nat, persisted: nat, enabled: bool, retention: nat)

  function Acks(c: Config, f: Option<nat>, t: nat): seq<Ack> {
    var b := t + c.buffering * TICKS_PER_MS;
    var r := b + c.received * TICKS_PER_MS;
    [Ack(f, Buffering, b), Ack(f, Received, r)] +
    (if c.retention != 0 then [Ack(f, Persisted, r + c.persisted * TICKS_PER_MS)] else [])
  }

  /** The time after the last ack of a fragment. */
  function Until(c: Config, t: nat): nat {
    t + c.buffering * TICKS_PER_MS + c.received * TICKS_PER_MS
    + (if c.retention != 0 then c.persisted * TICKS_PER_MS else 0)
  }

  function Timeline(c: Config, fs: seq<Option<nat>>, t: nat): seq<Ack> {
    if fs == [] then [] else Acks(c, fs[0], t) + Timeline(c, fs[1..], Until(c, t))
  }

  function UntilAll(c: Config, n: nat, t: nat): nat { if n == 0 then t else UntilAll(c, n - 1, Until(c, t)) }

  /** A train continues where the one before it ends. */
  lemma {:induction false} TimelineAppend(c: Config, fs: seq<Option<nat>>, f: Option<nat>, t: nat)
    ensures Timeline(c, fs + [f], t) == Timeline(c, fs, t) + Acks(c, f, UntilAll(c, |fs|, t))
    ensures UntilAll(c, |fs| + 1, t) == Until(c, UntilAll(c, |fs|, t))
    decreases |fs|
  {
    if fs == [] {
      assert Timeline(c, [], UntilAll(c, 1, t)) == [];
    } else {
      assert (fs + [f])[1..] == fs[1..] + [f];
      TimelineAppend(c, fs[1..], f, Until(c, t));
    }
  }

  predicate NotBefore(q: seq<Ack>, t: nat) { forall i :: 0 <= i < |q| ==> t <= q[i].due }

  predicate InOrder(q: seq<Ack>) { forall i, j :: 0 <= i <= j < |q| ==> q[i].due <= q[j].due }

  lemma AcksOrdered(c: Config, f: Option<nat>, t: nat)
    ensures var q := Acks(c, f, t);
            t <= Until(c, t) && NotBefore(q, t) && InOrder(q) && forall i :: 0 <= i < |q| ==> q[i].due <= Until(c, t)
  {
  }

  /** The whole train of acknowledgements is in order of due time, none before t: each fragment's
      buffering ack, then its received ack, then its persisted ack, then the next fragment's. */
  lemma {:induction false} TimelineOrdered(c: Config, fs: seq<Option<nat>>, t: nat)
    ensures NotBefore(Timeline(c, fs, t), t) && InOrder(Timeline(c, fs, t))
    decreases |fs|
  {
    if fs != [] {
      var u := Until(c, t);
      var head, rest := Acks(c, fs[0], t), Timeline(c, fs[1..], u);
      TimelineOrdered(c, fs[1..], u);
      AcksOrdered(c, fs[0], t);
      assert Timeline(c, fs, t) == head + rest;
    }
  }

  function Stage(k: Kind): nat { match k case Buffering => 0 case Received => 1 case Persisted => 2 }

  /** A fragment's buffering ack is due no later than its received ack, and that no later than its
      persisted ack. */
  lemma {:induction false} StagesInOrder(c: Config, fs: seq<Option<nat>>, t: nat, i: nat, j: nat)
    requires Distinct(fs) && i < |Timeline(c, fs, t)| && j < |Timeline(c, fs, t)|
    requires var q := Timeline(c, fs, t); q[i].fragment == q[j].fragment && Stage(q[i].kind) <= Stage(q[j].kind)
    ensures var q := Timeline(c, fs, t); q[i].due <= q[j].due
    decreases |fs|
  {
    var head, rest := Acks(c, fs[0], t), Timeline(c, fs[1..], Until(c, t));
    var n := |head|;
    assert Timeline(c, fs, t) == head + rest;
    if i >= n && j >= n {
      StagesInOrder(c, fs[1..], Until(c, t), i - n, j - n);
    } else if i >= n {
      TimelineContents(c, fs[1..], Until(c, t), rest[i - n]);
    } else if j >= n {
      TimelineContents(c, fs[1..], Until(c, t), rest[j - n]);
    }
  }

  /** Every finished fragment has all its acks in the train, at the times its place says. */
  lemma {:induction false} TimelineHolds(c: Config, fs: seq<Option<nat>>, t: nat, k: nat)
    requires k < |fs|
    ensures forall a :: a in Acks(c, fs[k], UntilAll(c, k, t)) ==> a in Timeline(c, fs, t)
    decreases |fs|
  {
    if k > 0 {
      TimelineHolds(c, fs[1..], Until(c, t), k - 1);
    }
  }

  /** The acks of the fragments before it delay a fragment's own, by the sum of the delays each; persisted acks
      count only with retention. */
  lemma {:induction false} TrainStarts(c: Config, k: nat, t: nat)
    ensures UntilAll(c, k, t) == t + k * ((c.buffering + c.received + (if c.retention != 0 then c.persisted else 0)) * 10_000)
    decreases k
  {
    if k > 0 {
      TrainStarts(c, k - 1, Until(c, t));
      var d := (c.buffering + c.received + (if c.retention != 0 then c.persisted else 0)) * 10_000;
      assert Until(c, t) == t + d;
      assert k * d == (k - 1) * d + d;
    }
  }

  /** When the acks of the k-th fragment of a train are due, in ticks: each its delay after the one before. */
  lemma {:induction false} DueTimes(c: Config, fs: seq<Option<nat>>, t: nat, k: nat)
    requires k < |fs|
    ensures var q, u := Timeline(c, fs, t), t + k * ((c.buffering + c.received + (if c.retention != 0 then c.persisted else 0)) * 10_000);
            && Ack(fs[k], Buffering, u + c.buffering * 10_000) in q
            && Ack(fs[k], Received, u + c.buffering * 10_000 + c.received * 10_000) in q
            && (c.retention != 0 ==> Ack(fs[k], Persisted, u + c.buffering * 10_000 + c.received * 10_000 + c.persisted * 10_000) in q)
  {
    hide Timeline, UntilAll, Until;
    TrainStarts(c, k, t);
    TimelineHolds(c, fs, t, k);
    var u := UntilAll(c, k, t);
    var acks := Acks(c, fs[k], u);
    assert acks[0] in acks && acks[1] in acks && (c.retention != 0 ==> acks[2] in acks);
  }

  /** Every fragment gets exactly its own acks: of each kind one, and no others are in the train. */
  lemma {:induction false} TimelineContents(c: Config, fs: seq<Option<nat>>, t: nat, a: Ack)
    requires a in Timeline(c, fs, t)
    ensures a.fragment in fs && (a.kind == Persisted ==> c.retention != 0)
    decreases |fs|
  {
    if a !in Acks(c, fs[0], t) {
      TimelineContents(c, fs[1..], Until(c, t), a);
    }
  }

  predicate Distinct(fs: seq<Option<nat>>) { forall i, j :: 0 <= i < j < |fs| ==> fs[i] != fs[j] }

  /** At most one ack of each kind for each fragment. */
  ghost predicate OneOfEach(q: multiset<Ack>) {
    && (forall a :: a in q ==> q[a] == 1)
    && (forall a, b :: a in q && b in q && a.fragment == b.fragment && a.kind == b.kind ==> a == b)
  }

  lemma OneOfEachJoin(p: multiset<Ack>, q: multiset<Ack>)
    requires OneOfEach(p) && OneOfEach(q) && forall a, b :: a in p && b in q ==> a.fragment != b.fragment
    ensures OneOfEach(p + q)
  {
  }

  lemma AcksAre(c: Config, f: Option<nat>, t: nat)
    ensures var b := t + c.buffering * TICKS_PER_MS;
            var r := b + c.received * TICKS_PER_MS;
            multiset(Acks(c, f, t)) == multiset{Ack(f, Buffering, b)} + multiset{Ack(f, Received, r)} +
              (if c.retention != 0 then multiset{Ack(f, Persisted, r + c.persisted * TICKS_PER_MS)} else multiset{})
  {
  }

  lemma AcksDistinct(c: Config, f: Option<nat>, t: nat)
    ensures OneOfEach(multiset(Acks(c, f, t))) && forall a :: a in multiset(Acks(c, f, t)) ==> a.fragment == f
  {
  }

  lemma {:induction false} TimelineDistinct(c: Config, fs: seq<Option<nat>>, t: nat)
    requires Distinct(fs)
    ensures OneOfEach(multiset(Timeline(c, fs, t)))
    decreases |fs|
  {
    if fs != [] {
      var head, rest := Acks(c, fs[0], t), Timeline(c, fs[1..], Until(c, t));
      AcksDistinct(c, fs[0], t);
      TimelineDistinct(c, fs[1..], Until(c, t));
      forall a: Ack, b: Ack | a in multiset(head) && b in multiset(rest)
        ensures a.fragment != b.fragment
      {
        TimelineContents(c, fs[1..], Until(c, t), b);
      }
      OneOfEachJoin(multiset(head), multiset(rest));
      assert multiset(head + rest) == multiset(head) + multiset(rest);
    }
  }

  // ---------------------------------------------------------------- steps

  /** The consumer of one session. Reads may begin at `nextRead`; `open` is the fragment begun and
      not finished, `walked` the index its walk over the view has come to. */
  datatype Consumer = Consumer(
    queue: multiset<Ack>, open: Option<nat>, walked: nat, started: bool, available: bool,
    nextRead: nat, lastTransfer: Option<nat>)

  /** What one read of the stream returned: its size and status, the view then, the item being sent
      and whether it is spent, and where the session's first item is. */
  datatype Reading = Reading(size: nat, status: Upload.Status, view: View, index: nat, spent: bool, first: nat)

  datatype Event =
    | Signal
    | Get(now: nat, reading: Reading)
    | Submit(now: nat, top: Option<Ack>, taken: bool)
    | Fault(fragment: Option<nat>, purged: multiset<Ack>)

  function Delay(c: Config, size: nat): nat
    requires c.speed > 0
  {
    size * TICKS_PER_SECOND / c.speed
  }

  predicate Reads(s: Consumer, now: nat) { s.available && now >= s.nextRead }

  function Stop(r: Reading): nat { if r.spent then r.index + 1 else r.index }

  /** The walk a read makes. */
  function Walk(s: Consumer, r: Reading): Scan {
    Traverse(r.view, if s.started then s.walked else r.first, Stop(r), Scan([], s.open))
  }

  /** The fragments a read finishes: those the walk finished, and at the end of the stream the open
      one too. */
  function Finished(s: Consumer, now: nat, r: Reading): seq<Option<nat>> {
    if !Reads(s, now) || r.size == 0 || r.status == Upload.HandleAborted then []
    else Walk(s, r).done + (if r.status == Upload.AwaitingPersistedAck then [Walk(s, r).open] else [])
  }

  /** A read queues acks without a fragment time exactly when it walks over an end of fragment that
      closes nothing, or ends the stream with no fragment open. */
  lemma InvalidFragmentIff(s: Consumer, now: nat, r: Reading)
    ensures var a := if s.started then s.walked else r.first;
            None in Finished(s, now, r) <==>
              && Reads(s, now) && r.size > 0 && r.status != Upload.HandleAborted
              && (|| !WellFormed(r.view, a, Stop(r), s.open)
                  || (r.status == Upload.AwaitingPersistedAck && !OpenAt(r.view, a, Stop(r), s.open)))
  {
    hide Traverse, Stop;
    var a, b := if s.started then s.walked else r.first, Stop(r);
    if a <= b {
      InvalidInWalk(r.view, a, b, s.open);
      OpenIff(r.view, a, b, Scan([], s.open));
    } else {
      NothingWalked(r.view, a, b, Scan([], s.open));
    }
  }

  lemma NothingWalked(v: View, a: nat, b: nat, s: Scan)
    requires b < a
    ensures Traverse(v, a, b, s) == s && WellFormed(v, a, b, s.open) && OpenAt(v, a, b, s.open) == s.open.Some?
  {
  }

  function GetData(c: Config, s: Consumer, now: nat, r: Reading): Consumer
    requires c.speed > 0
  {
    if !Reads(s, now) then s
    else
      var next := now + Delay(c, r.size);
      var s' := s.(available := r.status != Upload.NoMoreData && r.status != Upload.AwaitingPersistedAck,
                   lastTransfer := if r.size > 0 then Some(now) else s.lastTransfer,
                   nextRead := next);
      if r.size == 0 || r.status == Upload.HandleAborted then s'
      else s'.(started := true, walked := Stop(r), open := Walk(s, r).open,
               queue := s.queue + multiset(Timeline(c, Finished(s, now, r), next)))
  }

  ghost predicate IsTop(q: multiset<Ack>, a: Ack) { a in q && forall b :: b in q ==> a.due <= b.due }

  /** The acks purged for a fragment: the earliest ones, three or all there are. */
  ghost predicate Purged(q: multiset<Ack>, f: Option<nat>, gone: multiset<Ack>) {
    && gone <= q && |gone| <= 3
    && (forall a :: a in gone ==> a.fragment == f)
    && (forall a, b :: a in gone && b in q - gone && b.fragment == f ==> a.due <= b.due)
    && (|gone| < 3 ==> forall b :: b in q - gone ==> b.fragment != f)
  }

  /** The queue offers any of its earliest acks; which one, and whether the stream takes it, is not
      determined. */
  ghost predicate Enabled(s: Consumer, e: Event) {
    match e
    case Submit(now, Some(a), _) => IsTop(s.queue, a) && a.due <= now
    case Submit(now, None, _) => forall b :: b in s.queue ==> now < b.due
    case Fault(f, gone) => Purged(s.queue, f, gone)
    case _ => true
  }

  function Next(c: Config, s: Consumer, e: Event): Consumer
    requires c.speed > 0
  {
    match e
    case Signal => s.(available := true)
    case Get(now, r) => GetData(c, s, now, r)
    case Submit(_, Some(a), taken) => if taken then s.(queue := s.queue - multiset{a}) else s
    case Submit(_, None, _) => s
    case Fault(_, gone) => s.(queue := s.queue - gone)
  }

  /** A read takes as long as its bytes do at the upload speed, rounded down to a tick: the next may begin then and
      no earlier, if the stream still has data. */
  lemma ReadsAgainAt(c: Config, s: Consumer, now: nat, r: Reading, t: nat)
    requires c.speed > 0 && Reads(s, now)
    ensures var s' := Next(c, s, Get(now, r));
            && s'.nextRead >= now
            && c.speed * (s'.nextRead - now) <= r.size * 10_000_000 < c.speed * (s'.nextRead - now + 1)
            && (Reads(s', t) <==> t >= s'.nextRead && r.status != Upload.NoMoreData && r.status != Upload.AwaitingPersistedAck)
  {
    hide Timeline, Walk, Finished;
    DelayIs(c, r.size);
  }

  lemma DelayIs(c: Config, size: nat)
    requires c.speed > 0
    ensures c.speed * Delay(c, size) <= size * 10_000_000 < c.speed * (Delay(c, size) + 1)
  {
  }

  /** What a read leaves: it has been walked up to the item being sent, that included once it is spent; the first
      read that sent something begins the walk; and only one that sent something counts as a transfer. */
  lemma ReadLeaves(c: Config, s: Consumer, now: nat, r: Reading)
    requires c.speed > 0
    ensures var s', did := Next(c, s, Get(now, r)), s.available && now >= s.nextRead;
            && (!did ==> s' == s)
            && (did ==> s'.lastTransfer == if r.size > 0 then Some(now) else s.lastTransfer)
            && (did && r.size > 0 && r.status != Upload.HandleAborted ==>
                  var a, b := if s.started then s.walked else r.first, r.index + (if r.spent then 1 else 0);
                  s'.started && s'.walked == b && s'.open == Traverse(r.view, a, b, Scan([], s.open)).open)
            && (did && (r.size == 0 || r.status == Upload.HandleAborted) ==>
                  s'.started == s.started && s'.walked == s.walked && s'.open == s.open && s'.queue == s.queue)
  {
    hide Timeline, Traverse, Delay;
  }

  // ---------------------------------------------------------------- whole runs

  ghost predicate Feasible(c: Config, s: Consumer, es: seq<Event>)
    requires c.speed > 0
    decreases |es|
  {
    es == [] || (Enabled(s, es[0]) && Feasible(c, Next(c, s, es[0]), es[1..]))
  }

  predicate Timed(e: Event) { e.Get? || e.Submit? }

  /** The clock never goes back. */
  predicate Clocked(t: nat, es: seq<Event>)
    decreases |es|
  {
    es == [] || if Timed(es[0]) then t <= es[0].now && Clocked(es[0].now, es[1..]) else Clocked(t, es[1..])
  }

  /** An ack offered to the stream; one that is not taken stays queued and is offered again. */
  datatype Pop = Pop(at: nat, ack: Ack)

  function Pops(es: seq<Event>): seq<Pop> {
    if es == [] then []
    else (if es[0].Submit? && es[0].top.Some? then [Pop(es[0].now, es[0].top.value)] else []) + Pops(es[1..])
  }

  /** Nothing queued is due before t0, the latest due time popped, which is not after the clock. */
  ghost predicate Scheduled(q: multiset<Ack>, t0: nat, t: nat) { t0 <= t && forall a :: a in q ==> t0 <= a.due }

  ghost predicate PopsOrdered(t0: nat, ps: seq<Pop>) {
    && (forall i :: 0 <= i < |ps| ==> t0 <= ps[i].ack.due <= ps[i].at)
    && (forall i, j :: 0 <= i <= j < |ps| ==> ps[i].ack.due <= ps[j].ack.due)
  }

  lemma GetSchedules(c: Config, s: Consumer, now: nat, r: Reading, t0: nat)
    requires c.speed > 0 && Scheduled(s.queue, t0, now)
    ensures Scheduled(GetData(c, s, now, r).queue, t0, now)
  {
    hide Delay, Timeline, Walk, Finished, Reads;
    var next := now + Delay(c, r.size);
    var train := Timeline(c, Finished(s, now, r), next);
    TimelineOrdered(c, Finished(s, now, r), next);
    forall a: Ack | a in multiset(train)
      ensures t0 <= a.due
    {
      var i :| 0 <= i < |train| && train[i] == a;
    }
  }

  lemma {:induction false} RunPopsOrdered(c: Config, s: Consumer, es: seq<Event>, t0: nat, t: nat)
    requires c.speed > 0 && Feasible(c, s, es) && Clocked(t, es) && Scheduled(s.queue, t0, t)
    ensures PopsOrdered(t0, Pops(es))
    decreases |es|
  {
    hide GetData;
    if es != [] {
      var e := es[0];
      match e
      case Get(now, r) =>
        GetSchedules(c, s, now, r, t0);
        RunPopsOrdered(c, Next(c, s, e), es[1..], t0, now);
      case Submit(now, Some(a), _) => RunPopsOrdered(c, Next(c, s, e), es[1..], a.due, now);
      case Submit(now, None, _) => RunPopsOrdered(c, Next(c, s, e), es[1..], t0, now);
      case _ => RunPopsOrdered(c, Next(c, s, e), es[1..], t0, t);
    }
  }

  const FRESH := Consumer(multiset{}, None, 0, false, false, 0, None)

  /** Over every interleaving of reads, submissions and faults, acks leave the queue in order of due
      time, and never before they are due. */
  lemma AcksInOrder(c: Config, es: seq<Event>)
    requires c.speed > 0 && Feasible(c, FRESH, es) && Clocked(0, es)
    ensures PopsOrdered(0, Pops(es))
  {
    RunPopsOrdered(c, FRESH, es, 0, 0);
  }

  /** Reads and signals may come at any time, and a submission offers the earliest ack if that is due. */
  lemma AnyTime(s: Consumer, now: nat, r: Reading, a: Ack, taken: bool)
    ensures Enabled(s, Get(now, r)) && Enabled(s, Signal)
    ensures a in s.queue && (forall b :: b in s.queue ==> a.due <= b.due) ==>
              Enabled(s, if a.due <= now then Submit(now, Some(a), taken) else Submit(now, None, taken))
  {
  }

  /** When an ack is due a submission offers one, of the earliest. */
  lemma DueIsOffered(s: Consumer, now: nat, top: Option<Ack>, taken: bool, a: Ack)
    requires Enabled(s, Submit(now, top, taken)) && a in s.queue && a.due <= now
    ensures top.Some? && top.value in s.queue && top.value.due <= a.due
  {
  }

  /** A purge takes three acks of the fragment or all there are, and no later one before an earlier one. */
  lemma PurgeTakesEarliest(s: Consumer, f: Option<nat>, gone: multiset<Ack>, b: Ack)
    requires Enabled(s, Fault(f, gone)) && b in s.queue - gone && b.fragment == f
    ensures |gone| == 3 && gone <= s.queue && forall a :: a in gone ==> a.fragment == f && a.due <= b.due
  {
  }

  // ---------------------------------------------------------------- no ack is lost

  /** The acks a run queues: for every read that sent something those of the fragments it finishes, from the time its
      bytes are through. */
  function Queued(c: Config, s: Consumer, es: seq<Event>): multiset<Ack>
    requires c.speed > 0
    decreases |es|
  {
    if es == [] then multiset{}
    else (if es[0].Get? then QueuedBy(c, s, es[0].now, es[0].reading) else multiset{}) + Queued(c, Next(c, s, es[0]), es[1..])
  }

  function QueuedBy(c: Config, s: Consumer, now: nat, r: Reading): multiset<Ack>
    requires c.speed > 0
  {
    multiset(Timeline(c, Finished(s, now, r), now + r.size * 10_000_000 / c.speed))
  }

  /** The acks that leave the queue: those the stream takes, and those purged. */
  function Gone(es: seq<Event>): multiset<Ack> { if es == [] then multiset{} else Leaving(es[0]) + Gone(es[1..]) }

  function Leaving(e: Event): multiset<Ack> {
    match e
    case Submit(_, Some(a), taken) => if taken then multiset{a} else multiset{}
    case Fault(_, gone) => gone
    case _ => multiset{}
  }

  /** Over every run, whatever was queued at the start or on the way is still queued, was taken by the stream or was
      purged, each exactly once: an ack that is offered and not taken stays. */
  lemma {:induction false} AcksConserved(c: Config, s: Consumer, es: seq<Event>)
    requires c.speed > 0 && Feasible(c, s, es)
    ensures s.queue + Queued(c, s, es) == After(c, s, es).queue + Gone(es)
    decreases |es|
  {
    hide Next, QueuedBy, Enabled;
    if es != [] {
      var e, s' := es[0], Next(c, s, es[0]);
      AcksConserved(c, s', es[1..]);
      StepConserves(c, s, e);
      var a, b := if e.Get? then QueuedBy(c, s, e.now, e.reading) else multiset{}, Queued(c, s', es[1..]);
      Balance(s.queue, a, s'.queue, Leaving(e), b, After(c, s', es[1..]).queue, Gone(es[1..]));
    }
  }

  lemma Balance(q: multiset<Ack>, a: multiset<Ack>, r: multiset<Ack>, out: multiset<Ack>, b: multiset<Ack>, end: multiset<Ack>, gone: multiset<Ack>)
    requires q + a == r + out && r + b == end + gone
    ensures q + (a + b) == end + (out + gone)
  {
    calc {
      q + (a + b);
      (q + a) + b;
      (r + b) + out;
      end + (out + gone);
    }
  }

  lemma StepConserves(c: Config, s: Consumer, e: Event)
    requires c.speed > 0 && Enabled(s, e)
    ensures s.queue + (if e.Get? then QueuedBy(c, s, e.now, e.reading) else multiset{}) == Next(c, s, e).queue + Leaving(e)
  {
    hide GetData, QueuedBy, Purged;
    match e
    case Get(now, r) => ReadConserves(c, s, now, r);
    case Fault(f, gone) => PurgedIn(s.queue, f, gone);
    case _ =>
  }

  lemma PurgedIn(q: multiset<Ack>, f: Option<nat>, gone: multiset<Ack>)
    requires Purged(q, f, gone)
    ensures gone <= q
  {
  }

  lemma {:induction false} ReadConserves(c: Config, s: Consumer, now: nat, r: Reading)
    requires c.speed > 0
    ensures GetData(c, s, now, r).queue == s.queue + QueuedBy(c, s, now, r)
  {
    hide Timeline, Walk, Reads, Finished;
    NoTrain(c, now + Delay(c, r.size));
    NoneFinished(s, now, r);
  }

  lemma NoTrain(c: Config, t: nat)
    ensures Timeline(c, [], t) == []
  {
  }

  lemma NoneFinished(s: Consumer, now: nat, r: Reading)
    ensures !Reads(s, now) || r.size == 0 || r.status == Upload.HandleAborted ==> Finished(s, now, r) == []
  {
  }

  // ---------------------------------------------------------------- faults

  /** The fragments a run finishes. */
  function AllFinished(c: Config, s: Consumer, es: seq<Event>): seq<Option<nat>>
    requires c.speed > 0
    decreases |es|
  {
    if es == [] then []
    else (if es[0].Get? then Finished(s, es[0].now, es[0].reading) else []) + AllFinished(c, Next(c, s, es[0]), es[1..])
  }

  function After(c: Config, s: Consumer, es: seq<Event>): Consumer
    requires c.speed > 0
    decreases |es|
  {
    if es == [] then s else After(c, Next(c, s, es[0]), es[1..])
  }

  ghost predicate Free(q: multiset<Ack>, f: Option<nat>) { forall a :: a in q ==> a.fragment != f }

  /** With one ack of each kind, a purge leaves none of the fragment's. */
  lemma PurgeFrees(q: multiset<Ack>, f: Option<nat>, gone: multiset<Ack>)
    requires OneOfEach(q) && Purged(q, f, gone)
    ensures Free(q - gone, f)
  {
    if |gone| == 3 {
      var x, y, z := ThreeOf(gone);
      forall b | b in q - gone
        ensures b.fragment != f
      {
        assert q[b] == 1 && b !in gone;
        assert x.kind != y.kind && x.kind != z.kind && y.kind != z.kind;
      }
    }
  }

  lemma ThreeOf(m: multiset<Ack>) returns (x: Ack, y: Ack, z: Ack)
    requires |m| == 3 && forall a :: a in m ==> m[a] == 1
    ensures x in m && y in m && z in m && x != y && x != z && y != z
  {
    x :| x in m;
    var m1 := m - multiset{x};
    assert |m1| == 2;
    y :| y in m1;
    var m2 := m1 - multiset{y};
    assert |m2| == 1;
    z :| z in m2;
  }

  /** Queued acks are one of each kind, for fragments finished so far. */
  ghost predicate Accounted(q: multiset<Ack>, past: seq<Option<nat>>) {
    OneOfEach(q) && forall a :: a in q ==> a.fragment in past
  }

  lemma AccountedGet(c: Config, s: Consumer, now: nat, r: Reading, past: seq<Option<nat>>)
    requires c.speed > 0 && Accounted(s.queue, past) && Distinct(past + Finished(s, now, r))
    ensures Accounted(GetData(c, s, now, r).queue, past + Finished(s, now, r))
  {
    hide Delay, Timeline, Walk, Finished, Reads;
    var next, fs := now + Delay(c, r.size), Finished(s, now, r);
    var train := Timeline(c, fs, next);
    assert Distinct(fs) by {
      assert forall i :: 0 <= i < |fs| ==> fs[i] == (past + fs)[|past| + i];
    }
    TimelineDistinct(c, fs, next);
    forall a: Ack | a in multiset(train)
      ensures a.fragment in fs && a.fragment !in past
    {
      TimelineContents(c, fs, next, a);
      NotInBoth(past, fs, a.fragment);
    }
    OneOfEachJoin(s.queue, multiset(train));
  }

  lemma NotInBoth(past: seq<Option<nat>>, fs: seq<Option<nat>>, f: Option<nat>)
    requires Distinct(past + fs) && f in fs
    ensures f !in past
  {
    var j :| 0 <= j < |fs| && fs[j] == f;
    forall i | 0 <= i < |past|
      ensures past[i] != f
    {
      assert (past + fs)[i] != (past + fs)[|past| + j];
    }
  }

  lemma AccountedLess(q: multiset<Ack>, less: multiset<Ack>, past: seq<Option<nat>>)
    requires Accounted(q, past)
    ensures Accounted(q - less, past)
  {
  }

  lemma {:induction false} RunAccounted(c: Config, s: Consumer, es: seq<Event>, past: seq<Option<nat>>)
    requires c.speed > 0 && Feasible(c, s, es) && Accounted(s.queue, past) && Distinct(past + AllFinished(c, s, es))
    ensures Accounted(After(c, s, es).queue, past + AllFinished(c, s, es))
    decreases |es|
  {
    hide GetData, Accounted, Enabled, Finished;
    if es == [] {
      assert past + [] == past;
    } else {
      var e, s' := es[0], Next(c, s, es[0]);
      var fs, rest := if e.Get? then Finished(s, e.now, e.reading) else [], AllFinished(c, s', es[1..]);
      assert past + (fs + rest) == (past + fs) + rest;
      assert Distinct(past + fs) by {
        assert forall i :: 0 <= i < |past + fs| ==> (past + fs)[i] == ((past + fs) + rest)[i];
      }
      match e {
        case Get(now, r) => AccountedGet(c, s, now, r, past);
        case Submit(_, Some(a), _) => AccountedLess(s.queue, multiset{a}, past);
        case Fault(_, gone) => AccountedLess(s.queue, gone, past);
        case _ =>
      }
      assert !e.Get? ==> past + fs == past;
      RunAccounted(c, s', es[1..], past + fs);
    }
  }

  predicate NeverPops(ps: seq<Pop>, f: Option<nat>) { forall i :: 0 <= i < |ps| ==> ps[i].ack.fragment != f }

  lemma {:induction false} RunFree(c: Config, s: Consumer, es: seq<Event>, f: Option<nat>)
    requires c.speed > 0 && Feasible(c, s, es) && Free(s.queue, f) && f !in AllFinished(c, s, es)
    ensures NeverPops(Pops(es), f)
    decreases |es|
  {
    hide Next, Finished, Free, Enabled;
    if es != [] {
      FreeStep(c, s, es[0], f);
      RunFree(c, Next(c, s, es[0]), es[1..], f);
    }
  }

  lemma FreeStep(c: Config, s: Consumer, e: Event, f: Option<nat>)
    requires c.speed > 0 && Enabled(s, e) && Free(s.queue, f) && (e.Get? ==> f !in Finished(s, e.now, e.reading))
    ensures Free(Next(c, s, e).queue, f) && (e.Submit? && e.top.Some? ==> e.top.value.fragment != f)
  {
    hide GetData, Finished, Purged;
    if e.Get? {
      FreeGet(c, s, e.now, e.reading, f);
    }
  }

  lemma FreeGet(c: Config, s: Consumer, now: nat, r: Reading, f: Option<nat>)
    requires c.speed > 0 && Free(s.queue, f) && f !in Finished(s, now, r)
    ensures Free(GetData(c, s, now, r).queue, f)
  {
    hide Delay, Timeline, Walk, Finished, Reads;
    var next, fs := now + Delay(c, r.size), Finished(s, now, r);
    forall a: Ack | a in multiset(Timeline(c, fs, next))
      ensures a.fragment != f
    {
      TimelineContents(c, fs, next, a);
    }
  }

  /** After the error ack for a queued fragment no normal ack for it is ever submitted, whatever the
      rest of the run, as long as the run finishes no fragment time twice. */
  lemma FaultSilencesFragment(c: Config, before: seq<Event>, a: Ack, gone: multiset<Ack>, later: seq<Event>)
    requires c.speed > 0 && Feasible(c, FRESH, before)
    requires var q := After(c, FRESH, before).queue; a in q && Purged(q, a.fragment, gone)
    requires var s := Next(c, After(c, FRESH, before), Fault(a.fragment, gone));
             Feasible(c, s, later) && Distinct(AllFinished(c, FRESH, before) + AllFinished(c, s, later))
    ensures NeverPops(Pops(later), a.fragment)
  {
    hide Feasible, Purged, Free;
    var past, s := AllFinished(c, FRESH, before), After(c, FRESH, before);
    var s' := Next(c, s, Fault(a.fragment, gone));
    var rest := AllFinished(c, s', later);
    assert Distinct([] + past) by {
      assert forall i :: 0 <= i < |past| ==> ([] + past)[i] == (past + rest)[i];
    }
    RunAccounted(c, FRESH, before, []);
    PurgeFrees(s.queue, a.fragment, gone);
    assert a.fragment !in rest by {
      if a.fragment in rest {
        NotInBoth(past, rest, a.fragment);
      }
    }
    RunFree(c, s', later, a.fragment);
  }

  // ---------------------------------------------------------------- throughput

  datatype Fetch = Fetch(at: nat, size: nat)

  /** The reads a run makes. */
  function Fetches(c: Config, s: Consumer, es: seq<Event>): seq<Fetch>
    requires c.speed > 0
    decreases |es|
  {
    if es == [] then []
    else (if es[0].Get? && Reads(s, es[0].now) then [Fetch(es[0].now, es[0].reading.size)] else [])
         + Fetches(c, Next(c, s, es[0]), es[1..])
  }

  function Bytes(fs: seq<Fetch>): nat { if fs == [] then 0 else fs[0].size + Bytes(fs[1..]) }

  /** Each read waits for the one before it to have been sent. */
  lemma {:induction false} FetchesSpaced(c: Config, s: Consumer, es: seq<Event>)
    requires c.speed > 0
    ensures var fs := Fetches(c, s, es);
            && (fs != [] ==> fs[0].at >= s.nextRead)
            && forall i :: 0 <= i < |fs| - 1 ==> fs[i + 1].at >= fs[i].at + Delay(c, fs[i].size)
    decreases |es|
  {
    hide Delay, Timeline, Walk, Finished, Traverse;
    if es != [] {
      var rest := Fetches(c, Next(c, s, es[0]), es[1..]);
      FetchesSpaced(c, Next(c, s, es[0]), es[1..]);
      if es[0].Get? && Reads(s, es[0].now) {
        assert Fetches(c, s, es) == [Fetch(es[0].now, es[0].reading.size)] + rest;
      } else {
        assert Fetches(c, s, es) == rest;
      }
    }
  }

  /** Without a signal no data is fetched once the stream has said that it has none, or waits for acks. */
  lemma {:induction false} IdleUntilSignal(c: Config, s: Consumer, es: seq<Event>)
    requires c.speed > 0 && !s.available && forall i :: 0 <= i < |es| ==> !es[i].Signal?
    ensures Fetches(c, s, es) == [] && !After(c, s, es).available
    decreases |es|
  {
    hide Delay, Timeline, Walk, Finished;
    if es != [] {
      IdleUntilSignal(c, Next(c, s, es[0]), es[1..]);
    }
  }

  /** And a signal is enough for the next read that is due to fetch. */
  lemma SignalWakes(c: Config, s: Consumer, now: nat)
    requires c.speed > 0 && now >= s.nextRead
    ensures Reads(Next(c, s, Signal), now)
  {
  }

  /** The last transfer is the time of the last read that sent something. */
  lemma {:induction false} LastTransferIs(c: Config, s: Consumer, es: seq<Event>)
    requires c.speed > 0
    ensures After(c, s, es).lastTransfer == LastSent(s.lastTransfer, Fetches(c, s, es))
    decreases |es|
  {
    hide Next, Reads;
    if es != [] {
      var e, s' := es[0], Next(c, s, es[0]);
      LastTransferIs(c, s', es[1..]);
      StepTransfers(c, s, e);
      var rest := Fetches(c, s', es[1..]);
      if e.Get? && Reads(s, e.now) {
        assert ([Fetch(e.now, e.reading.size)] + rest)[1..] == rest;
      } else {
        assert [] + rest == rest;
      }
    }
  }

  lemma StepTransfers(c: Config, s: Consumer, e: Event)
    requires c.speed > 0
    ensures Next(c, s, e).lastTransfer == if e.Get? && Reads(s, e.now) && e.reading.size > 0 then Some(e.now) else s.lastTransfer
  {
    hide Delay, Timeline, Walk, Finished;
  }

  function LastSent(last: Option<nat>, fs: seq<Fetch>): Option<nat>
    decreases |fs|
  {
    if fs == [] then last else LastSent(if fs[0].size > 0 then Some(fs[0].at) else last, fs[1..])
  }

  lemma DelayCovers(c: Config, size: nat)
    requires c.speed > 0
    ensures size * TICKS_PER_SECOND <= c.speed * (Delay(c, size) + 1)
  {
  }

  lemma {:induction false} SpacedThroughput(c: Config, fs: seq<Fetch>, k: nat)
    requires c.speed > 0 && k < |fs|
    requires forall i :: 0 <= i < |fs| - 1 ==> fs[i + 1].at >= fs[i].at + Delay(c, fs[i].size)
    ensures fs[k].at >= fs[0].at && TICKS_PER_SECOND * Bytes(fs[..k]) <= c.speed * (fs[k].at - fs[0].at + k)
    decreases k
  {
    if k > 0 {
      hide Delay;
      var rest := fs[1..];
      assert forall i :: 0 <= i < |rest| ==> rest[i] == fs[i + 1];
      SpacedThroughput(c, rest, k - 1);
      assert fs[..k][1..] == rest[..k - 1];
      DelayCovers(c, fs[0].size);
      var d, gap := Delay(c, fs[0].size), fs[k].at - rest[0].at + (k - 1);
      TimesAdd(c.speed, gap, d + 1, fs[k].at - fs[0].at + k);
    }
  }

  lemma TimesAdd(x: nat, a: nat, b: nat, total: nat)
    requires a + b <= total
    ensures x * a + x * b <= x * total
  {
  }

  /** The upload speed is kept over every run, up to one tick of rounding per read. */
  lemma Throughput(c: Config, s: Consumer, es: seq<Event>, k: nat)
    requires c.speed > 0 && k < |Fetches(c, s, es)|
    ensures var fs := Fetches(c, s, es);
            fs[k].at >= fs[0].at && TICKS_PER_SECOND * Bytes(fs[..k]) <= c.speed * (fs[k].at - fs[0].at + k)
  {
    FetchesSpaced(c, s, es);
    SpacedThroughput(c, Fetches(c, s, es), k);
  }
}

/** The consumer object: its fields change call by call, and each call is proved to be a step of
    AckSchedule. The queue is a priority queue: of the earliest acks it offers any one. */
module Consumers {
  import opened Arithmetic
  import opened ViewItems
  import opened ContentView
  import opened AckSchedule
  import Upload

  /** A queue that is not empty has an earliest ack. */
  lemma {:induction false} TopExists(q: multiset<Ack>)
    requires |q| > 0
    ensures exists a :: IsTop(q, a)
    decreases |q|
  {
    var a :| a in q;
    var rest := q - multiset{a};
    assert forall b :: b in q ==> b == a || b in rest;
    if |rest| == 0 {
      assert IsTop(q, a);
    } else {
      TopExists(rest);
      var t :| IsTop(rest, t);
      assert IsTop(q, if a.due <= t.due then a else t);
    }
  }

  method Top(q: multiset<Ack>) returns (a: Ack)
    requires |q| > 0
    ensures IsTop(q, a)
  {
    TopExists(q);
    a :| a in q && forall b :: b in q ==> a.due <= b.due;
  }

  /** The queue has grown from q by the train of the fragments done, which ends at t. */
  ghost predicate Trained(c: Config, q: multiset<Ack>, done: seq<Option<nat>>, sendTime: nat, queue: multiset<Ack>, t: nat) {
    queue == q + multiset(Timeline(c, done, sendTime)) && t == UntilAll(c, |done|, sendTime)
  }

  lemma EmptyTrain(c: Config, q: multiset<Ack>, t: nat)
    ensures Trained(c, q, [], t, q, t)
  {
  }

  lemma TrainGrows(c: Config, q: multiset<Ack>, done: seq<Option<nat>>, open: Option<nat>, sendTime: nat, queue: multiset<Ack>, t: nat)
    requires Trained(c, q, done, sendTime, queue, t)
    ensures Trained(c, q, done + [open], sendTime, queue + multiset(Acks(c, open, t)), Until(c, t))
  {
    hide Timeline, Acks;
    TimelineAppend(c, done, open, sendTime);
    assert multiset(Timeline(c, done, sendTime) + Acks(c, open, t)) == multiset(Timeline(c, done, sendTime)) + multiset(Acks(c, open, t));
  }

  /** Partway through a purge: what is left of the queue, what was set aside, and what is gone. */
  ghost predicate Sorting(whole: multiset<Ack>, queue: multiset<Ack>, aside: multiset<Ack>, gone: multiset<Ack>, f: Option<nat>) {
    && queue + aside + gone == whole
    && (forall a :: a in gone ==> a.fragment == f)
    && (forall a :: a in aside ==> a.fragment != f)
    && (forall a, b :: a in gone && b in queue ==> a.due <= b.due)
  }

  lemma SortingStarts(queue: multiset<Ack>, f: Option<nat>)
    ensures Sorting(queue, queue, multiset{}, multiset{}, f)
  {
  }

  lemma SortingStep(whole: multiset<Ack>, queue: multiset<Ack>, aside: multiset<Ack>, gone: multiset<Ack>, f: Option<nat>, top: Ack)
    requires Sorting(whole, queue, aside, gone, f) && IsTop(queue, top)
    ensures var less := queue - multiset{top};
            && |less| < |queue|
            && if top.fragment == f then Sorting(whole, less, aside, gone + multiset{top}, f)
               else Sorting(whole, less, aside + multiset{top}, gone, f)
  {
  }

  lemma SortingEnds(whole: multiset<Ack>, queue: multiset<Ack>, aside: multiset<Ack>, gone: multiset<Ack>, f: Option<nat>)
    requires Sorting(whole, queue, aside, gone, f) && |gone| <= 3 && (|gone| < 3 ==> |queue| == 0)
    ensures Purged(whole, f, gone) && whole - gone == queue + aside
  {
  }

  lemma SortingBack(aside: multiset<Ack>, top: Ack)
    requires IsTop(aside, top)
    ensures (aside - multiset{top}) + multiset{top} == aside && |aside - multiset{top}| < |aside|
  {
  }

  /** The last item up to the one being sent where a stream start has been, or where the view ends. */
  ghost predicate SessionStart(r: Reading, began: set<nat>, first: nat) {
    && first <= r.index && (forall j :: first < j <= r.index ==> j !in began) && (forall j :: first <= j < r.index ==> r.view.Holds(j))
    && (first !in began ==> first == 0 || !r.view.Holds(first - 1))
  }

  /** The consumer behind the walk of a read that sent something. */
  ghost function Walked(c: Config, s: Consumer, r: Reading, sendTime: nat): (s': Consumer)
    ensures s' == s.(queue := s'.queue, open := s'.open, walked := s'.walked, started := s'.started)
  {
    var w := Walk(s, r);
    var ends := w.done + (if r.status == Upload.AwaitingPersistedAck then [w.open] else []);
    s.(started := true, walked := Stop(r), open := w.open, queue := s.queue + multiset(Timeline(c, ends, sendTime)))
  }

  lemma GetDataIs(c: Config, s: Consumer, now: nat, r: Reading)
    requires c.speed > 0
    ensures var next := now + Delay(c, r.size);
            var w := if r.size == 0 || r.status == Upload.HandleAborted then s else Walked(c, s, r, next);
            GetData(c, s, now, r) ==
              if !Reads(s, now) then s
              else w.(available := r.status != Upload.NoMoreData && r.status != Upload.AwaitingPersistedAck,
                      lastTransfer := if r.size > 0 then Some(now) else s.lastTransfer, nextRead := next)
  {
    hide Timeline, Walk, Delay;
  }

  class AckConsumer {
    const config: Config
    var queue: multiset<Ack>
    var open: Option<nat>
    var walked: nat
    var started: bool
    var available: bool
    var nextRead: nat
    var lastTransfer: Option<nat>

    ghost function Abs(): Consumer
      reads this
    {
      Consumer(queue, open, walked, started, available, nextRead, lastTransfer)
    }

    constructor (c: Config)
      ensures config == c && Abs() == FRESH
    {
      config := c;
      queue, open, walked, started := multiset{}, None, 0, false;
      available, nextRead, lastTransfer := false, 0, None;
    }

    method DataAvailable()
      requires config.speed > 0
      modifies this`available
      ensures Abs() == Next(config, old(Abs()), Signal)
    {
      available := true;
    }

    method EnqueueAckItem(f: Option<nat>, submitTime: nat) returns (t: nat)
      modifies this`queue
      ensures queue == old(queue) + multiset(Acks(config, f, submitTime)) && t == Until(config, submitTime)
    {
      hide Acks;
      AcksAre(config, f, submitTime);
      t := submitTime + config.buffering * TICKS_PER_MS;
      queue := queue + multiset{Ack(f, Buffering, t)};
      t := t + config.received * TICKS_PER_MS;
      queue := queue + multiset{Ack(f, Received, t)};
      if config.retention != 0 {
        t := t + config.persisted * TICKS_PER_MS;
        queue := queue + multiset{Ack(f, Persisted, t)};
      }
    }

    /** Walks the view from where the last call stopped, queueing the acks of every fragment that ends
        on the way, and at the end of the stream those of the open one. */
    method CreateAckEvent(v: View, stop: nat, eos: bool, sendTime: nat)
      modifies this`queue, this`open, this`walked
      ensures var t := Traverse(v, old(walked), stop, Scan([], old(open)));
              && walked == stop && open == t.open
              && queue == old(queue) + multiset(Timeline(config, t.done + (if eos then [t.open] else []), sendTime))
    {
      hide Timeline, UntilAll, Acks, Visit;
      var t := sendTime;
      ghost var done: seq<Option<nat>> := [];
      ghost var q, whole := queue, Traverse(v, walked, stop, Scan([], open));
      EmptyTrain(config, q, sendTime);
      var i := walked;
      while i < stop
        invariant Traverse(v, i, stop, Scan(done, open)) == whole
        invariant Trained(config, q, done, sendTime, queue, t)
      {
        t, done := VisitItem(v, i, q, done, sendTime, t);
        i := i + 1;
      }
      assert done + [] == done;
      if eos {
        t := QueueFragment(q, done, sendTime, t);
      }
      walked := stop;
    }

    /** One item of the walk: a fragment start or end queues the open fragment. */
    method VisitItem(v: View, i: nat, ghost q: multiset<Ack>, ghost done: seq<Option<nat>>, ghost sendTime: nat, at: nat)
        returns (t: nat, ghost done': seq<Option<nat>>)
      requires Trained(config, q, done, sendTime, queue, at)
      modifies this`queue, this`open
      ensures Trained(config, q, done', sendTime, queue, t) && Scan(done', open) == Visit(v, i, Scan(done, old(open)))
    {
      hide Trained;
      t, done' := at, done;
      if v.Holds(i) && !v.At(i).skip {
        if v.At(i).fragStart {
          if open.Some? {
            t := QueueFragment(q, done, sendTime, t);
            done' := done + [open];
          }
          open := Some(v.At(i).ackTimestamp / TICKS_PER_MS);
        } else if v.At(i).fragEnd {
          t := QueueFragment(q, done, sendTime, t);
          done' := done + [open];
          open := None;
        }
      }
    }

    /** Queues the open fragment behind those of this call. */
    method QueueFragment(ghost q: multiset<Ack>, ghost done: seq<Option<nat>>, ghost sendTime: nat, at: nat) returns (t: nat)
      requires Trained(config, q, done, sendTime, queue, at)
      modifies this`queue
      ensures Trained(config, q, done + [open], sendTime, queue, t)
    {
      hide Trained, Acks, Until;
      TrainGrows(config, q, done, open, sendTime, queue, at);
      t := EnqueueAckItem(open, at);
    }

    /** Takes the earliest three acks of a fragment out of the queue, or all there are: acks of other
        fragments met on the way are set aside and put back. */
    method PurgeAckItems(f: Option<nat>) returns (ghost gone: multiset<Ack>)
      modifies this`queue
      ensures Purged(old(queue), f, gone) && queue == old(queue) - gone
    {
      hide Purged, Sorting, IsTop;
      gone := multiset{};
      var aside := multiset{};
      var purged := 0;
      SortingStarts(queue, f);
      while |queue| > 0 && purged < 3
        invariant Sorting(old(queue), queue, aside, gone, f) && |gone| == purged <= 3
        decreases |queue|
      {
        var top := Top(queue);
        SortingStep(old(queue), queue, aside, gone, f, top);
        if top.fragment == f {
          purged := purged + 1;
          gone := gone + multiset{top};
        } else {
          aside := aside + multiset{top};
        }
        queue := queue - multiset{top};
      }
      SortingEnds(old(queue), queue, aside, gone, f);
      ghost var rest := queue + aside;
      while |aside| > 0
        invariant queue + aside == rest
        decreases |aside|
      {
        var top := Top(aside);
        SortingBack(aside, top);
        queue := queue + multiset{top};
        aside := aside - multiset{top};
      }
    }

    /** Finds the session's first item, walking back from the one being sent to an item where a stream
        start has been: the greatest such index with every item between still in the view. */
    method InitOldCurrent(v: View, index: nat, began: set<nat>) returns (ok: bool, low: nat)
      modifies this`walked, this`started
      ensures started && low <= index && forall j :: low < j <= index ==> j !in began
      ensures forall j :: low <= j < index ==> v.Holds(j)
      ensures ok <==> low in began
      ensures walked == low && (!ok ==> low == 0 || !v.Holds(low - 1))
    {
      low, ok := index, index in began;
      while !ok && low > 0 && v.Holds(low - 1)
        invariant low <= index && forall j :: low < j <= index ==> j !in began
        invariant ok <==> low in began
        invariant forall j :: low <= j < index ==> v.Holds(j)
        decreases low
      {
        low := low - 1;
        ok := low in began;
      }
      walked, started := low, true;
    }

    /** The walk behind a read that sent something; the first one starts at the session's first item. */
    method WalkBehind(r: Reading, began: set<nat>, sendTime: nat) returns (ghost first: nat)
      modifies this`queue, this`open, this`walked, this`started
      ensures !old(started) ==> SessionStart(r, began, first)
      ensures Abs() == Walked(config, old(Abs()), r.(first := first), sendTime)
    {
      hide Timeline, Traverse;
      ghost var s := Abs();
      if !started {
        var ok, low := InitOldCurrent(r.view, r.index, began);
      }
      first := walked;
      assert Walk(s, r.(first := first)) == Traverse(r.view, walked, Stop(r), Scan([], open));
      CreateAckEvent(r.view, if r.spent then r.index + 1 else r.index, r.status == Upload.AwaitingPersistedAck, sendTime);
    }

    /** A read of the stream, when data is available and the one before it has been sent; `began` are the
        items where a stream start has been. */
    method TimedGetStreamData(now: nat, r: Reading, began: set<nat>) returns (did: bool, ghost r': Reading)
      requires config.speed > 0
      modifies this
      ensures r' == r.(first := r'.first)
      ensures did && r.status != Upload.HandleAborted && r.size != 0 && !old(started) ==> SessionStart(r, began, r'.first)
      ensures Abs() == Next(config, old(Abs()), Get(now, r')) && did == Reads(old(Abs()), now)
    {
      hide Walked, Delay, SessionStart, GetData;
      ghost var s := Abs();
      did, r' := available && now >= nextRead, r;
      if did {
        var delay := Delay(config, r.size);
        if r.status != Upload.HandleAborted && r.size != 0 {
          ghost var first := WalkBehind(r, began, now + delay);
          r' := r.(first := first);
        }
        if r.status == Upload.NoMoreData || r.status == Upload.AwaitingPersistedAck {
          available := false;
        }
        if r.size > 0 {
          lastTransfer := Some(now);
        }
        nextRead := now + delay;
      }
      GetDataIs(config, s, now, r');
    }

    /** Offers the earliest ack to the stream if it is due; `accepts` is whether the stream takes it. With
        acks disabled it is dropped unseen, and one that is not taken stays queued. */
    method TimedSubmitNormalAck(now: nat, accepts: bool) returns (submitted: bool, offered: Option<Ack>, ghost top: Option<Ack>)
      requires config.speed > 0
      modifies this`queue
      ensures Enabled(old(Abs()), Submit(now, top, accepts || !config.enabled))
      ensures Abs() == Next(config, old(Abs()), Submit(now, top, accepts || !config.enabled))
      ensures offered == (if config.enabled then top else None) && submitted == (offered.Some? && accepts)
    {
      submitted, offered, top := false, None, None;
      if |queue| > 0 {
        var a := Top(queue);
        if now >= a.due {
          top := Some(a);
          if config.enabled {
            offered := Some(a);
            if !accepts {
              return;
            }
            submitted := true;
          }
          queue := queue - multiset{a};
        }
      }
    }

    /** An error ack for the fragment of the earliest ack, whose own acks are purged. */
    method SubmitErrorAck() returns (submitted: Option<Ack>, ghost gone: multiset<Ack>)
      requires config.speed > 0
      modifies this`queue
      ensures submitted.Some? <==> |old(queue)| > 0
      ensures submitted.Some? ==> && IsTop(old(queue), submitted.value)
                                  && Enabled(old(Abs()), Fault(submitted.value.fragment, gone))
                                  && Abs() == Next(config, old(Abs()), Fault(submitted.value.fragment, gone))
      ensures submitted.None? ==> Abs() == old(Abs())
    {
      submitted, gone := None, multiset{};
      if |queue| > 0 {
        var a := Top(queue);
        submitted := Some(a);
        gone := PurgeAckItems(a.fragment);
      }
    }
  }
}

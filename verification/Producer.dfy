/** The frame generator: key-frame cadence, end-of-fragment frames and live pacing. */
module Producer {
  import opened Arithmetic

  const LIMIT32: nat := 0x1_0000_0000

  /** The frame index is a 32-bit counter. */
  function Wrap32(x: nat): nat { x % 0x1_0000_0000 }

  /** Frames per second, frames from one key frame to the next, whether to follow the clock, and
      whether to end every fragment with an end-of-fragment frame. */
  datatype Config = Config(fps: nat, interval: nat, live: bool, setEofr: bool)

  predicate Ok(c: Config) { 0 < c.fps && 0 < c.interval < LIMIT32 }

  function Duration(c: Config): nat
    requires Ok(c)
  {
    1000 / c.fps * TICKS_PER_MS
  }

  datatype State = State(index: nat, timestamp: nat, nextPut: nat)

  datatype Out = Real(key: bool, timestamp: nat) | EndOfFragment

  datatype Put = Put(state: State, out: seq<Out>)

  predicate Aligned(c: Config, s: State)
    requires Ok(c)
  {
    s.index % c.interval == 0
  }

  /** Where an end-of-fragment frame moves the index: to the next multiple of the interval. */
  function Ahead(c: Config, s: State): nat
    requires Ok(c)
  {
    s.index + (c.interval - s.index % c.interval)
  }

  function PutReal(c: Config, s: State): Put
    requires Ok(c)
  {
    Put(s.(index := Wrap32(s.index + 1), timestamp := Wrap64(s.timestamp + Duration(c))),
        [Real(Aligned(c, s), s.timestamp)])
  }

  function PutEofr(c: Config, s: State): Put
    requires Ok(c)
  {
    Put(s.(index := Wrap32(Ahead(c, s))), [EndOfFragment])
  }

  function PutFrame(c: Config, s: State, eofr: bool): Put
    requires Ok(c)
  {
    if eofr then PutEofr(c, s) else PutReal(c, s)
  }

  predicate Due(c: Config, s: State, now: nat) { !c.live || now >= s.nextPut }

  function TimedPut(c: Config, s: State, now: nat): Put
    requires Ok(c)
  {
    if !Due(c, s, now) then Put(s, [])
    else
      var p := PutReal(c, s);
      Put(if c.live then p.state.(nextPut := now + Duration(c)) else p.state,
          p.out + (if c.setEofr && Aligned(c, p.state) then [EndOfFragment] else []))
  }

  datatype Event = Direct(eofr: bool) | Timed(now: nat)

  function Step(c: Config, s: State, e: Event): Put
    requires Ok(c)
  {
    match e
    case Direct(eofr) => PutFrame(c, s, eofr)
    case Timed(now) => TimedPut(c, s, now)
  }

  const FRESH := State(0, 0, 0)

  // ---------------------------------------------------------------- the object

  class FrameProducer {
    const config: Config
    var index: nat
    var timestamp: nat
    var nextPut: nat

    ghost function Abs(): State
      reads this
    {
      State(index, timestamp, nextPut)
    }

    constructor (c: Config)
      ensures config == c && Abs() == FRESH
    {
      config := c;
      index, timestamp, nextPut := 0, 0, 0;
    }

    method PutOne(eofr: bool) returns (out: Out)
      requires Ok(config)
      modifies this`index, this`timestamp
      ensures Put(Abs(), [out]) == PutFrame(config, old(Abs()), eofr)
    {
      if eofr {
        index := Wrap32(index + (config.interval - index % config.interval));
        out := EndOfFragment;
      } else {
        out := Real(index % config.interval == 0, timestamp);
        index := Wrap32(index + 1);
        timestamp := Wrap64(timestamp + Duration(config));
      }
    }

    method TimedPutFrame(now: nat) returns (did: bool, out: seq<Out>)
      requires Ok(config)
      modifies this
      ensures Put(Abs(), out) == TimedPut(config, old(Abs()), now) && did == (out != [])
    {
      did, out := !config.live || now >= nextPut, [];
      if did {
        var frame := PutOne(false);
        out := [frame];
        if config.setEofr && index % config.interval == 0 {
          out := out + [EndOfFragment];
        }
        if config.live {
          nextPut := now + Duration(config);
        }
      }
    }
  }

  // ---------------------------------------------------------------- end of fragment

  /** The frame after an end-of-fragment frame is a key frame, exactly when the index does not
      overflow on the way or the interval divides the range of the index. */
  lemma EofrAlignsIff(c: Config, s: State)
    requires Ok(c) && s.index < LIMIT32
    ensures Aligned(c, PutEofr(c, s).state) <==> Ahead(c, s) < LIMIT32 || LIMIT32 % c.interval == 0
  {
    hide Duration;
    var m := Ahead(c, s);
    NextMultiple(s.index, c.interval);
    assert m < 2 * LIMIT32;
    assert Wrap32(m) == if m < LIMIT32 then m else m - LIMIT32;
    if m >= LIMIT32 {
      WrappedMultiple(m, LIMIT32, c.interval);
    }
  }

  lemma NextMultiple(x: nat, n: nat)
    requires n > 0
    ensures (x + (n - x % n)) % n == 0
  {
    var q := x / n;
    assert x + (n - x % n) == n * (q + 1);
    RemainderUnique(n * (q + 1), n, q + 1, 0);
  }

  lemma WrappedMultiple(m: nat, limit: nat, n: nat)
    requires n > 0 && m % n == 0 && m >= limit
    ensures (m - limit) % n == 0 <==> limit % n == 0
  {
    var a, b := m / n, limit / n;
    assert m == n * a && limit == n * b + limit % n;
    if limit % n == 0 {
      assert m - limit == n * (a - b);
      RemainderUnique(n * (a - b), n, a - b, 0);
    }
    if (m - limit) % n == 0 {
      var d := (m - limit) / n;
      assert limit == n * (a - d);
      RemainderUnique(n * (a - d), n, a - d, 0);
    }
  }

  // ---------------------------------------------------------------- runs

  /** The frames a run puts. */
  function Frames(c: Config, s: State, es: seq<Event>): seq<Out>
    requires Ok(c)
    decreases |es|
  {
    if es == [] then [] else Step(c, s, es[0]).out + Frames(c, Step(c, s, es[0]).state, es[1..])
  }

  /** No end-of-fragment frame of the run loses its alignment to the overflow of the index. */
  predicate Unbroken(c: Config, s: State, es: seq<Event>)
    requires Ok(c)
    decreases |es|
  {
    es == [] ||
    (&& (es[0] == Direct(true) ==> Ahead(c, s) < LIMIT32 || LIMIT32 % c.interval == 0)
     && Unbroken(c, Step(c, s, es[0]).state, es[1..]))
  }

  /** In what follows a frame, the first frame is a key frame if that one ended a fragment. */
  predicate KeyAfterEnd(ended: bool, fs: seq<Out>)
    decreases |fs|
  {
    fs == [] || ((ended && fs[0].Real? ==> fs[0].key) && KeyAfterEnd(fs[0].EndOfFragment?, fs[1..]))
  }

  lemma {:induction false} RunKeyAfterEnd(c: Config, s: State, es: seq<Event>, ended: bool)
    requires Ok(c) && s.index < LIMIT32 && Unbroken(c, s, es) && (ended ==> Aligned(c, s))
    ensures KeyAfterEnd(ended, Frames(c, s, es))
    decreases |es|
  {
    hide Step, Aligned, Ahead;
    if es != [] {
      var p := Step(c, s, es[0]);
      StepAligns(c, s, es[0]);
      RunKeyAfterEnd(c, p.state, es[1..], if p.out == [] then ended else p.out[|p.out| - 1].EndOfFragment?);
      KeyJoins(ended, p.out, Frames(c, p.state, es[1..]));
    }
  }

  /** What a step puts: nothing, a frame that is a key frame when the index is aligned, an end of fragment
      that aligns the index, or the frame and then that. */
  lemma StepAligns(c: Config, s: State, e: Event)
    requires Ok(c) && s.index < LIMIT32 && (e == Direct(true) ==> Ahead(c, s) < LIMIT32 || LIMIT32 % c.interval == 0)
    ensures var p := Step(c, s, e);
            && p.state.index < LIMIT32 && |p.out| <= 2 && (p.out == [] ==> p.state.index == s.index)
            && (|p.out| == 2 ==> p.out[0].Real? && p.out[1].EndOfFragment?)
            && (p.out != [] && p.out[|p.out| - 1].EndOfFragment? ==> Aligned(c, p.state))
            && (p.out != [] && p.out[0].Real? && Aligned(c, s) ==> p.out[0].key)
            && (p.out == [] && Aligned(c, s) ==> Aligned(c, p.state))
  {
    hide Duration, Ahead;
    if e == Direct(true) {
      EofrAlignsIff(c, s);
    }
  }

  lemma KeyJoins(ended: bool, out: seq<Out>, rest: seq<Out>)
    requires |out| <= 2 && (out != [] && ended && out[0].Real? ==> out[0].key)
    requires |out| == 2 ==> out[0].Real? && out[1].EndOfFragment?
    requires KeyAfterEnd(if out == [] then ended else out[|out| - 1].EndOfFragment?, rest)
    ensures KeyAfterEnd(ended, out + rest)
  {
    var all := out + rest;
    if out == [] {
      assert all == rest;
    } else if |out| == 1 {
      assert all[1..] == rest;
    } else {
      assert all[1..] == [out[1]] + rest && all[1..][1..] == rest;
    }
  }

  /** The real frames among the frames put. */
  function Reals(fs: seq<Out>): (r: seq<Out>)
    ensures forall i :: 0 <= i < |r| ==> r[i].Real?
  {
    if fs == [] then [] else (if fs[0].Real? then [fs[0]] else []) + Reals(fs[1..])
  }

  /** One step puts at most one real frame. */
  function RealOf(c: Config, s: State, e: Event): seq<Out>
    requires Ok(c)
  {
    if e == Direct(true) || (e.Timed? && !Due(c, s, e.now)) then [] else [Real(Aligned(c, s), s.timestamp)]
  }

  lemma {:induction false} RealsConcat(a: seq<Out>, b: seq<Out>)
    ensures Reals(a + b) == Reals(a) + Reals(b)
  {
    if a == [] {
      assert a + b == b;
    } else {
      assert (a + b)[1..] == a[1..] + b;
      RealsConcat(a[1..], b);
    }
  }

  lemma RealsOfStep(c: Config, s: State, e: Event)
    requires Ok(c)
    ensures Reals(Step(c, s, e).out) == RealOf(c, s, e)
  {
    hide Duration, Aligned, Ahead;
    var out := Step(c, s, e).out;
    if |out| == 2 {
      assert out == [out[0]] + [EndOfFragment];
      RealsConcat([out[0]], [EndOfFragment]);
      assert [out[0]][1..] == [] && [EndOfFragment][1..] == [];
    } else if |out| == 1 {
      assert out[1..] == [];
    }
  }

  lemma RealsStep(c: Config, s: State, es: seq<Event>)
    requires Ok(c) && es != []
    ensures Reals(Frames(c, s, es)) == RealOf(c, s, es[0]) + Reals(Frames(c, Step(c, s, es[0]).state, es[1..]))
  {
    hide Step, Reals, RealOf;
    RealsOfStep(c, s, es[0]);
    RealsConcat(Step(c, s, es[0]).out, Frames(c, Step(c, s, es[0]).state, es[1..]));
  }

  /** The n-th real frame of a run is at n durations, in the 64 bits a time has. */
  lemma {:induction false} RealTimes(c: Config, s: State, es: seq<Event>, n: nat, done: nat)
    requires Ok(c) && s.timestamp == Wrap64(done * Duration(c)) && n < |Reals(Frames(c, s, es))|
    ensures Reals(Frames(c, s, es))[n].Real? && Reals(Frames(c, s, es))[n].timestamp == Wrap64((done + n) * Duration(c))
    decreases |es|
  {
    hide Duration, Frames, Reals;
    if es == [] {
      NoFrames(c, s);
    } else {
      RealsStep(c, s, es);
      var s' := Step(c, s, es[0]).state;
      if RealOf(c, s, es[0]) == [] {
        RealTimes(c, s', es[1..], n, done);
      } else if n > 0 {
        NextTime(done, Duration(c));
        RealTimes(c, s', es[1..], n - 1, done + 1);
      }
    }
  }

  lemma NoFrames(c: Config, s: State)
    requires Ok(c)
    ensures Reals(Frames(c, s, [])) == []
  {
  }

  lemma NextTime(n: nat, d: nat)
    ensures Wrap64(Wrap64(n * d) + d) == Wrap64((n + 1) * d)
  {
    assert (n + 1) * d == n * d + d;
  }

  lemma TimestampsFollow(c: Config, es: seq<Event>, n: nat)
    requires Ok(c) && n < |Reals(Frames(c, FRESH, es))|
    ensures Reals(Frames(c, FRESH, es))[n].timestamp == Wrap64(n * Duration(c))
  {
    RealTimes(c, FRESH, es, n, 0);
  }

  // ---------------------------------------------------------------- key frames

  /** From `since` frames after the last key frame, no key frame is more than n after the one before. */
  predicate KeysWithin(n: nat, since: nat, fs: seq<Out>)
    decreases |fs|
  {
    fs == [] ||
    if fs[0].Real? && fs[0].key then KeysWithin(n, 1, fs[1..]) else since < n && KeysWithin(n, since + 1, fs[1..])
  }

  /** The index is aligned, or as far past alignment as the last key frame is past. */
  predicate Phased(c: Config, s: State, since: nat)
    requires Ok(c)
  {
    s.index < LIMIT32 && since <= c.interval && (Aligned(c, s) || s.index % c.interval == since)
  }

  lemma StepPhased(c: Config, s: State, since: nat, e: Event)
    requires Ok(c) && Phased(c, s, since) && (e == Direct(true) ==> Ahead(c, s) < LIMIT32 || LIMIT32 % c.interval == 0)
    ensures var s', r := Step(c, s, e).state, RealOf(c, s, e);
            if r == [] then Phased(c, s', since)
            else if r[0].key then Phased(c, s', 1)
            else since < c.interval && Phased(c, s', since + 1)
  {
    hide Duration;
    if e == Direct(true) {
      EofrAlignsIff(c, s);
    } else {
      RealPhased(c, s, since);
    }
  }

  lemma RealPhased(c: Config, s: State, since: nat)
    requires Ok(c) && Phased(c, s, since)
    ensures var s' := PutReal(c, s).state;
            if Aligned(c, s) then Phased(c, s', 1) else since < c.interval && Phased(c, s', since + 1)
  {
    hide Duration, Wrap32;
    WrapNext(s.index, c.interval);
  }

  lemma WrapNext(x: nat, n: nat)
    requires x < LIMIT32 && n > 0
    ensures var y := Wrap32(x + 1); y < LIMIT32 && (y % n == 0 || y % n == x % n + 1)
  {
    NextIndex(x, n);
    if x + 1 == LIMIT32 {
      assert Wrap32(x + 1) == 0;
      RemainderUnique(0, n, 0, 0);
    } else {
      assert Wrap32(x + 1) == x + 1;
    }
  }

  /** Going on by one moves the phase by one. */
  lemma NextIndex(x: nat, n: nat)
    requires n > 0
    ensures (x + 1) % n == if x % n + 1 == n then 0 else x % n + 1
  {
    var q := x / n;
    if x % n + 1 == n {
      assert x + 1 == n * (q + 1);
      RemainderUnique(x + 1, n, q + 1, 0);
    } else {
      RemainderUnique(x + 1, n, q, x % n + 1);
    }
  }

  lemma {:induction false} RunKeysWithin(c: Config, s: State, es: seq<Event>, since: nat)
    requires Ok(c) && Phased(c, s, since) && Unbroken(c, s, es)
    ensures KeysWithin(c.interval, since, Reals(Frames(c, s, es)))
    decreases |es|
  {
    hide Frames, Reals, Step, Phased;
    if es == [] {
      NoFrames(c, s);
    } else {
      RealsStep(c, s, es);
      StepPhased(c, s, since, es[0]);
      var r, s' := RealOf(c, s, es[0]), Step(c, s, es[0]).state;
      var rest := Reals(Frames(c, s', es[1..]));
      if r == [] {
        RunKeysWithin(c, s', es[1..], since);
        assert r + rest == rest;
      } else {
        RunKeysWithin(c, s', es[1..], if r[0].key then 1 else since + 1);
        assert (r + rest)[1..] == rest;
      }
    }
  }

  /** Over every run the first real frame is a key frame, the frame after an end of fragment is one,
      and key frames are never more than an interval apart. */
  lemma Cadence(c: Config, es: seq<Event>)
    requires Ok(c) && Unbroken(c, FRESH, es)
    ensures KeyAfterEnd(true, Frames(c, FRESH, es))
    ensures KeysWithin(c.interval, c.interval, Reals(Frames(c, FRESH, es)))
  {
    RunKeyAfterEnd(c, FRESH, es, true);
    RunKeysWithin(c, FRESH, es, c.interval);
  }

  /** Of a run without ends of fragment put by hand, exactly every interval-th real frame is a key frame, as far as
      the index goes. */
  lemma {:induction false} KeyEvery(c: Config, s: State, es: seq<Event>, n: nat)
    requires Ok(c) && s.index + n < LIMIT32 && (forall i :: 0 <= i < |es| ==> es[i] != Direct(true))
    requires n < |Reals(Frames(c, s, es))|
    ensures Reals(Frames(c, s, es))[n].Real? && (Reals(Frames(c, s, es))[n].key <==> (s.index + n) % c.interval == 0)
    decreases |es|
  {
    hide Duration, Frames, Reals;
    if es == [] {
      NoFrames(c, s);
    } else {
      RealsStep(c, s, es);
      var s' := Step(c, s, es[0]).state;
      if RealOf(c, s, es[0]) == [] {
        KeyEvery(c, s', es[1..], n);
      } else if n > 0 {
        KeyEvery(c, s', es[1..], n - 1);
      }
    }
  }

  // ---------------------------------------------------------------- end-of-fragment frames of timed runs

  /** A key frame follows each end of fragment, and nothing but an end of fragment comes before a key frame. */
  predicate EndsBeforeKeys(fs: seq<Out>) {
    forall i :: 0 <= i < |fs| - 1 ==> (fs[i].EndOfFragment? <==> fs[i + 1].Real? && fs[i + 1].key)
  }

  predicate OnlyTimed(es: seq<Event>) { forall i :: 0 <= i < |es| ==> es[i].Timed? }

  /** The timed producer ends every fragment, if it is set to, right before the next key frame and nowhere else; if
      not, it puts real frames only. */
  lemma {:induction false} FragmentsEnd(c: Config, s: State, es: seq<Event>)
    requires Ok(c) && OnlyTimed(es)
    ensures var fs := Frames(c, s, es);
            && (c.setEofr ==> EndsBeforeKeys(fs))
            && (!c.setEofr ==> forall i :: 0 <= i < |fs| ==> fs[i].Real?)
            && (fs != [] ==> fs[0] == Real(Aligned(c, s), s.timestamp))
    decreases |es|
  {
    hide Duration, Aligned, Wrap32;
    if es != [] {
      var p := Step(c, s, es[0]);
      FragmentsEnd(c, p.state, es[1..]);
      var rest := Frames(c, p.state, es[1..]);
      assert Frames(c, s, es) == p.out + rest;
      if c.setEofr {
        TimedEnds(c, s, es[0].now);
        EndsJoin(p.out, rest, Aligned(c, p.state));
      }
    }
  }

  lemma TimedEnds(c: Config, s: State, now: nat)
    requires Ok(c) && c.setEofr
    ensures var p := TimedPut(c, s, now);
            || (p.out == [] && p.state == s)
            || (p.out == [Real(Aligned(c, s), s.timestamp)] && !Aligned(c, p.state))
            || (p.out == [Real(Aligned(c, s), s.timestamp), EndOfFragment] && Aligned(c, p.state))
  {
    hide Duration, Wrap32;
  }

  lemma EndsJoin(out: seq<Out>, rest: seq<Out>, next: bool)
    requires EndsBeforeKeys(rest) && (rest != [] ==> rest[0].Real? && rest[0].key == next)
    requires || out == [] || (|out| == 1 && out[0].Real? && !next) || (|out| == 2 && out[0].Real? && out[1].EndOfFragment? && next)
    ensures EndsBeforeKeys(out + rest)
  {
    var all := out + rest;
    forall i | 0 <= i < |all| - 1
      ensures all[i].EndOfFragment? <==> all[i + 1].Real? && all[i + 1].key
    {
      if i >= |out| {
        assert all[i] == rest[i - |out|] && all[i + 1] == rest[i - |out| + 1];
      }
    }
  }

  /** The last frame of a timed run ends its fragment, exactly when a key frame would come next. */
  lemma {:induction false} LastEnds(c: Config, s: State, es: seq<Event>)
    requires Ok(c) && OnlyTimed(es) && c.setEofr && Frames(c, s, es) != []
    ensures var fs := Frames(c, s, es); fs[|fs| - 1].EndOfFragment? <==> Aligned(c, After(c, s, es))
    decreases |es|
  {
    hide Duration, Aligned, Wrap32;
    var p := Step(c, s, es[0]);
    var rest := Frames(c, p.state, es[1..]);
    assert Frames(c, s, es) == p.out + rest;
    if rest != [] {
      LastEnds(c, p.state, es[1..]);
    } else {
      NoneIdle(c, p.state, es[1..]);
      TimedEnds(c, s, es[0].now);
      assert p.out + [] == p.out;
    }
  }

  function After(c: Config, s: State, es: seq<Event>): State
    requires Ok(c)
    decreases |es|
  {
    if es == [] then s else After(c, Step(c, s, es[0]).state, es[1..])
  }

  lemma {:induction false} NoneIdle(c: Config, s: State, es: seq<Event>)
    requires Ok(c) && Frames(c, s, es) == []
    ensures After(c, s, es) == s
    decreases |es|
  {
    hide Duration, Aligned, Wrap32;
    if es != [] {
      NoneIdle(c, Step(c, s, es[0]).state, es[1..]);
    }
  }

  /** A frame lasts whole milliseconds, as many as fit a second as often as there are frames in it. */
  lemma DurationIs(c: Config)
    requires Ok(c)
    ensures Duration(c) % 10_000 == 0 && c.fps * Duration(c) <= 10_000_000 < c.fps * (Duration(c) + 10_000)
  {
    var ms := 1000 / c.fps;
    assert c.fps * ms <= 1000 < c.fps * (ms + 1);
    RemainderUnique(ms * 10_000, 10_000, ms, 0);
  }

  // ---------------------------------------------------------------- live pacing

  /** The times at which a run of timed calls put a frame. */
  function PutTimes(c: Config, s: State, nows: seq<nat>): seq<nat>
    requires Ok(c)
    decreases |nows|
  {
    if nows == [] then []
    else (if Due(c, s, nows[0]) then [nows[0]] else []) + PutTimes(c, TimedPut(c, s, nows[0]).state, nows[1..])
  }

  /** A live producer puts at most one frame a duration: k + 1 frames take at least k durations. */
  lemma {:induction false} LivePace(c: Config, s: State, nows: seq<nat>)
    requires Ok(c) && c.live
    ensures var ts := PutTimes(c, s, nows);
            && (ts != [] ==> ts[0] >= s.nextPut)
            && forall k :: 0 <= k < |ts| ==> ts[k] >= ts[0] + k * Duration(c)
    decreases |nows|
  {
    hide Duration;
    if nows != [] {
      var s' := TimedPut(c, s, nows[0]).state;
      LivePace(c, s', nows[1..]);
      var ts, rest := PutTimes(c, s, nows), PutTimes(c, s', nows[1..]);
      if Due(c, s, nows[0]) {
        forall k | 0 <= k < |ts|
          ensures ts[k] >= ts[0] + k * Duration(c)
        {
          if k > 0 {
            assert ts[k] == rest[k - 1];
            assert k * Duration(c) == (k - 1) * Duration(c) + Duration(c);
          }
        }
      } else {
        assert ts == rest;
      }
    }
  }

  /** So within any time span it puts at most span / duration + 1 frames. */
  lemma LiveRate(c: Config, nows: seq<nat>, elapsed: nat)
    requires Ok(c) && c.live && Duration(c) > 0
    requires var ts := PutTimes(c, FRESH, nows); ts != [] ==> ts[|ts| - 1] <= ts[0] + elapsed
    ensures |PutTimes(c, FRESH, nows)| <= elapsed / Duration(c) + 1
  {
    hide Duration;
    LivePace(c, FRESH, nows);
    var n, d := |PutTimes(c, FRESH, nows)|, Duration(c);
    if n > 0 {
      assert (n - 1) * d <= elapsed;
      QuotientAtLeast(n - 1, d, elapsed);
    }
  }

  /** Nothing holds a frame back but the one before it: calls a duration apart put one each, and so do all calls of a
      producer that does not follow the clock. */
  lemma {:induction false} PutsWhenDue(c: Config, s: State, nows: seq<nat>)
    requires Ok(c)
    requires c.live ==> (nows != [] ==> nows[0] >= s.nextPut) && forall i :: 0 <= i < |nows| - 1 ==> nows[i + 1] >= nows[i] + Duration(c)
    ensures PutTimes(c, s, nows) == nows
    decreases |nows|
  {
    hide Duration;
    if nows != [] {
      PutsWhenDue(c, TimedPut(c, s, nows[0]).state, nows[1..]);
      assert [nows[0]] + nows[1..] == nows;
    }
  }

  /** A call puts a real frame exactly if it is due. */
  lemma PutsIffDue(c: Config, s: State, now: nat)
    requires Ok(c)
    ensures TimedPut(c, s, now).out != [] <==> PutTimes(c, s, [now]) == [now]
    ensures TimedPut(c, s, now).out != [] <==> !c.live || now >= s.nextPut
  {
    hide Duration;
    assert [now][1..] == [];
  }
}

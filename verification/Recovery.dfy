/** What every run of the upload protocol keeps: headers sit only where a session can begin and at
    most once per item, and an owed header reaches the wire before any other media byte. */
module Recovery {
  import opened ViewItems
  import opened ContentView
  import opened Upload

  // ---------------------------------------------------------------- runs

  datatype Sent = Sent(handle: nat, chunk: Chunk)

  ghost predicate Feasible(c: Config, s: State, es: seq<Event>)
    requires Sound(c, s)
    decreases |es|
  {
    es == [] || (Enabled(s, es[0]) && (StepSound(c, s, es[0]); Feasible(c, Step(c, s, es[0]).state, es[1..])))
  }

  ghost function After(c: Config, s: State, es: seq<Event>): (r: State)
    requires Sound(c, s) && Feasible(c, s, es)
    ensures Sound(c, r)
    decreases |es|
  {
    if es == [] then s else StepSound(c, s, es[0]); After(c, Step(c, s, es[0]).state, es[1..])
  }

  function Tagged(h: nat, out: seq<Chunk>): (r: seq<Sent>)
    ensures |r| == |out| && forall i :: 0 <= i < |r| ==> r[i] == Sent(h, out[i])
  {
    seq(|out|, i requires 0 <= i < |out| => Sent(h, out[i]))
  }

  ghost function Emitted(c: Config, s: State, e: Event): seq<Sent>
    requires Sound(c, s) && Enabled(s, e)
  {
    Tagged(if e.Get? then e.handle else 0, Step(c, s, e).out)
  }

  /** Everything a run sends, in order. */
  ghost function Log(c: Config, s: State, es: seq<Event>): seq<Sent>
    requires Sound(c, s) && Feasible(c, s, es)
    decreases |es|
  {
    if es == [] then []
    else StepSound(c, s, es[0]); Emitted(c, s, es[0]) + Log(c, Step(c, s, es[0]).state, es[1..])
  }

  // ---------------------------------------------------------------- items stay clean

  ghost predicate CleanView(v: View) { forall i :: 0 <= i < |v.items| ==> v.items[i].Ok() && !v.items[i].skip }

  ghost predicate CleanCursor(cur: Cursor) { cur.On? ==> cur.item.Ok() && !cur.item.skip }

  ghost predicate Clean(s: State) { CleanView(s.view) && CleanCursor(s.cursor) }

  lemma PutClean(v: View, i: nat, item: Item)
    requires CleanView(v) && v.Holds(i) && item.Ok() && !item.skip
    ensures CleanView(v.Put(i, item))
  {
  }

  lemma UnacknowledgedOk(i: Item, r: bool)
    requires i.Ok()
    ensures i.(received := r).Ok()
  {
  }

  lemma StripCursorClean(s: State)
    requires s.view.Ok() && Linked(s.view, s.cursor) && Clean(s)
    ensures Clean(StripCursor(s))
  {
  }

  lemma TakeClean(s: State, n: nat)
    requires s.view.Holds(n) && CleanView(s.view)
    ensures Clean(Take(s, n))
  {
  }

  lemma PassClean(c: Config, s: State, k: nat, room: nat)
    requires k < |s.sessions| && Sound(c, s) && room > 0 && Clean(s)
    ensures Clean(OnePass(c, s, k, room).state)
  {
    if SendingEos(s, k) {
    } else if s.cursor.Idle? {
      var n := NextBoundary(s.view, s.view.current);
      if n < s.view.Head() {
        TakeClean(s, n);
      }
    } else if s.cursor.Spent() {
      StripCursorClean(s);
      var s' := StripCursor(s);
      var n := NextIndex(s'.view, s'.view.current);
      if n < s'.view.Head() {
        TakeClean(s', n);
      }
    }
  }

  lemma {:induction false} FillClean(c: Config, s: State, k: nat, room: nat)
    requires k < |s.sessions| && Sound(c, s) && Clean(s)
    ensures Clean(Fill(c, s, k, room).state)
    decreases room, s.view.Head() - s.view.current, if SendingEos(s, k) then 0 else 1
  {
    hide OnePass;
    if room > 0 {
      PassClean(c, s, k, room);
      var p := OnePass(c, s, k, room);
      if p.Next? {
        FillClean(c, p.state, k, room - p.used);
      }
    }
  }

  lemma FixUpClean(c: Config, s: State, target: nat, header: Bytes)
    requires Sound(c, s) && s.view.tail <= target <= s.view.Head() && IsHeader(header) && Clean(s)
    ensures Clean(FixUp(c, s, target, header).state)
  {
    StripCursorClean(s);
    var v := StripCursor(s).view;
    var b := NextBoundary(v, target);
    if b < v.Head() && !v.At(b).streamStart {
      AddHeaderOk(v.At(b), header);
      PutClean(v, b, AddHeader(v.At(b), header));
    }
  }

  lemma ServeClean(c: Config, s: State, k: nat, room: nat)
    requires Sound(c, s) && k < |s.sessions| && Clean(s)
    ensures Clean(Serve(c, s, k, room).state)
  {
    match s.sessions[k].phase
    case Ready =>
      var s' := SetPhase(s, k, Streaming).(timed := false);
      FillClean(c, s', k, room);
    case Streaming => FillClean(c, s, k, room);
    case Terminating => FillClean(c, s, k, room);
    case _ =>
  }

  lemma ReadClean(c: Config, s: State, h: nat, room: nat, target: nat, header: Bytes)
    requires Sound(c, s) && s.view.tail <= target <= s.view.Head() && IsHeader(header) && Clean(s)
    ensures Clean(Read(c, s, h, room, target, header).state)
  {
    FixUpClean(c, s, target, header);
    var s1 := Resume(c, s, target, header);
    assert Clean(s1);
    var k := Find(s1.sessions, h);
    if k < |s1.sessions| {
      ServeClean(c, s1, k, room);
    }
  }

  lemma SteppedClean(v: View, n: nat)
    requires v.Ok() && 0 < n <= |v.items| && CleanView(v)
    ensures CleanView(Stepped(v, n))
  {
  }

  lemma StoredClean(v: View, item: Item, l: Limits)
    requires v.Ok() && CleanView(v) && item.Ok() && !item.skip
    ensures CleanView(Stored(v, item, l))
  {
    if !Available(v, l) && !NothingToEvict(v, l.policy) {
      SteppedClean(v, Passed(v, l.policy));
    }
  }

  lemma ItemOfOk(s: State, f: Frame, p: Packaged)
    requires IsHeader(p.header) && |p.body| > 0 && !BeginsWithEbml(p.body)
    ensures ItemOf(s, f, p).Ok() && !ItemOf(s, f, p).skip
  {
  }

  lemma StepClean(c: Config, s: State, e: Event)
    requires Sound(c, s) && Enabled(s, e) && Clean(s)
    ensures Clean(Step(c, s, e).state)
  {
    match e
    case Put(f, p) =>
      ItemOfOk(s, f, p);
      StoredClean(s.view, ItemOf(s, f, p), c.limits);
    case Get(h, room, target, header) => ReadClean(c, s, h, room, target, header);
    case Received(i) =>
      if s.view.Holds(i) {
        UnacknowledgedOk(s.view.At(i), true);
      }
    case _ =>
  }

  lemma {:induction false} RunClean(c: Config, s: State, es: seq<Event>)
    requires Sound(c, s) && Feasible(c, s, es) && Clean(s)
    ensures Clean(After(c, s, es))
    decreases |es|
  {
    if es != [] {
      StepSound(c, s, es[0]);
      StepClean(c, s, es[0]);
      RunClean(c, Step(c, s, es[0]).state, es[1..]);
    }
  }

  /** In every reachable state an item carrying a header is one a session can begin with, so no
      header is stranded; it carries that header exactly once, and every other item none. */
  lemma NoUndeliverableHeader(c: Config, es: seq<Event>, i: nat)
    requires Feasible(c, INITIAL, es) && i < |After(c, INITIAL, es).view.items|
    ensures var item := After(c, INITIAL, es).view.items[i];
            && (item.streamStart ==> item.Boundary())
            && BeginsWithEbml(item.data) == item.streamStart
            && !BeginsWithEbml(item.Body())
  {
    RunClean(c, INITIAL, es);
    HeaderOnce(After(c, INITIAL, es).view.items[i]);
  }

  /** Every media chunk belongs to an item with one header on a stream start and none elsewhere. */
  ghost predicate CleanOut(out: seq<Chunk>) {
    forall i :: 0 <= i < |out| && out[i].Media? ==> out[i].item.Ok()
  }

  lemma {:induction false} FillSendsClean(c: Config, s: State, k: nat, room: nat)
    requires k < |s.sessions| && Sound(c, s) && Clean(s)
    ensures CleanOut(Fill(c, s, k, room).out)
    decreases room, s.view.Head() - s.view.current, if SendingEos(s, k) then 0 else 1
  {
    hide Fill, OnePass, Clean, Sound, Item.Ok;
    FillUnrolled(c, s, k, room);
    if room > 0 {
      PassClean(c, s, k, room);
      PassSendsClean(c, s, k, room);
      var p := OnePass(c, s, k, room);
      if p.Next? {
        FillSendsClean(c, p.state, k, room - p.used);
      }
    }
  }

  lemma PassSendsClean(c: Config, s: State, k: nat, room: nat)
    requires k < |s.sessions| && Sound(c, s) && Clean(s) && room > 0
    ensures var p := OnePass(c, s, k, room); p.Next? ==> CleanOut(p.out)
  {
  }

  lemma ReadSendsClean(c: Config, s: State, h: nat, room: nat, target: nat, header: Bytes)
    requires Sound(c, s) && s.view.tail <= target <= s.view.Head() && IsHeader(header) && Clean(s)
    ensures CleanOut(Read(c, s, h, room, target, header).out)
  {
    hide Fill, Clean, Item.Ok, Sound;
    var s1 := Resume(c, s, target, header);
    ResumeClean(c, s, target, header);
    var k := Find(s1.sessions, h);
    if k < |s1.sessions| {
      ServeSendsClean(c, s1, k, room);
    }
  }

  lemma ResumeClean(c: Config, s: State, target: nat, header: Bytes)
    requires Sound(c, s) && s.view.tail <= target <= s.view.Head() && IsHeader(header) && Clean(s)
    ensures Clean(Resume(c, s, target, header))
  {
    FixUpClean(c, s, target, header);
  }

  lemma ServeSendsClean(c: Config, s: State, k: nat, room: nat)
    requires Sound(c, s) && k < |s.sessions| && Clean(s)
    ensures CleanOut(Serve(c, s, k, room).out)
  {
    hide Fill, CleanView, CleanCursor, Item.Ok;
    match s.sessions[k].phase
    case Ready => FillSendsClean(c, SetPhase(s, k, Streaming).(timed := false), k, room);
    case Streaming => FillSendsClean(c, s, k, room);
    case Terminating => FillSendsClean(c, s, k, room);
    case _ =>
  }

  lemma {:induction false} RunSendsClean(c: Config, s: State, es: seq<Event>, i: nat)
    requires Sound(c, s) && Feasible(c, s, es) && Clean(s) && i < |Log(c, s, es)| && Log(c, s, es)[i].chunk.Media?
    ensures Log(c, s, es)[i].chunk.item.Ok()
    decreases |es|
  {
    hide Step, Clean, Item.Ok, Sound;
    var e := es[0];
    StepSound(c, s, e);
    StepClean(c, s, e);
    var n := |Step(c, s, e).out|;
    if i < n {
      StepSendsClean(c, s, e);
    } else {
      RunSendsClean(c, Step(c, s, e).state, es[1..], i - n);
    }
  }

  lemma StepSendsClean(c: Config, s: State, e: Event)
    requires Sound(c, s) && Enabled(s, e) && Clean(s)
    ensures CleanOut(Step(c, s, e).out)
  {
    hide Read, Clean, Item.Ok, Sound;
    if e.Get? {
      ReadSendsClean(c, s, e.handle, e.room, e.target, e.header);
    }
  }

  /** Across any number of reconnects no item is sent with two headers, and none but a stream start
      with one. */
  lemma NoDoubleHeaderSent(c: Config, es: seq<Event>, i: nat)
    requires Feasible(c, INITIAL, es) && i < |Log(c, INITIAL, es)| && Log(c, INITIAL, es)[i].chunk.Media?
    ensures var item := Log(c, INITIAL, es)[i].chunk.item;
            BeginsWithEbml(item.data) == item.streamStart && !BeginsWithEbml(item.Body())
  {
    RunSendsClean(c, INITIAL, es, i);
    HeaderOnce(Log(c, INITIAL, es)[i].chunk.item);
  }

  lemma HeaderOnce(item: Item)
    requires item.Ok()
    ensures BeginsWithEbml(item.data) == item.streamStart
  {
  }

  /** The item a reconnect put a header on is restored once it has been sent and passed, and a genuine
      base boundary keeps its own. */
  lemma ReconnectRestoresItem(c: Config, s: State, target: nat, header: Bytes)
    requires Sound(c, s) && s.view.tail <= target <= s.view.Head() && IsHeader(header) && Clean(s)
    requires !FixUp(c, s, target, header).deferred
    ensures var v, f := StripCursor(s).view, FixUp(c, s, target, header).state;
            var b := f.view.current;
            && v.Holds(b) && f.view.Holds(b)
            && var t := Take(f, b);
               var r := StripCursor(t.(cursor := t.cursor.(offset := |t.cursor.item.data|))).view;
               v.At(b).baseStart == v.At(b).streamStart ==> r.At(b) == v.At(b).(received := false)
  {
    hide AddHeader, StripHeader, NextBoundary, Item.Ok;
    var v, f := StripCursor(s).view, FixUp(c, s, target, header).state;
    StripCursorClean(s);
    var b := f.view.current;
    if !v.At(b).streamStart {
      UnacknowledgedOk(v.At(b), false);
      AddedMarks(v.At(b), header);
      HeaderRoundTrip(v.At(b).(received := false), header);
    }
  }

  /** Going on from a sent item takes back the header a fix-up put on it, leaves a base boundary and
      every other item behind the pointer as they are, and so a later session is not stopped there. */
  lemma PassingStrips(c: Config, s: State, k: nat, i: nat)
    requires k < |s.sessions| && Sound(c, s) && s.cursor.Spent() && s.view.Holds(i) && i < s.view.current
    ensures var w, item := SendNext(c, s, k).state.view, s.view.At(i);
            && w.Holds(i)
            && w.At(i) == (if i == s.cursor.index && item.streamStart && !item.baseStart then StripHeader(item) else item)
  {
  }

  lemma AddedMarks(i: Item, header: Bytes)
    ensures var f := AddHeader(i, header);
            f.streamStart && f.baseStart == i.baseStart && f.(received := false) == AddHeader(i.(received := false), header)
  {
  }

  // ---------------------------------------------------------------- an owed header is sent first

  /** The send pointer waits in front of a header it has not begun to send. */
  predicate AtHeader(s: State) { s.cursor.On? && s.cursor.offset == 0 && s.cursor.item.streamStart }

  /** The next session would begin with an item that carries a header. */
  predicate Staged(s: State)
    requires s.view.Ok()
  {
    s.cursor.Idle? && StartsWithHeader(s.view, s.view.current)
  }

  predicate StartsWithHeader(v: View, i: nat)
    requires v.tail <= i <= v.Head()
  {
    var n := NextBoundary(v, i);
    n < v.Head() && v.At(n).streamStart
  }

  predicate HeaderDue(s: State)
    requires s.view.Ok()
  {
    s.connection == InUse || AtHeader(s) || Staged(s)
  }

  /** The chunk begins an item at its header. */
  ghost predicate OpensWithHeader(ch: Chunk) {
    && ch.Media? && ch.offset == 0 && ch.item.streamStart && ch.item.Ok()
    && 0 < |ch.bytes| <= |ch.item.data| && ch.bytes == ch.item.data[..|ch.bytes|]
  }

  /** Its bytes are the EBML identifier, as far as they go. */
  lemma OpeningBytes(ch: Chunk)
    requires OpensWithHeader(ch) && |ch.bytes| >= 4
    ensures BeginsWithEbml(ch.bytes)
  {
  }

  /** The first media chunk, if any. */
  function FirstMedia(out: seq<Chunk>): (m: Option<Chunk>)
    ensures m.Some? ==> m.value.Media?
  {
    if out == [] then None else if out[0].Media? then Some(out[0]) else FirstMedia(out[1..])
  }

  lemma FirstMediaOfPass(out: seq<Chunk>, rest: seq<Chunk>)
    requires |out| <= 1
    ensures FirstMedia(out + rest) == if out != [] && out[0].Media? then Some(out[0]) else FirstMedia(rest)
  {
    if out == [] {
      assert out + rest == rest;
    } else {
      assert (out + rest)[1..] == rest;
    }
  }

  /** The loop's first media is this pass's, or the rest's. */
  lemma FillFirst(c: Config, s: State, k: nat, room: nat)
    requires k < |s.sessions| && Sound(c, s) && room > 0 && OnePass(c, s, k, room).Next?
    ensures var p, r := OnePass(c, s, k, room), Fill(c, s, k, room);
            var rest := Fill(c, p.state, k, room - p.used);
            && r.state == rest.state
            && FirstMedia(r.out) == if p.out != [] && p.out[0].Media? then Some(p.out[0]) else FirstMedia(rest.out)
  {
    hide OnePass;
    var p := OnePass(c, s, k, room);
    FirstMediaOfPass(p.out, Fill(c, p.state, k, room - p.used).out);
  }

  /** A session that is sending its end-of-stream tag sends no more media. */
  lemma {:induction false} EosSendsNoMedia(c: Config, s: State, k: nat, room: nat)
    requires k < |s.sessions| && Sound(c, s) && SendingEos(s, k)
    ensures var r := Fill(c, s, k, room);
            && FirstMedia(r.out) == None && r.state.view == s.view && r.state.cursor == s.cursor
            && r.state.connection == s.connection
    decreases room
  {
  }

  /** At a header, or with one staged, the first media bytes sent are that header; when none are
      sent the header is still to come. */
  lemma {:induction false} FillOpens(c: Config, s: State, k: nat, room: nat)
    requires k < |s.sessions| && Sound(c, s) && Clean(s) && (AtHeader(s) || Staged(s))
    ensures var r := Fill(c, s, k, room);
            match FirstMedia(r.out)
            case Some(m) => OpensWithHeader(m)
            case None => AtHeader(r.state) || Staged(r.state)
    decreases room, s.view.Head() - s.view.current, if SendingEos(s, k) then 0 else 1
  {
    hide Fill, OnePass, Clean, Sound, OpensWithHeader;
    FillUnrolled(c, s, k, room);
    if room > 0 {
      if SendingEos(s, k) {
        EosSendsNoMedia(c, s, k, room);
      } else {
        var p := OnePass(c, s, k, room);
        PassClean(c, s, k, room);
        PassOpens(c, s, k, room);
        FillFirst(c, s, k, room);
        if s.cursor.Idle? {
          FillOpens(c, p.state, k, room);
        }
      }
    }
  }

  /** A pass there takes the item with the header, or sends its beginning. */
  lemma PassOpens(c: Config, s: State, k: nat, room: nat)
    requires k < |s.sessions| && Sound(c, s) && Clean(s) && (AtHeader(s) || Staged(s)) && !SendingEos(s, k) && room > 0
    ensures var p := OnePass(c, s, k, room);
            && p.Next?
            && if s.cursor.Idle? then p.out == [] && p.used == 0 && p.state.cursor.On? && AtHeader(p.state)
               else p.out != [] && OpensWithHeader(p.out[0])
  {
  }

  /** A pass from anywhere else sends no header, and comes to one only by ending the session. */
  lemma PassContinues(c: Config, s: State, k: nat, room: nat)
    requires k < |s.sessions| && Sound(c, s) && room > 0
    requires !AtHeader(s) && !Staged(s) && !SendingEos(s, k) && OnePass(c, s, k, room).Next?
    ensures var p := OnePass(c, s, k, room);
            && |p.out| <= 1 && (p.out == [] ==> p.used == 0)
            && (p.out != [] ==> p.out[0].Media? && !OpensWithHeader(p.out[0]))
            && (p.out == [] ==> SendingEos(p.state, k) || (!AtHeader(p.state) && !Staged(p.state)))
  {
    if s.cursor.Spent() {
      var s' := StripCursor(s);
      var n := NextIndex(s'.view, s'.view.current);
    }
  }

  /** Anywhere else, the first media bytes a session sends are not a header. */
  lemma {:induction false} FillContinues(c: Config, s: State, k: nat, room: nat)
    requires k < |s.sessions| && Sound(c, s) && !AtHeader(s) && !Staged(s) && !SendingEos(s, k)
    ensures var m := FirstMedia(Fill(c, s, k, room).out);
            m.Some? ==> !OpensWithHeader(m.value)
    decreases room, s.view.Head() - s.view.current
  {
    hide Fill, OnePass, AtHeader, Staged, OpensWithHeader, Linked;
    FillUnrolled(c, s, k, room);
    if room > 0 && OnePass(c, s, k, room).Next? {
      var p := OnePass(c, s, k, room);
      PassContinues(c, s, k, room);
      FillFirst(c, s, k, room);
      if p.out == [] {
        if SendingEos(p.state, k) {
          EosSendsNoMedia(c, p.state, k, room);
        } else {
          FillContinues(c, p.state, k, room);
        }
      }
    }
  }

  /** No item to begin with is in sight, so the owed header waits. */
  predicate Deferred(s: State)
    requires s.view.Ok()
  {
    s.connection == InUse && s.cursor.Idle? && !s.eos.send && NextBoundary(s.view, s.view.current) == s.view.Head()
  }

  lemma ResumePaysDebt(c: Config, s: State, target: nat, header: Bytes)
    requires Sound(c, s) && s.view.tail <= target <= s.view.Head() && IsHeader(header) && Clean(s) && HeaderDue(s)
    ensures var r := Resume(c, s, target, header);
            && Clean(r)
            && if r.connection == InUse then Deferred(r) else r.connection == Fine && (AtHeader(r) || Staged(r))
  {
    FixUpClean(c, s, target, header);
    if s.connection == InUse {
      FixUpStages(c, s, target, header);
    }
  }

  /** The fix-up puts the header on the item the send path will begin with, or finds none. */
  lemma FixUpStages(c: Config, s: State, target: nat, header: Bytes)
    requires Sound(c, s) && s.view.tail <= target <= s.view.Head()
    ensures var f := FixUp(c, s, target, header);
            var v := f.state.view;
            if f.deferred then NextBoundary(v, v.current) == v.Head() else StartsWithHeader(v, v.current)
  {
    var v := StripCursor(s).view;
    SameBoundary(v, v.(current := target), target);
  }

  lemma FillDeferred(c: Config, s: State, k: nat, room: nat)
    requires Sound(c, s) && k < |s.sessions| && Deferred(s)
    ensures var r := Fill(c, s, k, room);
            && r.out == [] && r.state.connection == InUse && r.state.cursor.Idle?
            && r.state.sessions == s.sessions && r.state.eos == s.eos
  {
  }

  /** With the header deferred a session sends nothing. */
  lemma ServeDeferred(c: Config, s: State, k: nat, room: nat)
    requires Sound(c, s) && k < |s.sessions| && Deferred(s)
    ensures var r := Serve(c, s, k, room);
            r.out == [] && r.state.connection == InUse && r.state.cursor.Idle?
  {
  }

  lemma ServePaysDebt(c: Config, s: State, k: nat, room: nat)
    requires Sound(c, s) && k < |s.sessions| && Clean(s) && (AtHeader(s) || Staged(s))
    ensures var r := Serve(c, s, k, room);
            match FirstMedia(r.out)
            case Some(m) => OpensWithHeader(m)
            case None => AtHeader(r.state) || Staged(r.state)
  {
    match s.sessions[k].phase
    case Ready => FillOpens(c, SetPhase(s, k, Streaming).(timed := false), k, room);
    case Streaming => FillOpens(c, s, k, room);
    case Terminating => FillOpens(c, s, k, room);
    case _ =>
  }

  lemma RetireKeepsDue(c: Config, s: State, k: nat)
    requires k < |s.sessions| && s.view.Ok() && Clean(s) && HeaderDue(s)
    ensures HeaderDue(Retire(Hand(c, s, k), k))
    ensures s.connection == InUse && s.cursor.Idle? ==> Retire(Hand(c, s, k), k).connection == InUse
  {
  }

  /** A read that starts with the debt open either settles it by sending the header before any
      other media, or sends none and leaves it open; while it is deferred nothing is sent. Once settled
      it is not owed again, unless the session retired as the last one with something left. */
  lemma ReadPaysDebt(c: Config, s: State, h: nat, room: nat, target: nat, header: Bytes)
    requires Sound(c, s) && s.view.tail <= target <= s.view.Head() && IsHeader(header) && Clean(s) && HeaderDue(s)
    ensures var r := Read(c, s, h, room, target, header);
            && (match FirstMedia(r.out)
                case Some(m) =>
                  && OpensWithHeader(m)
                  && (r.state.connection != Fine ==> |r.state.sessions| < |s.sessions| && !Active(r.state.sessions) && !Drained(r.state))
                case None => HeaderDue(r.state))
            && (Resume(c, s, target, header).connection == InUse ==> r.out == [] && r.state.connection == InUse)
  {
    hide Resume, Serve, CleanView, CleanCursor, OpensWithHeader, NextBoundary;
    ResumePaysDebt(c, s, target, header);
    var s1 := Resume(c, s, target, header);
    var k := Find(s1.sessions, h);
    if k < |s1.sessions| {
      var r := Serve(c, s1, k, room);
      ServeClean(c, s1, k, room);
      if s1.connection == InUse {
        ServeDeferred(c, s1, k, room);
      } else {
        ServePaysDebt(c, s1, k, room);
        ServeKeepsConnection(c, s1, k, room);
      }
      if HeaderDue(r.state) {
        RetireKeepsDue(c, r.state, k);
      }
      RetireResets(c, r.state, k);
    }
  }

  lemma ServeKeepsConnection(c: Config, s: State, k: nat, room: nat)
    requires Sound(c, s) && k < |s.sessions|
    ensures Serve(c, s, k, room).state.connection == s.connection
  {
  }

  /** Only the retirement of the last live session with something left changes the connection. */
  lemma RetireResets(c: Config, s: State, k: nat)
    requires k < |s.sessions|
    ensures var r := Retire(Hand(c, s, k), k);
            r.connection != s.connection ==> |r.sessions| < |s.sessions| && !Active(r.sessions) && !Drained(r)
  {
  }

  /** The first media of a read begins with a header exactly when one was due. */
  lemma ReadOpensIff(c: Config, s: State, h: nat, room: nat, target: nat, header: Bytes)
    requires Sound(c, s) && s.view.tail <= target <= s.view.Head() && IsHeader(header) && Clean(s)
    ensures var m := FirstMedia(Read(c, s, h, room, target, header).out);
            m.Some? ==> (OpensWithHeader(m.value) <==> HeaderDue(s))
  {
    hide Fill, CleanView, CleanCursor, OpensWithHeader, NextBoundary;
    if HeaderDue(s) {
      ReadPaysDebt(c, s, h, room, target, header);
    } else {
      ServeContinues(c, s.(connection := Fine), h, room);
    }
  }

  lemma ServeContinues(c: Config, s: State, h: nat, room: nat)
    requires Sound(c, s) && s.connection == Fine && !AtHeader(s) && !Staged(s)
    ensures var k := Find(s.sessions, h);
            k < |s.sessions| ==> var m := FirstMedia(Serve(c, s, k, room).out); m.Some? ==> !OpensWithHeader(m.value)
  {
    hide Fill, OpensWithHeader, NextBoundary;
    var k := Find(s.sessions, h);
    if k < |s.sessions| {
      var s1 := if s.sessions[k].phase == Ready then SetPhase(s, k, Streaming).(timed := false) else s;
      if SendingEos(s1, k) {
        EosSendsNoMedia(c, s1, k, room);
      } else {
        FillContinues(c, s1, k, room);
      }
    }
  }

  /** The events that lose an owed header, told from the state before them. A used session is
      dropped while another is live and the rollback is still to be done; or the header is staged
      and the eviction a frame makes necessary, or the trimming a persisted acknowledgement makes,
      steps over it with no other header next. */
  predicate Loses(c: Config, s: State, e: Event)
    requires s.view.Ok() && Enabled(s, e)
  {
    match e
    case Drop(h, _) =>
      var k := Find(s.sessions, h);
      && !AtHeader(s) && !Staged(s)
      && k < |s.sessions| && Used(s.sessions[k].phase)
      && Active(s.sessions[k := s.sessions[k].(phase := Terminated)])
    case Put(f, p) =>
      var item := ItemOf(s, f, p);
      && s.connection != InUse && !AtHeader(s)
      && !Unpackaged(s, f, p) && Accepts(s.view, item) && StepsOverHeader(s.view, item, c.limits)
    case Persisted(h, ts, b) =>
      && s.connection != InUse && !AtHeader(s)
      && Trims(s, h, ts) && !StartsWithHeader(s.view, TrimUpTo(s.view, b).current)
    case _ => false
  }

  /** Storing the item evicts the next item a session would begin with, and the one after it that
      a session could begin with carries no header. */
  predicate StepsOverHeader(v: View, item: Item, l: Limits)
    requires v.Ok()
  {
    && !Available(v, l) && !NothingToEvict(v, l.policy)
    && var t := v.tail + Passed(v, l.policy);
       t > NextBoundary(v, v.current) && !StartsWithHeader(Append(v, item), t)
  }

  lemma TerminateKeepsDebt(c: Config, s: State, h: nat, alive: bool)
    requires Sound(c, s) && Clean(s) && HeaderDue(s)
    ensures HeaderDue(Terminate(s, Some(h), alive)) <==> !Loses(c, s, Drop(h, alive))
  {
  }

  /** The window a stored item leaves is, from its pointer on, a part of the old one with the item. */
  lemma StoredSuffix(v: View, item: Item, l: Limits)
    requires v.Ok() && (Available(v, l) || !NothingToEvict(v, l.policy))
    ensures var w, u := Stored(v, item, l), Append(v, item);
            && w.current == (if Available(v, l) || v.tail + Passed(v, l.policy) < v.current then v.current
                             else v.tail + Passed(v, l.policy))
            && w.Head() == u.Head() && u.tail <= w.tail
            && forall k: nat :: w.current <= k < u.Head() ==> w.At(k) == u.At(k)
  {
  }

  lemma StoredKeepsStaged(v: View, item: Item, l: Limits)
    requires v.Ok() && StartsWithHeader(v, v.current)
    ensures var w := Stored(v, item, l);
            StartsWithHeader(w, w.current) <==> !StepsOverHeader(v, item, l)
  {
    hide Stored, Trim, Passed, WindowDuration;
    var b, w, u := NextBoundary(v, v.current), Stored(v, item, l), Append(v, item);
    assert u.At(b) == v.At(b);
    BoundaryAppend(v, item, v.current);
    StoredSuffix(v, item, l);
    SameBoundary(u, w, w.current);
    if w.current <= b {
      BoundaryFrom(u, v.current, w.current);
    }
  }

  lemma PutKeepsDebt(c: Config, s: State, f: Frame, p: Packaged)
    requires Sound(c, s) && Enabled(s, Put(f, p)) && HeaderDue(s)
    ensures HeaderDue(PutFrame(c, s, f, p)) <==> !Loses(c, s, Put(f, p))
  {
    if Staged(s) {
      StoredKeepsStaged(s.view, ItemOf(s, f, p), c.limits);
    }
  }

  /** Before an event other than a read an owed header is kept exactly when the event does not
      lose it: idle drops, resets, evictions while the rollback is pending, stops, new sessions
      and acknowledgements all keep it. */
  lemma StepKeepsDebt(c: Config, s: State, e: Event)
    requires Sound(c, s) && Enabled(s, e) && Clean(s) && HeaderDue(s) && !e.Get?
    ensures HeaderDue(Step(c, s, e).state) <==> !Loses(c, s, e)
  {
    hide PersistedAck, CleanView, PutFrame, Loses, HeaderDue, Terminate, ReceivedAck, Read, Linked;
    match e
    case Put(f, p) => PutKeepsDebt(c, s, f, p);
    case Drop(h, alive) => TerminateKeepsDebt(c, s, h, alive);
    case Persisted(h, ts, b) => PersistedKeepsDebt(c, s, h, ts, b);
    case _ => OtherKeepsDebt(c, s, e);
  }

  lemma OtherKeepsDebt(c: Config, s: State, e: Event)
    requires Sound(c, s) && Enabled(s, e) && Clean(s) && HeaderDue(s) && (e.Open? || e.Reset? || e.Stop? || e.Received?)
    ensures HeaderDue(Step(c, s, e).state) && !Loses(c, s, e)
  {
    hide CleanView, PersistedAck, PutFrame, Read, NextBoundary;
    if e.Received? && s.view.Holds(e.index) {
      BoundaryMarks(s.view, e.index);
    }
  }

  lemma PersistedKeepsDebt(c: Config, s: State, h: nat, ts: nat, b: nat)
    requires Sound(c, s) && HeaderDue(s) && s.view.tail <= b <= s.view.Head()
    ensures HeaderDue(PersistedAck(s, h, ts, b)) <==> !Loses(c, s, Persisted(h, ts, b))
  {
    hide PersistedAck, Trims, NextBoundary, StartsWithHeader, TrimUpTo;
    TrimmedBoundary(s.view, b);
    TrimmedStays(s.view, b);
  }

  lemma TrimmedStays(v: View, b: nat)
    requires v.Ok() && v.tail <= b <= v.Head()
    ensures TrimUpTo(v, b).Ok()
  {
  }

  lemma BoundaryMarks(v: View, i: nat)
    requires v.Ok() && v.Holds(i)
    ensures var w := v.Put(i, v.At(i).(received := true));
            StartsWithHeader(w, v.current) == StartsWithHeader(v, v.current)
  {
    var w := v.Put(i, v.At(i).(received := true));
    forall k: nat | v.Holds(k)
      ensures StartsSession(w.At(k)) == StartsSession(v.At(k)) && w.At(k).streamStart == v.At(k).streamStart
    {
      assert k != i ==> w.At(k) == v.At(k);
    }
    SameBoundary(v, w, v.current);
  }

  /** Trimming leaves what lies ahead of the new pointer as it was. */
  lemma TrimmedBoundary(v: View, b: nat)
    requires v.Ok() && v.tail <= b <= v.Head()
    ensures var w := TrimUpTo(v, b); StartsWithHeader(w, w.current) == StartsWithHeader(v, w.current)
  {
    var w := TrimUpTo(v, b);
    assert forall k: nat :: w.tail <= k < v.Head() ==> w.At(k) == v.At(k);
    SameBoundary(v, w, w.current);
  }

  /** The first media chunk of a log. */
  function FirstSent(log: seq<Sent>): (m: Option<Chunk>)
    ensures m.Some? ==> m.value.Media?
  {
    if log == [] then None else if log[0].chunk.Media? then Some(log[0].chunk) else FirstSent(log[1..])
  }

  lemma {:induction false} FirstSentOfStep(h: nat, out: seq<Chunk>, rest: seq<Sent>)
    ensures FirstSent(Tagged(h, out) + rest) == if FirstMedia(out).Some? then FirstMedia(out) else FirstSent(rest)
  {
    var log := Tagged(h, out) + rest;
    if out == [] {
      assert log == rest;
    } else if !out[0].Media? {
      assert log[1..] == Tagged(h, out[1..]) + rest;
      FirstSentOfStep(h, out[1..], rest);
    }
  }

  /** Until media is sent, no event of the run loses the owed header. */
  ghost predicate Harmless(c: Config, s: State, es: seq<Event>)
    requires Sound(c, s) && Feasible(c, s, es)
    decreases |es|
  {
    es == [] ||
    (StepSound(c, s, es[0]);
     || FirstMedia(Step(c, s, es[0]).out).Some?
     || (!Loses(c, s, es[0]) && Harmless(c, Step(c, s, es[0]).state, es[1..])))
  }

  /** Over every run that starts with a header owed, with any number of idle sessions opened and
      dropped, any rollback targets, any evictions while the rollback is pending and any empty
      reads, the first media bytes sent are the header, and until then it stays owed. */
  lemma {:induction false} OwedHeaderIsSentFirst(c: Config, s: State, es: seq<Event>)
    requires Sound(c, s) && Clean(s) && HeaderDue(s) && Feasible(c, s, es) && Harmless(c, s, es)
    ensures match FirstSent(Log(c, s, es))
            case Some(m) => OpensWithHeader(m)
            case None => HeaderDue(After(c, s, es))
    decreases |es|
  {
    if es != [] {
      var e := es[0];
      var r := Step(c, s, e);
      StepSound(c, s, e);
      StepClean(c, s, e);
      FirstSentOfStep(if e.Get? then e.handle else 0, r.out, Log(c, r.state, es[1..]));
      if e.Get? {
        ReadPaysDebt(c, s, e.handle, e.room, e.target, e.header);
      } else {
        StepKeepsDebt(c, s, e);
      }
      if FirstMedia(r.out).None? {
        OwedHeaderIsSentFirst(c, r.state, es[1..]);
      }
    }
  }

  /** A header is due when the run first sends media. */
  ghost predicate DueWhenSent(c: Config, s: State, es: seq<Event>)
    requires Sound(c, s) && Feasible(c, s, es)
    decreases |es|
  {
    es != [] &&
    (StepSound(c, s, es[0]);
     if FirstMedia(Step(c, s, es[0]).out).Some? then HeaderDue(s) else DueWhenSent(c, Step(c, s, es[0]).state, es[1..]))
  }

  /** Over every run, the first media bytes sent are a header exactly when one is due at that moment. */
  lemma {:induction false} FirstSentOpensIff(c: Config, s: State, es: seq<Event>)
    requires Sound(c, s) && Clean(s) && Feasible(c, s, es)
    ensures var m := FirstSent(Log(c, s, es));
            m.Some? ==> (OpensWithHeader(m.value) <==> DueWhenSent(c, s, es))
    decreases |es|
  {
    hide Step, Sound, Clean, Enabled, OpensWithHeader, HeaderDue;
    if es != [] {
      var e := es[0];
      var r := Step(c, s, e);
      StepSound(c, s, e);
      StepClean(c, s, e);
      FirstSentOfStep(if e.Get? then e.handle else 0, r.out, Log(c, r.state, es[1..]));
      StepOpensIff(c, s, e);
      if FirstMedia(r.out).None? {
        FirstSentOpensIff(c, r.state, es[1..]);
      }
    }
  }

  lemma StepOpensIff(c: Config, s: State, e: Event)
    requires Sound(c, s) && Clean(s) && Enabled(s, e)
    ensures var m := FirstMedia(Step(c, s, e).out); m.Some? ==> (OpensWithHeader(m.value) <==> HeaderDue(s))
  {
    hide Read, Clean, OpensWithHeader, HeaderDue, Linked;
    if e.Get? {
      ReadOpensIff(c, s, e.handle, e.room, e.target, e.header);
    }
  }

  /** Dropping the only live session, once it has been put to use, leaves a header owed; so does
      resetting the connection. */
  lemma DropOwesHeader(c: Config, s: State, h: nat, alive: bool)
    requires Sound(c, s) && Clean(s)
    requires var k := Find(s.sessions, h);
             k < |s.sessions| ==> Used(s.sessions[k].phase) && !Active(s.sessions[k := s.sessions[k].(phase := Terminated)])
    ensures HeaderDue(Terminate(s, Some(h), alive)) && HeaderDue(Terminate(s, None, alive))
  {
  }

  /** When the last live session ends with something left to send, its successor owes a header; with
      nothing left, or another session live, nothing is owed on its account. */
  lemma RetireOwesHeader(c: Config, s: State, k: nat)
    requires Sound(c, s) && Clean(s) && k < |s.sessions| && s.sessions[k].phase == Terminated
    ensures !Active(Without(s.sessions, k)) && !Drained(s) ==> HeaderDue(Retire(s, k))
    ensures Active(Without(s.sessions, k)) || Drained(s) ==> Retire(s, k) == s.(sessions := Without(s.sessions, k))
  {
  }

  /** Had the debt been cleared by a session that sent nothing, the next session to send would go on
      in the middle of an item, while the code as it is makes it begin with a header. */
  lemma ClearedDebtLosesHeader(c: Config, s: State, h: nat, room: nat, target: nat, header: Bytes)
    requires Sound(c, s) && Clean(s) && s.connection == InUse && room > 0 && IsHeader(header)
    requires s.view.tail <= target <= s.view.Head()
    requires s.cursor.On? && !s.cursor.Spent() && !AtHeader(s)
    requires CanSend(c, s, Find(s.sessions, h))
    ensures var cleared := FirstMedia(Read(c, s.(connection := NotInUse), h, room, target, header).out);
            cleared.Some? && !OpensWithHeader(cleared.value)
    ensures var kept := FirstMedia(Read(c, s, h, room, target, header).out);
            kept.Some? ==> OpensWithHeader(kept.value)
  {
    hide Read, Clean, Linked;
    ReadPaysDebt(c, s, h, room, target, header);
    ClearedReadGoesOn(c, s.(connection := NotInUse), h, room, target, header);
  }

  lemma ClearedReadGoesOn(c: Config, s: State, h: nat, room: nat, target: nat, header: Bytes)
    requires Sound(c, s) && s.connection == NotInUse && room > 0 && s.view.tail <= target <= s.view.Head()
    requires s.cursor.On? && !s.cursor.Spent() && !AtHeader(s) && CanSend(c, s, Find(s.sessions, h))
    ensures var m := FirstMedia(Read(c, s, h, room, target, header).out);
            m.Some? && !OpensWithHeader(m.value)
  {
    hide Fill, OpensWithHeader;
    var s1, k := s.(connection := Fine), Find(s.sessions, h);
    var s2 := if s.sessions[k].phase == Ready then SetPhase(s1, k, Streaming).(timed := false) else s1;
    assert !SendingEos(s2, k);
    FillContinues(c, s2, k, room);
    FillFirst(c, s2, k, room);
  }

  predicate CanSend(c: Config, s: State, k: nat) {
    && k < |s.sessions|
    && (s.sessions[k].phase == Streaming || (s.sessions[k].phase == Ready && (s.timed || c.absoluteTimes)))
  }

  /** Dropping a used session beside a live one clears an owed rollback, whether or not the dropped session
      sent a byte: whatever is read next, by any session, then opens without the header. After any other
      drop it opens with it. */
  lemma DropBesideLiveSession(c: Config, s: State, h: nat, alive: bool, reader: nat, room: nat, target: nat, header: Bytes)
    requires Sound(c, s) && Clean(s) && s.connection == InUse && !AtHeader(s) && !Staged(s)
    requires s.view.tail <= target <= s.view.Head() && IsHeader(header)
    ensures var k, t := Find(s.sessions, h), Terminate(s, Some(h), alive);
            var m := FirstMedia(Read(c, t, reader, room, target, header).out);
            m.Some? ==> (OpensWithHeader(m.value) <==>
              || k == |s.sessions| || !Used(s.sessions[k].phase)
              || !Active(s.sessions[k := s.sessions[k].(phase := Terminated)]))
  {
    hide Read, CleanView, CleanCursor, OpensWithHeader, NextBoundary, Linked;
    TerminateKeepsDebt(c, s, h, alive);
    ReadOpensIff(c, Terminate(s, Some(h), alive), reader, room, target, header);
  }

  /** What the end of a connection leaves: on a stream stopped in front of a base boundary nothing is owed; else the end
      of an unknown session, or of the last live one that was used, owes a rollback, of a used one beside a live one
      clears it, and of one never used changes nothing. */
  lemma {:induction false} DropConnection(s: State, h: nat, alive: bool)
    ensures var r, k := Terminate(s, Some(h), alive), Find(s.sessions, h);
            r.connection ==
              if s.stopped && s.cursor.On? && s.cursor.offset == 0 && s.cursor.item.baseStart then NotInUse
              else if k == |s.sessions| then InUse
              else if s.sessions[k].phase == Ready then s.connection
              else if exists j :: 0 <= j < |s.sessions| && j != k && s.sessions[j].phase != Terminated then NotInUse
              else InUse
  {
    var k := Find(s.sessions, h);
    if k < |s.sessions| {
      var ss := s.sessions[k := s.sessions[k].(phase := Terminated)];
      if j :| 0 <= j < |s.sessions| && j != k && s.sessions[j].phase != Terminated {
        assert ss[j].phase != Terminated;
      }
    }
  }

  /** A reset ends every session and owes a rollback, unless the stream is stopped in front of a base boundary. */
  lemma {:induction false} ResetConnection(s: State, alive: bool)
    ensures var r := Terminate(s, None, alive);
            && r.connection == (if s.stopped && s.cursor.On? && s.cursor.offset == 0 && s.cursor.item.baseStart then NotInUse else InUse)
            && |r.sessions| == |s.sessions|
            && forall j :: 0 <= j < |s.sessions| ==> r.sessions[j] == s.sessions[j].(phase := Terminated)
  {
  }

  /** Stripping leaves what has been sent of the item as it is, but for an item sent to its end. */
  lemma StripKeepsPlace(s: State)
    requires s.view.Ok() && Linked(s.view, s.cursor) && s.cursor.On?
    ensures var r := StripCursor(s).cursor;
            r.On? && r.index == s.cursor.index && r.offset == if s.cursor.Spent() then |r.item.data| else s.cursor.offset
  {
  }
}

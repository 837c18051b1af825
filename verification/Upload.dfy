/** The upload side of a stream: the window with its send pointer, the queue of upload sessions, and
    the debt a lost connection leaves behind: somebody has to go back and start over with a header.
    Every API call is one atomic step on a value of type State. */
module Upload {
  import opened ViewItems
  import opened ContentView

  datatype Connection = Fine | NotInUse | InUse

  datatype Phase = Ready | Streaming | Terminating | AwaitingAck | AckReceived | Terminated

  datatype Session = Session(handle: nat, phase: Phase, lastFragment: Option<nat>, lastPersisted: Option<nat>)

  /** The item being sent and how much of it has been, or none. */
  datatype Cursor = Idle | On(item: Item, index: nat, offset: nat) {
    predicate Spent() { On? && offset == |item.data| }
  }

  datatype EosTracker = EosTracker(send: bool, offset: nat)

  datatype Config = Config(limits: Limits, waitForAck: bool, absoluteTimes: bool, eos: Bytes)

  /** The generator: it counts its timecode bases and remembers when its last cluster began; `eofr`
      tells that the last frame ended a fragment. */
  datatype Generator = Generator(base: nat, dts: nat, pts: nat, eofr: bool)

  /** `timed` tells whether a stream-start time is waiting for the next session to take it. */
  datatype State = State(
    view: View, cursor: Cursor, connection: Connection, sessions: seq<Session>,
    eos: EosTracker, stopped: bool, timed: bool, generator: Generator)

  /** What one call puts into the caller's buffer: a piece of one item, or of the end-of-stream tag. */
  datatype Chunk = Media(base: nat, item: Item, offset: nat, bytes: Bytes) | Eos(bytes: Bytes)

  datatype Status = Success | NoMoreData | AwaitingPersistedAck | EndOfStream | HandleAborted

  datatype Outcome = Outcome(state: State, out: seq<Chunk>, status: Status)

  const INITIAL := State(View(0, [], 0), Idle, Fine, [], EosTracker(false, 0), false, false, Generator(0, 0, 0, false))

  // ---------------------------------------------------------------- sessions

  function Find(ss: seq<Session>, h: nat): (k: nat)
    ensures k <= |ss|
    ensures k < |ss| ==> ss[k].handle == h
    ensures forall j :: 0 <= j < k ==> ss[j].handle != h
  {
    if ss == [] then 0
    else if ss[0].handle == h then 0
    else 1 + Find(ss[1..], h)
  }

  predicate Active(ss: seq<Session>) { exists j :: 0 <= j < |ss| && ss[j].phase != Terminated }

  predicate Used(p: Phase) { p != Ready }

  predicate SendsEos(p: Phase) { p == Terminating || p == Terminated }

  function SetPhase(s: State, k: nat, p: Phase): State
    requires k < |s.sessions|
  {
    s.(sessions := s.sessions[k := s.sessions[k].(phase := p)])
  }

  function Without(ss: seq<Session>, k: nat): seq<Session>
    requires k < |ss|
  {
    ss[..k] + ss[k + 1..]
  }

  /** Nothing is left to send: no item ahead, the current one spent, no end-of-stream tag. */
  predicate Drained(s: State) {
    s.view.current >= s.view.Head() && (s.cursor.Idle? || s.cursor.Spent()) && !s.eos.send
  }

  // ---------------------------------------------------------------- the send loop

  /** The current item is a copy of the view's, as long as the view still holds it. */
  predicate Linked(v: View, cur: Cursor) {
    cur.On? ==>
      && cur.offset <= |cur.item.data| && cur.index < v.current
      && (v.Holds(cur.index) ==> v.At(cur.index).(received := cur.item.received) == cur.item)
  }

  /** What every step keeps: the pointers are in range and the current item mirrors the view's. */
  predicate Sound(c: Config, s: State) {
    s.view.Ok() && s.eos.offset <= |c.eos| && Linked(s.view, s.cursor)
  }

  /** Removes the header of the current item once it has been advanced past, unless it marks a
      genuine timecode-base boundary or has left the view. */
  function StripCursor(s: State): (r: State)
    requires s.view.Ok() && Linked(s.view, s.cursor)
    ensures s.cursor.Spent() ==> r.cursor.Spent() && Linked(r.view, r.cursor)
    ensures r == s.(view := r.view, cursor := r.cursor)
    ensures r.view.tail == s.view.tail && r.view.Head() == s.view.Head() && r.view.current == s.view.current
  {
    if s.cursor.On? && s.cursor.item.streamStart && !s.cursor.item.baseStart && s.view.Holds(s.cursor.index) then
      var held := s.view.At(s.cursor.index);
      var bare := StripHeader(held);
      s.(view := s.view.Put(s.cursor.index, bare),
         cursor := On(bare, s.cursor.index,
                      if |held.data| == s.cursor.offset then |bare.data| else s.cursor.offset))
    else s
  }

  function Min(a: nat, b: nat): nat { if a < b then a else b }

  /** Makes item n the current one; it may be a replay, so its acknowledgement is cleared. */
  function Take(s: State, n: nat): (r: State)
    requires s.view.Holds(n)
    ensures Linked(r.view, r.cursor) && r.view.tail == s.view.tail && r.view.Head() == s.view.Head()
    ensures r == s.(view := r.view, cursor := r.cursor)
  {
    var item := s.view.At(n).(received := false);
    s.(view := s.view.Put(n, item).(current := n + 1), cursor := On(item, n, 0))
  }

  /** Ends the session: the end-of-stream tag follows, unless the last item was one already. */
  function StartEos(c: Config, s: State, k: nat, p: Phase, afterEofr: bool): State
    requires k < |s.sessions|
  {
    SetPhase(s, k, p).(eos := EosTracker(true, if afterEofr then |c.eos| else 0))
  }

  predicate SendingEos(s: State, k: nat)
    requires k < |s.sessions|
  {
    SendsEos(s.sessions[k].phase) && s.eos.send
  }

  /** One pass of the send loop with room left: either the call ends with a status, or the loop
      goes on. */
  datatype Pass = Done(state: State, status: Status) | Next(state: State, out: seq<Chunk>, used: nat)

  /** The send loop touches nothing but the pointers, the sessions and the end-of-stream tracker. */
  predicate Sends(s: State, r: State) {
    && r.connection == s.connection && r.stopped == s.stopped && r.timed == s.timed && r.generator == s.generator
    && |r.sessions| == |s.sessions|
  }

  function SendEos(c: Config, s: State, k: nat, room: nat): (p: Pass)
    requires k < |s.sessions| && SendingEos(s, k) && Sound(c, s) && room > 0
    ensures Sound(c, p.state) && Sends(s, p.state)
    ensures p.state.view == s.view && p.state.cursor == s.cursor
    ensures p.Next? ==> 0 < p.used <= room && |p.out| == 1
  {
    if s.eos.offset == |c.eos| then
      var s' := s.(eos := EosTracker(false, 0));
      var u := s.sessions[k];
      if c.waitForAck && !(u.lastPersisted.Some? && u.lastPersisted == u.lastFragment)
      then Done(SetPhase(s', k, AwaitingAck), AwaitingPersistedAck)
      else Done(SetPhase(s', k, Terminated), EndOfStream)
    else
      var n := Min(room, |c.eos| - s.eos.offset);
      Next(s.(eos := s.eos.(offset := s.eos.offset + n)), [Eos(c.eos[s.eos.offset..s.eos.offset + n])], n)
  }

  /** With no current item, the session begins on the next fragment boundary. */
  function SendFirst(c: Config, s: State): (p: Pass)
    requires Sound(c, s) && s.cursor.Idle?
    ensures Sound(c, p.state) && Sends(s, p.state) && p.state.view.Head() == s.view.Head()
    ensures p.Next? ==> p.used == 0 && p.state.view.current > s.view.current
  {
    var n := NextBoundary(s.view, s.view.current);
    if n == s.view.Head() then Done(s.(view := s.view.(current := n)), NoMoreData)
    else Next(Take(s, n), [], 0)
  }

  /** Past the last item: a live stream waits for more, a stopped one ends the session. */
  function SendNoMore(c: Config, s: State, k: nat, afterEofr: bool): (p: Pass)
    requires k < |s.sessions| && Sound(c, s)
    ensures Sound(c, p.state) && Sends(s, p.state) && p.state.view == s.view.(current := s.view.Head())
    ensures p.Next? ==> p.used == 0 && p.out == [] && SendingEos(p.state, k)
  {
    var s' := s.(view := s.view.(current := s.view.Head()));
    if !s.stopped then Done(s', NoMoreData) else Next(StartEos(c, s', k, Terminating, afterEofr), [], 0)
  }

  /** On to item n; a stream start belongs to the next session, so this one ends before it. */
  function SendOnto(c: Config, s: State, k: nat, n: nat, afterEofr: bool): (p: Pass)
    requires k < |s.sessions| && Sound(c, s) && s.view.current <= n < s.view.Head()
    ensures p.Next? && p.used == 0 && p.out == []
    ensures Sound(c, p.state) && Sends(s, p.state) && p.state.view.Head() == s.view.Head()
    ensures p.state.view.current > s.view.current
  {
    var s' := Take(s, n);
    Next(if s'.cursor.item.streamStart
         then StartEos(c, s', k, if c.waitForAck then Terminating else Terminated, afterEofr)
         else s', [], 0)
  }

  /** The current item is spent: drop its header if that was a fix-up, and go on. */
  function SendNext(c: Config, s: State, k: nat): (p: Pass)
    requires k < |s.sessions| && Sound(c, s) && s.cursor.Spent()
    ensures Sound(c, p.state) && Sends(s, p.state) && p.state.view.Head() == s.view.Head()
    ensures p.Next? ==> p.used == 0 && p.out == [] && (p.state.view.current > s.view.current || SendingEos(p.state, k))
    ensures p.state.view.current >= s.view.current
  {
    var s' := StripCursor(s);
    var n := NextIndex(s'.view, s'.view.current);
    if n == s'.view.Head() then SendNoMore(c, s', k, s.cursor.item.fragEnd)
    else SendOnto(c, s', k, n, s.cursor.item.fragEnd)
  }

  /** Copies what fits of the current item. */
  function SendMedia(c: Config, s: State, k: nat, room: nat): (p: Pass)
    requires k < |s.sessions| && Sound(c, s) && s.cursor.On? && !s.cursor.Spent() && room > 0
    ensures p.Next? && Sound(c, p.state) && Sends(s, p.state) && p.state.view == s.view
    ensures 0 < p.used <= room
  {
    var cur := s.cursor;
    var n := Min(room, |cur.item.data| - cur.offset);
    var u := s.sessions[k];
    var u' := if cur.item.fragStart || cur.item.streamStart then u.(lastFragment := Some(cur.item.ackTimestamp)) else u;
    Next(s.(cursor := cur.(offset := cur.offset + n), sessions := s.sessions[k := u']),
         [Media(cur.item.base, cur.item, cur.offset, cur.item.data[cur.offset..cur.offset + n])], n)
  }

  function OnePass(c: Config, s: State, k: nat, room: nat): (p: Pass)
    requires k < |s.sessions| && Sound(c, s) && room > 0
    ensures Sound(c, p.state) && Sends(s, p.state) && p.state.view.Head() == s.view.Head()
    ensures p.Next? ==> p.used <= room && |p.out| <= 1
    ensures p.Next? && p.used == 0 ==>
              p.state.view.current > s.view.current || (!SendingEos(s, k) && SendingEos(p.state, k))
    ensures p.state.view.current >= s.view.current
  {
    if SendingEos(s, k) then SendEos(c, s, k, room)
    else if s.cursor.Idle? then SendFirst(c, s)
    else if s.cursor.Spent() then SendNext(c, s, k)
    else SendMedia(c, s, k, room)
  }

  /** The send loop: passes until the buffer is full or a pass ends the call. */
  function Fill(c: Config, s: State, k: nat, room: nat): (r: Outcome)
    requires k < |s.sessions| && Sound(c, s)
    ensures Sound(c, r.state) && Sends(s, r.state)
    decreases room, s.view.Head() - s.view.current, if SendingEos(s, k) then 0 else 1
  {
    if room == 0 then Outcome(s, [], Success)
    else match OnePass(c, s, k, room)
      case Done(s', status) => Outcome(s', [], status)
      case Next(s', out, used) =>
        var rest := Fill(c, s', k, room - used);
        rest.(out := out + rest.out)
  }

  lemma FillUnrolled(c: Config, s: State, k: nat, room: nat)
    requires Sound(c, s) && k < |s.sessions|
    ensures s.view.current <= s.view.Head()
    ensures room == 0 ==> Fill(c, s, k, room) == Outcome(s, [], Success)
    ensures room > 0 && OnePass(c, s, k, room).Done? ==>
              var p := OnePass(c, s, k, room);
              Fill(c, s, k, room) == Outcome(p.state, [], p.status)
    ensures room > 0 && OnePass(c, s, k, room).Next? ==>
              var p := OnePass(c, s, k, room);
              var rest := Fill(c, p.state, k, room - p.used);
              Fill(c, s, k, room) == rest.(out := p.out + rest.out)
  {
    hide OnePass;
  }

  // ---------------------------------------------------------------- reading

  datatype Fixed = Fixed(state: State, deferred: bool)

  /** The rollback to `target` and the fix-up on reconnect: the header goes on the item the next
      session will begin with. With no such item yet it stays owed. */
  function FixUp(c: Config, s: State, target: nat, header: Bytes): (f: Fixed)
    requires Sound(c, s) && s.view.tail <= target <= s.view.Head()
    ensures Sound(c, f.state) && f.state.cursor == Idle && f.state.sessions == s.sessions
    ensures f.state.view.tail == s.view.tail && f.state.view.Head() == s.view.Head()
  {
    var v := StripCursor(s).view;
    var s' := s.(cursor := Idle, eos := EosTracker(false, 0));
    var b := NextBoundary(v, target);
    if b == v.Head() then Fixed(s'.(view := v.(current := target), timed := false), true)
    else
      var w := if v.At(b).streamStart then v else v.Put(b, AddHeader(v.At(b), header));
      Fixed(s'.(view := w.(current := b), timed := true), false)
  }

  /** The start of a read: an owed rollback and header are settled if the header has a place. */
  function Resume(c: Config, s: State, target: nat, header: Bytes): (r: State)
    requires Sound(c, s) && s.view.tail <= target <= s.view.Head()
    ensures Sound(c, r) && r.sessions == s.sessions
  {
    if s.connection == InUse then
      var f := FixUp(c, s, target, header);
      if f.deferred then f.state else f.state.(connection := Fine)
    else s.(connection := Fine)
  }

  /** The part of a read that depends on the session's phase. */
  function Serve(c: Config, s: State, k: nat, room: nat): (r: Outcome)
    requires Sound(c, s) && k < |s.sessions|
    ensures Sound(c, r.state) && |r.state.sessions| == |s.sessions|
  {
    var u := s.sessions[k];
    match u.phase
    case Ready =>
      if s.stopped && Drained(s) then Outcome(SetPhase(s, k, Terminated), [], EndOfStream)
      else if !s.timed && !c.absoluteTimes then Outcome(s, [], NoMoreData)
      else Fill(c, SetPhase(s, k, Streaming).(timed := false), k, room)
    case Streaming => Fill(c, s, k, room)
    case Terminating => Fill(c, s, k, room)
    case AwaitingAck =>
      if u.lastPersisted == u.lastFragment then Outcome(SetPhase(s, k, Terminated), [], EndOfStream)
      else Outcome(s, [], AwaitingPersistedAck)
    case AckReceived => Outcome(SetPhase(s, k, Terminated), [], EndOfStream)
    case Terminated => Outcome(s, [], EndOfStream)
  }

  /** The first session that is waiting to send, if any. */
  function FirstWaiting(ss: seq<Session>): (j: nat)
    ensures j <= |ss|
    ensures j < |ss| ==> ss[j].phase == Ready || ss[j].phase == Streaming
  {
    if ss == [] then 0
    else if ss[0].phase == Ready || ss[0].phase == Streaming then 0
    else 1 + FirstWaiting(ss[1..])
  }

  /** A session that has sent everything lets the next one go on; on a stopped, drained stream the
      next one has nothing to do. */
  function Hand(c: Config, s: State, k: nat): (r: State)
    requires k < |s.sessions|
    ensures r == s.(sessions := r.sessions) && |r.sessions| == |s.sessions|
  {
    var p, j := s.sessions[k].phase, FirstWaiting(s.sessions);
    if (p == AwaitingAck || (!c.waitForAck && p == Terminated)) && j < |s.sessions| && s.stopped && Drained(s)
    then SetPhase(s, j, Terminated)
    else s
  }

  /** A terminated session leaves the queue; when it was the last live one and something is left
      to send, the connection is reset so that a new session takes over. */
  function Retire(s: State, k: nat): (r: State)
    requires k < |s.sessions|
    ensures r == s.(sessions := r.sessions, connection := r.connection)
  {
    if s.sessions[k].phase != Terminated then s
    else
      var s' := s.(sessions := Without(s.sessions, k));
      if !Active(s'.sessions) && !Drained(s') then Terminate(s', None, true) else s'
  }

  /** Reading stream data for upload handle h into a buffer with `room` bytes. */
  function Read(c: Config, s: State, h: nat, room: nat, target: nat, header: Bytes): (r: Outcome)
    requires Sound(c, s) && s.view.tail <= target <= s.view.Head()
    ensures Sound(c, r.state)
  {
    var s1 := Resume(c, s, target, header);
    var k := Find(s1.sessions, h);
    if k == |s1.sessions| then Outcome(s1, [], HandleAborted)
    else
      var r := Serve(c, s1, k, room);
      r.(state := Retire(Hand(c, r.state, k), k))
  }

  // ---------------------------------------------------------------- termination

  function AllTerminated(ss: seq<Session>): (r: seq<Session>)
    ensures |r| == |ss| && forall j :: 0 <= j < |r| ==> r[j] == ss[j].(phase := Terminated)
  {
    seq(|ss|, j requires 0 <= j < |ss| => ss[j].(phase := Terminated))
  }

  /** A stopped stream whose send pointer waits in front of a genuine base boundary. */
  predicate Parked(s: State) {
    s.stopped && s.cursor.On? && s.cursor.item.baseStart && s.cursor.offset == 0
  }

  /** A connection ended: of all sessions (None), or of one handle. The handle stays queued when
      its owner is still alive to ask for more. */
  function Terminate(s: State, which: Option<nat>, alive: bool): (r: State)
    ensures r == s.(sessions := r.sessions, connection := r.connection)
  {
    var s' := match which
      case None => s.(connection := InUse, sessions := AllTerminated(s.sessions))
      case Some(h) => TerminateOne(s, h, alive);
    if Parked(s) then s'.(connection := NotInUse) else s'
  }

  function TerminateOne(s: State, h: nat, alive: bool): (r: State)
    ensures r == s.(sessions := r.sessions, connection := r.connection)
  {
    var k := Find(s.sessions, h);
    if k == |s.sessions| then s.(connection := InUse)
    else
      var ss := s.sessions[k := s.sessions[k].(phase := Terminated)];
      s.(sessions := if alive then ss else Without(ss, k),
         connection := if !Used(s.sessions[k].phase) then s.connection
                       else if Active(ss) then NotInUse
                       else InUse)
  }

  // ---------------------------------------------------------------- the other steps

  datatype Frame = Key(rebase: bool) | Delta | EndOfFragment

  /** The times, storage and bytes of a packaged frame. */
  datatype Packaged = Packaged(timestamp: nat, ackTimestamp: nat, duration: nat, store: nat, body: Bytes, header: Bytes)

  /** The generator starts a stream on the first frame and on a key frame it was reset for. A stream
      start opens a timecode base; it is a base boundary when the view holds earlier content. */
  predicate StartsStream(s: State, f: Frame) { f.Key? && (f.rebase || s.generator.base == 0) }

  /** The item a frame becomes. An end of fragment takes its times from the end of the view. */
  function ItemOf(s: State, f: Frame, p: Packaged): Item {
    var start, n := StartsStream(s, f), |s.view.items|;
    var last := if f.EndOfFragment? && n > 0 then Some(s.view.items[n - 1]) else None;
    Item(if last.Some? then last.value.timestamp + last.value.duration else p.timestamp,
         if last.Some? then last.value.ackTimestamp + last.value.duration else p.ackTimestamp,
         if f.EndOfFragment? then 0 else p.duration,
         p.store,
         if start then p.header + p.body else p.body,
         if start then |p.header| % DATA_OFFSET_LIMIT else 0,
         if start then s.generator.base + 1 else s.generator.base,
         start, start && n > 0, f.Key?, f.EndOfFragment?, false, false)
  }

  /** Frames that come to nothing: after the stop, before the first key frame, after an end of
      fragment until the next key frame, and an end of fragment with nothing in the view. */
  predicate Ignored(s: State, f: Frame) {
    || s.stopped || (!f.Key? && (s.generator.base == 0 || s.generator.eofr))
    || (f.EndOfFragment? && s.view.items == [])
  }

  /** The generator refuses a frame from before its last cluster; a reset makes it forget that. */
  predicate Refused(s: State, f: Frame, p: Packaged) {
    && !f.EndOfFragment? && !StartsStream(s, f)
    && (p.timestamp < s.generator.dts || p.ackTimestamp < s.generator.pts)
  }

  predicate Unpackaged(s: State, f: Frame, p: Packaged) { Ignored(s, f) || Refused(s, f, p) }

  /** Packaging a frame moves the generator on, whether or not the view then takes the item. */
  function Package(s: State, f: Frame, p: Packaged): Generator {
    Generator(ItemOf(s, f, p).base, if f.Key? then p.timestamp else s.generator.dts,
              if f.Key? then p.ackTimestamp else s.generator.pts, f.EndOfFragment?)
  }

  /** The view with the item added, evicting as needed. */
  function Stored(v: View, item: Item, l: Limits): (w: View)
    requires v.Ok()
    ensures w.Ok() && w.Head() == v.Head() + 1 && w.tail >= v.tail
  {
    if !Available(v, l) then
      TrimCounts(v, l.policy, item);
      AddItem(v, item, l, item).view
    else AddItem(v, item, l, item).view
  }

  function PutFrame(c: Config, s: State, f: Frame, p: Packaged): State
    requires s.view.Ok()
  {
    var item := ItemOf(s, f, p);
    if Unpackaged(s, f, p) then s
    else
      var s' := s.(generator := Package(s, f, p));
      if !Accepts(s.view, item) then s'
      else s'.(view := Stored(s.view, item, c.limits), timed := s.timed || item.streamStart)
  }

  function Connect(s: State, h: nat): State { s.(sessions := s.sessions + [Session(h, Ready, None, None)]) }

  function ReceivedAck(s: State, i: nat): State {
    if s.view.Holds(i) then s.(view := s.view.Put(i, s.view.At(i).(received := true))) else s
  }

  /** The acknowledgement is for a time the view still spans. */
  predicate InView(v: View, ts: nat) {
    && v.items != []
    && var newest := v.items[|v.items| - 1]; v.items[0].ackTimestamp <= ts <= newest.ackTimestamp + newest.duration
  }

  predicate ReadyToTrim(p: Phase) { p == AckReceived || p == Terminated }

  predicate EarlierReady(ss: seq<Session>, k: nat)
    requires k <= |ss|
  {
    forall j :: 0 <= j < k ==> ReadyToTrim(ss[j].phase)
  }

  /** The view trimmed up to the boundary b found behind a persisted fragment, an end of fragment
      included; with no boundary nothing is trimmed. A send pointer that is overtaken goes on behind
      the boundary. */
  function TrimUpTo(v: View, b: nat): (w: View)
    requires v.Ok() && v.tail <= b <= v.Head()
    ensures w.Ok() && w.Head() == v.Head() && v.tail <= w.tail && v.current <= w.current
    ensures w.items == v.items[w.tail - v.tail..]
  {
    if b == v.Head() then v
    else
      var to := if v.At(b).fragEnd then b + 1 else b;
      View(to, v.items[to - v.tail..], if to <= v.current then v.current else b + 1)
  }

  /** The acknowledgement is for a live session and a time in view. */
  predicate Counts(s: State, h: nat, ts: nat) {
    var k := Find(s.sessions, h);
    k < |s.sessions| && s.sessions[k].phase != Terminated && InView(s.view, ts)
  }

  /** And no earlier session still waits for its last one. */
  predicate Trims(s: State, h: nat, ts: nat) { Counts(s, h, ts) && EarlierReady(s.sessions, Find(s.sessions, h)) }

  /** What a persisted acknowledgement makes of its session: the last one ends the waiting. */
  function Acknowledged(s: State, u: Session, h: nat, ts: nat): (u': Session)
    ensures u'.handle == u.handle && (u'.phase == u.phase || (u.phase == AwaitingAck && u'.phase == AckReceived))
  {
    var last := u.phase == AwaitingAck && u.lastFragment == Some(ts) && Trims(s, h, ts);
    u.(lastPersisted := Some(ts), phase := if last then AckReceived else u.phase)
  }

  /** The fragment at ts is persisted: its session may finish, and the view is trimmed, once every
      earlier session has got its last acknowledgement. */
  function PersistedAck(s: State, h: nat, ts: nat, b: nat): (r: State)
    requires s.view.Ok() && s.view.tail <= b <= s.view.Head()
    ensures |r.sessions| == |s.sessions|
    ensures forall j :: 0 <= j < |r.sessions| ==> r.sessions[j] == s.sessions[j] || r.sessions[j] == Acknowledged(s, s.sessions[j], h, ts)
    ensures r == s.(sessions := r.sessions, view := if Trims(s, h, ts) then TrimUpTo(s.view, b) else s.view)
  {
    var k := Find(s.sessions, h);
    s.(sessions := if Counts(s, h, ts) then s.sessions[k := Acknowledged(s, s.sessions[k], h, ts)] else s.sessions,
       view := if Trims(s, h, ts) then TrimUpTo(s.view, b) else s.view)
  }

  // ---------------------------------------------------------------- runs

  datatype Event =
    | Put(frame: Frame, packaged: Packaged)
    | Open(handle: nat)
    | Get(handle: nat, room: nat, target: nat, header: Bytes)
    | Drop(handle: nat, alive: bool)
    | Reset
    | Stop
    | Received(index: nat)
    | Persisted(handle: nat, ts: nat, boundary: nat)

  predicate IsHeader(b: Bytes) { BeginsWithEbml(b) && |b| < DATA_OFFSET_LIMIT }

  /** What the surroundings supply: headers are EBML headers that fit the sixteen-bit length,
      frame bytes are not, rollback targets and boundaries are in the view. */
  predicate Enabled(s: State, e: Event) {
    match e
    case Put(_, p) => IsHeader(p.header) && |p.body| > 0 && !BeginsWithEbml(p.body)
    case Open(h) => forall j :: 0 <= j < |s.sessions| ==> s.sessions[j].handle != h
    case Get(_, room, target, header) => room > 0 && IsHeader(header) && s.view.tail <= target <= s.view.Head()
    case Persisted(_, _, b) => s.view.tail <= b <= s.view.Head()
    case _ => true
  }

  function Step(c: Config, s: State, e: Event): (r: Outcome)
    requires Sound(c, s) && Enabled(s, e)
  {
    match e
    case Put(f, p) => Outcome(PutFrame(c, s, f, p), [], Success)
    case Open(h) => Outcome(Connect(s, h), [], Success)
    case Get(h, room, target, header) => Read(c, s, h, room, target, header)
    case Drop(h, alive) => Outcome(Terminate(s, Some(h), alive), [], Success)
    case Reset => Outcome(Terminate(s, None, true), [], Success)
    case Stop => Outcome(s.(stopped := true), [], Success)
    case Received(i) => Outcome(ReceivedAck(s, i), [], Success)
    case Persisted(h, ts, b) => Outcome(PersistedAck(s, h, ts, b), [], Success)
  }

  lemma StoredSound(c: Config, s: State, item: Item)
    requires Sound(c, s)
    ensures Linked(Stored(s.view, item, c.limits), s.cursor)
  {
  }

  lemma StepSound(c: Config, s: State, e: Event)
    requires Sound(c, s) && Enabled(s, e)
    ensures Sound(c, Step(c, s, e).state)
  {
    hide PersistedAck;
    if e.Put? {
      StoredSound(c, s, ItemOf(s, e.frame, e.packaged));
    }
  }
}

/** The stream object itself: it owns the ring buffer and the fields the API calls update in place. Each
    call is proved to do what the step functions of Upload say of the window the ring shows. */
module UploadStreams {
  import opened ViewItems
  import opened ContentView
  import opened Upload
  import opened TimestampSearch
  import opened FragmentAcks
  import opened ErrorAcks
  import RollingView

  /** How a pass that was carried out in place reads as a value. */
  ghost function PassOf(s: State, out: seq<Chunk>, used: nat, ended: Option<Status>): Pass {
    if ended.Some? then Done(s, ended.value) else Next(s, out, used)
  }

  class UploadStream {
    const config: Config
    const ring: RollingView.RollingContentView
    var cursor: Cursor
    var connection: Connection
    var sessions: seq<Session>
    var eos: EosTracker
    var stopped: bool
    var timed: bool
    var generator: Generator

    ghost predicate Shaped()
      reads this, ring, ring.slots
    {
      ring.Valid() && ring.Limit() == config.limits
    }

    ghost function Abs(): State
      requires Shaped()
      reads this, ring, ring.slots
    {
      State(ring.Window(), cursor, connection, sessions, eos, stopped, timed, generator)
    }

    ghost predicate Valid()
      reads this, ring, ring.slots
    {
      Shaped() && Sound(config, Abs())
    }

    constructor (c: Config)
      requires c.limits.itemCount > RollingView.MIN_CONTENT_VIEW_ITEMS && c.limits.bufferDuration > 0
      ensures Valid() && fresh(ring) && fresh(ring.slots) && config == c && Abs() == INITIAL
    {
      config := c;
      ring := new RollingView.RollingContentView(c.limits.itemCount, c.limits.bufferDuration, c.limits.policy);
      cursor, connection, sessions, eos := Idle, Fine, [], EosTracker(false, 0);
      stopped, timed, generator := false, false, Generator(0, 0, 0, false);
    }

    // ---------------------------------------------------------------- sessions

    /** The place of handle h in the queue, or its length. */
    method FindSession(h: nat) returns (k: nat)
      ensures k == Find(sessions, h)
    {
      k := 0;
      while k < |sessions| && sessions[k].handle != h
        invariant k <= |sessions| && Find(sessions, h) == k + Find(sessions[k..], h)
      {
        k := k + 1;
      }
    }

    method AnyActive() returns (b: bool)
      ensures b == Active(sessions)
    {
      b := false;
      var k := 0;
      while k < |sessions| && !b
        invariant k <= |sessions| && b == exists j :: 0 <= j < k && sessions[j].phase != Terminated
      {
        b := sessions[k].phase != Terminated;
        k := k + 1;
      }
    }

    method FindWaiting() returns (k: nat)
      ensures k == FirstWaiting(sessions)
    {
      k := 0;
      while k < |sessions| && sessions[k].phase != Ready && sessions[k].phase != Streaming
        invariant k <= |sessions| && FirstWaiting(sessions) == k + FirstWaiting(sessions[k..])
      {
        k := k + 1;
      }
    }

    method MovePhase(k: nat, p: Phase)
      requires Shaped() && k < |sessions|
      modifies this`sessions
      ensures Shaped() && Abs() == SetPhase(old(Abs()), k, p)
    {
      sessions := sessions[k := sessions[k].(phase := p)];
    }

    // ---------------------------------------------------------------- items of the ring

    /** Takes items from the ring until one comes that a session may begin with. */
    method NextBoundaryItem() returns (found: bool, item: Item)
      requires ring.Valid()
      modifies ring`current
      ensures ring.Valid()
      ensures var v := old(ring.Window());
              var n := NextBoundary(v, v.current);
              && found == (n < v.Head())
              && ring.Window() == v.(current := if found then n + 1 else n)
              && (found ==> item == v.At(n))
    {
      ghost var v := ring.Window();
      ghost var i := ring.current;
      var status: RollingView.Status;
      status, item := ring.GetNext();
      while status == RollingView.Success && !StartsSession(item)
        invariant ring.Valid() && v.current <= i <= v.Head()
        invariant ring.Window() == v.(current := if status == RollingView.Success then i + 1 else i)
        invariant if status == RollingView.Success then i < v.Head() && item == v.At(i) else i == v.Head()
        invariant NextBoundary(v, i) == NextBoundary(v, v.current)
        decreases v.Head() - i
      {
        i := i + 1;
        status, item := ring.GetNext();
      }
      found := status == RollingView.Success;
    }

    /** Takes items from the ring until one comes that is not to be skipped. */
    method NextUnskippedItem() returns (found: bool, item: Item)
      requires ring.Valid()
      modifies ring`current
      ensures ring.Valid()
      ensures var v := old(ring.Window());
              var n := NextIndex(v, v.current);
              && found == (n < v.Head())
              && ring.Window() == v.(current := if found then n + 1 else n)
              && (found ==> item == v.At(n))
    {
      ghost var v := ring.Window();
      ghost var i := ring.current;
      var status: RollingView.Status;
      status, item := ring.GetNext();
      while status == RollingView.Success && item.skip
        invariant ring.Valid() && v.current <= i <= v.Head()
        invariant ring.Window() == v.(current := if status == RollingView.Success then i + 1 else i)
        invariant if status == RollingView.Success then i < v.Head() && item == v.At(i) else i == v.Head()
        invariant NextIndex(v, i) == NextIndex(v, v.current)
        decreases v.Head() - i
      {
        i := i + 1;
        status, item := ring.GetNext();
      }
      found := status == RollingView.Success;
    }

    /** Makes the item just taken from the ring the current one, its acknowledgement cleared. */
    method BeginItem(item: Item, ghost s: State)
      requires ring.Valid() && ring.current > ring.tail && item == ring.Window().At(ring.current - 1)
      requires s.view.Holds(ring.current - 1) && ring.Window() == s.view.(current := ring.current)
      modifies this`cursor, ring`items, ring.slots
      ensures ring.Valid() && ring.Window() == Take(s, old(ring.current) - 1).view
      ensures cursor == Take(s, old(ring.current) - 1).cursor
    {
      var n := ring.current - 1;
      ring.SetItem(n, item.(received := false));
      cursor := On(item.(received := false), n, 0);
    }

    /** Takes a fix-up header off the current item, if the ring still holds it. The pointer may have been
        rolled back since the item was taken in state s. */
    method ResetCurrentStreamStart(ghost s: State)
      requires ring.Valid() && s.view.Ok() && Linked(s.view, s.cursor) && s.cursor == cursor
      requires ring.Window() == s.view.(current := ring.current)
      modifies this`cursor, ring`items, ring.slots
      ensures ring.Valid() && ring.Window() == StripCursor(s).view.(current := ring.current) && cursor == StripCursor(s).cursor
    {
      if cursor.On? && cursor.item.streamStart && !cursor.item.baseStart {
        var status, held := ring.GetItemAt(cursor.index);
        if status == RollingView.Success {
          var bare := StripHeader(held);
          var spent := |held.data| == cursor.offset;
          ring.SetItem(cursor.index, bare);
          cursor := On(bare, cursor.index, if spent then |bare.data| else cursor.offset);
        }
      }
    }

    // ---------------------------------------------------------------- the send loop

    method SendEosPart(k: nat, room: nat) returns (out: seq<Chunk>, used: nat, ended: Option<Status>)
      requires Valid() && k < |sessions| && SendingEos(Abs(), k) && room > 0
      modifies this`eos, this`sessions
      ensures Shaped() && PassOf(Abs(), out, used, ended) == SendEos(config, old(Abs()), k, room)
    {
      out, used, ended := [], 0, None;
      if eos.offset == |config.eos| {
        eos := EosTracker(false, 0);
        var u := sessions[k];
        if config.waitForAck && !(u.lastPersisted.Some? && u.lastPersisted == u.lastFragment) {
          MovePhase(k, AwaitingAck);
          ended := Some(AwaitingPersistedAck);
        } else {
          MovePhase(k, Terminated);
          ended := Some(EndOfStream);
        }
      } else {
        used := Min(room, |config.eos| - eos.offset);
        out := [Eos(config.eos[eos.offset..eos.offset + used])];
        eos := eos.(offset := eos.offset + used);
      }
    }

    method BeginFirst() returns (ended: Option<Status>)
      requires Valid() && cursor.Idle?
      modifies this`cursor, ring, ring.slots
      ensures Shaped() && PassOf(Abs(), [], 0, ended) == SendFirst(config, old(Abs()))
    {
      ghost var s := Abs();
      var found, item := NextBoundaryItem();
      if found {
        BeginItem(item, s);
        ended := None;
      } else {
        ended := Some(NoMoreData);
      }
    }

    method BeginNext(k: nat) returns (ended: Option<Status>)
      requires Valid() && k < |sessions| && cursor.Spent()
      modifies this`cursor, this`sessions, this`eos, ring, ring.slots
      ensures Shaped() && PassOf(Abs(), [], 0, ended) == SendNext(config, old(Abs()), k)
    {
      hide StripCursor, NextIndex, Linked, SendOnto, SendNoMore;
      var afterEofr := cursor.item.fragEnd;
      ghost var s := Abs();
      ResetCurrentStreamStart(s);
      ghost var s' := StripCursor(s);
      var found, item := NextUnskippedItem();
      if found {
        GoOnto(s', k, item, afterEofr);
        ended := None;
      } else {
        ended := EndOfItems(s', k, afterEofr);
      }
    }

    /** Past the last item: a live stream waits for more, a stopped one ends the session. */
    method EndOfItems(ghost s: State, k: nat, afterEofr: bool) returns (ended: Option<Status>)
      requires Shaped() && Sound(config, s) && k < |sessions| && Abs() == s.(view := s.view.(current := s.view.Head()))
      modifies this`sessions, this`eos
      ensures Shaped() && PassOf(Abs(), [], 0, ended) == SendNoMore(config, s, k, afterEofr)
    {
      hide Linked;
      ended := None;
      if !stopped {
        ended := Some(NoMoreData);
      } else {
        MovePhase(k, Terminating);
        eos := EosTracker(true, if afterEofr then |config.eos| else 0);
      }
    }

    /** On to the item just taken; a stream start ends the session before it. */
    method GoOnto(ghost s: State, k: nat, item: Item, afterEofr: bool)
      requires Shaped() && Sound(config, s) && k < |sessions| && s.view.current < ring.current
      requires Abs() == s.(view := s.view.(current := ring.current)) && item == s.view.At(ring.current - 1)
      modifies this`cursor, this`sessions, this`eos, ring, ring.slots
      ensures Shaped() && PassOf(Abs(), [], 0, None) == SendOnto(config, s, k, old(ring.current) - 1, afterEofr)
    {
      hide Linked;
      BeginItem(item, s);
      if item.streamStart {
        MovePhase(k, if config.waitForAck then Terminating else Terminated);
        eos := EosTracker(true, if afterEofr then |config.eos| else 0);
      }
    }

    method CopyMedia(k: nat, room: nat) returns (out: seq<Chunk>, used: nat)
      requires Valid() && k < |sessions| && cursor.On? && !cursor.Spent() && room > 0
      modifies this`cursor, this`sessions
      ensures Shaped() && PassOf(Abs(), out, used, None) == SendMedia(config, old(Abs()), k, room)
    {
      if cursor.item.fragStart || cursor.item.streamStart {
        sessions := sessions[k := sessions[k].(lastFragment := Some(cursor.item.ackTimestamp))];
      }
      used := Min(room, |cursor.item.data| - cursor.offset);
      out := [Media(cursor.item.base, cursor.item, cursor.offset, cursor.item.data[cursor.offset..cursor.offset + used])];
      cursor := cursor.(offset := cursor.offset + used);
    }

    method SendPass(k: nat, room: nat) returns (out: seq<Chunk>, used: nat, ended: Option<Status>)
      requires Valid() && k < |sessions| && room > 0
      modifies this`cursor, this`sessions, this`eos, ring, ring.slots
      ensures Shaped() && PassOf(Abs(), out, used, ended) == OnePass(config, old(Abs()), k, room)
    {
      hide SendEos, SendFirst, SendNext, SendMedia;
      out, used := [], 0;
      if SendsEos(sessions[k].phase) && eos.send {
        out, used, ended := SendEosPart(k, room);
      } else if cursor.Idle? {
        ended := BeginFirst();
      } else if cursor.Spent() {
        ended := BeginNext(k);
      } else {
        out, used := CopyMedia(k, room);
        ended := None;
      }
    }

    /** Fills the buffer until it is full or a pass ends the call. */
    method SendLoop(k: nat, room: nat) returns (out: seq<Chunk>, status: Status)
      requires Valid() && k < |sessions|
      modifies this`cursor, this`sessions, this`eos, ring, ring.slots
      ensures Valid() && |sessions| == old(|sessions|)
      ensures Outcome(Abs(), out, status) == Fill(config, old(Abs()), k, room)
    {
      hide Fill, OnePass, Sound;
      var left: nat := room;
      out, status := [], Success;
      ghost var whole := Fill(config, Abs(), k, room);
      ghost var rest := whole;
      while left > 0
        invariant left <= room && Valid() && |sessions| == old(|sessions|)
        invariant rest == Fill(config, Abs(), k, left) && whole == rest.(out := out + rest.out)
        decreases left, ring.head - ring.current, if SendingEos(Abs(), k) then 0 else 1
      {
        ghost var before := Abs();
        FillUnrolled(config, before, k, left);
        var part, used, ended := SendPass(k, left);
        if ended.Some? {
          status := ended.value;
          return;
        }
        out, left := out + part, left - used;
        rest := Fill(config, Abs(), k, left);
      }
      FillUnrolled(config, Abs(), k, 0);
    }

    // ---------------------------------------------------------------- reading

    /** The place of the first item from the pointer on that a session may begin with, or the head. */
    method FindBoundary() returns (b: nat)
      requires ring.Valid()
      ensures b == NextBoundary(ring.Window(), ring.current)
    {
      b := ring.current;
      while b < ring.head
        invariant ring.current <= b <= ring.head && NextBoundary(ring.Window(), b) == NextBoundary(ring.Window(), ring.current)
      {
        var status, item := ring.GetItemAt(b);
        if StartsSession(item) {
          return;
        }
        b := b + 1;
      }
    }

    /** The fix-up after the pointer was rolled back from state s: the header goes on the item the next
        session begins with. */
    method StreamStartFixup(ghost s: State, header: Bytes) returns (deferred: bool)
      requires Shaped() && Sound(config, s) && Abs() == s.(view := s.view.(current := ring.current))
      modifies this`cursor, this`eos, this`timed, ring, ring.slots
      ensures Shaped() && Fixed(Abs(), deferred) == FixUp(config, s, old(ring.current), header)
    {
      hide StripCursor, NextBoundary, AddHeader, Linked, StartsSession;
      ResetCurrentStreamStart(s);
      cursor, timed, eos := Idle, false, EosTracker(false, 0);
      deferred := StageHeader(StripCursor(s).view, header);
      timed := !deferred;
    }

    /** The header goes on the first item from the pointer on that a session may begin with. */
    method StageHeader(ghost v: View, header: Bytes) returns (deferred: bool)
      requires ring.Valid() && ring.Window() == v.(current := ring.current) && v.tail <= ring.current <= v.Head()
      modifies ring, ring.slots
      ensures ring.Valid()
      ensures var b := NextBoundary(v, old(ring.current));
              if b == v.Head() then deferred && ring.Window() == old(ring.Window())
              else !deferred && ring.Window() == (if v.At(b).streamStart then v else v.Put(b, AddHeader(v.At(b), header))).(current := b)
    {
      hide NextBoundary, AddHeader, StartsSession;
      var b := FindBoundary();
      SameBoundary(v, ring.Window(), ring.current);
      deferred := b == ring.head;
      if !deferred {
        PlaceHeader(b, header);
      }
    }

    /** Moves the pointer to item b and puts a header on it, unless it has one. */
    method PlaceHeader(b: nat, header: Bytes)
      requires ring.Valid() && ring.tail <= b < ring.head
      modifies ring, ring.slots
      ensures ring.Valid()
      ensures var v := old(ring.Window());
              ring.Window() == (if v.At(b).streamStart then v else v.Put(b, AddHeader(v.At(b), header))).(current := b)
    {
      hide AddHeader;
      var moved := ring.SetCurrentIndex(b);
      var status, item := ring.GetItemAt(b);
      if !item.streamStart {
        ring.SetItem(b, AddHeader(item, header));
      }
    }

    /** The start of a read: an owed rollback is done and its header placed, if there is a place. */
    method ResumeConnection(duration: nat, byAck: bool, header: Bytes) returns (ghost target: nat)
      requires Valid()
      modifies this, ring, ring.slots
      ensures Valid() && old(Abs()).view.tail <= target <= old(Abs()).view.Head()
      ensures Abs() == Resume(config, old(Abs()), target, header)
      ensures old(connection) == InUse ==> RollsBack(old(ring.Window()), old(ring.Read(ring.current)), duration, byAck, target)
    {
      hide FixUp, Linked, RollsBack;
      ghost var s := Abs();
      var deferred := false;
      target := ring.tail;
      if connection == InUse {
        ring.RollbackCurrent(duration, byAck);
        target := ring.current;
        deferred := StreamStartFixup(s, header);
      }
      if !deferred {
        connection := Fine;
      }
    }

    /** Whether anything is left to send. */
    method NothingLeft() returns (b: bool)
      requires Shaped()
      ensures b == Drained(Abs())
    {
      b := ring.current >= ring.head && (cursor.Idle? || cursor.offset == |cursor.item.data|) && !eos.send;
    }

    method ServeSession(k: nat, room: nat) returns (out: seq<Chunk>, status: Status)
      requires Valid() && k < |sessions|
      modifies this, ring, ring.slots
      ensures Valid() && |sessions| == old(|sessions|)
      ensures Outcome(Abs(), out, status) == Serve(config, old(Abs()), k, room)
    {
      hide Fill, Linked;
      out := [];
      var u := sessions[k];
      match u.phase
      case Ready =>
        var drained := NothingLeft();
        if stopped && drained {
          MovePhase(k, Terminated);
          return out, EndOfStream;
        }
        if timed {
          timed := false;
        } else if !config.absoluteTimes {
          return out, NoMoreData;
        }
        MovePhase(k, Streaming);
        out, status := SendLoop(k, room);
      case AwaitingAck =>
        if u.lastPersisted == u.lastFragment {
          MovePhase(k, Terminated);
          return out, EndOfStream;
        }
        return out, AwaitingPersistedAck;
      case AckReceived =>
        MovePhase(k, Terminated);
        return out, EndOfStream;
      case Terminated => return out, EndOfStream;
      case _ => out, status := SendLoop(k, room);
    }

    /** After the session sent everything: the next one is let go on. */
    method HandOver(k: nat)
      requires Shaped() && k < |sessions|
      modifies this`sessions
      ensures Shaped() && Abs() == Hand(config, old(Abs()), k)
    {
      var p := sessions[k].phase;
      if p == AwaitingAck || (!config.waitForAck && p == Terminated) {
        var j := FindWaiting();
        var drained := NothingLeft();
        if j < |sessions| && drained && stopped {
          MovePhase(j, Terminated);
        }
      }
    }

    /** A terminated session leaves the queue. */
    method RetireSession(k: nat)
      requires Shaped() && k < |sessions|
      modifies this`sessions, this`connection
      ensures Shaped() && Abs() == Retire(old(Abs()), k)
    {
      hide Terminate;
      if sessions[k].phase == Terminated {
        sessions := sessions[..k] + sessions[k + 1..];
        var active := AnyActive();
        var drained := NothingLeft();
        if !active && !drained {
          StreamTerminated(None, true);
        }
      }
    }

    /** Reading stream data: the rollback, if one is owed, goes where the ring's own search says. */
    method GetStreamData(h: nat, room: nat, duration: nat, byAck: bool, header: Bytes)
        returns (out: seq<Chunk>, status: Status, ghost target: nat)
      requires Valid()
      modifies this, ring, ring.slots
      ensures Valid() && old(Abs()).view.tail <= target <= old(Abs()).view.Head()
      ensures Outcome(Abs(), out, status) == Read(config, old(Abs()), h, room, target, header)
      ensures old(connection) == InUse ==> RollsBack(old(ring.Window()), old(ring.Read(ring.current)), duration, byAck, target)
    {
      hide Resume, Serve, Hand, Retire, Linked, RollsBack;
      target := ResumeConnection(duration, byAck, header);
      var k := FindSession(h);
      if k == |sessions| {
        out, status := [], HandleAborted;
        return;
      }
      out, status := ServeSession(k, room);
      HandOver(k);
      RetireSession(k);
    }

    // ---------------------------------------------------------------- the other calls

    method TerminateAll()
      modifies this`sessions
      ensures sessions == AllTerminated(old(sessions))
    {
      var k := 0;
      while k < |sessions|
        invariant k <= |sessions| == |old(sessions)|
        invariant forall j :: 0 <= j < k ==> sessions[j] == old(sessions)[j].(phase := Terminated)
        invariant forall j :: k <= j < |sessions| ==> sessions[j] == old(sessions)[j]
      {
        sessions := sessions[k := sessions[k].(phase := Terminated)];
        k := k + 1;
      }
    }

    method TerminateHandle(h: nat, alive: bool)
      requires Shaped()
      modifies this`sessions, this`connection
      ensures Shaped() && Abs() == TerminateOne(old(Abs()), h, alive)
    {
      var k := FindSession(h);
      if k == |sessions| {
        connection := InUse;
      } else {
        var used := sessions[k].phase != Ready;
        MovePhase(k, Terminated);
        if used {
          var active := AnyActive();
          connection := if active then NotInUse else InUse;
        }
        if !alive {
          sessions := sessions[..k] + sessions[k + 1..];
        }
      }
    }

    /** A connection ended: of all sessions, or of one handle. */
    method StreamTerminated(which: Option<nat>, alive: bool)
      requires Shaped()
      modifies this`sessions, this`connection
      ensures Shaped() && Abs() == Terminate(old(Abs()), which, alive)
    {
      var parked := stopped && cursor.On? && cursor.item.baseStart && cursor.offset == 0;
      match which {
        case None =>
          connection := InUse;
          TerminateAll();
        case Some(h) =>
          TerminateHandle(h, alive);
      }
      if parked {
        connection := NotInUse;
      }
    }

    /** Packages the frame, which moves the generator on, and puts the item into the ring. */
    method Put(f: Frame, p: Packaged)
      requires Valid()
      modifies this, ring, ring.slots
      ensures Valid() && Abs() == PutFrame(config, old(Abs()), f, p)
    {
      hide RollingView.RollingContentView.Shows, Stored, Linked, ContentView.AddItem, Accepts, Available;
      ghost var s, stale := Abs(), ring.Read(ring.head);
      if stopped || (!f.Key? && (generator.base == 0 || generator.eofr)) || (f.EndOfFragment? && ring.head == ring.tail) {
        return;
      }
      var start := f.Key? && (f.rebase || generator.base == 0);
      if !f.EndOfFragment? && !start && (p.timestamp < generator.dts || p.ackTimestamp < generator.pts) {
        return;
      }
      var item := PackageItem(f, p, start);
      generator := Generator(item.base, if f.Key? then p.timestamp else generator.dts,
                             if f.Key? then p.ackTimestamp else generator.pts, f.EndOfFragment?);
      var status, removed := ring.AddItem(item);
      AddedIsStored(s.view, item, config.limits, stale);
      if status == RollingView.Success {
        StoredSound(config, s, item);
        if start {
          timed := true;
        }
      }
    }

    method PackageItem(f: Frame, p: Packaged, start: bool) returns (item: Item)
      requires Shaped() && start == StartsStream(Abs(), f) && (f.EndOfFragment? ==> ring.head > ring.tail)
      ensures item == ItemOf(Abs(), f, p)
    {
      var timestamp, ackTimestamp, duration := p.timestamp, p.ackTimestamp, p.duration;
      if f.EndOfFragment? {
        var last := ring.Read(ring.head - 1);
        timestamp, ackTimestamp, duration := last.timestamp + last.duration, last.ackTimestamp + last.duration, 0;
      }
      item := Item(timestamp, ackTimestamp, duration, p.store,
                   if start then p.header + p.body else p.body,
                   if start then |p.header| % DATA_OFFSET_LIMIT else 0,
                   if start then generator.base + 1 else generator.base,
                   start, start && ring.head > ring.tail, f.Key?, f.EndOfFragment?, false, false);
    }

    method NewSession(h: nat)
      requires Valid()
      modifies this`sessions
      ensures Valid() && Abs() == Connect(old(Abs()), h)
    {
      sessions := sessions + [Session(h, Ready, None, None)];
    }

    method Stop()
      requires Valid()
      modifies this`stopped
      ensures Valid() && Abs() == old(Abs()).(stopped := true)
    {
      stopped := true;
    }

    /** Marks the item the acknowledged time is put down to. */
    method FragmentReceived(h: nat, ts: nat)
      requires Valid()
      modifies ring, ring.slots
      ensures Valid() && Abs() == ReceivedFor(old(Abs()), h, ts)
    {
      hide RollingView.RollingContentView.Shows, Found, InView, Linked;
      AcksSound(config, Abs(), h, ts, {});
      var k := FindSession(h);
      var inRange := TimestampInRange(ts);
      if k == |sessions| || sessions[k].phase == Terminated || !inRange {
        return;
      }
      var i := ring.FindItem(ts);
      var status, item := ring.GetItemAt(i);
      ring.SetItem(i, item.(received := true));
    }

    /** Whether every session before place k has got its last acknowledgement. */
    method AllEarlierReady(k: nat) returns (ready: bool)
      requires k <= |sessions|
      ensures ready == EarlierReady(sessions, k)
    {
      ready := true;
      for i := 0 to k
        invariant ready == forall j :: 0 <= j < i ==> ReadyToTrim(sessions[j].phase)
      {
        ready := ready && ReadyToTrim(sessions[i].phase);
      }
    }

    method TimestampInRange(ts: nat) returns (inRange: bool)
      requires Shaped()
      ensures inRange == InView(ring.Window(), ts)
      ensures inRange ==> ring.tail < ring.head && ring.Read(ring.tail).ackTimestamp <= ts
    {
      inRange := false;
      if ring.head != ring.tail {
        var newest, oldest := ring.Read(ring.head - 1), ring.Read(ring.tail);
        inRange := oldest.ackTimestamp <= ts <= newest.ackTimestamp + newest.duration;
      }
    }

    /** Looks behind item i for the next boundary that is no persisted fragment, moving the pointer there. */
    method SeekBehind(i: nat, persisted: set<nat>) returns (found: bool, b: nat, item: Item)
      requires Shaped() && ring.tail <= i < ring.head
      modifies ring`current
      ensures Shaped() && b == Behind(old(ring.Window()), i + 1, persisted) && found == (b < ring.head)
      ensures ring.Window() == old(ring.Window()).(current := if found then b + 1 else b)
      ensures found ==> item == ring.Window().At(b)
    {
      hide RollingView.RollingContentView.Shows, Behind, NextBoundary, Sought, StartsSession;
      ghost var v := ring.Window();
      var moved := ring.SetCurrentIndex(i + 1);
      found, item := SeekNext(v, persisted);
      while found && item.fragStart && ring.current - 1 in persisted
        invariant Shaped() && ring.Window() == v.(current := ring.current)
        invariant Sought(v, i + 1, persisted, found, item, ring.current)
        invariant found ==> ring.current > i + 1 && item == v.At(ring.current - 1)
        invariant !found ==> ring.current == v.Head() == Behind(v, i + 1, persisted)
        decreases v.Head() - ring.current, found
      {
        SoughtOn(v, i + 1, persisted, item, ring.current);
        ghost var j := ring.current;
        found, item := SeekNext(v, persisted);
        SoughtFrom(v, i + 1, j, persisted, found, item, ring.current);
      }
      if found {
        SoughtOn(v, i + 1, persisted, item, ring.current);
      }
      b := if found then ring.current - 1 else ring.current;
    }

    /** The next boundary of the search. */
    method SeekNext(ghost v: View, ghost persisted: set<nat>) returns (found: bool, item: Item)
      requires Shaped() && ring.Window() == v.(current := ring.current)
      modifies ring`current
      ensures Shaped() && ring.Window() == v.(current := ring.current)
      ensures Sought(v, old(ring.current), persisted, found, item, ring.current)
      ensures found ==> ring.current > old(ring.current) && item == v.At(ring.current - 1)
      ensures !found ==> ring.current == v.Head() == Behind(v, old(ring.current), persisted)
    {
      hide RollingView.RollingContentView.Shows, Behind, NextBoundary, Sought;
      ghost var j := ring.current;
      found, item := NextBoundaryItem();
      SoughtFirst(v, j, persisted, found, item, ring.current);
      SoughtIn(v, j, persisted, found, item, ring.current);
    }

    /** Trims the ring up to the boundary found behind item i, an end of fragment included. The search has left
        the pointer behind it, and it goes back only if its old place is still in the ring. */
    method TrimRing(i: nat, persisted: set<nat>)
      requires Shaped() && ring.tail <= i < ring.head
      modifies ring
      ensures Shaped() && ring.Window() == TrimUpTo(old(ring.Window()), Behind(old(ring.Window()), i + 1, persisted))
    {
      hide RollingView.RollingContentView.Shows, TrimUpTo, Behind;
      ghost var v := ring.Window();
      var saved := ring.current;
      var found, b, item := SeekBehind(i, persisted);
      TrimUpToIs(v, b);
      if found {
        var trimmed, removed := ring.TrimTail(if item.fragEnd then b + 1 else b);
        ghost var to := if item.fragEnd then b + 1 else b;
        assert ring.Window() == View(to, v.items[to - v.tail..], b + 1);
      }
      var back := ring.SetCurrentIndex(saved);
    }

    lemma TrimUpToIs(v: View, b: nat)
      requires v.Ok() && v.tail <= b <= v.Head()
      ensures b == v.Head() ==> TrimUpTo(v, b) == v
      ensures b < v.Head() ==>
                var to := if v.At(b).fragEnd then b + 1 else b;
                TrimUpTo(v, b) == View(to, v.items[to - v.tail..], if to <= v.current then v.current else b + 1)
    {
    }

    /** Records the acknowledgement; the last one a session waits for lets it finish, if no earlier session
        waits. */
    method Acknowledge(k: nat, ts: nat, ready: bool, ghost s: State, ghost h: nat)
      requires Shaped() && s == Abs() && k < |sessions| && ready == Trims(s, h, ts)
      modifies this`sessions
      ensures Shaped() && Abs() == s.(sessions := s.sessions[k := Acknowledged(s, s.sessions[k], h, ts)])
    {
      hide Trims;
      var u := sessions[k];
      var last := u.phase == AwaitingAck && u.lastFragment == Some(ts) && ready;
      sessions := sessions[k := u.(lastPersisted := Some(ts), phase := if last then AckReceived else u.phase)];
    }

    /** `persisted` are the items with a persisted acknowledgement. */
    method FragmentPersisted(h: nat, ts: nat, persisted: set<nat>)
      requires Valid()
      modifies this`sessions, ring
      ensures Valid() && Abs() == PersistedFor(old(Abs()), h, ts, persisted)
    {
      hide RollingView.RollingContentView.Shows, InView, Linked;
      var k := FindSession(h);
      var inRange := TimestampInRange(ts);
      if k < |sessions| && sessions[k].phase != Terminated && inRange {
        ApplyPersisted(k, h, ts, persisted);
      }
    }

    /** The acknowledgement of a live session for a time in view. */
    method ApplyPersisted(k: nat, h: nat, ts: nat, persisted: set<nat>)
      requires Valid() && k == Find(sessions, h) && Counts(Abs(), h, ts)
      requires ring.tail < ring.head && ring.Read(ring.tail).ackTimestamp <= ts
      modifies this`sessions, ring
      ensures Valid() && Abs() == PersistedFor(old(Abs()), h, ts, persisted)
    {
      hide RollingView.RollingContentView.Shows, TrimUpTo, EarlierReady, Linked, Acknowledged, Behind, Found, InView,
           PersistedFor, Counts, Trims;
      ghost var s := Abs();
      AcksSound(config, s, h, ts, persisted);
      PersistedForIs(s, h, ts, persisted);
      TrimsIff(s, h, ts);
      var ready := AllEarlierReady(k);
      Acknowledge(k, ts, ready, s, h);
      var i := ring.FindItem(ts);
      if ready {
        ghost var s1 := Abs();
        TrimRing(i, persisted);
        assert Abs() == s1.(view := ring.Window());
      }
    }

    lemma TrimsIff(s: State, h: nat, ts: nat)
      requires Counts(s, h, ts)
      ensures Trims(s, h, ts) <==> EarlierReady(s.sessions, Find(s.sessions, h))
    {
    }

    // ---------------------------------------------------------------- error acknowledgements

    /** Marks the items in front of i that are not older than `start`. */
    method MarkBack(i: nat, start: nat) returns (lo: nat)
      requires Shaped() && ring.tail <= i < ring.head
      modifies ring`items, ring.slots
      ensures Shaped() && lo == BackTo(old(ring.Window()), i, start) && ring.Window() == Marking(old(ring.Window()), lo, i)
    {
      hide RollingView.RollingContentView.Shows, Marking, BackTo, Backing;
      ghost var v := ring.Window();
      lo := i;
      var iterate := true;
      BackingStarts(v, i, start);
      while iterate
        invariant Shaped() && Backing(v, i, start, ring.Window(), lo)
        invariant !iterate ==> lo == BackTo(v, i, start)
        decreases iterate, lo
      {
        BackingOn(v, i, start, ring.Window(), lo);
        iterate := lo > ring.tail && ring.Read(lo - 1).ackTimestamp >= start;
        if iterate {
          MarkItem(lo - 1, ring.Read(lo - 1));
          lo := lo - 1;
        }
      }
      BackingOn(v, i, start, ring.Window(), lo);
    }

    lemma BackingStarts(v: View, i: nat, start: nat)
      requires v.Holds(i)
      ensures Backing(v, i, start, v, i)
    {
      MarkingMore(v, i, i);
    }

    method MarkItem(i: nat, item: Item)
      requires Shaped() && ring.tail <= i < ring.head
      modifies ring`items, ring.slots
      ensures Shaped() && ring.Window() == old(ring.Window()).Put(i, item.(skip := true))
    {
      ring.SetItem(i, item.(skip := true));
    }

    /** Marks the item at the pointer and those after it up to the next that begins or ends a fragment. */
    method MarkFragment(ghost v: View, ghost lo: nat)
      requires Shaped() && v.tail <= lo <= ring.current < ring.head && v.tail == ring.tail && v.Head() == ring.head
      requires ring.Window() == Marking(v, lo, ring.current).(current := ring.current)
      modifies ring, ring.slots
      ensures Shaped()
      ensures var hi := EndFrom(v, old(ring.current) + 1); ring.Window() == Marking(v, lo, hi).(current := hi)
    {
      hide RollingView.RollingContentView.Shows, Marking, EndFrom, Partway, Stopper;
      ghost var i := ring.current;
      var done := false;
      var status, item := ring.GetNext();
      PartwayStarts(v, lo, ring.Window(), item);
      while !done
        invariant Shaped() && v.tail == ring.tail && v.Head() == ring.head
        invariant !done ==> Partway(v, lo, i, ring.Window(), item)
        invariant done ==> ring.Window() == Marking(v, lo, EndFrom(v, i + 1)).(current := EndFrom(v, i + 1))
        decreases !done, ring.head - ring.current
      {
        done, item := MarkOn(v, lo, i, item);
      }
    }

    /** Marks the item just taken and takes the next one, unless that is not of the fragment. */
    method MarkOn(ghost v: View, ghost lo: nat, ghost i: nat, item: Item) returns (done: bool, next: Item)
      requires Shaped() && v.tail == ring.tail && v.Head() == ring.head && Partway(v, lo, i, ring.Window(), item)
      modifies ring, ring.slots
      ensures Shaped() && v.tail == ring.tail && v.Head() == ring.head
      ensures if done then ring.Window() == Marking(v, lo, EndFrom(v, i + 1)).(current := EndFrom(v, i + 1))
              else Partway(v, lo, i, ring.Window(), next) && ring.current == old(ring.current) + 1
    {
      hide RollingView.RollingContentView.Shows, Marking, EndFrom, Partway, Stopper;
      ghost var w := ring.Window();
      PartwayOn(v, lo, i, w, item);
      var j := ring.current;
      MarkItem(j - 1, item);
      var status;
      status, next := ring.GetNext();
      done := status != RollingView.Success || Stopper(next);
      if status == RollingView.Success && done {
        var back := ring.SetCurrentIndex(j);
      }
    }

    lemma PartwayStarts(v: View, lo: nat, w: View, item: Item)
      requires v.tail <= lo < w.current <= v.Head() && w == Marking(v, lo, w.current - 1).(current := w.current) && item == w.At(w.current - 1)
      ensures Partway(v, lo, w.current - 1, w, item)
    {
    }

    /** The pointer goes to the item; if sending it again is no use its fragment is marked. */
    method MarkErrors(i: nat, ts: nat, start: nat, retry: bool)
      requires Shaped() && ring.tail <= i < ring.head
      modifies ring, ring.slots
      ensures Shaped() && ring.Window() == ErrorView(old(ring.Window()), i, ts, start, retry)
    {
      hide RollingView.RollingContentView.Shows, Marking, EndFrom, BackTo;
      ghost var v := ring.Window();
      var moved := ring.SetCurrentIndex(i);
      if !retry {
        var lo := i;
        if start != ts {
          lo := MarkBack(i, start);
        }
        PointerApart(v, i, lo, start);
        MarkFragment(v, lo);
      }
    }

    lemma PointerApart(v: View, i: nat, lo: nat, start: nat)
      requires v.tail <= lo <= i < v.Head()
      ensures Marking(v, i, i) == v && Marking(v.(current := i), lo, i) == Marking(v, lo, i).(current := i)
      ensures BackTo(v.(current := i), i, start) == BackTo(v, i, start)
    {
      BackToSame(v, i, i, start);
    }

    lemma {:induction false} BackToSame(v: View, i: nat, p: nat, start: nat)
      requires v.tail <= i <= v.Head()
      ensures BackTo(v.(current := p), i, start) == BackTo(v, i, start)
    {
      if i > v.tail {
        BackToSame(v, i - 1, p, start);
      }
    }

    method FindCurrent() returns (k: nat)
      ensures k == CurrentSession(sessions)
    {
      k := 0;
      while k < |sessions| && (sessions[k].phase == Terminated || sessions[k].phase == AckReceived)
        invariant k <= |sessions| && CurrentSession(sessions) == k + CurrentSession(sessions[k..])
      {
        k := k + 1;
      }
    }

    /** An error acknowledgement for the session with handle h. The pointer may go back in front of the item being
        sent, and that may be marked, so the two no longer need to match. */
    method FragmentError(h: nat, ts: nat, start: nat, retry: bool)
      requires Shaped()
      modifies this`sessions, this`connection, ring, ring.slots
      ensures Shaped() && Abs() == ErrorFor(old(Abs()), h, ts, start, retry)
    {
      hide RollingView.RollingContentView.Shows, ErrorView, Found, InView, Terminate;
      var k := FindSession(h);
      if k == |sessions| || sessions[k].phase == Terminated || ring.head == ring.tail {
        return;
      }
      var inRange := TimestampInRange(ts);
      var t := if inRange then ts else ring.Read(ring.tail).ackTimestamp;
      var i := ring.FindItem(t);
      MarkErrors(i, t, start, retry);
      var j := FindCurrent();
      if j < |sessions| {
        StreamTerminated(Some(sessions[j].handle), true);
      }
    }
  }

  /** What the ring makes of a new item is what Upload stores, whatever the slot behind held. */
  lemma AddedIsStored(v: View, item: Item, l: Limits, stale: Item)
    requires v.Ok()
    ensures AddItem(v, item, l, stale).view == Stored(v, item, l)
  {
  }
}

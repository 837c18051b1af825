/** One session of a stopped stream: its reads, whatever their sizes, deliver what is pending up to the
    next stream start or the end, and the session ends there; it waits for its last acknowledgement, or
    is retired at once if the stream does not wait for acknowledgements. */
module Delivery {
  import opened ViewItems
  import opened ContentView
  import opened Upload
  import opened Recovery

  function Concat(items: seq<Item>): Bytes {
    if items == [] then [] else items[0].data + Concat(items[1..])
  }

  /** The media bytes ahead of the send pointer. */
  function Pending(s: State): Bytes
    requires s.view.Ok() && s.cursor.On? && s.cursor.offset <= |s.cursor.item.data|
  {
    s.cursor.item.data[s.cursor.offset..] + Concat(s.view.items[s.view.current - s.view.tail..])
  }

  function MediaBytes(out: seq<Chunk>): Bytes {
    if out == [] then [] else (if out[0].Media? then out[0].bytes else []) + MediaBytes(out[1..])
  }

  lemma {:induction false} MediaBytesConcat(a: seq<Chunk>, b: seq<Chunk>)
    ensures MediaBytes(a + b) == MediaBytes(a) + MediaBytes(b)
  {
    if a == [] {
      assert a + b == b;
    } else {
      assert (a + b)[1..] == a[1..] + b;
      MediaBytesConcat(a[1..], b);
    }
  }

  /** Stream starts among the items ahead: each ends a session. */
  function Starts(items: seq<Item>): (n: nat)
    ensures n <= |items|
  {
    if items == [] then 0 else (if items[0].streamStart then 1 else 0) + Starts(items[1..])
  }

  function StartsAhead(s: State): nat
    requires s.view.Ok()
  {
    Starts(s.view.items[s.view.current - s.view.tail..])
  }

  /** The session has stopped in front of a stream start, or at the end of the view. */
  predicate Ended(s: State) { AtHeader(s) || (s.cursor.Spent() && s.view.current == s.view.Head()) }

  /** Session k of a stopped stream is sending items, or its end-of-stream tag after them. */
  predicate InSession(c: Config, s: State, k: nat)
    requires k < |s.sessions|
  {
    && s.cursor.On? && s.stopped && s.sessions[k].lastPersisted == None
    && match s.sessions[k].phase
       case Streaming => true
       case Terminating => s.eos.send && Ended(s)
       case Terminated => s.eos.send && AtHeader(s) && !c.waitForAck
       case _ => false
  }

  /** The phase and status a session ends with: it waits for its last acknowledgement, or is through. */
  function EndPhase(c: Config): Phase { if c.waitForAck then AwaitingAck else Terminated }

  function EndStatus(c: Config): Status { if c.waitForAck then AwaitingPersistedAck else EndOfStream }

  /** What is left to send in all, counting one end-of-stream tag. */
  function Left(c: Config, s: State, k: nat): nat
    requires Sound(c, s) && k < |s.sessions| && InSession(c, s, k)
  {
    |Pending(s)| + (if SendingEos(s, k) then |c.eos| - s.eos.offset else |c.eos|)
  }

  /** What one pass of the session's loop does: its media bytes come off the front of what is
      pending, and it goes on, or ends before a stream start or at the end of the view. */
  ghost predicate Delivers(c: Config, s: State, k: nat, p: Pass)
    requires Sound(c, s) && k < |s.sessions| && InSession(c, s, k)
  {
    && Sound(c, p.state) && |p.state.sessions| == |s.sessions| && p.state.sessions[k].handle == s.sessions[k].handle
    && p.state.view.tail == s.view.tail
    && p.state.view.Head() == s.view.Head() && p.state.view.current >= s.view.current
    && p.state.cursor.On?
    && Pending(s) == (if p.Next? then MediaBytes(p.out) else []) + Pending(p.state)
    && StartsAhead(s) == StartsAhead(p.state)
                         + (if s.sessions[k].phase == Streaming && p.state.sessions[k].phase != Streaming && AtHeader(p.state) then 1 else 0)
    && (s.sessions[k].phase != Streaming ==>
          p.state.view == s.view && p.state.cursor == s.cursor && p.state.sessions[k].phase != Streaming)
    && (p.Next? ==> InSession(c, p.state, k) && Left(c, p.state, k) + p.used <= Left(c, s, k))
    && (p.Done? ==> && p.status == EndStatus(c) && p.state.sessions[k].phase == EndPhase(c) && !p.state.eos.send
                    && s.sessions[k].phase != Streaming && Ended(p.state) && p.state.stopped)
  }

  lemma EosDelivers(c: Config, s: State, k: nat, room: nat)
    requires Sound(c, s) && k < |s.sessions| && InSession(c, s, k) && room > 0 && SendingEos(s, k)
    ensures Delivers(c, s, k, OnePass(c, s, k, room))
  {
    hide Concat, Starts, MediaBytes;
    var p := OnePass(c, s, k, room);
    if p.Next? {
      TagIsNoMedia(p.out);
    }
    assert [] + Pending(s) == Pending(s);
  }

  lemma TagIsNoMedia(out: seq<Chunk>)
    requires |out| == 1 && out[0].Eos?
    ensures MediaBytes(out) == []
  {
  }

  lemma MediaDelivers(c: Config, s: State, k: nat, room: nat)
    requires Sound(c, s) && k < |s.sessions| && InSession(c, s, k) && room > 0 && !SendingEos(s, k) && !s.cursor.Spent()
    ensures Delivers(c, s, k, OnePass(c, s, k, room))
  {
    hide Concat, Starts, MediaBytes;
    var p := OnePass(c, s, k, room);
    MediaIsBytes(p.out);
    var data, i, j := s.cursor.item.data, s.cursor.offset, p.state.cursor.offset;
    var ahead := Concat(s.view.items[s.view.current - s.view.tail..]);
    assert data[i..] + ahead == data[i..j] + (data[j..] + ahead);
  }

  lemma MediaIsBytes(out: seq<Chunk>)
    requires |out| == 1 && out[0].Media?
    ensures MediaBytes(out) == out[0].bytes
  {
    assert MediaBytes(out[1..]) == [];
  }

  lemma NoMoreDelivers(c: Config, s: State, k: nat, afterEofr: bool)
    requires Sound(c, s) && k < |s.sessions| && InSession(c, s, k) && s.sessions[k].phase == Streaming
    requires s.cursor.Spent() && s.view.current == s.view.Head() && |s.cursor.item.data| > 0
    ensures Delivers(c, s, k, SendNoMore(c, s, k, afterEofr))
  {
  }

  lemma OntoKeepsPending(c: Config, s: State, k: nat, afterEofr: bool)
    requires Sound(c, s) && k < |s.sessions| && s.cursor.Spent() && s.view.current < s.view.Head()
    ensures var r := SendOnto(c, s, k, s.view.current, afterEofr).state;
            && r.view.tail == s.view.tail && r.cursor.On? && r.cursor.offset == 0 && r.stopped == s.stopped
            && Pending(r) == Pending(s) && StartsAhead(s) == StartsAhead(r) + (if r.cursor.item.streamStart then 1 else 0)
  {
    var v, n := s.view, s.view.current;
    var i := n - v.tail;
    assert v.items[i..][1..] == v.items[i + 1..] && v.items[i..][0] == v.items[i];
    var item := v.items[i].(received := false);
    assert v.items[i := item][i + 1..] == v.items[i + 1..];
  }

  lemma OntoDelivers(c: Config, s: State, k: nat, afterEofr: bool)
    requires Sound(c, s) && k < |s.sessions| && InSession(c, s, k) && s.sessions[k].phase == Streaming
    requires s.cursor.Spent() && s.view.current < s.view.Head()
    ensures Delivers(c, s, k, SendOnto(c, s, k, s.view.current, afterEofr))
  {
    OntoKeepsPending(c, s, k, afterEofr);
    hide Pending, StartsAhead, Take, Sound, Linked;
  }

  /** A pass from s' is one from s, when they differ only in what has been sent already. */
  lemma DeliversFrom(c: Config, s: State, t: State, k: nat, p: Pass)
    requires Sound(c, s) && Sound(c, t) && k < |s.sessions| && InSession(c, s, k) && s.sessions[k].phase == Streaming
    requires t == s.(view := t.view, cursor := t.cursor) && InSession(c, t, k) && Delivers(c, t, k, p)
    requires s.view.tail == t.view.tail && s.view.Head() == t.view.Head() && s.view.current == t.view.current
    requires Pending(s) == Pending(t) && StartsAhead(s) == StartsAhead(t)
    ensures Delivers(c, s, k, p)
  {
  }

  lemma NextDelivers(c: Config, s: State, k: nat)
    requires Sound(c, s) && k < |s.sessions| && InSession(c, s, k) && Clean(s)
    requires s.sessions[k].phase == Streaming && s.cursor.Spent()
    ensures Delivers(c, s, k, SendNext(c, s, k))
  {
    var s' := StripCursor(s);
    StripStays(s);
    var v := s'.view;
    hide StripCursor, Concat, Starts, SendOnto, SendNoMore, Clean, Delivers;
    if v.current < v.Head() {
      OntoDelivers(c, s', k, s.cursor.item.fragEnd);
    } else {
      NoMoreDelivers(c, s', k, s.cursor.item.fragEnd);
    }
    DeliversFrom(c, s, s', k, SendNext(c, s, k));
  }

  /** Stripping a spent item loses nothing that is pending, and the next item is the adjacent one. */
  lemma StripStays(s: State)
    requires s.view.Ok() && Linked(s.view, s.cursor) && s.cursor.Spent() && Clean(s)
    ensures var r := StripCursor(s);
            && r.cursor.Spent() && |r.cursor.item.data| > 0
            && Pending(r) == Pending(s) && StartsAhead(r) == StartsAhead(s)
            && NextIndex(r.view, r.view.current) == r.view.current
  {
  }

  lemma PassDelivers(c: Config, s: State, k: nat, room: nat)
    requires Sound(c, s) && k < |s.sessions| && InSession(c, s, k) && Clean(s) && room > 0
    ensures Delivers(c, s, k, OnePass(c, s, k, room))
  {
    if SendingEos(s, k) {
      EosDelivers(c, s, k, room);
    } else if s.cursor.Spent() {
      NextDelivers(c, s, k);
    } else {
      MediaDelivers(c, s, k, room);
    }
  }

  lemma PassStays(c: Config, s: State, k: nat, room: nat)
    requires Sound(c, s) && k < |s.sessions| && InSession(c, s, k) && Clean(s) && room > 0
    ensures var p := OnePass(c, s, k, room);
            && Delivers(c, s, k, p) && Clean(p.state) && (p.Next? ==> InSession(c, p.state, k))
  {
    PassDelivers(c, s, k, room);
    PassClean(c, s, k, room);
    hide OnePass, Clean, Sound, Pending, StartsAhead, AtHeader;
  }

  /** What one call does, in the terms of a pass. */
  ghost predicate CallDelivers(c: Config, s: State, k: nat, room: nat, r: Outcome)
    requires Sound(c, s) && k < |s.sessions| && InSession(c, s, k)
  {
    && Sound(c, r.state) && |r.state.sessions| == |s.sessions| && r.state.sessions[k].handle == s.sessions[k].handle
    && r.state.view.tail == s.view.tail
    && r.state.view.Head() == s.view.Head() && r.state.view.current >= s.view.current
    && r.state.cursor.On? && Clean(r.state)
    && Pending(s) == MediaBytes(r.out) + Pending(r.state)
    && (s.sessions[k].phase != Streaming ==>
          r.state.view == s.view && r.state.cursor == s.cursor && r.state.sessions[k].phase != Streaming)
    && (r.status == Success ==> InSession(c, r.state, k) && Left(c, r.state, k) + room <= Left(c, s, k))
    && (r.status != Success ==> && r.status == EndStatus(c) && r.state.sessions[k].phase == EndPhase(c)
                                && !r.state.eos.send && Ended(r.state) && r.state.stopped)
    && StartsAhead(s) == StartsAhead(r.state)
                         + (if s.sessions[k].phase == Streaming && r.state.sessions[k].phase != Streaming && AtHeader(r.state) then 1 else 0)
  }

  /** A pass followed by the rest of the loop. */
  lemma DeliversThen(c: Config, s: State, k: nat, room: nat, p: Pass, rest: Outcome)
    requires Sound(c, s) && k < |s.sessions| && InSession(c, s, k) && Delivers(c, s, k, p) && p.Next? && p.used <= room
    requires CallDelivers(c, p.state, k, room - p.used, rest)
    ensures CallDelivers(c, s, k, room, rest.(out := p.out + rest.out))
  {
    hide Clean, Concat, Starts;
    MediaBytesConcat(p.out, rest.out);
    assert MediaBytes(p.out) + (MediaBytes(rest.out) + Pending(rest.state)) == MediaBytes(p.out + rest.out) + Pending(rest.state);
  }

  /** A pass that ends the call. */
  lemma DeliversLast(c: Config, s: State, k: nat, room: nat, p: Pass)
    requires Sound(c, s) && k < |s.sessions| && InSession(c, s, k) && Delivers(c, s, k, p) && p.Done? && Clean(p.state)
    ensures CallDelivers(c, s, k, room, Outcome(p.state, [], p.status))
  {
  }

  /** A call with no room left. */
  lemma NothingDelivered(c: Config, s: State, k: nat)
    requires Sound(c, s) && k < |s.sessions| && InSession(c, s, k) && Clean(s)
    ensures CallDelivers(c, s, k, 0, Outcome(s, [], Success))
  {
  }

  lemma {:induction false} FillDelivers(c: Config, s: State, k: nat, room: nat)
    requires Sound(c, s) && k < |s.sessions| && InSession(c, s, k) && Clean(s)
    ensures CallDelivers(c, s, k, room, Fill(c, s, k, room))
    decreases room, s.view.Head() - s.view.current, if SendingEos(s, k) then 0 else 1
  {
    hide Fill, OnePass, Clean, Sound, InSession, Delivers, CallDelivers;
    FillUnrolled(c, s, k, room);
    if room == 0 {
      NothingDelivered(c, s, k);
    } else {
      PassStays(c, s, k, room);
      var p := OnePass(c, s, k, room);
      if p.Next? {
        FillDelivers(c, p.state, k, room - p.used);
        DeliversThen(c, s, k, room, p, Fill(c, p.state, k, room - p.used));
      } else {
        DeliversLast(c, s, k, room, p);
      }
    }
  }

  // ---------------------------------------------------------------- base boundaries ahead

  /** Every stream start ahead is a genuine base boundary, and so is the one session k ended at. */
  predicate Marked(s: State, k: nat)
    requires s.view.Ok() && k < |s.sessions|
  {
    && BoundariesAhead(s.view)
    && (s.sessions[k].phase != Streaming && AtHeader(s) ==> s.cursor.item.baseStart)
  }

  predicate BoundariesAhead(v: View)
    requires v.Ok()
  {
    forall i :: v.current - v.tail <= i < |v.items| && v.items[i].streamStart ==> v.items[i].baseStart
  }

  lemma NextMarked(c: Config, s: State, k: nat)
    requires Sound(c, s) && k < |s.sessions| && InSession(c, s, k) && Clean(s) && Marked(s, k)
    requires s.sessions[k].phase == Streaming && s.cursor.Spent()
    ensures Marked(SendNext(c, s, k).state, k)
  {
  }

  lemma PassMarked(c: Config, s: State, k: nat, room: nat)
    requires Sound(c, s) && k < |s.sessions| && InSession(c, s, k) && Clean(s) && Marked(s, k) && room > 0
    ensures Marked(OnePass(c, s, k, room).state, k)
  {
    if !SendingEos(s, k) && s.cursor.Spent() {
      NextMarked(c, s, k);
    }
  }

  lemma {:induction false} FillMarked(c: Config, s: State, k: nat, room: nat)
    requires Sound(c, s) && k < |s.sessions| && InSession(c, s, k) && Clean(s) && Marked(s, k)
    ensures Marked(Fill(c, s, k, room).state, k)
    decreases room, s.view.Head() - s.view.current, if SendingEos(s, k) then 0 else 1
  {
    hide Fill, OnePass, Clean, Sound, InSession, Delivers, Marked;
    FillUnrolled(c, s, k, room);
    if room > 0 {
      PassStays(c, s, k, room);
      PassMarked(c, s, k, room);
      var p := OnePass(c, s, k, room);
      if p.Next? {
        FillMarked(c, p.state, k, room - p.used);
      }
    }
  }

  // ---------------------------------------------------------------- headers to spare

  /** A header that is no base boundary: it is taken off when its item has been sent. */
  predicate Loose(i: Item) { i.streamStart && !i.baseStart }

  function LooseHeaders(items: seq<Item>): (n: nat)
    ensures n <= |items|
  {
    if items == [] then 0 else (if Loose(items[0]) then 1 else 0) + LooseHeaders(items[1..])
  }

  lemma {:induction false} LoosePut(items: seq<Item>, i: nat, item: Item)
    requires i < |items|
    ensures LooseHeaders(items[i := item]) + (if Loose(items[i]) then 1 else 0) == LooseHeaders(items) + (if Loose(item) then 1 else 0)
  {
    var put := items[i := item];
    if i > 0 {
      assert put[1..] == items[1..][i - 1 := item];
      LoosePut(items[1..], i - 1, item);
    } else {
      assert put[1..] == items[1..];
    }
  }

  /** The current item's own header, while its session is sending it. */
  predicate OnLoose(s: State) { s.cursor.On? && s.view.Holds(s.cursor.index) && Loose(s.cursor.item) }

  /** The loose headers a session still has before it, its own not counted. */
  function Spare(s: State, k: nat): int
    requires k < |s.sessions|
  {
    LooseHeaders(s.view.items) - (if s.sessions[k].phase == Streaming && OnLoose(s) then 1 else 0)
  }

  /** The item a session stopped in front of is in the view, the last one taken. */
  predicate StoppedInView(s: State, k: nat)
    requires k < |s.sessions|
  {
    s.sessions[k].phase != Streaming && AtHeader(s) ==> s.view.Holds(s.cursor.index) && s.cursor.index + 1 == s.view.current
  }

  lemma StripSpares(s: State)
    requires s.view.Ok() && Linked(s.view, s.cursor)
    ensures LooseHeaders(StripCursor(s).view.items) == LooseHeaders(s.view.items) - (if OnLoose(s) then 1 else 0)
  {
    hide LooseHeaders;
    if OnLoose(s) {
      LoosePut(s.view.items, s.cursor.index - s.view.tail, StripHeader(s.view.At(s.cursor.index)));
    }
  }

  lemma TakeSpares(s: State, n: nat)
    requires s.view.Holds(n)
    ensures LooseHeaders(Take(s, n).view.items) == LooseHeaders(s.view.items)
    ensures var r := Take(s, n); OnLoose(r) == Loose(s.view.At(n)) && r.view.Holds(r.cursor.index) && r.cursor.index + 1 == r.view.current
  {
    hide LooseHeaders;
    LoosePut(s.view.items, n - s.view.tail, s.view.At(n).(received := false));
  }

  /** No pass adds a loose header, and going on from one takes it off. */
  lemma PassSpare(c: Config, s: State, k: nat, room: nat)
    requires Sound(c, s) && k < |s.sessions| && InSession(c, s, k) && Clean(s) && room > 0
    ensures Spare(OnePass(c, s, k, room).state, k) <= Spare(s, k)
    ensures StoppedInView(s, k) ==> StoppedInView(OnePass(c, s, k, room).state, k)
  {
    hide LooseHeaders, StripCursor, Take, Linked, Clean, Pending, StartsAhead;
    if !SendingEos(s, k) && s.cursor.Spent() {
      StripStays(s);
      StripSpares(s);
      var s' := StripCursor(s);
      var n := NextIndex(s'.view, s'.view.current);
      if n < s'.view.Head() {
        TakeSpares(s', n);
      }
    }
  }

  lemma {:induction false} FillSpare(c: Config, s: State, k: nat, room: nat)
    requires Sound(c, s) && k < |s.sessions| && InSession(c, s, k) && Clean(s)
    ensures Spare(Fill(c, s, k, room).state, k) <= Spare(s, k)
    ensures StoppedInView(s, k) ==> StoppedInView(Fill(c, s, k, room).state, k)
    decreases room, s.view.Head() - s.view.current, if SendingEos(s, k) then 0 else 1
  {
    hide Fill, OnePass, Clean, Sound, InSession, Delivers, Spare, StoppedInView;
    FillUnrolled(c, s, k, room);
    if room > 0 {
      PassStays(c, s, k, room);
      PassSpare(c, s, k, room);
      var p := OnePass(c, s, k, room);
      if p.Next? {
        FillSpare(c, p.state, k, room - p.used);
      }
    }
  }

  // ---------------------------------------------------------------- items ahead

  /** The first item nothing of which has been sent. */
  function Unsent(s: State): nat {
    if s.cursor.On? && s.cursor.offset == 0 && s.cursor.index + 1 == s.view.current && s.view.Holds(s.cursor.index)
    then s.cursor.index else s.view.current
  }

  /** Sending goes forward, leaves what is not sent yet as it was, and keeps the body of every item. */
  ghost predicate Onward(s: State, r: State) {
    && s.view.Ok() && r.view.Ok() && r.view.tail == s.view.tail && r.view.Head() == s.view.Head() && Unsent(s) <= Unsent(r)
    && (forall x: nat :: s.view.Holds(x) && Unsent(r) <= x ==> r.view.At(x).data == s.view.At(x).data)
    && (forall x: nat :: s.view.Holds(x) ==> r.view.At(x).Body() == s.view.At(x).Body())
  }

  lemma NextOnward(c: Config, s: State, k: nat)
    requires Sound(c, s) && k < |s.sessions| && InSession(c, s, k) && Clean(s) && s.cursor.Spent()
    ensures Onward(s, SendNext(c, s, k).state)
  {
    hide Pending, StartsAhead, Onward, StripCursor, Take, CleanView, CleanCursor, Linked;
    StripStays(s);
    StripOnward(s);
    var s' := StripCursor(s);
    var v := s'.view;
    if v.current < v.Head() {
      TakeOnward(s', SendNext(c, s, k).state);
      OnwardTwice(s, s', SendNext(c, s, k).state);
    } else {
      OnwardHead(s', SendNext(c, s, k).state);
      OnwardTwice(s, s', SendNext(c, s, k).state);
    }
  }

  lemma StripOnward(s: State)
    requires s.view.Ok() && Linked(s.view, s.cursor) && s.cursor.Spent() && Clean(s)
    ensures Onward(s, StripCursor(s))
  {
    hide Pending, StartsAhead, NextIndex, CleanView, CleanCursor, Onward;
    StripStays(s);
    var r := StripCursor(s);
    if OnLoose(s) {
      StripKeepsBody(s.view.At(s.cursor.index));
      PutOnward(s, r, s.cursor.index, StripHeader(s.view.At(s.cursor.index)));
    } else {
      OnwardHere(s);
    }
  }

  /** A change behind the pointer that keeps the body. */
  lemma PutOnward(s: State, r: State, j: nat, item: Item)
    requires s.view.Ok() && s.view.Holds(j) && j < s.view.current && item.Body() == s.view.At(j).Body()
    requires r.view == s.view.Put(j, item) && Unsent(s) == s.view.current == Unsent(r)
    ensures Onward(s, r)
  {
    hide Item.Body, Unsent;
  }

  lemma OnwardHere(s: State)
    requires s.view.Ok()
    ensures Onward(s, s)
  {
  }

  lemma StripKeepsBody(i: Item)
    ensures StripHeader(i).Body() == i.Body()
  {
  }

  /** The next item is the first unsent one. */
  lemma TakeOnward(s: State, r: State)
    requires s.view.Ok() && s.view.current < s.view.Head() && s.cursor.Spent() && |s.cursor.item.data| > 0
    requires r.view == Take(s, s.view.current).view && r.cursor == Take(s, s.view.current).cursor
    ensures Onward(s, r)
  {
    var n := s.view.current;
    var item := s.view.At(n).(received := false);
    assert item.Body() == s.view.At(n).Body() && item.data == s.view.At(n).data;
    assert r.view == s.view.Put(n, item).(current := n + 1) && Unsent(s) == n == Unsent(r);
    hide Item.Body, Unsent;
  }

  lemma OnwardHead(s: State, r: State)
    requires s.view.Ok() && s.view.current == s.view.Head() && s.cursor.Spent() && |s.cursor.item.data| > 0
    requires r.view == s.view && r.cursor == s.cursor
    ensures Onward(s, r)
  {
  }

  lemma PassOnward(c: Config, s: State, k: nat, room: nat)
    requires Sound(c, s) && k < |s.sessions| && InSession(c, s, k) && Clean(s) && room > 0
    ensures Onward(s, OnePass(c, s, k, room).state)
  {
    hide CleanView;
    if !SendingEos(s, k) && s.cursor.Spent() {
      NextOnward(c, s, k);
    }
  }

  lemma {:induction false} FillOnward(c: Config, s: State, k: nat, room: nat)
    requires Sound(c, s) && k < |s.sessions| && InSession(c, s, k) && Clean(s)
    ensures Onward(s, Fill(c, s, k, room).state)
    decreases room, s.view.Head() - s.view.current, if SendingEos(s, k) then 0 else 1
  {
    hide Fill, OnePass, Clean, InSession, Delivers, Linked;
    FillUnrolled(c, s, k, room);
    if room > 0 {
      PassStays(c, s, k, room);
      PassOnward(c, s, k, room);
      var p := OnePass(c, s, k, room);
      if p.Next? {
        FillOnward(c, p.state, k, room - p.used);
      }
    }
  }

  // ---------------------------------------------------------------- one session

  /** A stopped stream with no session and no replay owed; without a current item there is one to begin
      with. The tag of a session that was retired in the middle of it may still be in the tracker. */
  predicate AtRest(c: Config, s: State) {
    && Sound(c, s) && s.stopped && s.sessions == [] && s.connection != InUse
    && (s.cursor.Idle? ==> NextBoundary(s.view, s.view.current) < s.view.Head())
  }

  /** With the item taken that a session begins with. */
  function Begun(s: State): (r: State)
    requires s.view.Ok() && (s.cursor.Idle? ==> NextBoundary(s.view, s.view.current) < s.view.Head())
    ensures r.view.Ok() && r.cursor.On? && r.view.tail == s.view.tail && r.view.Head() == s.view.Head()
    ensures Linked(s.view, s.cursor) ==> Linked(r.view, r.cursor)
  {
    if s.cursor.Idle? then Take(s, NextBoundary(s.view, s.view.current)) else s
  }

  /** The stream at rest with its new session begun. */
  function Opened(s: State, h: nat): State
    requires s.view.Ok() && (s.cursor.Idle? ==> NextBoundary(s.view, s.view.current) < s.view.Head())
  {
    Begun(s).(sessions := [Session(h, Streaming, None, None)], connection := Fine, timed := false)
  }

  /** The only session is in the middle of its reads. */
  ghost predicate Reading(c: Config, s: State, h: nat) {
    && Sound(c, s) && Clean(s) && s.connection == Fine && !s.timed
    && |s.sessions| == 1 && s.sessions[0].handle == h && InSession(c, s, 0) && s.sessions[0].phase != Terminated
  }

  /** The only session has sent its last: all of its tag too, unless it is about to be retired. */
  ghost predicate Finishing(c: Config, s: State, h: nat) {
    && Sound(c, s) && Clean(s) && s.stopped && s.cursor.On? && Ended(s) && s.connection == Fine && !s.timed
    && |s.sessions| == 1 && s.sessions[0].handle == h && s.sessions[0].phase == EndPhase(c)
    && (c.waitForAck || !AtHeader(s) ==> !s.eos.send)
  }

  /** The session goes on after this call. */
  predicate GoesOn(o: Outcome) { |o.state.sessions| == 1 && o.status == Success && o.state.sessions[0].phase != Terminated }

  /** What one run of the send loop leaves of the session. */
  ghost predicate Served(c: Config, s: State, h: nat, room: nat, o: Outcome)
    requires Reading(c, s, h)
  {
    && CallDelivers(c, s, 0, room, o)
    && (if GoesOn(o) then Reading(c, o.state, h) else Finishing(c, o.state, h))
    && (Marked(s, 0) ==> Marked(o.state, 0)) && (StoppedInView(s, 0) ==> StoppedInView(o.state, 0)) && Spare(o.state, 0) <= Spare(s, 0)
    && Onward(s, o.state)
  }

  lemma FillServes(c: Config, s: State, h: nat, room: nat)
    requires Reading(c, s, h)
    ensures Served(c, s, h, room, Fill(c, s, 0, room))
  {
    hide Fill, Clean, Marked, Pending, StartsAhead, Linked, Spare, StoppedInView, Onward;
    FillDelivers(c, s, 0, room);
    FillOnward(c, s, 0, room);
    FillSpare(c, s, 0, room);
    if Marked(s, 0) {
      FillMarked(c, s, 0, room);
    }
  }

  /** Two calls in a row are like one with the room of both. */
  lemma ServedTwice(c: Config, s: State, h: nat, room: nat, a: Outcome, more: nat, b: Outcome)
    requires Reading(c, s, h) && Served(c, s, h, room, a) && GoesOn(a) && Served(c, a.state, h, more, b)
    ensures Served(c, s, h, room + more, Outcome(b.state, a.out + b.out, b.status))
  {
    hide Clean, Pending, StartsAhead, Linked, Spare, Marked, StoppedInView, Onward, CallDelivers, InSession, Finishing;
    CallTwice(c, s, room, a, more, b);
    OnwardTwice(s, a.state, b.state);
  }

  lemma CallTwice(c: Config, s: State, room: nat, a: Outcome, more: nat, b: Outcome)
    requires Sound(c, s) && |s.sessions| == 1 && InSession(c, s, 0) && CallDelivers(c, s, 0, room, a)
    requires a.status == Success && CallDelivers(c, a.state, 0, more, b)
    ensures CallDelivers(c, s, 0, room + more, Outcome(b.state, a.out + b.out, b.status))
  {
    hide Clean, Concat, Starts;
    MediaBytesConcat(a.out, b.out);
    assert MediaBytes(a.out) + (MediaBytes(b.out) + Pending(b.state)) == MediaBytes(a.out + b.out) + Pending(b.state);
  }

  lemma OnwardTwice(s: State, a: State, b: State)
    requires Onward(s, a) && Onward(a, b)
    ensures Onward(s, b)
  {
  }

  /** A session that goes on has less to send. */
  lemma ServedReads(c: Config, s: State, h: nat, room: nat, o: Outcome)
    requires Reading(c, s, h) && Served(c, s, h, room, o) && room > 0
    ensures GoesOn(o) ==> Reading(c, o.state, h) && Left(c, o.state, 0) < Left(c, s, 0)
  {
    hide Clean, Pending, StartsAhead, Linked, Spare, Marked, StoppedInView, Onward;
  }

  /** What a read makes of the send loop's outcome: a session that is through is retired. */
  function Settled(o: Outcome): Outcome
    requires |o.state.sessions| == 1
  {
    o.(state := Retire(o.state, 0))
  }

  /** A read by the only session is one run of the send loop, and the retirement after it. */
  lemma ReadIsFill(c: Config, s: State, h: nat, room: nat, target: nat, header: Bytes)
    requires Reading(c, s, h) && s.view.tail <= target <= s.view.Head()
    ensures |Fill(c, s, 0, room).state.sessions| == 1
    ensures Read(c, s, h, room, target, header) == Settled(Fill(c, s, 0, room))
  {
    hide Fill, Clean, Pending, StartsAhead;
    FillServes(c, s, h, room);
    NoneToHand(c, Fill(c, s, 0, room).state);
  }

  /** With a single session there is none to hand over to, unless it is waiting to send itself. */
  lemma NoneToHand(c: Config, s: State)
    requires |s.sessions| == 1
    ensures Hand(c, s, 0) == s
  {
  }

  /** The first read of a new session starts the send loop where the send pointer rests. */
  lemma FirstReadIsFill(c: Config, s: State, h: nat, room: nat, target: nat, header: Bytes)
    requires AtRest(c, s) && Clean(s) && !Drained(s) && s.view.tail <= target <= s.view.Head() && room > 0
    requires c.absoluteTimes || s.timed
    ensures Reading(c, Opened(s, h), h) && |Fill(c, Opened(s, h), 0, room).state.sessions| == 1
    ensures Read(c, Connect(s, h), h, room, target, header) == Settled(Fill(c, Opened(s, h), 0, room))
  {
    hide Fill, CleanView, CleanCursor, Pending, StartsAhead, NextBoundary, Served;
    var s1 := s.(sessions := [Session(h, Streaming, None, None)], connection := Fine, timed := false);
    OpenedReads(c, s, h);
    FirstPass(c, s1, h, room);
    ServedOne(c, Opened(s, h), h, room);
    FirstServe(c, s, h, room, target, header);
    NoneToHand(c, Fill(c, Opened(s, h), 0, room).state);
  }

  lemma ServedOne(c: Config, s: State, h: nat, room: nat)
    requires Reading(c, s, h)
    ensures |Fill(c, s, 0, room).state.sessions| == 1
  {
  }

  lemma OpenedReads(c: Config, s: State, h: nat)
    requires AtRest(c, s) && Clean(s)
    ensures Reading(c, Opened(s, h), h)
  {
    hide NextBoundary;
    if s.cursor.Idle? {
      TakeClean(s, NextBoundary(s.view, s.view.current));
    }
  }

  /** Without a current item the first pass takes one. */
  lemma FirstPass(c: Config, s1: State, h: nat, room: nat)
    requires Sound(c, s1) && s1.sessions == [Session(h, Streaming, None, None)] && room > 0 && s1.connection == Fine && !s1.timed
    requires s1.cursor.Idle? ==> NextBoundary(s1.view, s1.view.current) < s1.view.Head()
    ensures Sound(c, Begun(s1)) && Begun(s1).sessions == s1.sessions && Fill(c, s1, 0, room) == Fill(c, Begun(s1), 0, room)
  {
    hide Fill;
    FillUnrolled(c, s1, 0, room);
  }

  lemma FirstServe(c: Config, s: State, h: nat, room: nat, target: nat, header: Bytes)
    requires AtRest(c, s) && !Drained(s) && s.view.tail <= target <= s.view.Head() && (c.absoluteTimes || s.timed)
    ensures var s1 := s.(sessions := [Session(h, Streaming, None, None)], connection := Fine, timed := false);
            var f := Fill(c, s1, 0, room);
            Read(c, Connect(s, h), h, room, target, header) == f.(state := Retire(Hand(c, f.state, 0), 0))
  {
    hide Fill, NextBoundary;
    var s0 := Resume(c, Connect(s, h), target, header);
    assert s0.sessions == [Session(h, Ready, None, None)];
    assert SetPhase(s0, 0, Streaming).(timed := false)
        == s.(sessions := [Session(h, Streaming, None, None)], connection := Fine, timed := false);
  }

  // ---------------------------------------------------------------- how a session ends

  /** The session is over: it waits for its last acknowledgement, or was retired, and then the connection
      is reset if something is left, unless the pointer is parked. */
  ghost predicate Over(c: Config, s: State, h: nat) {
    && Sound(c, s) && Clean(s) && s.stopped && s.cursor.On? && Ended(s) && !s.timed && (!AtHeader(s) ==> Drained(s))
    && if c.waitForAck then
         && s.connection == Fine && !s.eos.send
         && |s.sessions| == 1 && s.sessions[0].handle == h && s.sessions[0].phase == AwaitingAck
       else
         && s.sessions == []
         && s.connection == if !AtHeader(s) then Fine else if s.cursor.item.baseStart then NotInUse else InUse
  }

  /** The end of a session, retired or not. */
  lemma FinishingEnds(c: Config, s: State, h: nat)
    requires Finishing(c, s, h)
    ensures var r := Retire(s, 0);
            && Over(c, r, h) && r == s.(sessions := r.sessions, connection := r.connection)
  {
    hide CleanView;
    if !c.waitForAck {
      assert Without(s.sessions, 0) == [];
    }
  }

  /** All that a drain relies on when a session begun in s is over in r, having sent `out`. */
  ghost predicate Completed(c: Config, s: State, h: nat, r: State, out: seq<Chunk>)
    requires AtRest(c, s)
  {
    && Over(c, r, h)
    && Pending(Begun(s)) == MediaBytes(out) + Pending(r)
    && StartsAhead(Begun(s)) == StartsAhead(r) + (if AtHeader(r) then 1 else 0)
    && (BoundariesAhead(Begun(s).view) ==> BoundariesAhead(r.view) && (AtHeader(r) ==> r.cursor.item.baseStart))
    && LooseHeaders(r.view.items) <= LooseHeaders(Begun(s).view.items) - (if OnLoose(Begun(s)) then 1 else 0)
    && (AtHeader(r) ==> r.view.Holds(r.cursor.index) && r.cursor.index + 1 == r.view.current)
    && Onward(Begun(s), r) && r.view.tail == s.view.tail && r.view.Head() == s.view.Head()
  }

  lemma SessionDone(c: Config, s: State, h: nat, total: nat, o: Outcome)
    requires AtRest(c, s) && Reading(c, Opened(s, h), h) && Served(c, Opened(s, h), h, total, o) && !GoesOn(o)
    ensures |o.state.sessions| == 1 && Completed(c, s, h, Settled(o).state, o.out)
  {
    hide Clean, Concat, Starts, Linked, NextBoundary, LooseHeaders, Begun, OnLoose, Retire, Over, Onward, Served,
         Finishing, InSession, Spare, CallDelivers, Marked, StoppedInView;
    ServedEnds(c, Opened(s, h), h, total, o);
    FinishingEnds(c, o.state, h);
    OpenedSpare(s, h);
    OnwardSame(Opened(s, h), o.state, Begun(s), Settled(o).state);
  }

  /** What the last call of a session leaves. */
  lemma ServedEnds(c: Config, s: State, h: nat, total: nat, o: Outcome)
    requires Reading(c, s, h) && s.sessions[0].phase == Streaming && Served(c, s, h, total, o) && !GoesOn(o)
    ensures var r := o.state;
            && Finishing(c, r, h) && |r.sessions| == 1 && r.cursor.On? && Sound(c, r) && Onward(s, r)
            && Pending(s) == MediaBytes(o.out) + Pending(r)
            && StartsAhead(s) == StartsAhead(r) + (if AtHeader(r) then 1 else 0)
            && (BoundariesAhead(s.view) ==> BoundariesAhead(r.view) && (AtHeader(r) ==> r.cursor.item.baseStart))
            && LooseHeaders(r.view.items) <= Spare(s, 0)
            && (AtHeader(r) ==> r.view.Holds(r.cursor.index) && r.cursor.index + 1 == r.view.current)
            && r.view.tail == s.view.tail && r.view.Head() == s.view.Head()
  {
    hide Clean, Concat, Starts, Linked, LooseHeaders, OnLoose, Onward, BoundariesAhead;
  }

  lemma OnwardSame(s: State, r: State, t: State, u: State)
    requires Onward(s, r) && t.view == s.view && t.cursor == s.cursor && u.view == r.view && u.cursor == r.cursor
    ensures Onward(t, u)
  {
  }

  lemma OpenedSpare(s: State, h: nat)
    requires s.view.Ok() && (s.cursor.Idle? ==> NextBoundary(s.view, s.view.current) < s.view.Head())
    ensures Spare(Opened(s, h), 0) == LooseHeaders(Begun(s).view.items) - (if OnLoose(Begun(s)) then 1 else 0)
  {
    hide NextBoundary, LooseHeaders;
  }

  /** One session, whatever the sizes of its reads: it sends what is pending up to the next stream start
      or the end, and is over there. */
  method SendSession(c: Config, s: State, h: nat, rooms: nat -> nat, before: nat, header: Bytes)
      returns (r: State, out: seq<Chunk>, calls: nat)
    requires AtRest(c, s) && Clean(s) && !Drained(s) && forall i :: rooms(i) > 0
    requires c.absoluteTimes || s.timed
    ensures Completed(c, s, h, r, out) && calls > before
  {
    hide Fill, Read, Clean, NextBoundary, Spare, Drained, Served, Opened, CallDelivers, Completed, Settled, Linked,
         InSession, Pending;
    ghost var s1 := Opened(s, h);
    FirstReadIsFill(c, s, h, rooms(before), s.view.tail, header);
    FillServes(c, s1, h, rooms(before));
    var o := Read(c, Connect(s, h), h, rooms(before), s.view.tail, header);
    ghost var f := Fill(c, s1, 0, rooms(before));
    calls := before + 1;
    ghost var total: nat := rooms(before);
    r, out := o.state, o.out;
    SettledIs(f);
    ServedReads(c, s1, h, total, f);
    while |r.sessions| == 1 && o.status == Success
      invariant calls > before && Served(c, s1, h, total, f) && |f.state.sessions| == 1
      invariant Settled(f) == Outcome(r, out, o.status) && f.out == out && f.status == o.status
      invariant GoesOn(f) <==> |r.sessions| == 1 && o.status == Success
      invariant GoesOn(f) ==> r == f.state && Reading(c, r, h)
      decreases ToGo(c, f)
    {
      ReadIsFill(c, r, h, rooms(calls), r.view.tail, header);
      FillServes(c, r, h, rooms(calls));
      o := Read(c, r, h, rooms(calls), r.view.tail, header);
      ghost var g := Fill(c, r, 0, rooms(calls));
      SettledIs(g);
      ServedReads(c, r, h, rooms(calls), g);
      ServedTwice(c, s1, h, total, f, rooms(calls), g);
      f := Outcome(g.state, out + g.out, g.status);
      SettledIs(f);
      r, out, total, calls := o.state, out + o.out, total + rooms(calls), calls + 1;
    }
    SessionDone(c, s, h, total, f);
  }

  /** What is left to send while the session goes on. */
  ghost function ToGo(c: Config, o: Outcome): nat {
    if GoesOn(o) && Sound(c, o.state) && InSession(c, o.state, 0) then 1 + Left(c, o.state, 0) else 0
  }

  lemma SettledIs(o: Outcome)
    requires |o.state.sessions| == 1
    ensures Settled(o).out == o.out && Settled(o).status == o.status && Settled(o) == Outcome(Settled(o).state, o.out, o.status)
    ensures Settled(o).state == Retire(o.state, 0)
    ensures GoesOn(o) ==> Settled(o).state == o.state
    ensures GoesOn(o) <==> |Settled(o).state.sessions| == 1 && o.status == Success
  {
    assert |Without(o.state.sessions, 0)| == 0;
  }
}

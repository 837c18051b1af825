/** One timecode base per upload session. A generator reset opens a new base; a session must end
    before the first item of another base, which its base-boundary marker makes it do. */
module TimecodeBases {
  import opened ViewItems
  import opened ContentView
  import opened Upload
  import opened Recovery

  // ---------------------------------------------------------------- the marker invariant

  /** Bases grow along the view, and exactly the first item of a base is marked. */
  predicate Follows(a: Item, b: Item) { a.base <= b.base && (a.base < b.base <==> b.baseStart) }

  ghost predicate Chain(items: seq<Item>) { forall i :: 0 < i < |items| ==> Follows(items[i - 1], items[i]) }

  /** Going on from the item, the next one is of the same base or stops the session. */
  predicate LinkTo(item: Item, v: View, base: nat)
    requires v.Ok()
  {
    if v.current < v.Head() then
      item.base <= v.At(v.current).base && (item.base < v.At(v.current).base ==> v.At(v.current).streamStart)
    else item.base == base
  }

  predicate Link(s: State)
    requires s.view.Ok()
  {
    s.cursor.On? ==> LinkTo(s.cursor.item, s.view, s.generator.base)
  }

  predicate Tip(v: View, base: nat) { v.items != [] ==> v.items[|v.items| - 1].base == base }

  ghost predicate Based(s: State)
    requires s.view.Ok()
  {
    Clean(s) && Chain(s.view.items) && Tip(s.view, s.generator.base) && Link(s)
  }

  /** Changing flags other than the marker keeps the chain. */
  lemma ChainPut(v: View, i: nat, item: Item)
    requires Chain(v.items) && v.Holds(i) && item.base == v.At(i).base && item.baseStart == v.At(i).baseStart
    ensures Chain(v.Put(i, item).items)
  {
  }

  lemma StripKeepsBase(i: Item)
    ensures StripHeader(i).base == i.base && StripHeader(i).baseStart == i.baseStart
  {
  }

  lemma StripCursorBased(s: State)
    requires s.view.Ok() && Linked(s.view, s.cursor) && Based(s)
    ensures Based(StripCursor(s)) && (s.cursor.On? ==> StripCursor(s).cursor.item.base == s.cursor.item.base)
  {
    hide CleanView, CleanCursor, StripHeader;
    StripCursorClean(s);
    if s.cursor.On? && s.cursor.item.streamStart && !s.cursor.item.baseStart && s.view.Holds(s.cursor.index) {
      StripKeepsBase(s.view.At(s.cursor.index));
      ChainPut(s.view, s.cursor.index, StripHeader(s.view.At(s.cursor.index)));
    }
  }

  /** A base boundary is a stream start. */
  lemma BoundaryStarts(v: View, i: nat)
    requires CleanView(v) && v.Holds(i)
    ensures v.At(i).baseStart ==> v.At(i).streamStart
  {
  }

  lemma TakeBased(s: State, n: nat)
    requires s.view.Ok() && s.view.Holds(n) && Clean(s) && Chain(s.view.items) && Tip(s.view, s.generator.base)
    ensures Based(Take(s, n)) && Take(s, n).cursor.item.base == s.view.At(n).base
  {
    hide CleanView, CleanCursor;
    TakeClean(s, n);
    ChainPut(s.view, n, s.view.At(n).(received := false));
    if n + 1 < s.view.Head() {
      assert Follows(s.view.items[n - s.view.tail], s.view.items[n + 1 - s.view.tail]);
      BoundaryStarts(s.view, n + 1);
    }
  }

  // ---------------------------------------------------------------- the send loop stays in a base

  lemma FirstBased(c: Config, s: State)
    requires Sound(c, s) && Based(s) && s.cursor.Idle?
    ensures Based(SendFirst(c, s).state)
  {
    var n := NextBoundary(s.view, s.view.current);
    if n < s.view.Head() {
      TakeBased(s, n);
    }
  }

  /** Going on from a spent item stays in its base or ends the session. */
  lemma NextBased(c: Config, s: State, k: nat)
    requires k < |s.sessions| && Sound(c, s) && Based(s) && s.cursor.Spent()
    ensures var p := SendNext(c, s, k);
            && Based(p.state) && p.state.cursor.On?
            && (p.Next? ==> SendingEos(p.state, k) || p.state.cursor.item.base == s.cursor.item.base)
  {
    StripCursorBased(s);
    var s' := StripCursor(s);
    var v := s'.view;
    assert v.current < v.Head() ==> !v.At(v.current).skip;
    assert NextIndex(v, v.current) == v.current;
    hide StripCursor;
    hide NextIndex;
    if v.current < v.Head() {
      TakeBased(s', v.current);
    }
  }

  /** A pass stays in the base it is in, or ends the session. */
  lemma PassBased(c: Config, s: State, k: nat, room: nat)
    requires k < |s.sessions| && Sound(c, s) && Based(s) && room > 0
    ensures var p := OnePass(c, s, k, room);
            && Based(p.state)
            && (p.Next? && p.out != [] && p.out[0].Media? ==> s.cursor.On? && p.out[0].base == s.cursor.item.base)
            && (s.cursor.On? && p.Next? ==>
                  SendingEos(p.state, k) || (p.state.cursor.On? && p.state.cursor.item.base == s.cursor.item.base))
  {
    if SendingEos(s, k) {
    } else if s.cursor.Idle? {
      FirstBased(c, s);
    } else if s.cursor.Spent() {
      NextBased(c, s, k);
    }
  }

  /** The base the media of a session is in: the one it had, or that of the first chunk. */
  function Carried(b: Option<nat>, out: seq<Chunk>): Option<nat> {
    if b.Some? || out == [] then b
    else if out[0].Media? then Some(out[0].base)
    else Carried(b, out[1..])
  }

  ghost predicate OneBase(b: Option<nat>, out: seq<Chunk>) {
    forall i :: 0 <= i < |out| && out[i].Media? ==> Carried(b, out) == Some(out[i].base)
  }

  lemma CarriedConcat(b: Option<nat>, out: seq<Chunk>, rest: seq<Chunk>)
    requires |out| <= 1 && OneBase(b, out) && OneBase(Carried(b, out), rest)
    ensures OneBase(b, out + rest) && Carried(b, out + rest) == Carried(Carried(b, out), rest)
  {
    var all := out + rest;
    if out == [] {
      assert all == rest;
    } else {
      assert all[1..] == rest && out[1..] == [] && all[0] == out[0];
      assert Carried(b, all) == Carried(Carried(b, out), rest);
      forall i | 0 <= i < |all| && all[i].Media?
        ensures Carried(b, all) == Some(all[i].base)
      {
        assert i > 0 ==> all[i] == rest[i - 1];
      }
    }
  }

  /** What a session in the middle of its base promises about its next media. */
  predicate Holding(s: State, k: nat, b: Option<nat>)
    requires k < |s.sessions|
  {
    SendingEos(s, k) || (b.Some? ==> s.cursor.On? && s.cursor.item.base == b.value)
  }

  /** All media one call sends is in one base, the session's own if it has one. */
  lemma {:induction false} FillOneBase(c: Config, s: State, k: nat, room: nat, b: Option<nat>)
    requires k < |s.sessions| && Sound(c, s) && Based(s) && Holding(s, k, b)
    ensures var r := Fill(c, s, k, room);
            && Based(r.state) && OneBase(b, r.out)
            && (r.state.sessions[k].phase in {Streaming, Terminating} ==> Holding(r.state, k, Carried(b, r.out)))
    decreases room, s.view.Head() - s.view.current, if SendingEos(s, k) then 0 else 1
  {
    hide OnePass;
    if room > 0 {
      PassBased(c, s, k, room);
      var p := OnePass(c, s, k, room);
      if p.Next? {
        var b' := Carried(b, p.out);
        PassHolds(c, s, k, room, b);
        FillOneBase(c, p.state, k, room - p.used, b');
        CarriedConcat(b, p.out, Fill(c, p.state, k, room - p.used).out);
      } else {
        DoneHolds(c, s, k, room, b);
      }
    }
  }

  lemma PassHolds(c: Config, s: State, k: nat, room: nat, b: Option<nat>)
    requires k < |s.sessions| && Sound(c, s) && Based(s) && Holding(s, k, b) && room > 0 && OnePass(c, s, k, room).Next?
    ensures var p := OnePass(c, s, k, room);
            OneBase(b, p.out) && Holding(p.state, k, Carried(b, p.out))
  {
    PassBased(c, s, k, room);
    var p := OnePass(c, s, k, room);
    assert p.out != [] ==> p.out[1..] == [];
  }

  lemma DoneHolds(c: Config, s: State, k: nat, room: nat, b: Option<nat>)
    requires k < |s.sessions| && Sound(c, s) && Based(s) && Holding(s, k, b) && room > 0 && OnePass(c, s, k, room).Done?
    ensures var p := OnePass(c, s, k, room);
            p.state.sessions[k].phase in {Streaming, Terminating} ==> Holding(p.state, k, b)
  {
  }

  // ---------------------------------------------------------------- eviction and the marker

  /** Some item after i, up to j, opens a base. */
  predicate Crosses(items: seq<Item>, i: int, j: int)
    requires -1 <= i && j < |items|
  {
    exists k :: i < k <= j && items[k].baseStart
  }

  /** Along a chain the base changes between two items exactly when a marker lies between. */
  lemma {:induction false} ChainCrosses(items: seq<Item>, i: nat, j: nat)
    requires Chain(items) && i <= j < |items|
    ensures items[i].base <= items[j].base && (items[i].base < items[j].base <==> Crosses(items, i, j))
    decreases j - i
  {
    if i < j {
      ChainCrosses(items, i, j - 1);
      assert Follows(items[j - 1], items[j]);
      assert Crosses(items, i, j) <==> Crosses(items, i, j - 1) || items[j].baseStart;
    }
  }

  lemma ChainSuffix(items: seq<Item>, n: nat)
    requires Chain(items) && n <= |items|
    ensures Chain(items[n..])
  {
  }

  lemma ChainCons(a: Item, rest: seq<Item>)
    requires Chain(rest)
    ensures Chain([a] + rest) <==> (rest != [] ==> Follows(a, rest[0]))
  {
    var all := [a] + rest;
    forall i | 1 < i < |all|
      ensures Follows(all[i - 1], all[i])
    {
      assert Follows(rest[i - 2], rest[i - 1]);
    }
    assert rest != [] ==> all[0] == a && all[1] == rest[0];
    assert Chain(all) && rest != [] ==> Follows(all[0], all[1]);
  }

  /** A stored frame always continues the chain of the view as it was. */
  lemma ItemContinues(s: State, f: Frame, p: Packaged)
    requires s.view.Ok() && Chain(s.view.items) && Tip(s.view, s.generator.base) && !Ignored(s, f)
    ensures Chain(Append(s.view, ItemOf(s, f, p)).items)
  {
  }

  /** The eviction that storing an item makes keeps the item being sent, and removes a base
      boundary behind it without another one coming next. */
  predicate StrandsBase(v: View, item: Item, l: Limits)
    requires v.Ok()
  {
    && !Available(v, l) && !NothingToEvict(v, l.policy) && StreamingInside(v)
    && var n := Passed(v, l.policy);
       && v.current <= v.tail + n
       && Crosses(v.items, v.current - 1 - v.tail, n - 1)
       && !Append(v, item).items[n].baseStart
  }

  /** Storing an item keeps the markers right exactly when it does not strand a base. */
  lemma StoredChain(v: View, item: Item, l: Limits)
    requires v.Ok() && Chain(v.items) && Chain(Append(v, item).items)
    ensures Chain(Stored(v, item, l).items) <==> !StrandsBase(v, item, l)
  {
    if !Available(v, l) && !NothingToEvict(v, l.policy) {
      var n, u := Passed(v, l.policy), Append(v, item).items;
      ChainSuffix(u, n);
      if StreamingInside(v) && v.current <= v.tail + n {
        var i := v.current - 1 - v.tail;
        var kept := Retained(v.items[n - 1], v.items[i]);
        assert Stored(v, item, l).items == [kept] + u[n..];
        ChainCons(kept, u[n..]);
        KeptFollows(u, i, n);
        assert forall k :: 0 <= k < n ==> u[k] == v.items[k];
        assert Crosses(u, i, n - 1) == Crosses(v.items, i, n - 1);
      } else {
        assert Stored(v, item, l).items == u[n..];
      }
    }
  }

  /** Of a chain, item i may be put in front of item n exactly when no marker between them is lost. */
  lemma KeptFollows(u: seq<Item>, i: nat, n: nat)
    requires Chain(u) && i < n < |u|
    ensures Follows(u[i], u[n]) <==> !(Crosses(u, i, n - 1) && !u[n].baseStart)
  {
    ChainCrosses(u, i, n);
    assert Crosses(u, i, n) <==> Crosses(u, i, n - 1) || u[n].baseStart;
  }

  /** The eviction moves the pointer from the current item's base to an unmarked item of another. */
  predicate StrandsCursor(cur: Item, v: View, item: Item, l: Limits)
    requires v.Ok()
  {
    && !Available(v, l)
    && if NothingToEvict(v, l.policy) then cur.base != item.base
       else
         var t := v.tail + Passed(v, l.policy);
         var next := Append(v, item).At(t);
         v.current < t && cur.base < next.base && !next.streamStart
  }

  lemma StoredLink(cur: Item, v: View, base: nat, item: Item, l: Limits)
    requires v.Ok() && LinkTo(cur, v, base) && Chain(Append(v, item).items)
    requires item.base >= base && (item.base > base ==> item.streamStart)
    ensures LinkTo(cur, Stored(v, item, l), item.base) <==> !StrandsCursor(cur, v, item, l)
  {
    var w, u := Stored(v, item, l), Append(v, item);
    if Available(v, l) || !NothingToEvict(v, l.policy) {
      StoredSuffix(v, item, l);
      assert w.At(w.current) == u.At(w.current);
      hide Stored, Available, NothingToEvict, Passed;
      assert v.current < v.Head() ==> u.At(v.current) == v.At(v.current);
      assert v.current == v.Head() ==> u.At(v.current) == item;
      ChainCrosses(u.items, v.current - u.tail, w.current - u.tail);
    }
  }

  predicate Strands(s: State, item: Item, l: Limits)
    requires s.view.Ok()
  {
    StrandsBase(s.view, item, l) || (s.cursor.On? && StrandsCursor(s.cursor.item, s.view, item, l))
  }

  /** The put leaves a base unmarked: its eviction strands a marker, or the frame opens a base and the
      view refuses it, so that the next frame is in the new base without a mark. */
  predicate Unmarks(c: Config, s: State, f: Frame, p: Packaged)
    requires s.view.Ok()
  {
    && !Unpackaged(s, f, p)
    && if Accepts(s.view, ItemOf(s, f, p)) then Strands(s, ItemOf(s, f, p), c.limits) else StartsStream(s, f)
  }

  /** A put keeps every marker a session relies on exactly when it leaves no base unmarked. */
  lemma PutKeepsMarkers(c: Config, s: State, f: Frame, p: Packaged)
    requires Sound(c, s) && Based(s) && Enabled(s, Put(f, p))
    ensures PutFrame(c, s, f, p).view.Ok()
    ensures Based(PutFrame(c, s, f, p)) <==> !Unmarks(c, s, f, p)
  {
    hide Strands;
    var item := ItemOf(s, f, p);
    if !Unpackaged(s, f, p) && Accepts(s.view, item) {
      StoredKeepsMarkers(c, s, f, p);
    }
  }

  lemma StoredKeepsMarkers(c: Config, s: State, f: Frame, p: Packaged)
    requires Sound(c, s) && Based(s) && Enabled(s, Put(f, p))
    requires !Unpackaged(s, f, p) && Accepts(s.view, ItemOf(s, f, p))
    ensures Based(PutFrame(c, s, f, p)) <==> !Strands(s, ItemOf(s, f, p), c.limits)
  {
    var item := ItemOf(s, f, p);
    ItemOfOk(s, f, p);
    StoredClean(s.view, item, c.limits);
    ItemContinues(s, f, p);
    StoredChain(s.view, item, c.limits);
    if s.cursor.On? {
      StoredLink(s.cursor.item, s.view, s.generator.base, item, c.limits);
    }
    StoredTip(s.view, item, c.limits);
  }

  lemma StoredTip(v: View, item: Item, l: Limits)
    requires v.Ok()
    ensures Tip(Stored(v, item, l), item.base)
  {
  }

  /** Once a marker is stranded, the session that goes on carries a second base. */
  lemma StrandedSessionMixesBases(c: Config, s: State, k: nat, room: nat)
    requires k < |s.sessions| && Sound(c, s) && Clean(s) && s.sessions[k].phase == Streaming && room > 0
    requires s.cursor.Spent() && s.view.current < s.view.Head()
    requires var next := s.view.At(s.view.current); next.base != s.cursor.item.base && !next.streamStart
    ensures var r := Fill(c, s, k, room);
            FirstMedia(r.out).Some? && FirstMedia(r.out).value.base != s.cursor.item.base
  {
    hide OnePass, StripCursor;
    NextUnmarked(c, s, k, room);
    var p := OnePass(c, s, k, room);
    FillFirst(c, s, k, room);
    MediaPass(c, p.state, k, room);
    FillFirst(c, p.state, k, room);
  }

  /** With an item begun and not spent, the pass sends some of it. */
  lemma MediaPass(c: Config, s: State, k: nat, room: nat)
    requires k < |s.sessions| && Sound(c, s) && !SendingEos(s, k) && s.cursor.On? && !s.cursor.Spent() && room > 0
    ensures var p := OnePass(c, s, k, room);
            p.Next? && |p.out| == 1 && p.out[0].Media? && p.out[0].base == s.cursor.item.base
  {
  }

  /** The pass onto an item that is no stream start makes it the current one. */
  lemma NextUnmarked(c: Config, s: State, k: nat, room: nat)
    requires k < |s.sessions| && Sound(c, s) && Clean(s) && s.sessions[k].phase == Streaming && room > 0
    requires s.cursor.Spent() && s.view.current < s.view.Head() && !s.view.At(s.view.current).streamStart
    ensures var p := OnePass(c, s, k, room);
            && p.Next? && p.out == [] && p.used == 0 && p.state.sessions[k].phase == Streaming
            && p.state.cursor == On(s.view.At(s.view.current).(received := false), s.view.current, 0)
            && |p.state.cursor.item.data| > 0
  {
    var v := StripCursor(s).view;
    assert v.At(v.current) == s.view.At(s.view.current);
    assert NextIndex(v, v.current) == v.current;
  }

  // ---------------------------------------------------------------- sessions and their bases

  predicate Finished(p: Phase) { p == AwaitingAck || p == AckReceived || p == Terminated }

  predicate Live(p: Phase) { p == Streaming || p == Terminating }

  /** m records the base each handle has carried so far. A live session that has carried one goes
      on in it and owes no rollback; every session older than one that has sent is finished. */
  ghost predicate Carry(s: State, m: map<nat, nat>) {
    && (forall j, k :: 0 <= j < k < |s.sessions| ==> s.sessions[j].handle != s.sessions[k].handle)
    && (forall k :: 0 <= k < |s.sessions| && s.sessions[k].handle in m ==> CarriesOn(s, k, m[s.sessions[k].handle]))
    && (forall j, k :: 0 <= j < k < |s.sessions| && s.sessions[k].handle in m ==> Finished(s.sessions[j].phase))
  }

  predicate CarriesOn(s: State, k: nat, base: nat)
    requires k < |s.sessions|
  {
    && s.sessions[k].phase != Ready
    && (Live(s.sessions[k].phase) ==> Holding(s, k, Some(base)) && s.connection != InUse)
  }

  /** How the surroundings use the stream: sessions are read oldest first, handles are new, the
      service is told only of sessions the stream holds while one is live, and no frame or trimming
      leaves a base unmarked. */
  ghost predicate Disciplined(c: Config, s: State, m: map<nat, nat>, e: Event)
    requires Sound(c, s) && Enabled(s, e)
  {
    match e
    case Put(f, p) => !Unmarks(c, s, f, p)
    case Open(h) => h !in m
    case Get(h, _, _, _) => ServedInTurn(s.sessions, Find(s.sessions, h))
    case Drop(h, _) => Find(s.sessions, h) < |s.sessions| || NoneCarries(s, m) || Parked(s)
    case Persisted(h, ts, b) => !Overtakes(s, h, ts, b)
    case _ => true
  }

  predicate ServedInTurn(ss: seq<Session>, k: nat) {
    k < |ss| && !Finished(ss[k].phase) ==> forall j :: 0 <= j < k ==> Finished(ss[j].phase)
  }

  ghost predicate NoneCarries(s: State, m: map<nat, nat>) {
    forall k :: 0 <= k < |s.sessions| && s.sessions[k].handle in m ==> !Live(s.sessions[k].phase)
  }

  function Known(m: map<nat, nat>, h: nat): Option<nat> { if h in m then Some(m[h]) else None }

  function Learned(m: map<nat, nat>, h: nat, out: seq<Chunk>): map<nat, nat> {
    match Carried(Known(m, h), out)
    case None => m
    case Some(b) => m[h := b]
  }

  /** The send loop leaves the other sessions alone. */
  ghost predicate OnlySession(s: State, r: State, k: nat) {
    && |r.sessions| == |s.sessions|
    && forall j :: 0 <= j < |s.sessions| ==>
         && r.sessions[j].handle == s.sessions[j].handle
         && (if j == k then r.sessions[j].phase == Ready ==> s.sessions[j].phase == Ready else r.sessions[j] == s.sessions[j])
  }

  lemma {:induction false} FillOnly(c: Config, s: State, k: nat, room: nat)
    requires k < |s.sessions| && Sound(c, s)
    ensures OnlySession(s, Fill(c, s, k, room).state, k)
    decreases room, s.view.Head() - s.view.current, if SendingEos(s, k) then 0 else 1
  {
    hide Fill, OnePass, Sound;
    FillUnrolled(c, s, k, room);
    if room > 0 {
      PassOnly(c, s, k, room);
      var p := OnePass(c, s, k, room);
      if p.Next? {
        FillOnly(c, p.state, k, room - p.used);
      }
    }
  }

  lemma PassOnly(c: Config, s: State, k: nat, room: nat)
    requires k < |s.sessions| && Sound(c, s) && room > 0
    ensures OnlySession(s, OnePass(c, s, k, room).state, k)
  {
  }

  /** A session may move on to another phase, as long as a finished one stays finished and one
      that has carried a base does not come back to life. */
  lemma CarryMovesOn(s: State, m: map<nat, nat>, k: nat, u: Session)
    requires k < |s.sessions| && Carry(s, m) && u.handle == s.sessions[k].handle && u.phase != Ready
    requires Finished(s.sessions[k].phase) ==> Finished(u.phase)
    requires u.handle in m ==> !Live(u.phase) || u.phase == s.sessions[k].phase
    ensures Carry(s.(sessions := s.sessions[k := u]), m)
  {
  }

  /** The send loop of a live session served in turn: one base, and everything Carry says, for
      what the session has carried then. */
  lemma FillCarries(c: Config, s: State, k: nat, room: nat, m: map<nat, nat>)
    requires Sound(c, s) && k < |s.sessions| && Based(s) && Carry(s, m)
    requires Live(s.sessions[k].phase) && ServedInTurn(s.sessions, k)
    requires s.connection == InUse ==> Deferred(s)
    ensures var r, h := Fill(c, s, k, room), s.sessions[k].handle;
            Based(r.state) && OneBase(Known(m, h), r.out) && Carry(r.state, Learned(m, h, r.out))
  {
    hide Fill, Sound, Based, OneBase;
    var r, h := Fill(c, s, k, room), s.sessions[k].handle;
    assert h in m ==> CarriesOn(s, k, m[h]);
    FillOneBase(c, s, k, room, Known(m, h));
    FillOnly(c, s, k, room);
    if s.connection == InUse {
      FillDeferred(c, s, k, room);
    }
    var m' := Learned(m, h, r.out);
    forall j | 0 <= j < |s.sessions| && r.state.sessions[j].handle in m'
      ensures CarriesOn(r.state, j, m'[r.state.sessions[j].handle])
      ensures forall i :: 0 <= i < j ==> Finished(r.state.sessions[i].phase)
    {
      if j != k {
        assert s.sessions[j].handle in m && CarriesOn(s, j, m[s.sessions[j].handle]);
        assert j < k;
      }
    }
  }

  /** Serving a session: one base, and everything Carry says, for what it has carried then. */
  lemma ServeCarries(c: Config, s: State, k: nat, room: nat, m: map<nat, nat>)
    requires Sound(c, s) && k < |s.sessions| && Based(s) && Carry(s, m) && ServedInTurn(s.sessions, k)
    requires s.connection == InUse ==> Deferred(s)
    ensures var r, h := Serve(c, s, k, room), s.sessions[k].handle;
            Based(r.state) && OneBase(Known(m, h), r.out) && Carry(r.state, Learned(m, h, r.out))
  {
    hide Fill, CleanView, CleanCursor;
    var u := s.sessions[k];
    assert u.handle in m ==> CarriesOn(s, k, m[u.handle]);
    match u.phase
    case Ready =>
      CarryMovesOn(s, m, k, u.(phase := Streaming));
      CarryMovesOn(s, m, k, u.(phase := Terminated));
      FillCarries(c, SetPhase(s, k, Streaming).(timed := false), k, room, m);
    case Streaming => FillCarries(c, s, k, room, m);
    case Terminating => FillCarries(c, s, k, room, m);
    case _ => CarryMovesOn(s, m, k, u.(phase := Terminated));
  }

  lemma AddKeepsBase(i: Item, header: Bytes)
    ensures AddHeader(i, header).base == i.base && AddHeader(i, header).baseStart == i.baseStart
  {
  }

  lemma FixUpBased(c: Config, s: State, target: nat, header: Bytes)
    requires Sound(c, s) && s.view.tail <= target <= s.view.Head() && IsHeader(header) && Based(s)
    ensures Based(FixUp(c, s, target, header).state)
  {
    hide StripCursor, CleanView, CleanCursor, AddHeader, NextBoundary;
    StripCursorBased(s);
    FixUpClean(c, s, target, header);
    var v := StripCursor(s).view;
    var b := NextBoundary(v, target);
    if b < v.Head() {
      AddKeepsBase(v.At(b), header);
      ChainPut(v, b, AddHeader(v.At(b), header));
    }
  }

  /** Settling a debt disturbs no session that has carried a base: none is live. */
  lemma ResumeCarries(c: Config, s: State, target: nat, header: Bytes, m: map<nat, nat>)
    requires Sound(c, s) && s.view.tail <= target <= s.view.Head() && IsHeader(header) && Based(s) && Carry(s, m)
    ensures var r := Resume(c, s, target, header);
            Based(r) && Carry(r, m) && (r.connection == InUse ==> Deferred(r))
  {
    var r := Resume(c, s, target, header);
    if s.connection == InUse {
      FixUpBased(c, s, target, header);
      FixUpStages(c, s, target, header);
    }
    forall k | 0 <= k < |r.sessions| && r.sessions[k].handle in m
      ensures CarriesOn(r, k, m[r.sessions[k].handle])
    {
      assert CarriesOn(s, k, m[s.sessions[k].handle]);
    }
  }

  lemma HandCarries(c: Config, s: State, k: nat, m: map<nat, nat>)
    requires k < |s.sessions| && Carry(s, m)
    ensures Carry(Hand(c, s, k), m)
  {
  }

  lemma CarryWithout(s: State, k: nat, m: map<nat, nat>)
    requires k < |s.sessions| && Carry(s, m)
    ensures Carry(s.(sessions := Without(s.sessions, k)), m)
  {
  }

  /** With every session terminated nothing is carried on. */
  lemma ResetCarries(s: State, m: map<nat, nat>, alive: bool)
    requires Carry(s, m)
    ensures Carry(Terminate(s, None, alive), m)
  {
  }

  lemma RetireCarries(s: State, k: nat, m: map<nat, nat>)
    requires k < |s.sessions| && Carry(s, m)
    ensures Carry(Retire(s, k), m)
  {
    CarryWithout(s, k, m);
    ResetCarries(s.(sessions := Without(s.sessions, k)), m, true);
  }

  lemma ReadCarries(c: Config, s: State, h: nat, room: nat, target: nat, header: Bytes, m: map<nat, nat>)
    requires Sound(c, s) && s.view.tail <= target <= s.view.Head() && IsHeader(header) && Based(s) && Carry(s, m)
    requires ServedInTurn(s.sessions, Find(s.sessions, h))
    ensures var r := Read(c, s, h, room, target, header);
            Based(r.state) && OneBase(Known(m, h), r.out) && Carry(r.state, Learned(m, h, r.out))
  {
    ResumeCarries(c, s, target, header, m);
    var s1 := Resume(c, s, target, header);
    var k := Find(s1.sessions, h);
    if k < |s1.sessions| {
      ServeCarries(c, s1, k, room, m);
      var r := Serve(c, s1, k, room);
      hide Serve, Resume;
      var m' := Learned(m, h, r.out);
      HandCarries(c, r.state, k, m');
      RetireCarries(Hand(c, r.state, k), k, m');
    }
  }

  /** Ending the connection of a handle the stream does not know arms a rollback under whatever session
      is live; that is the only drop that disturbs a session, unless the pointer is parked. */
  lemma DropCarries(s: State, h: nat, alive: bool, m: map<nat, nat>)
    requires Carry(s, m)
    ensures Carry(Terminate(s, Some(h), alive), m) <==> Find(s.sessions, h) < |s.sessions| || NoneCarries(s, m) || Parked(s)
  {
    var k, r := Find(s.sessions, h), Terminate(s, Some(h), alive);
    if k < |s.sessions| || NoneCarries(s, m) || Parked(s) {
      DropKeepsCarry(s, h, alive, m);
    } else {
      assert r.sessions == s.sessions && r.connection == InUse;
      var j :| 0 <= j < |s.sessions| && s.sessions[j].handle in m && Live(s.sessions[j].phase);
      assert !CarriesOn(r, j, m[s.sessions[j].handle]);
    }
  }

  lemma DropKeepsCarry(s: State, h: nat, alive: bool, m: map<nat, nat>)
    requires Carry(s, m) && (Find(s.sessions, h) < |s.sessions| || NoneCarries(s, m) || Parked(s))
    ensures Carry(Terminate(s, Some(h), alive), m)
  {
    var k, r := Find(s.sessions, h), Terminate(s, Some(h), alive);
    if k < |s.sessions| {
      var s' := s.(sessions := s.sessions[k := s.sessions[k].(phase := Terminated)]);
      CarryMovesOn(s, m, k, s.sessions[k].(phase := Terminated));
      CarryWithout(s', k, m);
    }
    forall j | 0 <= j < |r.sessions| && r.sessions[j].handle in m
      ensures CarriesOn(r, j, m[r.sessions[j].handle])
    {
      DropKeeps(s, h, alive, j);
      var i := if k < |s.sessions| && !alive && j >= k then j + 1 else j;
      assert CarriesOn(s, i, m[s.sessions[i].handle]);
    }
  }

  /** Whatever session is at place j after the drop was there before, and when it is live the drop
      arms a rollback only if the handle was unknown or one was armed already. */
  lemma DropKeeps(s: State, h: nat, alive: bool, j: nat)
    requires j < |Terminate(s, Some(h), alive).sessions|
    ensures var r, k := Terminate(s, Some(h), alive), Find(s.sessions, h);
            var i := if k < |s.sessions| && !alive && j >= k then j + 1 else j;
            && i < |s.sessions|
            && (if i == k then r.sessions[j] == s.sessions[i].(phase := Terminated) else r.sessions[j] == s.sessions[i])
            && (Live(r.sessions[j].phase) && r.connection == InUse ==> s.connection == InUse || (k == |s.sessions| && !Parked(s)))
  {
    var k := Find(s.sessions, h);
    if k < |s.sessions| {
      var ss := s.sessions[k := s.sessions[k].(phase := Terminated)];
      var i := if !alive && j >= k then j + 1 else j;
      assert Live(ss[i].phase) ==> Active(ss);
    }
  }

  /** Steps that leave cursor, connection, tracker and the sessions' phases alone. */
  lemma CarrySame(s: State, r: State, m: map<nat, nat>)
    requires Carry(s, m) && r.sessions == s.sessions && r.cursor == s.cursor && r.connection == s.connection && r.eos == s.eos
    ensures Carry(r, m)
  {
  }

  lemma ConnectCarries(s: State, h: nat, m: map<nat, nat>)
    requires Carry(s, m) && forall j :: 0 <= j < |s.sessions| ==> s.sessions[j].handle != h
    ensures Carry(Connect(s, h), m) <==> h !in m
  {
    var r := Connect(s, h);
    if h in m {
      assert !CarriesOn(r, |s.sessions|, m[h]);
    } else {
      forall k | 0 <= k < |r.sessions| && r.sessions[k].handle in m
        ensures CarriesOn(r, k, m[r.sessions[k].handle])
      {
        assert CarriesOn(s, k, m[s.sessions[k].handle]);
      }
    }
  }

  /** A persisted acknowledgement that trims past the pointer takes the current item's base from under
      it: what comes next is in another base and unmarked. */
  predicate Overtakes(s: State, h: nat, ts: nat, b: nat)
    requires s.view.Ok() && s.view.tail <= b <= s.view.Head()
  {
    && Trims(s, h, ts) && s.cursor.On?
    && !LinkTo(s.cursor.item, TrimUpTo(s.view, b), s.generator.base)
  }

  lemma TrimBased(v: View, b: nat, base: nat)
    requires v.Ok() && v.tail <= b <= v.Head() && CleanView(v) && Chain(v.items) && Tip(v, base)
    ensures var w := TrimUpTo(v, b); CleanView(w) && Chain(w.items) && Tip(w, base)
  {
    hide Item.Ok, Follows;
    var w := TrimUpTo(v, b);
    ChainSuffix(v.items, w.tail - v.tail);
  }

  /** Markers are kept exactly when the current item is not cut off from what comes next; that can
      only happen when the trimming overtakes the pointer. */
  lemma PersistedBased(s: State, h: nat, ts: nat, b: nat)
    requires s.view.Ok() && s.view.tail <= b <= s.view.Head() && Based(s)
    ensures Based(PersistedAck(s, h, ts, b)) <==> !Overtakes(s, h, ts, b)
    ensures Overtakes(s, h, ts, b) ==> s.view.current < TrimUpTo(s.view, b).current
  {
    hide PersistedAck, CleanView, CleanCursor, Chain, Tip;
    TrimBased(s.view, b, s.generator.base);
  }

  lemma PersistedCarries(s: State, h: nat, ts: nat, b: nat, m: map<nat, nat>)
    requires s.view.Ok() && s.view.tail <= b <= s.view.Head() && Carry(s, m)
    ensures Carry(PersistedAck(s, h, ts, b), m)
  {
    hide PersistedAck, Acknowledged, Trims, TrimUpTo;
    var r := PersistedAck(s, h, ts, b);
    forall j | 0 <= j < |r.sessions| && r.sessions[j].handle in m
      ensures CarriesOn(r, j, m[r.sessions[j].handle])
    {
      assert CarriesOn(s, j, m[s.sessions[j].handle]);
    }
  }

  lemma ReceivedBased(s: State, i: nat)
    requires s.view.Ok() && Based(s)
    ensures Based(ReceivedAck(s, i))
  {
    hide Item.Ok;
    if s.view.Holds(i) {
      UnacknowledgedOk(s.view.At(i), true);
      PutClean(s.view, i, s.view.At(i).(received := true));
      ChainPut(s.view, i, s.view.At(i).(received := true));
    }
  }

  /** What an event makes known of the bases carried. */
  function LearnedFrom(c: Config, s: State, m: map<nat, nat>, e: Event): map<nat, nat>
    requires Sound(c, s) && Enabled(s, e)
  {
    if e.Get? then Learned(m, e.handle, Step(c, s, e).out) else m
  }

  /** Every disciplined call keeps each live session in the base it has carried; of the calls other
      than reads no other does. */
  lemma StepCarries(c: Config, s: State, m: map<nat, nat>, e: Event)
    requires Sound(c, s) && Enabled(s, e) && Based(s) && Carry(s, m)
    ensures Sound(c, Step(c, s, e).state)
    ensures Disciplined(c, s, m, e) ==>
              var r := Step(c, s, e).state; Based(r) && Carry(r, LearnedFrom(c, s, m, e))
    ensures !e.Get? && !Disciplined(c, s, m, e) ==>
              var r := Step(c, s, e).state; !(Based(r) && Carry(r, m))
    ensures Disciplined(c, s, m, e) && e.Get? ==> OneBase(Known(m, e.handle), Step(c, s, e).out)
    ensures !e.Get? ==> Step(c, s, e).out == []
  {
    StepSound(c, s, e);
    if e.Get? {
      if Disciplined(c, s, m, e) {
        ReadCarries(c, s, e.handle, e.room, e.target, e.header, m);
      }
    } else {
      CallCarries(c, s, m, e);
    }
  }

  lemma CallCarries(c: Config, s: State, m: map<nat, nat>, e: Event)
    requires Sound(c, s) && Enabled(s, e) && Based(s) && Carry(s, m) && !e.Get? && Sound(c, Step(c, s, e).state)
    ensures var r := Step(c, s, e).state; Based(r) && Carry(r, m) <==> Disciplined(c, s, m, e)
  {
    hide Based, Carry, Unmarks, NoneCarries, PutFrame, PersistedAck, Overtakes, Read, Linked;
    match e
    case Put(f, p) =>
      PutKeepsMarkers(c, s, f, p);
      PutOnlyStores(c, s, f, p);
      CarrySame(s, PutFrame(c, s, f, p), m);
    case Open(h) =>
      ConnectCarries(s, h, m);
      BasedSame(s, Connect(s, h));
    case Drop(h, alive) =>
      DropCarries(s, h, alive, m);
      BasedSame(s, Terminate(s, Some(h), alive));
    case Reset =>
      ResetCarries(s, m, true);
      BasedSame(s, Terminate(s, None, true));
    case Stop =>
      CarrySame(s, s.(stopped := true), m);
      BasedSame(s, s.(stopped := true));
    case Received(i) =>
      ReceivedBased(s, i);
      CarrySame(s, ReceivedAck(s, i), m);
    case Persisted(h, ts, b) =>
      PersistedBased(s, h, ts, b);
      PersistedCarries(s, h, ts, b, m);
  }

  lemma PutOnlyStores(c: Config, s: State, f: Frame, p: Packaged)
    requires s.view.Ok()
    ensures var r := PutFrame(c, s, f, p);
            r.sessions == s.sessions && r.cursor == s.cursor && r.connection == s.connection && r.eos == s.eos
  {
  }

  lemma BasedSame(s: State, r: State)
    requires s.view.Ok() && r.view == s.view && r.cursor == s.cursor && r.generator == s.generator
    ensures Based(r) == Based(s)
  {
  }

  // ---------------------------------------------------------------- whole runs

  /** Every event of the run is disciplined, given what the run has carried before it. */
  ghost predicate DisciplinedRun(c: Config, s: State, m: map<nat, nat>, es: seq<Event>)
    requires Sound(c, s) && Feasible(c, s, es)
    decreases |es|
  {
    es == [] ||
    (StepSound(c, s, es[0]);
     && Disciplined(c, s, m, es[0])
     && DisciplinedRun(c, Step(c, s, es[0]).state, LearnedFrom(c, s, m, es[0]), es[1..]))
  }

  predicate SameSession(a: Sent, b: Sent) { a.chunk.Media? && b.chunk.Media? && a.handle == b.handle }

  /** The log agrees with m on every handle m knows, and with itself on all others. */
  ghost predicate LogInBases(log: seq<Sent>, m: map<nat, nat>) { Agrees(log, m) && OneBaseEach(log) }

  ghost predicate Agrees(log: seq<Sent>, m: map<nat, nat>) {
    forall i :: 0 <= i < |log| && log[i].chunk.Media? && log[i].handle in m ==> log[i].chunk.base == m[log[i].handle]
  }

  ghost predicate OneBaseEach(log: seq<Sent>) {
    forall i, j :: 0 <= i < |log| && 0 <= j < |log| && SameSession(log[i], log[j]) ==> log[i].chunk.base == log[j].chunk.base
  }

  lemma LogStep(h: nat, out: seq<Chunk>, rest: seq<Sent>, m: map<nat, nat>)
    requires OneBase(Known(m, h), out) && LogInBases(rest, Learned(m, h, out))
    ensures LogInBases(Tagged(h, out) + rest, m)
  {
    var log, m', n := Tagged(h, out) + rest, Learned(m, h, out), |out|;
    forall i | 0 <= i < |log| && log[i].chunk.Media?
      ensures i < n ==> log[i].handle == h && h in m' && log[i].chunk.base == m'[h]
      ensures log[i].handle in m' ==> log[i].chunk.base == m'[log[i].handle]
    {
      assert i >= n ==> log[i] == rest[i - n];
      assert i < n ==> log[i] == Sent(h, out[i]);
    }
    forall i, j | 0 <= i < |log| && 0 <= j < |log| && SameSession(log[i], log[j])
      ensures log[i].chunk.base == log[j].chunk.base
    {
      assert i >= n ==> log[i] == rest[i - n];
      assert j >= n ==> log[j] == rest[j - n];
    }
    assert forall x :: x in m ==> x in m' && m'[x] == m[x];
  }

  /** The chunks of one call agree with what is known exactly when they are in one base. */
  lemma LogUnstep(h: nat, out: seq<Chunk>, rest: seq<Sent>, m: map<nat, nat>)
    requires LogInBases(Tagged(h, out) + rest, m)
    ensures OneBase(Known(m, h), out) && LogInBases(rest, Learned(m, h, out))
  {
    var log, m', n := Tagged(h, out) + rest, Learned(m, h, out), |out|;
    assert forall i :: 0 <= i < n ==> log[i] == Sent(h, out[i]);
    assert forall i :: 0 <= i < |rest| ==> log[n + i] == rest[i];
    CarriedIs(Known(m, h), out);
    assert OneBase(Known(m, h), out) by {
      forall i | 0 <= i < n && out[i].Media?
        ensures Carried(Known(m, h), out) == Some(out[i].base)
      {
        assert SameSession(log[i], log[i]);
      }
    }
    forall i | 0 <= i < |rest| && rest[i].chunk.Media? && rest[i].handle in m'
      ensures rest[i].chunk.base == m'[rest[i].handle]
    {
      assert log[n + i] == rest[i];
      if rest[i].handle == h && h !in m {
        var k :| 0 <= k < n && out[k].Media?;
        assert SameSession(log[k], log[n + i]);
      }
    }
    forall i, j | 0 <= i < |rest| && 0 <= j < |rest| && SameSession(rest[i], rest[j])
      ensures rest[i].chunk.base == rest[j].chunk.base
    {
      assert SameSession(log[n + i], log[n + j]);
    }
  }

  /** What is carried is what was known, or the base of some chunk; with no media it is what was known. */
  lemma {:induction false} CarriedIs(b: Option<nat>, out: seq<Chunk>)
    ensures b.Some? ==> Carried(b, out) == b
    ensures b.None? && Carried(b, out).Some? ==> exists k :: 0 <= k < |out| && out[k].Media? && Carried(b, out) == Some(out[k].base)
    ensures b.None? && Carried(b, out).None? ==> forall k :: 0 <= k < |out| ==> !out[k].Media?
  {
    if b.None? && out != [] && !out[0].Media? {
      CarriedIs(b, out[1..]);
      var rest := out[1..];
      if Carried(b, rest).Some? {
        var k :| 0 <= k < |rest| && rest[k].Media? && Carried(b, rest) == Some(rest[k].base);
        assert out[k + 1] == rest[k];
      } else {
        assert forall k :: 0 < k < |out| ==> out[k] == rest[k - 1];
      }
    }
  }

  /** A call that sends nothing teaches nothing. */
  lemma NothingLearned(m: map<nat, nat>, h: nat)
    ensures Learned(m, h, []) == m
  {
    assert h in m ==> m[h := m[h]] == m;
  }

  lemma {:induction false} RunInBases(c: Config, s: State, m: map<nat, nat>, es: seq<Event>)
    requires Sound(c, s) && Feasible(c, s, es) && Based(s) && Carry(s, m) && DisciplinedRun(c, s, m, es)
    ensures LogInBases(Log(c, s, es), m)
    decreases |es|
  {
    hide Step, Sound, Based, Carry, Disciplined, LogInBases, Learned;
    if es == [] {
      EmptyLog(m);
    } else {
      var e := es[0];
      StepSound(c, s, e);
      StepCarries(c, s, m, e);
      var r, h := Step(c, s, e), if e.Get? then e.handle else 0;
      RunInBases(c, r.state, LearnedFrom(c, s, m, e), es[1..]);
      NothingLearned(m, h);
      LogStep(h, r.out, Log(c, r.state, es[1..]), m);
    }
  }

  lemma EmptyLog(m: map<nat, nat>)
    ensures LogInBases([], m)
  {
  }

  /** In every disciplined run from the start, all media one upload session carries is in one
      timecode base. */
  lemma OneBasePerSession(c: Config, es: seq<Event>)
    requires Feasible(c, INITIAL, es) && DisciplinedRun(c, INITIAL, map[], es)
    ensures OneBaseEach(Log(c, INITIAL, es))
  {
    RunInBases(c, INITIAL, map[], es);
  }
}

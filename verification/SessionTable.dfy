/** The table of consumer sessions and the instrumented allocator behind their buffers. */
module SessionTable {
  import opened Arithmetic
  import opened ViewItems

  // ---------------------------------------------------------------- the allocator

  /** The running total of allocated bytes, and the size header of every live block. */
  datatype Memory = Memory(total: nat, blocks: map<nat, nat>)

  ghost function Sum(m: map<nat, nat>): nat {
    if m == map[] then 0 else var k :| k in m; m[k] + Sum(m - {k})
  }

  lemma {:induction false} SumWithout(m: map<nat, nat>, k: nat)
    requires k in m
    ensures Sum(m) == m[k] + Sum(m - {k})
    decreases |m|
  {
    var k0 :| k0 in m && Sum(m) == m[k0] + Sum(m - {k0});
    if k != k0 {
      SumWithout(m - {k0}, k);
      SumWithout(m - {k}, k0);
      assert (m - {k0}) - {k} == (m - {k}) - {k0};
    }
  }

  /** The total is the sum of the live blocks, in the 64 bits it has. */
  ghost predicate Tracked(m: Memory) { m.total == Wrap64(Sum(m.blocks)) }

  function Alloc(m: Memory, p: nat, size: nat): Memory
    requires p !in m.blocks
  {
    Memory(Wrap64(m.total + size), m.blocks[p := size])
  }

  /** The product of a counted allocation is computed in 64 bits too. */
  function Calloc(m: Memory, p: nat, num: nat, size: nat): Memory
    requires p !in m.blocks
  {
    Alloc(m, p, Wrap64(num * size))
  }

  function Free(m: Memory, p: nat): Memory
    requires p in m.blocks
  {
    Memory(Wrap64(m.total - m.blocks[p]), m.blocks - {p})
  }

  lemma AllocTracked(m: Memory, p: nat, size: nat)
    requires Tracked(m) && p !in m.blocks
    ensures Tracked(Alloc(m, p, size))
  {
    var b := m.blocks[p := size];
    SumWithout(b, p);
    assert b - {p} == m.blocks;
    WrapAdd(Sum(m.blocks), size);
  }

  lemma FreeTracked(m: Memory, p: nat)
    requires Tracked(m) && p in m.blocks
    ensures Tracked(Free(m, p))
  {
    SumWithout(m.blocks, p);
    WrapSub(Sum(m.blocks), m.blocks[p]);
  }

  /** Freeing a block undoes its allocation, counted or not, even if the counted size overflowed. */
  lemma FreeUndoesAlloc(m: Memory, p: nat, num: nat, size: nat)
    requires Tracked(m) && p !in m.blocks
    ensures Free(Alloc(m, p, size), p) == m && Free(Calloc(m, p, num, size), p) == m
  {
    AllocTracked(m, p, size);
    FreeTracked(Alloc(m, p, size), p);
    AllocTracked(m, p, Wrap64(num * size));
    FreeTracked(Calloc(m, p, num, size), p);
    assert m.blocks[p := size] - {p} == m.blocks && m.blocks[p := Wrap64(num * size)] - {p} == m.blocks;
  }

  /** Frees a set of blocks, in any order. */
  ghost function FreeAll(m: Memory, ps: set<nat>): Memory
    requires ps <= m.blocks.Keys
  {
    Memory(Wrap64(Sum(m.blocks - ps)), m.blocks - ps)
  }

  // ---------------------------------------------------------------- the table

  /** A consumer: its buffer, whether its connection is closed, and when it last got data. */
  datatype Entry = Entry(buffer: nat, closed: bool, last: Option<nat>)

  datatype Table = Table(consumers: map<nat, Entry>, counter: nat, memory: Memory)

  ghost predicate Consistent(t: Table) {
    && Tracked(t.memory)
    && (forall h :: h in t.consumers ==> t.consumers[h].buffer in t.memory.blocks)
    && (forall g, h :: g in t.consumers && h in t.consumers && g != h ==> t.consumers[g].buffer != t.consumers[h].buffer)
  }

  function Buffers(cs: map<nat, Entry>, hs: set<nat>): set<nat>
    requires hs <= cs.Keys
  {
    set h | h in hs :: cs[h].buffer
  }

  function HandleOf(t: Table, override: Option<nat>): nat { if override.Some? then override.value else t.counter }

  /** A new session under the override or the counter; p is where its buffer is put. */
  function Add(t: Table, override: Option<nat>, p: nat, size: nat): Table
    requires p !in t.memory.blocks
  {
    var h := HandleOf(t, override);
    Table(t.consumers[h := Entry(p, false, None)], h + 1, Alloc(t.memory, p, size))
  }

  ghost function Remove(t: Table, h: nat): Table
    requires Consistent(t)
  {
    if h in t.consumers then t.(consumers := t.consumers - {h}, memory := Free(t.memory, t.consumers[h].buffer)) else t
  }

  ghost function Without(t: Table, hs: set<nat>): Table
    requires Consistent(t) && hs <= t.consumers.Keys
  {
    t.(consumers := t.consumers - hs, memory := FreeAll(t.memory, Buffers(t.consumers, hs)))
  }

  ghost function Clear(t: Table): Table
    requires Consistent(t)
  {
    Without(t, t.consumers.Keys).(counter := 0)
  }

  ghost function Closed(t: Table): set<nat> { set h | h in t.consumers && t.consumers[h].closed }

  predicate Ascending(hs: seq<nat>) { forall i, j :: 0 <= i < j < |hs| ==> hs[i] < hs[j] }

  lemma NoneGone(t: Table)
    requires Consistent(t)
    ensures Without(t, {}) == t
  {
    assert Buffers(t.consumers, {}) == {};
    assert t.memory.blocks - {} == t.memory.blocks && t.consumers - {} == t.consumers;
  }

  /** Taking sessions away one at a time takes them all away. */
  lemma OneMoreGone(t: Table, hs: set<nat>, h: nat)
    requires Consistent(t) && hs <= t.consumers.Keys && h in t.consumers && h !in hs
    ensures Consistent(Without(t, hs)) && h in Without(t, hs).consumers
    ensures Without(t, hs + {h}) == Remove(Without(t, hs), h)
  {
    var w, p := Without(t, hs), t.consumers[h].buffer;
    var bs, bs' := Buffers(t.consumers, hs), Buffers(t.consumers, hs + {h});
    assert bs' == bs + {p} && p !in bs;
    assert t.memory.blocks - bs' == w.memory.blocks - {p};
    assert t.consumers - (hs + {h}) == w.consumers - {h};
    SumWithout(w.memory.blocks, p);
    WrapSub(Sum(w.memory.blocks), w.memory.blocks[p]);
  }

  // ---------------------------------------------------------------- the object

  class StreamingSession {
    var consumers: map<nat, Entry>
    var counter: nat
    var memory: Memory

    ghost function Abs(): Table
      reads this
    {
      Table(consumers, counter, memory)
    }

    constructor (m: Memory)
      ensures Abs() == Table(map[], 0, m)
    {
      consumers, counter, memory := map[], 0, m;
    }

    method AddNewConsumerSession(override: Option<nat>, p: nat, size: nat) returns (h: nat)
      requires Consistent(Abs()) && p !in memory.blocks
      modifies this
      ensures Consistent(Abs()) && h == HandleOf(old(Abs()), override) && Abs() == Add(old(Abs()), override, p, size)
    {
      AllocTracked(memory, p, size);
      if override.Some? {
        counter := override.value;
      }
      h := counter;
      memory := Alloc(memory, p, size);
      consumers := consumers[h := Entry(p, false, None)];
      counter := counter + 1;
    }

    method RemoveConsumerSession(h: nat)
      requires Consistent(Abs())
      modifies this
      ensures Consistent(Abs()) && Abs() == Remove(old(Abs()), h)
    {
      if h in consumers {
        FreeTracked(memory, consumers[h].buffer);
        memory := Free(memory, consumers[h].buffer);
        consumers := consumers - {h};
      }
    }

    method ClearSessions()
      requires Consistent(Abs())
      modifies this
      ensures Consistent(Abs()) && Abs() == Clear(old(Abs()))
    {
      ghost var t, gone := Abs(), {};
      NoneGone(t);
      while consumers != map[]
        invariant gone <= t.consumers.Keys && Consistent(Abs()) && Abs() == Without(t, gone)
        decreases consumers
      {
        var h :| h in consumers;
        OneMoreGone(t, gone, h);
        RemoveConsumerSession(h);
        gone := gone + {h};
      }
      assert forall h :: h in t.consumers && h !in gone ==> h in consumers;
      assert gone == t.consumers.Keys;
      counter := 0;
    }

    /** The handles of the sessions that are not closed, oldest first; the closed ones are deleted. */
    method GetActiveUploadHandles() returns (hs: seq<nat>)
      requires Consistent(Abs())
      modifies this
      ensures Consistent(Abs()) && Abs() == Without(old(Abs()), Closed(old(Abs())))
      ensures Ascending(hs) && forall h :: h in hs <==> h in old(consumers) && !old(consumers)[h].closed
    {
      ghost var t, gone := Abs(), {};
      NoneGone(t);
      hs := [];
      var rest := consumers.Keys;
      while rest != {}
        invariant rest <= t.consumers.Keys && gone == Closed(t) - rest
        invariant Consistent(Abs()) && Abs() == Without(t, gone)
        invariant Ascending(hs) && forall i, h :: 0 <= i < |hs| && h in rest ==> hs[i] < h
        invariant forall h :: h in hs <==> h in t.consumers && h !in rest && !t.consumers[h].closed
        decreases rest
      {
        var h := Least(rest);
        if consumers[h].closed {
          OneMoreGone(t, gone, h);
          RemoveConsumerSession(h);
          gone := gone + {h};
        } else {
          hs := hs + [h];
        }
        rest := rest - {h};
      }
      assert gone == Closed(t);
    }
  }

  ghost predicate IsLeast(s: set<nat>, h: nat) { h in s && forall k :: k in s ==> h <= k }

  lemma {:induction false} LeastExists(s: set<nat>)
    requires s != {}
    ensures exists h :: IsLeast(s, h)
    decreases |s|
  {
    var a :| a in s;
    var rest := s - {a};
    assert s == rest + {a};
    if rest == {} {
      assert IsLeast(s, a);
    } else {
      LeastExists(rest);
      var b :| IsLeast(rest, b);
      assert IsLeast(s, if a < b then a else b);
    }
  }

  method Least(s: set<nat>) returns (h: nat)
    requires s != {}
    ensures IsLeast(s, h)
  {
    LeastExists(s);
    h :| h in s && forall k :: k in s ==> h <= k;
  }

  // ---------------------------------------------------------------- runs

  datatype Event =
    | Opened(override: Option<nat>, p: nat, size: nat)
    | Removed(handle: nat)
    | Cleared
    | Polled
    | Failed(handle: nat)
    | Got(handle: nat, now: nat)

  predicate Enabled(t: Table, e: Event) { e.Opened? ==> e.p !in t.memory.blocks }

  function SetEntry(t: Table, h: nat, u: Entry): Table { t.(consumers := t.consumers[h := u]) }

  ghost function Step(t: Table, e: Event): Table
    requires Consistent(t) && Enabled(t, e)
  {
    match e
    case Opened(o, p, size) => Add(t, o, p, size)
    case Removed(h) => Remove(t, h)
    case Cleared => Clear(t)
    case Polled => Without(t, Closed(t))
    case Failed(h) => if h in t.consumers then SetEntry(t, h, t.consumers[h].(closed := true)) else t
    case Got(h, now) => if h in t.consumers then SetEntry(t, h, t.consumers[h].(last := Some(now))) else t
  }

  lemma StepConsistent(t: Table, e: Event)
    requires Consistent(t) && Enabled(t, e)
    ensures Consistent(Step(t, e))
  {
    match e
    case Opened(o, p, size) => AllocTracked(t.memory, p, size);
    case Removed(h) =>
      if h in t.consumers {
        FreeTracked(t.memory, t.consumers[h].buffer);
      }
    case _ =>
  }

  ghost predicate Feasible(t: Table, es: seq<Event>)
    requires Consistent(t)
    decreases |es|
  {
    es == [] || (Enabled(t, es[0]) && (StepConsistent(t, es[0]); Feasible(Step(t, es[0]), es[1..])))
  }

  ghost function After(t: Table, es: seq<Event>): (r: Table)
    requires Consistent(t) && Feasible(t, es)
    ensures Consistent(r)
    decreases |es|
  {
    if es == [] then t else StepConsistent(t, es[0]); After(Step(t, es[0]), es[1..])
  }

  /** A session opened over a live one: the table forgets the live one's buffer. */
  predicate Collides(t: Table, e: Event) { e.Opened? && HandleOf(t, e.override) in t.consumers }

  /** The buffers a run forgets. */
  ghost function Leaked(t: Table, es: seq<Event>): set<nat>
    requires Consistent(t) && Feasible(t, es)
    decreases |es|
  {
    if es == [] then {}
    else
      StepConsistent(t, es[0]);
      (if Collides(t, es[0]) then {t.consumers[HandleOf(t, es[0].override)].buffer} else {})
      + Leaked(Step(t, es[0]), es[1..])
  }

  /** The blocks that do not belong to the table. */
  ghost function Others(t: Table): map<nat, nat>
    requires Consistent(t)
  {
    t.memory.blocks - Buffers(t.consumers, t.consumers.Keys)
  }

  /** Only a collision adds to the blocks that do not belong to the table: the buffer it forgets. */
  lemma StepOthers(t: Table, e: Event)
    requires Consistent(t) && Enabled(t, e)
    ensures Consistent(Step(t, e))
    ensures Others(Step(t, e)) ==
            if Collides(t, e) then
              var p := t.consumers[HandleOf(t, e.override)].buffer; Others(t)[p := t.memory.blocks[p]]
            else Others(t)
  {
    StepConsistent(t, e);
    var r := Step(t, e);
    match e
    case Opened(o, p, size) => AddOthers(t, o, p, size);
    case Removed(h) =>
      if h in t.consumers {
        SplitBuffers(t.consumers, {h});
        assert Buffers(t.consumers, {h}) == {t.consumers[h].buffer};
        assert Others(r) == Others(t);
      }
    case Cleared => WithoutOthers(t, t.consumers.Keys);
    case Polled => WithoutOthers(t, Closed(t));
    case Failed(h) => SameBuffers(t.consumers, r.consumers);
    case Got(h, now) => SameBuffers(t.consumers, r.consumers);
  }

  lemma WithoutOthers(t: Table, hs: set<nat>)
    requires Consistent(t) && hs <= t.consumers.Keys
    ensures Consistent(Without(t, hs)) && Others(Without(t, hs)) == Others(t)
  {
    SplitBuffers(t.consumers, hs);
    assert Others(Without(t, hs)) == Others(t);
  }

  lemma AddOthers(t: Table, o: Option<nat>, p: nat, size: nat)
    requires Consistent(t) && p !in t.memory.blocks && Consistent(Add(t, o, p, size))
    ensures var h, r := HandleOf(t, o), Add(t, o, p, size);
            Others(r) == if h in t.consumers
                         then var q := t.consumers[h].buffer; Others(t)[q := t.memory.blocks[q]]
                         else Others(t)
  {
    var h, r := HandleOf(t, o), Add(t, o, p, size);
    var rest := t.consumers - {h};
    assert r.consumers - {h} == rest;
    SplitBuffers(r.consumers, {h});
    assert Buffers(r.consumers, {h}) == {p};
    if h in t.consumers {
      var q := t.consumers[h].buffer;
      SplitBuffers(t.consumers, {h});
      assert Buffers(t.consumers, {h}) == {q};
      assert q !in Buffers(rest, rest.Keys);
      assert Others(r) == Others(t)[q := t.memory.blocks[q]];
    } else {
      assert rest == t.consumers;
      assert Others(r) == Others(t);
    }
  }

  lemma SplitBuffers(cs: map<nat, Entry>, hs: set<nat>)
    requires hs <= cs.Keys
    ensures Buffers(cs, cs.Keys) == Buffers(cs, hs) + Buffers(cs - hs, (cs - hs).Keys)
  {
    var rest := cs - hs;
    forall h | h in cs
      ensures cs[h].buffer in Buffers(cs, hs) + Buffers(rest, rest.Keys)
    {
      assert h in hs || (h in rest && rest[h] == cs[h]);
    }
  }

  lemma SameBuffers(cs: map<nat, Entry>, ds: map<nat, Entry>)
    requires cs.Keys == ds.Keys && forall h :: h in cs ==> cs[h].buffer == ds[h].buffer
    ensures Buffers(cs, cs.Keys) == Buffers(ds, ds.Keys)
  {
  }

  /** A run leaves, besides the table's own buffers, what was there and what it leaked. */
  lemma {:induction false} RunOthers(t: Table, es: seq<Event>)
    requires Consistent(t) && Feasible(t, es)
    ensures Others(After(t, es)).Keys == Others(t).Keys + Leaked(t, es) && Others(t).Keys !! Leaked(t, es)
    ensures forall k :: k in Others(t) ==> Others(After(t, es))[k] == t.memory.blocks[k]
    decreases |es|
  {
    if es != [] {
      StepOthers(t, es[0]);
      RunOthers(Step(t, es[0]), es[1..]);
    }
  }

  ghost predicate NoCollision(t: Table, es: seq<Event>)
    requires Consistent(t) && Feasible(t, es)
    decreases |es|
  {
    es == [] || (!Collides(t, es[0]) && (StepConsistent(t, es[0]); NoCollision(Step(t, es[0]), es[1..])))
  }

  lemma {:induction false} LeakedIff(t: Table, es: seq<Event>)
    requires Consistent(t) && Feasible(t, es)
    ensures Leaked(t, es) == {} <==> NoCollision(t, es)
    decreases |es|
  {
    if es != [] {
      StepConsistent(t, es[0]);
      LeakedIff(Step(t, es[0]), es[1..]);
    }
  }

  /** Clearing the sessions gives back all the memory the run's sessions took, exactly when no session
      was opened over a live one. */
  lemma ClearedMemory(m: Memory, es: seq<Event>)
    requires Tracked(m) && Feasible(Table(map[], 0, m), es)
    ensures var r := Clear(After(Table(map[], 0, m), es));
            && r.consumers == map[] && Tracked(r.memory)
            && (r.memory.blocks == m.blocks <==> NoCollision(Table(map[], 0, m), es))
            && (NoCollision(Table(map[], 0, m), es) ==> r.memory == m)
  {
    var t := Table(map[], 0, m);
    var s := After(t, es);
    RunOthers(t, es);
    LeakedIff(t, es);
    assert Others(t) == m.blocks;
    StepOthers(s, Cleared);
    assert Clear(s).consumers == map[];
    assert Others(Clear(s)) == Clear(s).memory.blocks;
  }

  // ---------------------------------------------------------------- handles

  /** The run clears nothing, and an override only ever moves the counter forward. */
  ghost predicate Forward(t: Table, es: seq<Event>)
    requires Consistent(t) && Feasible(t, es)
    decreases |es|
  {
    es == [] ||
    (&& !es[0].Cleared? && (es[0].Opened? ==> HandleOf(t, es[0].override) >= t.counter)
     && (StepConsistent(t, es[0]); Forward(Step(t, es[0]), es[1..])))
  }

  /** The handles a run gives out. */
  ghost function Given(t: Table, es: seq<Event>): seq<nat>
    requires Consistent(t) && Feasible(t, es)
    decreases |es|
  {
    if es == [] then []
    else
      StepConsistent(t, es[0]);
      (if es[0].Opened? then [HandleOf(t, es[0].override)] else []) + Given(Step(t, es[0]), es[1..])
  }

  ghost predicate Below(t: Table) { forall h :: h in t.consumers ==> h < t.counter }

  lemma StepBelow(t: Table, e: Event)
    requires Consistent(t) && Enabled(t, e) && Below(t) && !e.Cleared?
    requires e.Opened? ==> HandleOf(t, e.override) >= t.counter
    ensures Below(Step(t, e)) && !Collides(t, e)
    ensures Step(t, e).counter == if e.Opened? then HandleOf(t, e.override) + 1 else t.counter
  {
  }

  /** Between clears no handle is given out twice and no live session is replaced. */
  lemma {:induction false} HandlesNeverReused(t: Table, es: seq<Event>)
    requires Consistent(t) && Feasible(t, es) && Below(t) && Forward(t, es)
    ensures Ascending(Given(t, es)) && NoCollision(t, es)
    ensures forall i :: 0 <= i < |Given(t, es)| ==> t.counter <= Given(t, es)[i]
    decreases |es|
  {
    hide Step, Below, Consistent;
    if es != [] {
      StepConsistent(t, es[0]);
      StepBelow(t, es[0]);
      HandlesNeverReused(Step(t, es[0]), es[1..]);
    }
  }

  /** What the calls give out: the override, or the handle after the last one given, from the start and after every
      clear zero. */
  ghost function Numbered(next: nat, es: seq<Event>): seq<nat>
    decreases |es|
  {
    if es == [] then []
    else match es[0]
      case Opened(Some(v), _, _) => [v] + Numbered(v + 1, es[1..])
      case Opened(None, _, _) => [next] + Numbered(next + 1, es[1..])
      case Cleared => Numbered(0, es[1..])
      case _ => Numbered(next, es[1..])
  }

  lemma {:induction false} GivenAre(t: Table, es: seq<Event>)
    requires Consistent(t) && Feasible(t, es)
    ensures Given(t, es) == Numbered(t.counter, es)
    decreases |es|
  {
    hide Consistent;
    if es != [] {
      StepConsistent(t, es[0]);
      GivenAre(Step(t, es[0]), es[1..]);
    }
  }

  /** The session is in the table under its handle, open and with nothing transferred, and has its own block of the
      size asked for; the others are untouched. */
  lemma OpenedIs(t: Table, o: Option<nat>, p: nat, size: nat)
    requires Consistent(t) && p !in t.memory.blocks
    ensures var r, h := Step(t, Opened(o, p, size)), match o case Some(v) => v case None => t.counter;
            && h in r.consumers && r.consumers[h] == Entry(p, false, None) && p in r.memory.blocks && r.memory.blocks[p] == size
            && (forall g :: g != h ==> (g in r.consumers <==> g in t.consumers) && (g in t.consumers ==> r.consumers[g] == t.consumers[g]))
  {
  }

  /** A transfer sets the time of its session only, and a failure only closes it. */
  lemma EntryKept(t: Table, h: nat, now: nat)
    requires Consistent(t) && h in t.consumers
    ensures var u, g, f := t.consumers[h], Step(t, Got(h, now)), Step(t, Failed(h));
            && g == t.(consumers := t.consumers[h := Entry(u.buffer, u.closed, Some(now))])
            && f == t.(consumers := t.consumers[h := Entry(u.buffer, true, u.last)])
  {
  }

  /** A failed connection is polled away, with its buffer; the others stay. */
  lemma FailedIsPolled(t: Table, h: nat)
    requires Consistent(t) && h in t.consumers
    ensures var r := Step(t, Failed(h));
            && Consistent(r)
            && var s := Step(r, Polled);
               && (forall g :: g in s.consumers <==> g in t.consumers && g != h && !t.consumers[g].closed)
               && t.consumers[h].buffer !in s.memory.blocks
               && (forall g :: g in s.consumers ==> s.consumers[g] == t.consumers[g] && t.consumers[g].buffer in s.memory.blocks)
  {
    StepConsistent(t, Failed(h));
    var r := Step(t, Failed(h));
    StepConsistent(r, Polled);
    assert h in Closed(r) && r.consumers[h].buffer in Buffers(r.consumers, Closed(r));
  }

  // ---------------------------------------------------------------- last transfer times

  /** Of two live sessions that got data, the newer one got its last data later. */
  ghost predicate TransfersInOrder(t: Table) {
    forall g, h :: g in t.consumers && h in t.consumers && g < h && t.consumers[g].last.Some? && t.consumers[h].last.Some?
      ==> t.consumers[g].last.value < t.consumers[h].last.value
  }

  ghost predicate LastBefore(t: Table, now: nat) {
    forall h :: h in t.consumers && t.consumers[h].last.Some? ==> t.consumers[h].last.value < now
  }

  /** No live session newer than h has got data: h is served before them. */
  ghost predicate ServedFirst(t: Table, h: nat) {
    forall g :: g in t.consumers && h < g ==> t.consumers[g].last.None?
  }

  /** With an advancing clock, a data read keeps the order exactly when the older session is served
      first. */
  lemma GotKeepsOrder(t: Table, h: nat, now: nat)
    requires Consistent(t) && TransfersInOrder(t) && LastBefore(t, now) && h in t.consumers
    ensures TransfersInOrder(Step(t, Got(h, now))) <==> ServedFirst(t, h)
  {
    var r := Step(t, Got(h, now));
    if g :| g in t.consumers && h < g && t.consumers[g].last.Some? {
      assert r.consumers[h].last == Some(now) && r.consumers[g] == t.consumers[g];
      assert !TransfersInOrder(r);
    }
  }

  /** Every data read is at a later time than all before it, and serves an older session first. */
  ghost predicate Served(t: Table, es: seq<Event>, clock: nat)
    requires Consistent(t) && Feasible(t, es)
    decreases |es|
  {
    es == [] ||
    (StepConsistent(t, es[0]);
     if es[0].Got? && es[0].handle in t.consumers
     then clock <= es[0].now && ServedFirst(t, es[0].handle) && Served(Step(t, es[0]), es[1..], es[0].now + 1)
     else Served(Step(t, es[0]), es[1..], clock))
  }

  lemma StepKeepsOrder(t: Table, e: Event, clock: nat)
    requires Consistent(t) && Enabled(t, e) && TransfersInOrder(t) && LastBefore(t, clock) && !e.Got?
    ensures TransfersInOrder(Step(t, e)) && LastBefore(Step(t, e), clock)
  {
  }

  /** Over every such run, with rotations and drops, the last transfer times of the live sessions
      increase in the order of their handles. */
  lemma {:induction false} TransferTimesIncrease(t: Table, es: seq<Event>, clock: nat)
    requires Consistent(t) && Feasible(t, es) && TransfersInOrder(t) && LastBefore(t, clock) && Served(t, es, clock)
    ensures TransfersInOrder(After(t, es))
    decreases |es|
  {
    if es != [] {
      var e := es[0];
      StepConsistent(t, e);
      if e.Got? {
        if e.handle in t.consumers {
          GotKeepsOrder(t, e.handle, e.now);
          TransferTimesIncrease(Step(t, e), es[1..], e.now + 1);
        } else {
          TransferTimesIncrease(Step(t, e), es[1..], clock);
        }
      } else {
        StepKeepsOrder(t, e, clock);
        TransferTimesIncrease(Step(t, e), es[1..], clock);
      }
    }
  }
}

/** The control plane of a stream: the state machine that describes, creates and tags the stream, gets
    its endpoint and token and opens the upload, with bounded retries in each state. */
module ControlPlane {
  import opened ViewItems

  datatype Phase = New | Describe | Create | Tag | GetEndpoint | GetToken | Ready | PutStream | Streaming | Stopped

  /** The stream's own marker beside the machine's state. */
  datatype Mark = MarkNew | MarkReady | MarkPut | MarkStreaming | MarkStopped

  /** The classes of service call results that the machine tells apart. */
  datatype Result =
    | NotSet | Good | Grace | NotAuthorized | NotFound | InUse | Timeout | Deleted
    | DeviceLimit | StreamLimit | AckInternal | Unknown | Other

  datatype Health = Active | Pending | Deleting

  datatype Failure = Rejected(result: Result) | BeingDeleted | InvalidState | CallFailed(phase: Phase)

  datatype Config = Config(tags: bool, allowCreate: bool, recover: bool)

  datatype Calls = Calls(describe: nat, create: nat, tag: nat, endpoint: nat, token: nat, put: nat)

  datatype Machine = Machine(phase: Phase, retries: nat, mark: Mark, result: Result, health: Health, calls: Calls)

  const MAX_RETRY: nat := 5

  // ---------------------------------------------------------------- one step

  datatype Move = To(phase: Phase) | Refuse(failure: Failure)

  function AfterActive(c: Config): Phase { if c.tags then Tag else GetEndpoint }

  function FromDescribe(c: Config, m: Machine): Move {
    match m.result
    case Good =>
      if m.health == Deleting then Refuse(BeingDeleted)
      else if m.health == Active then To(AfterActive(c))
      else To(Describe)
    case NotFound => To(if c.allowCreate then Create else Stopped)
    case _ => To(Describe)
  }

  function FromPut(m: Machine): Move {
    match m.result
    case Good => To(Streaming)
    case Timeout => To(GetEndpoint)
    case NotAuthorized => To(GetToken)
    case _ => To(Describe)
  }

  /** Where a stopped stream resumes, by the result it stopped with. */
  function ResumeAt(r: Result): Phase {
    match r
    case Good | Grace | DeviceLimit | StreamLimit => GetEndpoint
    case NotAuthorized => GetToken
    case NotSet | InUse | Unknown | AckInternal | NotFound | Deleted => Describe
    case Timeout => Ready
    case Other => New
  }

  function FromStopped(c: Config, m: Machine): Move {
    if c.recover then To(ResumeAt(m.result))
    else if m.result == Good || m.result == Grace then To(New)
    else Refuse(Rejected(m.result))
  }

  function NextPhase(c: Config, m: Machine): Move {
    if m.phase == Stopped then FromStopped(c, m)
    else if m.mark == MarkStopped then To(Stopped)
    else match m.phase
      case New => To(Describe)
      case Describe => FromDescribe(c, m)
      case Create => To(if m.result == Good then AfterActive(c) else Create)
      case Tag => To(if m.result == Good then GetEndpoint else Tag)
      case GetEndpoint => To(if m.result == Good then GetToken else GetEndpoint)
      case GetToken => To(if m.result == Good then Ready else GetToken)
      case Ready => To(PutStream)
      case PutStream => FromPut(m)
      case Streaming => To(Streaming)
  }

  /** The states from which a state may be entered. */
  predicate Accepts(to: Phase, from: Phase) {
    match to
    case New => from in {New, Stopped}
    case Describe => from in {New, Stopped, Describe, PutStream}
    case Create => from in {Describe, Create}
    case Tag => from in {Describe, Create, Tag}
    case GetEndpoint => from in {Stopped, Describe, Create, GetEndpoint, Tag}
    case GetToken => from in {Stopped, GetEndpoint, GetToken, PutStream}
    case Ready => from in {Stopped, GetToken, Ready, PutStream, Streaming}
    case PutStream => from in {Ready, PutStream}
    case Streaming => from in {PutStream, Streaming}
    case Stopped => true
  }

  predicate Limited(p: Phase) { p in {Describe, Create, Tag, GetEndpoint, GetToken, Ready} }

  datatype Executed = Executed(machine: Machine, again: bool)

  function Call(m: Machine): Calls {
    var k := m.calls;
    match m.phase
    case Describe => k.(describe := k.describe + 1)
    case Create => k.(create := k.create + 1)
    case Tag => k.(tag := k.tag + 1)
    case GetEndpoint => k.(endpoint := k.endpoint + 1)
    case GetToken => k.(token := k.token + 1)
    case _ => k
  }

  /** What entering a state does; `again` asks for another step. */
  function Execute(m: Machine, pending: bool): Executed {
    match m.phase
    case New => Executed(m, true)
    case Ready => Executed(m, m.mark == MarkReady || m.mark == MarkStopped || pending)
    case PutStream =>
      Executed(if m.mark == MarkPut then m
               else m.(result := NotSet, mark := MarkPut, calls := m.calls.(put := m.calls.put + 1)), false)
    case Streaming => Executed(m.(mark := MarkStreaming), false)
    case Stopped =>
      if m.result == Timeout && !pending then Executed(m.(mark := MarkNew), false) else Executed(m, true)
    case _ => Executed(m.(result := NotSet, calls := Call(m)), false)
  }

  datatype Stepped = Stepped(machine: Machine, failure: Option<Failure>, again: bool)

  /** One step of the machine. */
  function StepMachine(c: Config, m: Machine, pending: bool): Stepped {
    var m0 := if m.phase == Stopped then m.(mark := MarkReady) else m;
    match NextPhase(c, m)
    case Refuse(f) => Stepped(m0, Some(f), false)
    case To(p) =>
      if !Accepts(p, m.phase) then Stepped(m0, Some(InvalidState), false)
      else
        var n := if p == m.phase then m.retries + 1 else 0;
        if Limited(p) && n > MAX_RETRY then Stepped(m0.(retries := n), Some(CallFailed(p)), false)
        else var e := Execute(m0.(phase := p, retries := n), pending); Stepped(e.machine, None, e.again)
  }

  /** Bounds the steps one event makes. */
  function StepsLeft(m: Machine): nat {
    if m.phase == Stopped then 1
    else if m.mark != MarkStopped && (m.phase == New || m.phase == Ready) then 0
    else 2
  }

  datatype Iterated = Iterated(machine: Machine, failure: Option<Failure>)

  /** Steps until a state does not ask for another step. */
  function Iterate(c: Config, m: Machine, pending: bool): Iterated
    decreases StepsLeft(m)
  {
    var s := StepMachine(c, m, pending);
    if s.failure.None? && s.again then Iterate(c, s.machine, pending) else Iterated(s.machine, s.failure)
  }

  // ---------------------------------------------------------------- events

  predicate Setup(p: Phase) { p in {Describe, Create, Tag, GetEndpoint, GetToken} }

  /** The result classes the pending call of a state may have without an error being returned. */
  predicate Handles(p: Phase, r: Result) {
    || r in {Good, Grace, Timeout, Unknown, NotSet}
    || (r == NotAuthorized && p != GetToken)
    || (r == NotFound && p == Describe)
  }

  /** The result of the call that a state of the setup is waiting for. */
  function Answer(c: Config, m: Machine, r: Result, health: Health, pending: bool): Iterated
    requires Setup(m.phase)
  {
    if !Handles(m.phase, r) then Iterated(m, Some(Rejected(r)))
    else if m.phase == Describe && r == Good && health == Deleting then Iterated(m.(result := r), Some(BeingDeleted))
    else
      var m1 := m.(result := r, health := if m.phase == Describe && r == Good then health else m.health);
      var i := Iterate(c, m1, pending);
      if m.phase == Tag && i.failure == Some(CallFailed(Tag))
      then Iterate(c, i.machine.(result := Good), pending)
      else i
  }

  /** The result of opening the upload. */
  function PutResult(c: Config, m: Machine, r: Result, pending: bool): Iterated
    requires m.phase == PutStream
  {
    if !Handles(PutStream, r) then Iterated(m, Some(Rejected(r))) else Iterate(c, m.(result := r), pending)
  }

  /** The service ended an upload; a setup that is under way already goes on. */
  function Terminated(c: Config, m: Machine, r: Result, pending: bool): Iterated {
    if Setup(m.phase) || m.phase == Ready then Iterated(m, None)
    else Iterate(c, m.(mark := MarkStopped, result := r), pending)
  }

  /** A frame wakes a machine that waits for one. */
  function FrameComes(c: Config, m: Machine): Iterated {
    if m.mark == MarkNew && (m.phase == Ready || m.phase == Stopped) then Iterate(c, m, true) else Iterated(m, None)
  }

  // ---------------------------------------------------------------- the object

  class StreamMachine {
    const config: Config
    var phase: Phase
    var retries: nat
    var mark: Mark
    var result: Result
    var health: Health
    var calls: Calls

    ghost function Abs(): Machine
      reads this
    {
      Machine(phase, retries, mark, result, health, calls)
    }

    constructor (c: Config)
      ensures config == c && Abs() == Machine(New, 0, MarkNew, NotSet, Pending, Calls(0, 0, 0, 0, 0, 0))
    {
      config := c;
      phase, retries, mark, result, health, calls := New, 0, MarkNew, NotSet, Pending, Calls(0, 0, 0, 0, 0, 0);
    }

    /** One step: choose the next state, check that it accepts this one, count the retry, enter it. */
    method Step(pending: bool) returns (failure: Option<Failure>, again: bool)
      modifies this
      ensures Stepped(Abs(), failure, again) == StepMachine(config, old(Abs()), pending)
    {
      failure, again := None, false;
      var move := NextPhase(config, Machine(phase, retries, mark, result, health, calls));
      if phase == Stopped {
        mark := MarkReady;
      }
      if move.Refuse? {
        return Some(move.failure), false;
      }
      if !Accepts(move.phase, phase) {
        return Some(InvalidState), false;
      }
      retries := if move.phase == phase then retries + 1 else 0;
      if Limited(move.phase) && retries > MAX_RETRY {
        return Some(CallFailed(move.phase)), false;
      }
      phase := move.phase;
      again := Enter(pending);
    }

    method Enter(pending: bool) returns (again: bool)
      modifies this`mark, this`result, this`calls
      ensures Executed(Abs(), again) == Execute(old(Abs()), pending)
    {
      match phase
      case New => again := true;
      case Ready => again := mark == MarkReady || mark == MarkStopped || pending;
      case PutStream =>
        if mark != MarkPut {
          result, mark, calls := NotSet, MarkPut, calls.(put := calls.put + 1);
        }
        again := false;
      case Streaming =>
        mark := MarkStreaming;
        again := false;
      case Stopped =>
        again := !(result == Timeout && !pending);
        if !again {
          mark := MarkNew;
        }
      case _ =>
        calls := Call(Machine(phase, retries, mark, result, health, calls));
        result := NotSet;
        again := false;
    }

    method IterateStreamStateMachine(pending: bool) returns (failure: Option<Failure>)
      modifies this
      ensures Iterated(Abs(), failure) == Iterate(config, old(Abs()), pending)
    {
      hide StepMachine, StepsLeft;
      var again := true;
      failure := None;
      while again
        invariant again ==> failure.None? && Iterate(config, Abs(), pending) == Iterate(config, old(Abs()), pending)
        invariant !again ==> Iterated(Abs(), failure) == Iterate(config, old(Abs()), pending)
        decreases again, StepsLeft(Abs())
      {
        FewerSteps(config, Abs(), pending);
        failure, again := Step(pending);
      }
    }

    method CallResult(r: Result, described: Health, pending: bool) returns (failure: Option<Failure>)
      requires Setup(phase)
      modifies this
      ensures Iterated(Abs(), failure) == Answer(config, old(Abs()), r, described, pending)
    {
      hide Iterate;
      if !Handles(phase, r) {
        return Some(Rejected(r));
      }
      result := r;
      if phase == Describe && r == Good {
        if described == Deleting {
          return Some(BeingDeleted);
        }
        health := described;
      }
      var tagging := phase == Tag;
      failure := IterateStreamStateMachine(pending);
      if tagging && failure == Some(CallFailed(Tag)) {
        result := Good;
        failure := IterateStreamStateMachine(pending);
      }
    }

    method StreamTerminated(r: Result, pending: bool) returns (failure: Option<Failure>)
      modifies this
      ensures Iterated(Abs(), failure) == Terminated(config, old(Abs()), r, pending)
    {
      hide Iterate;
      failure := None;
      if !Setup(phase) && phase != Ready {
        mark, result := MarkStopped, r;
        failure := IterateStreamStateMachine(pending);
      }
    }
  }

  lemma FewerSteps(c: Config, m: Machine, pending: bool)
    ensures var s := StepMachine(c, m, pending);
            s.again ==> s.failure.None? && StepsLeft(s.machine) < StepsLeft(m)
  {
  }

  // ---------------------------------------------------------------- setup ends

  /** How far a state of the setup is from the upload. */
  function Rank(p: Phase): nat {
    match p
    case Describe => 5
    case Create => 4
    case Tag => 3
    case GetEndpoint => 2
    case GetToken => 1
    case _ => 0
  }

  /** What is left of the setup: the states to come, and in each the retries left. */
  function Measure(m: Machine): nat
    requires Setup(m.phase) && m.retries <= MAX_RETRY
  {
    Rank(m.phase) * (MAX_RETRY + 1) - m.retries
  }

  ghost predicate InSetup(m: Machine) { Setup(m.phase) && m.retries <= MAX_RETRY && m.mark != MarkStopped }

  /** Whatever the answer, it reports a failure, ends the setup, or brings it nearer to its end; unless
      the stream is missing, may not be created, and the stream is set to recover. */
  lemma AnswerProgresses(c: Config, m: Machine, r: Result, health: Health, pending: bool)
    requires InSetup(m)
    ensures var i := Answer(c, m, r, health, pending);
            || i.failure.Some? || i.machine.phase == Ready || i.machine.phase == PutStream
            || (InSetup(i.machine) && Measure(i.machine) < Measure(m))
            || Stuck(c, m.phase, r)
  {
    hide Iterate;
    var m1 := m.(result := r, health := if m.phase == Describe && r == Good then health else m.health);
    if Handles(m.phase, r) && !(m.phase == Describe && r == Good && health == Deleting) {
      IterateProgresses(c, m1, pending);
      if m.phase == Tag && m.retries == MAX_RETRY {
        TagMovesOn(c, m1.(retries := MAX_RETRY + 1, result := Good), pending);
      }
    }
  }

  /** The steps after an answer: only a state whose retries are spent makes the machine report it. */
  lemma IterateProgresses(c: Config, m: Machine, pending: bool)
    requires InSetup(m)
    ensures var i := Iterate(c, m, pending);
            || i.failure.Some? || i.machine.phase == Ready || i.machine.phase == PutStream
            || (InSetup(i.machine) && Measure(i.machine) < Measure(m))
            || Stuck(c, m.phase, m.result)
    ensures var i := Iterate(c, m, pending);
            i.failure == Some(CallFailed(Tag)) ==>
              m.phase == Tag && m.retries == MAX_RETRY && i.machine == m.(retries := MAX_RETRY + 1)
  {
    var s := StepMachine(c, m, pending);
    if s.failure.None? && s.again {
      assert Iterate(c, m, pending) == Iterate(c, s.machine, pending);
    }
  }

  lemma TagMovesOn(c: Config, m: Machine, pending: bool)
    requires m.phase == Tag && m.result == Good && m.mark != MarkStopped
    ensures var i := Iterate(c, m, pending);
            i.failure.None? && i.machine.phase == GetEndpoint && i.machine.retries == 0 && i.machine.mark == m.mark
  {
  }

  predicate Stuck(c: Config, p: Phase, r: Result) { p == Describe && r == NotFound && !c.allowCreate && c.recover }

  datatype Reply = Reply(result: Result, health: Health, pending: bool)

  /** The machine after a sequence of answers, as long as the setup goes on without a failure. */
  function Answers(c: Config, m: Machine, rs: seq<Reply>): Iterated
    requires Setup(m.phase)
    decreases |rs|
  {
    if rs == [] then Iterated(m, None)
    else
      var i := Answer(c, m, rs[0].result, rs[0].health, rs[0].pending);
      if i.failure.Some? || !Setup(i.machine.phase) then i else Answers(c, i.machine, rs[1..])
  }

  /** Every setup becomes ready or reports a failure, within six answers for each state to come. */
  lemma {:induction false} SetupEnds(c: Config, m: Machine, rs: seq<Reply>)
    requires InSetup(m) && |rs| >= Measure(m) && (c.allowCreate || !c.recover)
    ensures var i := Answers(c, m, rs);
            i.failure.Some? || i.machine.phase == Ready || i.machine.phase == PutStream
    decreases |rs|
  {
    var i := Answer(c, m, rs[0].result, rs[0].health, rs[0].pending);
    AnswerProgresses(c, m, rs[0].result, rs[0].health, rs[0].pending);
    hide Answer;
    if i.failure.None? && Setup(i.machine.phase) {
      SetupEnds(c, i.machine, rs[1..]);
    }
  }

  /** Otherwise no number of answers is enough: a missing stream that may not be created is described
      for ever, and each time the retries begin again. */
  lemma {:induction false} MissingStreamNeverEnds(c: Config, m: Machine, rs: seq<Reply>)
    requires m.phase == Describe && m.mark != MarkStopped && !c.allowCreate && c.recover
    requires forall k :: 0 <= k < |rs| ==> rs[k].result == NotFound
    ensures var i := Answers(c, m, rs);
            && i.failure.None? && i.machine.phase == Describe
            && i.machine.calls == m.calls.(describe := m.calls.describe + |rs|)
    decreases |rs|
  {
    if rs != [] {
      MissingStreamAgain(c, m, rs[0].health, rs[0].pending);
      hide Answer;
      MissingStreamNeverEnds(c, Answer(c, m, NotFound, rs[0].health, rs[0].pending).machine, rs[1..]);
    }
  }

  lemma MissingStreamAgain(c: Config, m: Machine, health: Health, pending: bool)
    requires m.phase == Describe && m.mark != MarkStopped && !c.allowCreate && c.recover
    ensures Answer(c, m, NotFound, health, pending)
         == Iterated(m.(retries := 0, mark := MarkReady, result := NotSet,
                        calls := m.calls.(describe := m.calls.describe + 1)), None)
  {
    var m1 := m.(result := NotFound);
    var s := StepMachine(c, m1, pending);
    assert Iterate(c, m1, pending) == Iterate(c, s.machine, pending);
  }

  // ---------------------------------------------------------------- retries

  function CallsOf(k: Calls, p: Phase): nat {
    match p
    case Describe => k.describe
    case Create => k.create
    case Tag => k.tag
    case GetEndpoint => k.endpoint
    case GetToken => k.token
    case _ => k.put
  }

  /** A state calls again after an unknown result until its retries are spent; then a failure is
      reported, except that an untagged stream moves on to its endpoint. */
  lemma UnknownAnswer(c: Config, m: Machine, health: Health, pending: bool)
    requires InSetup(m)
    ensures var i := Answer(c, m, Unknown, health, pending);
            if m.retries < MAX_RETRY then
              && i.failure.None? && i.machine.phase == m.phase && i.machine.retries == m.retries + 1
              && i.machine.mark == m.mark && CallsOf(i.machine.calls, m.phase) == CallsOf(m.calls, m.phase) + 1
            else if m.phase == Tag then
              && i.failure.None? && i.machine.phase == GetEndpoint && i.machine.retries == 0
              && i.machine.calls == m.calls.(endpoint := m.calls.endpoint + 1)
            else i.failure == Some(CallFailed(m.phase)) && i.machine.calls == m.calls
  {
    hide Iterate;
    IterateOnce(c, m.(result := Unknown), pending);
    if m.phase == Tag && m.retries == MAX_RETRY {
      IterateOnce(c, m.(result := Good, retries := MAX_RETRY + 1), pending);
    }
  }

  function Unknowns(n: nat, health: Health, pending: bool): (rs: seq<Reply>)
    ensures |rs| == n
  {
    seq(n, _ => Reply(Unknown, health, pending))
  }

  /** A state entered afresh survives exactly five unknown results, calling once for each. */
  lemma {:induction false} RetriesExhausted(c: Config, m: Machine, n: nat, health: Health, pending: bool)
    requires InSetup(m) && m.phase != Tag
    ensures var i := Answers(c, m, Unknowns(n, health, pending));
            && (i.failure.None? <==> m.retries + n <= 5)
            && (i.failure.None? ==> CallsOf(i.machine.calls, m.phase) == CallsOf(m.calls, m.phase) + n)
            && (i.failure.Some? ==> i.failure == Some(CallFailed(m.phase)))
    decreases n
  {
    if n > 0 {
      UnknownAnswer(c, m, health, pending);
      hide Answer;
      var i := Answer(c, m, Unknown, health, pending);
      assert Unknowns(n, health, pending)[1..] == Unknowns(n - 1, health, pending);
      if i.failure.None? {
        RetriesExhausted(c, i.machine, n - 1, health, pending);
      }
    }
  }

  // ---------------------------------------------------------------- where the answers lead

  /** What the answer of a state's call leads to, with retries left: the state to call next, or none. */
  datatype Lead = Next(phase: Phase, calls: Calls) | Through(calls: Calls) | Ends(failure: Failure)

  function Again(m: Machine): Lead {
    var k := m.calls;
    match m.phase
    case Describe => Next(Describe, k.(describe := k.describe + 1))
    case Create => Next(Create, k.(create := k.create + 1))
    case Tag => Next(Tag, k.(tag := k.tag + 1))
    case GetEndpoint => Next(GetEndpoint, k.(endpoint := k.endpoint + 1))
    case _ => Next(GetToken, k.(token := k.token + 1))
  }

  /** What a good answer leads to: a described or created stream is tagged if it has tags, then come the endpoint and
      the token, and then the setup is through. */
  function OnFrom(c: Config, p: Phase, k: Calls): Lead {
    match p
    case Describe | Create => if c.tags then Next(Tag, k.(tag := k.tag + 1)) else Next(GetEndpoint, k.(endpoint := k.endpoint + 1))
    case Tag => Next(GetEndpoint, k.(endpoint := k.endpoint + 1))
    case GetEndpoint => Next(GetToken, k.(token := k.token + 1))
    case _ => Through(k)
  }

  /** The design of the setup. A stream that is not active yet is described again, a missing one is created if it may
      be, and one under deletion ends the setup. A refused authorization is retried, except for the token's. */
  function Leads(c: Config, m: Machine, r: Result, health: Health): Lead {
    match r
    case Good =>
      if m.phase != Describe || health == Active then OnFrom(c, m.phase, m.calls)
      else if health == Deleting then Ends(BeingDeleted)
      else Again(m)
    case NotFound =>
      if m.phase != Describe then Ends(Rejected(r))
      else if c.allowCreate then Next(Create, m.calls.(create := m.calls.create + 1))
      else if c.recover then Again(m)
      else Ends(Rejected(r))
    case NotAuthorized => if m.phase == GetToken then Ends(Rejected(r)) else Again(m)
    case Grace | Timeout | Unknown | NotSet => Again(m)
    case _ => Ends(Rejected(r))
  }

  /** Once the setup is through the upload is opened if there is something to send or the stream was restarted, and
      else the machine waits for a frame. */
  predicate Follows(m: Machine, lead: Lead, i: Iterated, pending: bool) {
    match lead
    case Next(p, k) => i.failure.None? && i.machine.phase == p && i.machine.calls == k && i.machine.result == NotSet
    case Through(k) =>
      && i.failure.None?
      && if pending || m.mark == MarkReady then
           i.machine.phase == PutStream && i.machine.calls == Opened(m) && (m.mark != MarkPut ==> i.machine.result == NotSet)
         else i.machine.phase == Ready && i.machine.calls == k
    case Ends(f) => i.failure == Some(f) && i.machine.calls == m.calls
  }

  /** Every answer leads where the design says. */
  lemma AnswerLeads(c: Config, m: Machine, r: Result, health: Health, pending: bool)
    requires InSetup(m) && m.retries < MAX_RETRY
    ensures Follows(m, Leads(c, m, r, health), Answer(c, m, r, health, pending), pending)
  {
    hide Follows, Leads, Answer;
    match m.phase
    case Describe => DescribeLeads(c, m, r, health, pending);
    case GetToken => TokenLeads(c, m, r, health, pending);
    case _ => SetupLeads(c, m, r, health, pending);
  }

  lemma DescribeLeads(c: Config, m: Machine, r: Result, health: Health, pending: bool)
    requires InSetup(m) && m.retries < MAX_RETRY && m.phase == Describe
    ensures Follows(m, Leads(c, m, r, health), Answer(c, m, r, health, pending), pending)
  {
    hide Iterate, Measure, Rank;
    if r == NotFound && !c.allowCreate {
      MissingLeads(c, m, health, pending);
    } else {
      IterateOnce(c, m.(result := r, health := if r == Good then health else m.health), pending);
    }
  }

  lemma MissingLeads(c: Config, m: Machine, health: Health, pending: bool)
    requires InSetup(m) && m.phase == Describe && !c.allowCreate
    ensures Follows(m, Leads(c, m, NotFound, health), Answer(c, m, NotFound, health, pending), pending)
  {
    hide Iterate;
    var m1 := m.(result := NotFound);
    IterateOnce(c, m1, pending);
    IterateOnce(c, m1.(phase := Stopped, retries := 0), pending);
  }

  lemma SetupLeads(c: Config, m: Machine, r: Result, health: Health, pending: bool)
    requires InSetup(m) && m.retries < MAX_RETRY && m.phase in {Create, Tag, GetEndpoint}
    ensures Follows(m, Leads(c, m, r, health), Answer(c, m, r, health, pending), pending)
  {
    hide Iterate, Measure, Rank;
    IterateOnce(c, m.(result := r), pending);
  }

  lemma TokenLeads(c: Config, m: Machine, r: Result, health: Health, pending: bool)
    requires InSetup(m) && m.retries < MAX_RETRY && m.phase == GetToken
    ensures Follows(m, Leads(c, m, r, health), Answer(c, m, r, health, pending), pending)
  {
    hide Iterate, Measure, Rank;
    IterateOnce(c, m.(result := r), pending);
    IterateOnce(c, m.(result := r, phase := Ready, retries := 0), pending);
  }

  /** A result that is an error of its own is reported and changes nothing. */
  lemma ErrorReported(c: Config, m: Machine, r: Result, health: Health, pending: bool)
    requires Setup(m.phase) && r in {InUse, Deleted, DeviceLimit, StreamLimit, AckInternal, Other}
    ensures Answer(c, m, r, health, pending) == Iterated(m, Some(Rejected(r)))
  {
  }

  /** A machine that has learned that its stream is being deleted refuses to go on. */
  lemma DeletedRefused(c: Config, m: Machine, pending: bool)
    requires m.phase == Describe && m.mark != MarkStopped && m.result == Good && m.health == Deleting
    ensures Iterate(c, m, pending) == Iterated(m, Some(BeingDeleted))
  {
  }

  /** A good result of opening the upload has it stream, a refused authorization asks for a new token, and any other
      that is not an error starts the setup over. */
  lemma PutLeads(c: Config, m: Machine, r: Result, pending: bool)
    requires m.phase == PutStream && m.mark == MarkPut
    ensures var i, k := PutResult(c, m, r, pending), m.calls;
            match r
            case Good => i == Iterated(m.(phase := Streaming, retries := 0, mark := MarkStreaming, result := Good), None)
            case NotAuthorized =>
              i.failure.None? && i.machine.phase == GetToken && i.machine.calls == k.(token := k.token + 1) && i.machine.mark == MarkPut
            case Grace | Unknown | NotSet =>
              i.failure.None? && i.machine.phase == Describe && i.machine.calls == k.(describe := k.describe + 1) && i.machine.mark == MarkPut
            case Timeout => i.failure == Some(InvalidState)
            case _ => i == Iterated(m, Some(Rejected(r)))
  {
  }

  /** A stream that is not set to recover reports the result its upload ended with, unless that was an orderly end: then
      it is described again. A timeout with nothing to send waits for a frame first. */
  lemma EndsWithoutRecovery(c: Config, m: Machine, r: Result, pending: bool)
    requires (m.phase == PutStream || m.phase == Streaming) && !c.recover
    ensures var t := Terminated(c, m, r, pending);
            if r == Timeout && !pending then t.failure.None? && t.machine.phase == Stopped && t.machine.calls == m.calls
            else if r == Good || r == Grace then
              t.failure.None? && t.machine.phase == Describe && t.machine.calls == m.calls.(describe := m.calls.describe + 1)
            else t.failure == Some(Rejected(r)) && t.machine.calls == m.calls
  {
    hide Iterate;
    StopsFirst(c, m, r, pending);
    var stopped := m.(mark := MarkStopped, result := r, phase := Stopped, retries := 0);
    IterateOnce(c, stopped, pending);
    var s := StepMachine(c, stopped, pending);
    if s.again {
      IterateOnce(c, s.machine, pending);
    }
  }

  /** The setup goes on undisturbed when an upload ends meanwhile, and a frame opens the upload of a machine that waits
      for one, and of no other. */
  lemma FrameOpens(c: Config, m: Machine, r: Result, pending: bool)
    ensures Setup(m.phase) || m.phase == Ready ==> Terminated(c, m, r, pending) == Iterated(m, None)
    ensures m.phase == Ready && m.mark == MarkNew ==>
              var i := FrameComes(c, m);
              i.failure.None? && i.machine.phase == PutStream && i.machine.mark == MarkPut && i.machine.calls == m.calls.(put := m.calls.put + 1)
    ensures m.mark != MarkNew || (m.phase != Ready && m.phase != Stopped) ==> FrameComes(c, m) == Iterated(m, None)
  {
  }

  // ---------------------------------------------------------------- two rules of the table

  /** A timeout on opening the upload asks for a state that does not accept it: the event fails and the
      machine stays where it is. */
  lemma PutTimeoutRefused(c: Config, m: Machine, pending: bool)
    requires m.phase == PutStream && m.mark != MarkStopped
    ensures PutResult(c, m, Timeout, pending) == Iterated(m.(result := Timeout), Some(InvalidState))
  {
  }

  /** After any other failed result the setup runs again, but its end does not open the upload again: with
      something to send the marker still says that it was opened, and with nothing it rests in Ready. */
  lemma FailedPutNotReopened(c: Config, m: Machine, r: Result, pending: bool)
    requires m.phase == PutStream && m.mark == MarkPut && Handles(PutStream, r) && r != Good && r != Timeout
    ensures var i := PutResult(c, m, r, pending);
            && i.failure.None? && Setup(i.machine.phase)
            && var j := Drive(c, i.machine, pending);
               j.phase == (if pending then PutStream else Ready) && j.mark == MarkPut && j.calls.put == m.calls.put
  {
    var m1 := PutResult(c, m, r, pending).machine;
    DriveOpens(c, m1, pending);
  }

  /** Every call of the setup is answered well. */
  function Drive(c: Config, m: Machine, pending: bool): Machine
    requires Setup(m.phase)
    decreases Rank(m.phase)
  {
    var i := Answer(c, m, Good, Active, pending).machine;
    if Setup(i.phase) && Rank(i.phase) < Rank(m.phase) then Drive(c, i, pending) else i
  }

  /** The calls a well answered setup makes after the call of state p. */
  function Path(c: Config, p: Phase, k: Calls): Calls {
    match p
    case Describe => k.(tag := k.tag + (if c.tags then 1 else 0), endpoint := k.endpoint + 1, token := k.token + 1)
    case Create => k.(tag := k.tag + (if c.tags then 1 else 0), endpoint := k.endpoint + 1, token := k.token + 1)
    case Tag => k.(endpoint := k.endpoint + 1, token := k.token + 1)
    case GetEndpoint => k.(token := k.token + 1)
    case _ => k
  }

  function Succ(c: Config, p: Phase): Phase {
    match p
    case Describe => AfterActive(c)
    case Create => AfterActive(c)
    case Tag => GetEndpoint
    case _ => GetToken
  }

  lemma GoodAnswer(c: Config, m: Machine, pending: bool)
    requires InSetup(m)
    ensures var i := Answer(c, m, Good, Active, pending);
            && i.failure.None?
            && if m.phase != GetToken then
                 && i.machine.phase == Succ(c, m.phase) && i.machine.retries == 0 && i.machine.mark == m.mark
                 && i.machine.calls == Call(m.(phase := Succ(c, m.phase)))
               else if pending || m.mark == MarkReady then
                 && i.machine.phase == PutStream && i.machine.mark == MarkPut
                 && i.machine.calls == Opened(m)
               else i.machine.phase == Ready && i.machine.mark == m.mark && i.machine.calls == m.calls
  {
    if m.phase == GetToken {
      var s := StepMachine(c, m.(result := Good), pending);
      assert s.again ==> Iterate(c, m.(result := Good), pending) == Iterate(c, s.machine, pending);
    }
  }

  /** The calls with the upload opened, which happens unless it is marked as open. */
  function Opened(m: Machine): Calls { if m.mark == MarkPut then m.calls else m.calls.(put := m.calls.put + 1) }

  /** A well answered setup ends with the upload opened, or waits in Ready for something to send. */
  lemma {:induction false} DriveOpens(c: Config, m: Machine, pending: bool)
    requires InSetup(m)
    ensures var j, k := Drive(c, m, pending), Path(c, m.phase, m.calls);
            if pending || m.mark == MarkReady
            then j.phase == PutStream && j.mark == MarkPut && j.calls == Opened(m.(calls := k))
            else j.phase == Ready && j.mark == m.mark && j.calls == k
    decreases Rank(m.phase)
  {
    GoodAnswer(c, m, pending);
    hide Answer;
    if m.phase != GetToken {
      DriveOpens(c, Answer(c, m, Good, Active, pending).machine, pending);
    }
  }

  // ---------------------------------------------------------------- recovery

  /** The results after which a stream gets a new endpoint: all but a timeout, which needs nothing, and
      a refused authorization, which needs only a new token. */
  predicate NeedsEndpoint(r: Result) { r !in {Timeout, NotAuthorized} }

  predicate NeedsToken(r: Result) { r != Timeout }

  /** The results after which the stream is described again first: neither an orderly end nor a limit. */
  predicate NeedsDescribe(r: Result) { r !in {Good, Grace, DeviceLimit, StreamLimit, NotAuthorized, Timeout} }

  function One(b: bool): nat { if b then 1 else 0 }

  /** What one recovery costs. */
  function Cost(c: Config, k: Calls, r: Result): Calls {
    k.(describe := k.describe + One(NeedsDescribe(r)), tag := k.tag + One(NeedsDescribe(r) && c.tags),
       endpoint := k.endpoint + One(NeedsEndpoint(r)), token := k.token + One(NeedsToken(r)), put := k.put + 1)
  }

  /** The upload ended with r: the machine restarts, at once or on the next frame, and every call is
      answered well until it streams again. */
  function Recovery(c: Config, m: Machine, r: Result, pending: bool): Machine
    requires m.phase == PutStream || m.phase == Streaming
  {
    var t := Terminated(c, m, r, pending).machine;
    var t1 := if t.phase == Stopped then FrameComes(c, t).machine else t;
    var t2 := if Setup(t1.phase) then Drive(c, t1, pending) else t1;
    if t2.phase == PutStream then PutResult(c, t2, Good, pending).machine else t2
  }

  /** A terminated upload restarts where its result says. */
  lemma Restarts(c: Config, m: Machine, r: Result, pending: bool)
    requires (m.phase == PutStream || m.phase == Streaming) && c.recover
    ensures var t := Terminated(c, m, r, pending);
            var t1 := if t.machine.phase == Stopped then FrameComes(c, t.machine) else t;
            && t.failure.None? && t1.failure.None?
            && (t.machine.phase == Stopped <==> r == Timeout && !pending)
            && if r == Timeout then
                 && t1.machine.phase == PutStream && t1.machine.mark == MarkPut
                 && t1.machine.calls == m.calls.(put := m.calls.put + 1)
               else
                 && InSetup(t1.machine) && t1.machine.mark == MarkReady
                 && t1.machine.phase == (if r == Other then Describe else ResumeAt(r))
                 && t1.machine.calls == Call(t1.machine.(calls := m.calls))
  {
    hide Iterate, StepMachine, FrameComes;
    var m1 := m.(mark := MarkStopped, result := r);
    StopsFirst(c, m, r, pending);
    if r == Timeout && !pending {
      LeavesStopped(c, m1.(phase := Stopped, retries := 0, mark := MarkNew), true);
      WakesUp(c, m1.(phase := Stopped, retries := 0, mark := MarkNew));
    } else {
      LeavesStopped(c, m1.(phase := Stopped, retries := 0), pending);
    }
  }

  /** The first step goes to Stopped, and stays there for a timeout with nothing to send. */
  lemma StopsFirst(c: Config, m: Machine, r: Result, pending: bool)
    requires m.phase == PutStream || m.phase == Streaming
    ensures var m1 := m.(mark := MarkStopped, result := r);
            var stopped := m1.(phase := Stopped, retries := 0);
            Iterate(c, m1, pending) == if r == Timeout && !pending then Iterated(stopped.(mark := MarkNew), None)
                                       else Iterate(c, stopped, pending)
  {
    var m1 := m.(mark := MarkStopped, result := r);
    var s := StepMachine(c, m1, pending);
    assert s.again ==> Iterate(c, m1, pending) == Iterate(c, s.machine, pending);
  }

  lemma WakesUp(c: Config, m: Machine)
    requires m.mark == MarkNew && m.phase == Stopped
    ensures FrameComes(c, m) == Iterate(c, m, true)
  {
  }

  /** Leaving Stopped on a recovering stream. */
  lemma LeavesStopped(c: Config, m: Machine, pending: bool)
    requires m.phase == Stopped && c.recover
    ensures var t := Iterate(c, m, pending);
            && t.failure.None?
            && if m.result == Timeout then
                 t.machine.phase == PutStream && t.machine.mark == MarkPut && t.machine.calls == m.calls.(put := m.calls.put + 1)
               else
                 && InSetup(t.machine) && t.machine.mark == MarkReady
                 && t.machine.phase == (if m.result == Other then Describe else ResumeAt(m.result))
                 && t.machine.calls == Call(t.machine.(calls := m.calls))
  {
    hide Iterate;
    var s := StepMachine(c, m, pending);
    IterateOnce(c, m, pending);
    if s.again {
      IterateOnce(c, s.machine, pending);
    }
  }

  lemma IterateOnce(c: Config, m: Machine, pending: bool)
    ensures var s := StepMachine(c, m, pending);
            Iterate(c, m, pending) == if s.failure.None? && s.again then Iterate(c, s.machine, pending) else Iterated(s.machine, s.failure)
  {
    hide StepMachine;
  }

  lemma PutSucceeds(c: Config, m: Machine, pending: bool)
    requires m.phase == PutStream && m.mark == MarkPut
    ensures var j := PutResult(c, m, Good, pending).machine; j.phase == Streaming && j.calls == m.calls
  {
  }

  lemma Recovers(c: Config, m: Machine, r: Result, pending: bool)
    requires (m.phase == PutStream || m.phase == Streaming) && c.recover
    ensures var j := Recovery(c, m, r, pending);
            j.phase == Streaming && j.calls == Cost(c, m.calls, r)
  {
    hide Terminated, Drive, FrameComes, PutResult;
    Restarts(c, m, r, pending);
    var t := Terminated(c, m, r, pending).machine;
    var t1 := if t.phase == Stopped then FrameComes(c, t).machine else t;
    if Setup(t1.phase) {
      DriveOpens(c, t1, pending);
    }
    PutSucceeds(c, if Setup(t1.phase) then Drive(c, t1, pending) else t1, pending);
  }

  datatype Ending = Ending(result: Result, pending: bool)

  function Recoveries(c: Config, m: Machine, rs: seq<Ending>): Machine
    requires m.phase == Streaming && c.recover
    decreases |rs|
  {
    if rs == [] then m
    else
      Recovers(c, m, rs[0].result, rs[0].pending);
      Recoveries(c, Recovery(c, m, rs[0].result, rs[0].pending), rs[1..])
  }

  function EndpointsNeeded(rs: seq<Ending>): nat {
    if rs == [] then 0 else One(NeedsEndpoint(rs[0].result)) + EndpointsNeeded(rs[1..])
  }

  function TokensNeeded(rs: seq<Ending>): nat {
    if rs == [] then 0 else One(NeedsToken(rs[0].result)) + TokensNeeded(rs[1..])
  }

  /** Over any sequence of recovered terminations the endpoint and token calls are functions of the
      result classes alone, and endpoint calls do not exceed token calls. */
  lemma {:induction false} RecoveryCalls(c: Config, m: Machine, rs: seq<Ending>)
    requires m.phase == Streaming && c.recover
    ensures var j := Recoveries(c, m, rs);
            && j.phase == Streaming
            && j.calls.endpoint == m.calls.endpoint + EndpointsNeeded(rs)
            && j.calls.token == m.calls.token + TokensNeeded(rs)
            && j.calls.put == m.calls.put + |rs|
            && (m.calls.endpoint <= m.calls.token ==> j.calls.endpoint <= j.calls.token)
    decreases |rs|
  {
    hide Recovery;
    if rs != [] {
      Recovers(c, m, rs[0].result, rs[0].pending);
      RecoveryCalls(c, Recovery(c, m, rs[0].result, rs[0].pending), rs[1..]);
    }
  }
}

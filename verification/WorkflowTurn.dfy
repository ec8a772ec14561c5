/**
 * One turn of a remotely driven workflow: the body is replayed from the start against the
 * resolved history, returns recorded outcomes, and stops at its first unresolved operation.
 * Models packages/adonis/src/workflow-turn.ts.
 */
module WorkflowTurn {
  import opened Common

  // ---------------------------------------------------------------- history

  datatype EventKind = StepEvent | CallEvent | TimerEvent | SignalEvent | ChildEvent

  datatype HistoryEvent =
    HistoryEvent(kind: EventKind, name: Option<string>, output: Value, error: Option<StepError>)

  type History = map<nat, HistoryEvent>

  // ------------------------------------------------------------------- body

  datatype Mode = WaitAll | FailFast
  datatype Fan = Calls | Children

  /** One member of a fan-out: a step to call or a child workflow to start. */
  datatype Member = Member(name: string, input: Value)

  datatype Op =
    | Step(name: string, input: Value)
    | Sleep(ms: nat)
    | WaitSignal(signal: string)
    | StartChild(workflow: string, input: Value)
    | Gather(fan: Fan, members: seq<Member>, mode: Mode)
    | Now
    | SideEffect

  /** What a body sees of an operation: a value, the outputs of a fan-out, or a thrown failure. */
  datatype Outcome =
    | Returned(value: Value)
    | Outputs(values: seq<Value>)
    | Raised(error: StepError)

  /**
   * A deterministic body as a well-founded tree: after an operation its future depends on the
   * outcome alone. Paths may be arbitrarily long, but each of them ends.
   */
  datatype RawBody =
    | Return(output: Value)
    | Throw(error: StepError)
    | Do(op: Op, rest: imap<Outcome, RawBody>)

  ghost predicate Total(b: RawBody)
    decreases b
  {
    match b
    case Return(_) => true
    case Throw(_) => true
    case Do(_, rest) => forall o: Outcome :: o in rest && Total(rest[o])
  }

  type Body = b: RawBody | Total(b) witness Return(Undefined)

  /** How many logical positions an operation takes. */
  function Width(op: Op): nat {
    if op.Gather? then |op.members| else 1
  }

  predicate IsLocal(op: Op) {
    op.Now? || op.SideEffect?
  }

  // --------------------------------------------------------------- commands

  /** The result of running a capture once, in the turn that first reached it. */
  datatype Captured = Produced(value: Value) | Threw(error: StepError)

  type Captures = nat -> Captured

  /** `group` is the first position of the fan-out that emitted the command. */
  datatype Command =
    | Call(seqNo: nat, name: string, input: Value, group: Option<nat>)
    | SleepFor(seqNo: nat, ms: nat)
    | AwaitSignal(seqNo: nat, signal: string)
    | SpawnChild(seqNo: nat, workflow: string, input: Value, group: Option<nat>)
    | RecordStep(seqNo: nat, name: string, captured: Captured)

  datatype OpResult = Settled(outcome: Outcome) | Suspended | Diverged

  datatype Effect = Effect(result: OpResult, commands: seq<Command>)

  // ------------------------------------------------- what a history entry means

  datatype Entry = Missing | Found(event: HistoryEvent) | Mismatch(event: HistoryEvent)

  /** The nondeterminism guard: kinds must agree, and names when both sides have one. */
  function Lookup(h: History, seqNo: nat, kind: EventKind, name: Option<string>): Entry {
    if seqNo !in h then Missing
    else
      var ev := h[seqNo];
      if ev.kind != kind || (name.Some? && ev.name.Some? && ev.name != name) then Mismatch(ev)
      else Found(ev)
  }

  function OutcomeOf(ev: HistoryEvent): Outcome {
    if ev.error.Some? then Raised(ev.error.value) else Returned(ev.output)
  }

  function CapturedOutcome(c: Captured): Outcome {
    match c
    case Produced(v) => Returned(v)
    case Threw(e) => Raised(e)
  }

  function JoinNames(items: seq<GatherItem>): string {
    if |items| == 0 then ""
    else if |items| == 1 then items[0].name
    else JoinNames(items[..|items| - 1]) + ", " + items[|items| - 1].name
  }

  function GatherError(items: seq<GatherItem>): StepError {
    StepError("gather: " + Digits(|items|) + " item(s) failed: " + JoinNames(items),
              Some("gather_failed"), items)
  }

  /** The name a failed member carries in the aggregate error. */
  function Label(fan: Fan, mode: Mode, member: Member, ev: HistoryEvent): string {
    if fan.Children? then member.name
    else ev.name.GetOr(if mode.FailFast? then member.name else "")
  }

  /** The failed members among the first `i`, in list order. */
  function FailuresUpTo(fan: Fan, mode: Mode, members: seq<Member>, events: seq<HistoryEvent>, i: nat)
    : seq<GatherItem>
    requires i <= |members| == |events|
  {
    if i == 0 then []
    else
      FailuresUpTo(fan, mode, members, events, i - 1) +
      (if events[i - 1].error.Some?
       then [GatherItem(Label(fan, mode, members[i - 1], events[i - 1]), events[i - 1].error.value)]
       else [])
  }

  /**
   * What an operation means to the body once every position of its block has resolved:
   * the reference every replay is measured against.
   */
  function Meaning(op: Op, events: seq<HistoryEvent>): Outcome
    requires |events| == Width(op)
  {
    match op
    case Gather(fan, members, mode) =>
      var failures := FailuresUpTo(fan, mode, members, events, |members|);
      if failures == [] then Outputs(seq(|events|, i requires 0 <= i < |events| => events[i].output))
      else Raised(GatherError(if mode.FailFast? then [failures[0]] else failures))
    case Sleep(_) => if events[0].error.Some? then Raised(events[0].error.value) else Returned(Undefined)
    case _ => OutcomeOf(events[0])
  }

  predicate Resolved(op: Op, n: nat, h: History) {
    forall i | n <= i < n + Width(op) :: i in h
  }

  function Block(op: Op, n: nat, h: History): (events: seq<HistoryEvent>)
    requires Resolved(op, n, h)
    ensures |events| == Width(op)
  {
    seq(Width(op), i requires 0 <= i < Width(op) => h[n + i])
  }

  // ------------------------------------------------------ one operation, one turn

  function NowName(n: nat): string {
    "now#" + Digits(n)
  }

  function Await(h: History, n: nat, kind: EventKind, name: Option<string>, cmd: Command): Effect {
    match Lookup(h, n, kind, name)
    case Mismatch(_) => Effect(Diverged, [])
    case Found(ev) => Effect(Settled(OutcomeOf(ev)), [])
    case Missing => Effect(Suspended, [cmd])
  }

  function AwaitTimer(h: History, n: nat, ms: nat): Effect {
    match Lookup(h, n, TimerEvent, None)
    case Mismatch(_) => Effect(Diverged, [])
    case Found(ev) =>
      Effect(Settled(if ev.error.Some? then Raised(ev.error.value) else Returned(Undefined)), [])
    case Missing => Effect(Suspended, [SleepFor(n, ms)])
  }

  function Capture(h: History, n: nat, name: string, captures: Captures): Effect {
    match Lookup(h, n, StepEvent, Some(name))
    case Mismatch(_) => Effect(Diverged, [])
    case Found(ev) => Effect(Settled(OutcomeOf(ev)), [])
    case Missing => Effect(Settled(CapturedOutcome(captures(n))), [RecordStep(n, name, captures(n))])
  }

  function FanKind(fan: Fan): EventKind {
    if fan.Calls? then CallEvent else ChildEvent
  }

  function MemberEntry(fan: Fan, members: seq<Member>, n: nat, h: History, i: nat): Entry
    requires i < |members|
  {
    Lookup(h, n + i, FanKind(fan), Some(members[i].name))
  }

  function MemberCommand(fan: Fan, members: seq<Member>, n: nat, i: nat): Command
    requires i < |members|
  {
    if fan.Calls? then Call(n + i, members[i].name, members[i].input, Some(n))
    else SpawnChild(n + i, members[i].name, members[i].input, Some(n))
  }

  predicate GatherDiverges(fan: Fan, members: seq<Member>, n: nat, h: History) {
    exists i | 0 <= i < |members| :: MemberEntry(fan, members, n, h, i).Mismatch?
  }

  /** Members from `i` on: the first one already recorded as a failure. */
  function FirstFailureFrom(fan: Fan, members: seq<Member>, n: nat, h: History, i: nat): Option<GatherItem>
    requires i <= |members|
    decreases |members| - i
  {
    if i == |members| then None
    else
      var e := MemberEntry(fan, members, n, h, i);
      if e.Found? && e.event.error.Some?
      then Some(GatherItem(Label(fan, FailFast, members[i], e.event), e.event.error.value))
      else FirstFailureFrom(fan, members, n, h, i + 1)
  }

  /** The commands of the still unresolved members among the first `i`. */
  function PendingUpTo(fan: Fan, members: seq<Member>, n: nat, h: History, i: nat): seq<Command>
    requires i <= |members|
  {
    if i == 0 then []
    else
      PendingUpTo(fan, members, n, h, i - 1) +
      (if n + (i - 1) in h then [] else [MemberCommand(fan, members, n, i - 1)])
  }

  function GatherEffect(op: Op, n: nat, h: History): Effect
    requires op.Gather?
  {
    if GatherDiverges(op.fan, op.members, n, h) then Effect(Diverged, [])
    else
      var failure := FirstFailureFrom(op.fan, op.members, n, h, 0);
      if op.mode.FailFast? && failure.Some? then Effect(Settled(Raised(GatherError([failure.value]))), [])
      else if Resolved(op, n, h) then Effect(Settled(Meaning(op, Block(op, n, h))), [])
      else Effect(Suspended, PendingUpTo(op.fan, op.members, n, h, |op.members|))
  }

  function PerformOp(op: Op, n: nat, h: History, captures: Captures): Effect {
    match op
    case Step(name, input) => Await(h, n, CallEvent, Some(name), Call(n, name, input, None))
    case Sleep(ms) => AwaitTimer(h, n, ms)
    case WaitSignal(signal) => Await(h, n, SignalEvent, Some(signal), AwaitSignal(n, signal))
    case StartChild(workflow, input) =>
      Await(h, n, ChildEvent, Some(workflow), SpawnChild(n, workflow, input, None))
    case Gather(_, _, _) => GatherEffect(op, n, h)
    case Now => Capture(h, n, NowName(n), captures)
    case SideEffect => Capture(h, n, "sideEffect", captures)
  }

  // --------------------------------------------------------------- a whole turn

  /** `Nondeterminism` is the failed decision raised by the guard itself. */
  datatype Decision = Done(output: Value) | Failure(error: StepError) | Continue | Nondeterminism

  datatype TurnResult = TurnResult(decision: Decision, commands: seq<Command>)

  function RunTurn(b: Body, n: nat, h: History, captures: Captures): TurnResult
    decreases b
  {
    match b
    case Return(v) => TurnResult(Done(v), [])
    case Throw(e) => TurnResult(Failure(e), [])
    case Do(op, rest) =>
      var effect := PerformOp(op, n, h, captures);
      match effect.result
      case Diverged => TurnResult(Nondeterminism, effect.commands)
      case Suspended => TurnResult(Continue, effect.commands)
      case Settled(o) =>
        var tail := RunTurn(rest[o], n + Width(op), h, captures);
        TurnResult(tail.decision, effect.commands + tail.commands)
  }

  const NO_WORKFLOW := StepError("no workflow registered", Some("no_workflow"), [])

  /** The replay context a body runs against: a position counter and the commands emitted so far. */
  class TurnContext {
    const history: History
    const captures: Captures
    var commands: seq<Command>
    var position: nat

    constructor (history: History, captures: Captures)
      ensures this.history == history && this.captures == captures
      ensures commands == [] && position == 0
    {
      this.history := history;
      this.captures := captures;
      commands := [];
      position := 0;
    }

    method Next() returns (n: nat)
      modifies this`position
      ensures n == old(position) && position == n + 1
    {
      n := position;
      position := position + 1;
    }

    /** Return the recorded outcome of a single-position operation, or emit its command and stop. */
    method AwaitOne(kind: EventKind, name: Option<string>, cmd: Command) returns (r: OpResult)
      modifies this
      ensures position == old(position) + 1
      ensures r == Await(history, old(position), kind, name, cmd).result
      ensures commands == old(commands) + Await(history, old(position), kind, name, cmd).commands
    {
      var n := Next();
      match Lookup(history, n, kind, name)
      case Mismatch(_) => r := Diverged;
      case Found(ev) => r := Settled(OutcomeOf(ev));
      case Missing =>
        commands := commands + [cmd];
        r := Suspended;
    }

    method SleepOp(ms: nat) returns (r: OpResult)
      modifies this
      ensures position == old(position) + 1
      ensures r == AwaitTimer(history, old(position), ms).result
      ensures commands == old(commands) + AwaitTimer(history, old(position), ms).commands
    {
      var n := Next();
      match Lookup(history, n, TimerEvent, None)
      case Mismatch(_) => r := Diverged;
      case Found(ev) => r := Settled(if ev.error.Some? then Raised(ev.error.value) else Returned(Undefined));
      case Missing =>
        commands := commands + [SleepFor(n, ms)];
        r := Suspended;
    }

    /** Run a local capture once and record its result, or replay the recorded one. */
    method LocalStep(name: string) returns (r: OpResult)
      modifies this
      ensures position == old(position) + 1
      ensures r == Capture(history, old(position), name, captures).result
      ensures commands == old(commands) + Capture(history, old(position), name, captures).commands
    {
      var n := Next();
      match Lookup(history, n, StepEvent, Some(name))
      case Mismatch(_) => r := Diverged;
      case Found(ev) => r := Settled(OutcomeOf(ev));
      case Missing =>
        var captured := captures(n);
        commands := commands + [RecordStep(n, name, captured)];
        r := Settled(CapturedOutcome(captured));
    }

    /** A parallel fan-out over a block of positions reserved in list order before any dispatch. */
    method GatherOp(fan: Fan, members: seq<Member>, mode: Mode) returns (r: OpResult)
      modifies this
      ensures position == old(position) + |members|
      ensures r == GatherEffect(Gather(fan, members, mode), old(position), history).result
      ensures commands == old(commands) + GatherEffect(Gather(fan, members, mode), old(position), history).commands
    {
      if |members| == 0 {
        ghost var events := Block(Gather(fan, members, mode), position, history);
        assert seq(|events|, i requires 0 <= i < |events| => events[i].output) == [];
        return Settled(Outputs([]));
      }
      var first := position;
      for i := 0 to |members|
        invariant position == first + i && commands == old(commands)
      {
        var _ := Next();
      }
      for i := 0 to |members|
        invariant forall j | 0 <= j < i :: !MemberEntry(fan, members, first, history, j).Mismatch?
      {
        if MemberEntry(fan, members, first, history, i).Mismatch? {
          return Diverged;
        }
      }
      if mode.FailFast? {
        for i := 0 to |members|
          invariant FirstFailureFrom(fan, members, first, history, 0)
                 == FirstFailureFrom(fan, members, first, history, i)
        {
          var e := MemberEntry(fan, members, first, history, i);
          if e.Found? && e.event.error.Some? {
            return Settled(Raised(GatherError([
              GatherItem(Label(fan, mode, members[i], e.event), e.event.error.value)])));
          }
        }
      }
      var pending := false;
      for i := 0 to |members|
        invariant position == first + |members|
        invariant commands == old(commands) + PendingUpTo(fan, members, first, history, i)
        invariant !pending <==> forall s | first <= s < first + i :: s in history
      {
        if first + i !in history {
          commands := commands + [MemberCommand(fan, members, first, i)];
          pending := true;
        }
      }
      if pending {
        assert !Resolved(Gather(fan, members, mode), first, history);
        return Suspended;
      }
      NothingPending(fan, members, first, history, |members|);
      r := Aggregate(fan, members, mode, first);
    }

    /** Outputs in input order, or one error carrying every failed member. */
    method Aggregate(fan: Fan, members: seq<Member>, mode: Mode, first: nat) returns (r: OpResult)
      requires Resolved(Gather(fan, members, mode), first, history)
      requires mode.FailFast? ==> FirstFailureFrom(fan, members, first, history, 0).None?
      requires !GatherDiverges(fan, members, first, history)
      ensures r == Settled(Meaning(Gather(fan, members, mode), Block(Gather(fan, members, mode), first, history)))
    {
      ghost var events := Block(Gather(fan, members, mode), first, history);
      var outputs: seq<Value> := [];
      var failures: seq<GatherItem> := [];
      for i := 0 to |members|
        invariant |outputs| == i
        invariant failures == FailuresUpTo(fan, mode, members, events, i)
        invariant failures == [] ==> forall j | 0 <= j < i :: outputs[j] == events[j].output
      {
        var ev := history[first + i];
        assert ev == events[i];
        if ev.error.Some? {
          failures := failures + [GatherItem(Label(fan, mode, members[i], ev), ev.error.value)];
          outputs := outputs + [Undefined];
        } else {
          outputs := outputs + [ev.output];
        }
      }
      if failures != [] {
        if mode.FailFast? {
          FailFastFindsFailure(fan, members, first, history, |members|);
          assert false;
        }
        return Settled(Raised(GatherError(failures)));
      }
      assert outputs == seq(|events|, i requires 0 <= i < |events| => events[i].output);
      r := Settled(Outputs(outputs));
    }

    method Perform(op: Op) returns (r: OpResult)
      modifies this
      ensures position == old(position) + Width(op)
      ensures r == PerformOp(op, old(position), history, captures).result
      ensures commands == old(commands) + PerformOp(op, old(position), history, captures).commands
    {
      match op
      case Step(name, input) => r := AwaitOne(CallEvent, Some(name), Call(position, name, input, None));
      case Sleep(ms) => r := SleepOp(ms);
      case WaitSignal(signal) => r := AwaitOne(SignalEvent, Some(signal), AwaitSignal(position, signal));
      case StartChild(workflow, input) =>
        r := AwaitOne(ChildEvent, Some(workflow), SpawnChild(position, workflow, input, None));
      case Gather(fan, members, mode) => r := GatherOp(fan, members, mode);
      case Now => r := LocalStep(NowName(position));
      case SideEffect => r := LocalStep("sideEffect");
    }
  }

  lemma NothingPending(fan: Fan, members: seq<Member>, n: nat, h: History, i: nat)
    requires i <= |members|
    requires forall s | n <= s < n + i :: s in h
    ensures PendingUpTo(fan, members, n, h, i) == []
  {
    if i > 0 {
      assert n + (i - 1) in h;
    }
  }

  /** The failed members are named in the aggregate error in order, separated by commas. */
  lemma {:induction false} NamesJoinInOrder(a: seq<GatherItem>, b: seq<GatherItem>)
    requires a != [] && b != []
    ensures JoinNames(a + b) == JoinNames(a) + ", " + JoinNames(b)
    decreases |b|
  {
    var front, last := b[..|b| - 1], b[|b| - 1];
    assert (a + b)[..|a + b| - 1] == a + front;
    if front != [] {
      NamesJoinInOrder(a, front);
      assert JoinNames(b) == JoinNames(front) + ", " + last.name;
    } else {
      assert a + front == a;
    }
  }

  // ------------------------------------------------------------ what a fan-out asks for

  /** `open` lists, in increasing order, exactly the positions of the first `i` members that are not on record. */
  predicate OpenPositions(open: seq<nat>, n: nat, h: History, i: nat) {
    && (forall a, b | 0 <= a < b < |open| :: open[a] < open[b])
    && (forall a | 0 <= a < |open| :: n <= open[a] < n + i && open[a] !in h)
    && (forall p: nat | n <= p < n + i && p !in h :: p in open)
  }

  /** The command calls or starts the member, with its own name and input, at position `p` of the group. */
  predicate AsksFor(cmd: Command, fan: Fan, member: Member, p: nat, group: nat) {
    match fan
    case Calls => cmd == Call(p, member.name, member.input, Some(group))
    case Children => cmd == SpawnChild(p, member.name, member.input, Some(group))
  }

  predicate AskEach(cmds: seq<Command>, open: seq<nat>, fan: Fan, members: seq<Member>, n: nat) {
    && |cmds| == |open|
    && forall a | 0 <= a < |open| ::
         n <= open[a] < n + |members| && AsksFor(cmds[a], fan, members[open[a] - n], open[a], n)
  }

  lemma {:induction false} PendingAskEach(fan: Fan, members: seq<Member>, n: nat, h: History, i: nat)
    returns (open: seq<nat>)
    requires i <= |members|
    ensures OpenPositions(open, n, h, i)
    ensures AskEach(PendingUpTo(fan, members, n, h, i), open, fan, members, n)
  {
    hide OpenPositions, AskEach, MemberCommand;
    if i == 0 {
      open := [];
      NoneOpen(fan, members, n, h);
    } else {
      open := PendingAskEach(fan, members, n, h, i - 1);
      if n + (i - 1) !in h {
        OneMoreOpen(open, n, h, i - 1);
        OneMoreAsked(PendingUpTo(fan, members, n, h, i - 1), open, fan, members, n, i - 1);
        open := open + [n + (i - 1)];
      } else {
        NoMoreOpen(open, n, h, i - 1);
        assert PendingUpTo(fan, members, n, h, i) == PendingUpTo(fan, members, n, h, i - 1);
      }
    }
  }

  lemma NoneOpen(fan: Fan, members: seq<Member>, n: nat, h: History)
    ensures OpenPositions([], n, h, 0) && AskEach([], [], fan, members, n)
  {
  }

  lemma NoMoreOpen(open: seq<nat>, n: nat, h: History, i: nat)
    requires OpenPositions(open, n, h, i) && n + i in h
    ensures OpenPositions(open, n, h, i + 1)
  {
  }

  lemma OneMoreAsked(cmds: seq<Command>, open: seq<nat>, fan: Fan, members: seq<Member>, n: nat, i: nat)
    requires i < |members| && AskEach(cmds, open, fan, members, n)
    ensures AskEach(cmds + [MemberCommand(fan, members, n, i)], open + [n + i], fan, members, n)
  {
    assert AsksFor(MemberCommand(fan, members, n, i), fan, members[n + i - n], n + i, n);
    hide AsksFor, MemberCommand;
  }

  lemma OneMoreOpen(open: seq<nat>, n: nat, h: History, i: nat)
    requires OpenPositions(open, n, h, i) && n + i !in h
    ensures OpenPositions(open + [n + i], n, h, i + 1)
  {
    var more := open + [n + i];
    assert more[|open|] == n + i;
    assert forall a | 0 <= a < |open| :: more[a] == open[a];
    assert forall p :: p in more <==> p in open || p == n + i;
  }

  /**
   * A fan-out that has to wait asks, in list order, for exactly the members not on record, each with its
   * own name and input at its own position, all as one group.
   */
  lemma FanOutAsksForTheMissing(op: Op, n: nat, h: History, captures: Captures) returns (open: seq<nat>)
    requires op.Gather? && PerformOp(op, n, h, captures).result.Suspended?
    ensures open != [] && OpenPositions(open, n, h, |op.members|)
    ensures AskEach(PerformOp(op, n, h, captures).commands, open, op.fan, op.members, n)
  {
    assert !Resolved(op, n, h);
    var p :| n <= p < n + Width(op) && p !in h;
    open := PendingAskEach(op.fan, op.members, n, h, |op.members|);
    assert p in open;
  }

  /** A recorded failure among the first `i` members is found by the fail-fast scan. */
  lemma {:induction false} FailFastFindsFailure(fan: Fan, members: seq<Member>, n: nat, h: History, i: nat)
    requires i <= |members|
    requires Resolved(Gather(fan, members, FailFast), n, h)
    requires !GatherDiverges(fan, members, n, h)
    requires FailuresUpTo(fan, FailFast, members, Block(Gather(fan, members, FailFast), n, h), i) != []
    ensures FirstFailureFrom(fan, members, n, h, 0) ==
            Some(FailuresUpTo(fan, FailFast, members, Block(Gather(fan, members, FailFast), n, h), i)[0])
  {
    var events := Block(Gather(fan, members, FailFast), n, h);
    if FailuresUpTo(fan, FailFast, members, events, i - 1) != [] {
      FailFastFindsFailure(fan, members, n, h, i - 1);
    } else {
      FailFastSkips(fan, members, n, h, i - 1);
      assert MemberEntry(fan, members, n, h, i - 1) == Found(events[i - 1]);
    }
  }

  lemma {:induction false} FailFastSkips(fan: Fan, members: seq<Member>, n: nat, h: History, i: nat)
    requires i <= |members|
    requires Resolved(Gather(fan, members, FailFast), n, h)
    requires FailuresUpTo(fan, FailFast, members, Block(Gather(fan, members, FailFast), n, h), i) == []
    ensures FirstFailureFrom(fan, members, n, h, 0) == FirstFailureFrom(fan, members, n, h, i)
  {
    if i > 0 {
      FailFastSkips(fan, members, n, h, i - 1);
      assert h[n + (i - 1)] == Block(Gather(fan, members, FailFast), n, h)[i - 1];
    }
  }

  /** What the body does after an outcome. */
  function Future(b: Body, o: Outcome): (next: Body)
    requires b.Do?
    ensures o in b.rest && next == b.rest[o]
  {
    b.rest[o]
  }

  /** Replay one turn of the registered body and return its decision with the commands it emitted. */
  method RunWorkflowTurn(bodies: map<string, Body>, workflow: string, history: History, captures: Captures)
    returns (r: TurnResult)
    ensures r == if workflow in bodies then RunTurn(bodies[workflow], 0, history, captures)
                 else TurnResult(Failure(NO_WORKFLOW), [])
  {
    if workflow !in bodies {
      return TurnResult(Failure(NO_WORKFLOW), []);
    }
    hide *;
    var ctx := new TurnContext(history, captures);
    var body: Body := bodies[workflow];
    ghost var whole := RunTurn(body, 0, history, captures);
    TurnStarts(whole, body, history, captures);
    while body.Do?
      invariant ctx.history == history && ctx.captures == captures
      invariant GoesOn(whole, ctx.commands, body, ctx.position, history, captures)
      decreases body
    {
      TurnGoesOn(whole, ctx.commands, body, ctx.position, history, captures);
      var result := ctx.Perform(body.op);
      match result
      case Diverged => return TurnResult(Nondeterminism, ctx.commands);
      case Suspended => return TurnResult(Continue, ctx.commands);
      case Settled(o) => body := Future(body, o);
    }
    TurnEnds(whole, ctx.commands, body, ctx.position, history, captures);
    match body
    case Return(v) => r := TurnResult(Done(v), ctx.commands);
    case Throw(e) => r := TurnResult(Failure(e), ctx.commands);
  }

  /** The result of a turn that had emitted `commands` before going on as `tail`. */
  function Emitted(commands: seq<Command>, tail: TurnResult): TurnResult {
    TurnResult(tail.decision, commands + tail.commands)
  }

  /** A turn whose result is `whole` has emitted `before` and is about to go on with `b` at position `n`. */
  ghost predicate GoesOn(whole: TurnResult, before: seq<Command>, b: Body, n: nat, h: History, captures: Captures) {
    whole == Emitted(before, RunTurn(b, n, h, captures))
  }

  lemma TurnStarts(whole: TurnResult, b: Body, h: History, captures: Captures)
    requires whole == RunTurn(b, 0, h, captures)
    ensures GoesOn(whole, [], b, 0, h, captures)
  {
  }

  lemma TurnEnds(whole: TurnResult, before: seq<Command>, b: Body, n: nat, h: History, captures: Captures)
    requires !b.Do? && GoesOn(whole, before, b, n, h, captures)
    ensures b.Return? ==> whole == TurnResult(Done(b.output), before)
    ensures b.Throw? ==> whole == TurnResult(Failure(b.error), before)
  {
  }

  lemma TurnGoesOn(whole: TurnResult, before: seq<Command>, b: Body, n: nat, h: History, captures: Captures)
    requires b.Do? && GoesOn(whole, before, b, n, h, captures)
    ensures var effect := PerformOp(b.op, n, h, captures);
            && (effect.result.Diverged? ==> whole == TurnResult(Nondeterminism, before + effect.commands))
            && (effect.result.Suspended? ==> whole == TurnResult(Continue, before + effect.commands))
            && (effect.result.Settled? ==>
                  GoesOn(whole, before + effect.commands, Future(b, effect.result.outcome), n + Width(b.op), h,
                         captures))
  {
    hide PerformOp;
    TurnUnfolds(b, n, h, captures, before);
  }

  lemma TurnUnfolds(b: Body, n: nat, h: History, captures: Captures, before: seq<Command>)
    requires b.Do?
    ensures var effect := PerformOp(b.op, n, h, captures);
            Emitted(before, RunTurn(b, n, h, captures)) ==
            match effect.result
            case Diverged => TurnResult(Nondeterminism, before + effect.commands)
            case Suspended => TurnResult(Continue, before + effect.commands)
            case Settled(o) =>
              Emitted(before + effect.commands, RunTurn(b.rest[o], n + Width(b.op), h, captures))
  {
    hide PerformOp;
    var effect := PerformOp(b.op, n, h, captures);
    if effect.result.Settled? {
      var tail := RunTurn(b.rest[effect.result.outcome], n + Width(b.op), h, captures);
      assert before + (effect.commands + tail.commands) == (before + effect.commands) + tail.commands;
    }
  }
}

/**
 * The engine's side of a remotely driven run: its checkpoints, the history they read back as, the
 * commands of a turn being applied, and results arriving in any order, also while a turn is open.
 * Models `remoteHistory`, `applyCommands` and `runRemoteExecution` in packages/adonis/src/engine.ts.
 */
module RemoteRun {
  import opened Common
  import opened WorkflowTurn

  datatype StepKind = Remote | Local | SleepTimer | Signal
  datatype Status = Pending | Completed | Failed

  datatype Checkpoint = Checkpoint(
    name: string, kind: StepKind, status: Status,
    output: Value, error: Option<StepError>, wakeAt: Option<int>)

  /** What is handed to a worker or a child run: the step or workflow of a position, with its input. */
  datatype Job = Job(seqNo: nat, name: string, input: Value)

  function Positions(jobs: seq<Job>): seq<nat> {
    seq(|jobs|, i requires 0 <= i < |jobs| => jobs[i].seqNo)
  }

  /**
   * What the store holds for one run. `rows` are its signal waiter rows (token to position), `buffered`
   * the payloads of signals that found no row, oldest first, `children` the child runs started,
   * `dispatched` and `recorded` log every step dispatch and every recorded local capture, and `lost`
   * are the calls whose checkpoint was saved by a process that died before dispatching them.
   */
  datatype RunState = RunState(
    runId: string, cps: map<nat, Checkpoint>, rows: map<string, nat>,
    buffered: map<string, seq<Value>>, children: set<Job>,
    dispatched: seq<Job>, recorded: seq<nat>, lost: set<nat>, clock: int)

  // ---------------------------------------------------------------- history

  predicate Visible(cp: Checkpoint, clock: int) {
    cp.status != Pending || (cp.kind == SleepTimer && cp.wakeAt.Some? && cp.wakeAt.value <= clock)
  }

  function KindOf(kind: StepKind): EventKind {
    match kind
    case Remote => CallEvent
    case Local => StepEvent
    case SleepTimer => TimerEvent
    case Signal => SignalEvent
  }

  function EventOf(cp: Checkpoint): HistoryEvent {
    if cp.status == Pending then HistoryEvent(TimerEvent, Some(cp.name), Undefined, None)
    else if cp.kind == Signal && "signal:child:" <= cp.name then
      HistoryEvent(ChildEvent, None,
                   if cp.output.CompletionOk? then cp.output.value else Undefined,
                   if cp.output.CompletionErr? then Some(PlainError(cp.output.message)) else None)
    else
      HistoryEvent(KindOf(cp.kind),
                   if cp.kind == Signal then None else Some(cp.name),
                   if cp.status == Completed then cp.output else Undefined,
                   if cp.status == Failed then cp.error else None)
  }

  /** The run's resolved operations as replay inputs. */
  function RemoteHistory(st: RunState): History {
    map s | s in st.cps && Visible(st.cps[s], st.clock) :: EventOf(st.cps[s])
  }

  // --------------------------------------------------------------- commands

  function ChildToken(runId: string, n: nat): string {
    "child:" + runId + ".child." + Digits(n)
  }

  /** What a delivered or consumed signal leaves at the position that awaits it. */
  function SignalCheckpoint(token: string, payload: Value): Checkpoint {
    Checkpoint("signal:" + token, Signal, Completed, payload, None, None)
  }

  predicate HasBuffered(st: RunState, token: string) {
    token in st.buffered && st.buffered[token] != []
  }

  function TakeBuffered(st: RunState, token: string): RunState
    requires HasBuffered(st, token)
  {
    st.(buffered := st.buffered[token := st.buffered[token][1..]])
  }

  function ApplyCommand(st: RunState, cmd: Command): RunState {
    match cmd
    case RecordStep(n, name, captured) =>
      var cp := match captured
                case Produced(v) => Checkpoint(name, Local, Completed, v, None, None)
                case Threw(e) => Checkpoint(name, Local, Failed, Undefined, Some(e), None);
      st.(cps := st.cps[n := cp], recorded := st.recorded + [n])
    case Call(n, name, input, group) =>
      if n in st.cps then st
      else st.(cps := st.cps[n := Checkpoint(name, Remote, Pending, Undefined, None, None)],
               dispatched := st.dispatched + [Job(n, name, input)])
    case SleepFor(n, ms) =>
      st.(cps := st.cps[n := Checkpoint("sleep:" + Digits(n), SleepTimer, Pending, Undefined, None,
                                        Some(st.clock + ms))])
    case AwaitSignal(n, signal) =>
      if HasBuffered(st, signal)
      then TakeBuffered(st, signal).(cps := st.cps[n := SignalCheckpoint(signal, st.buffered[signal][0])])
      else st.(rows := st.rows[signal := n])
    case SpawnChild(n, workflow, input, group) =>
      st.(rows := st.rows[ChildToken(st.runId, n) := n], children := st.children + {Job(n, workflow, input)})
  }

  /** The store write a command starts with, by a process that dies right after it. */
  function WriteOnly(st: RunState, cmd: Command): RunState {
    if cmd.AwaitSignal? && HasBuffered(st, cmd.signal) then TakeBuffered(st, cmd.signal)
    else
      ApplyCommand(st, cmd).(
        dispatched := st.dispatched, children := st.children,
        lost := if cmd.Call? && cmd.seqNo !in st.cps then st.lost + {cmd.seqNo} else st.lost)
  }

  function ApplyAll(st: RunState, cmds: seq<Command>): RunState
    decreases |cmds|
  {
    if cmds == [] then st else ApplyAll(ApplyCommand(st, cmds[0]), cmds[1..])
  }

  function Earlier(a: Option<int>, deadline: int): Option<int> {
    if a.None? || deadline < a.value then Some(deadline) else a
  }

  /** The earliest deadline among the timers of `cmds`: when the suspended run must wake. */
  function WakeAt(cmds: seq<Command>, clock: int): Option<int> {
    if cmds == [] then None
    else
      var last := cmds[|cmds| - 1];
      var before := WakeAt(cmds[..|cmds| - 1], clock);
      if last.SleepFor? then Earlier(before, clock + last.ms) else before
  }

  lemma {:induction false} ApplyAllAppend(st: RunState, a: seq<Command>, b: seq<Command>)
    ensures ApplyAll(st, a + b) == ApplyAll(ApplyAll(st, a), b)
    decreases |a|
  {
    if a == [] {
      assert a + b == b;
    } else {
      assert (a + b)[0] == a[0] && (a + b)[1..] == a[1..] + b;
      ApplyAllAppend(ApplyCommand(st, a[0]), a[1..], b);
    }
  }

  /** The wake time is a timer's deadline and no timer of the turn is due before it. */
  lemma {:induction false} WakeAtIsEarliest(cmds: seq<Command>, clock: int)
    ensures WakeAt(cmds, clock).None? <==> forall c | c in cmds :: !c.SleepFor?
    ensures WakeAt(cmds, clock).Some? ==>
              && (exists c | c in cmds :: c.SleepFor? && WakeAt(cmds, clock).value == clock + c.ms)
              && (forall c | c in cmds && c.SleepFor? :: WakeAt(cmds, clock).value <= clock + c.ms)
  {
    if cmds != [] {
      var front := cmds[..|cmds| - 1];
      WakeAtIsEarliest(front, clock);
      assert cmds == front + [cmds[|cmds| - 1]];
      assert forall c :: c in cmds <==> c in front || c == cmds[|cmds| - 1];
    }
  }

  /** The store rows of one run, updated in place as a turn's commands are applied. */
  class RunStore {
    const runId: string
    var cps: map<nat, Checkpoint>
    var rows: map<string, nat>
    var buffered: map<string, seq<Value>>
    var children: set<Job>
    var dispatched: seq<Job>
    var recorded: seq<nat>
    ghost var lost: set<nat>
    var clock: int

    ghost function View(): RunState
      reads this
    {
      RunState(runId, cps, rows, buffered, children, dispatched, recorded, lost, clock)
    }

    constructor (runId: string, clock: int)
      ensures View() == RunState(runId, map[], map[], map[], {}, [], [], {}, clock)
    {
      this.runId := runId;
      cps, rows, buffered, children, dispatched, recorded, lost := map[], map[], map[], {}, [], [], {};
      this.clock := clock;
    }

    /** One command: a capture, a call not yet on record, a timer, a wait or a child. */
    method Apply(cmd: Command)
      modifies this
      ensures View() == ApplyCommand(old(View()), cmd)
    {
      match cmd
      case RecordStep(n, name, captured) =>
        var cp := match captured
                  case Produced(v) => Checkpoint(name, Local, Completed, v, None, None)
                  case Threw(e) => Checkpoint(name, Local, Failed, Undefined, Some(e), None);
        cps := cps[n := cp];
        recorded := recorded + [n];
      case Call(n, name, input, group) =>
        if n !in cps {
          cps := cps[n := Checkpoint(name, Remote, Pending, Undefined, None, None)];
          dispatched := dispatched + [Job(n, name, input)];
        }
      case SleepFor(n, ms) =>
        cps := cps[n := Checkpoint("sleep:" + Digits(n), SleepTimer, Pending, Undefined, None, Some(clock + ms))];
      case AwaitSignal(n, signal) =>
        if signal in buffered && buffered[signal] != [] {
          cps := cps[n := SignalCheckpoint(signal, buffered[signal][0])];
          buffered := buffered[signal := buffered[signal][1..]];
        } else {
          rows := rows[signal := n];
        }
      case SpawnChild(n, workflow, input, group) =>
        rows := rows[ChildToken(runId, n) := n];
        children := children + {Job(n, workflow, input)};
    }

    /** Persist captures, dispatch calls not yet on record, schedule timers and register waiters. */
    method ApplyCommands(cmds: seq<Command>) returns (wakeAt: Option<int>)
      modifies this
      ensures View() == ApplyAll(old(View()), cmds)
      ensures wakeAt == WakeAt(cmds, clock)
    {
      wakeAt := None;
      ghost var start := View();
      for i := 0 to |cmds|
        invariant View() == ApplyAll(start, cmds[..i])
        invariant clock == start.clock
        invariant wakeAt == WakeAt(cmds[..i], clock)
      {
        assert cmds[..i + 1] == cmds[..i] + [cmds[i]];
        ApplyAllAppend(start, cmds[..i], [cmds[i]]);
        ClockStays(View(), cmds[i]);
        hide ApplyCommand;
        Apply(cmds[i]);
        if cmds[i].SleepFor? { wakeAt := Earlier(wakeAt, clock + cmds[i].ms); }
      }
      assert cmds[..|cmds|] == cmds;
    }
  }

  lemma ClockStays(st: RunState, cmd: Command)
    ensures ApplyCommand(st, cmd).clock == st.clock
  {
  }

  // ------------------------------------------------------------- environment

  /** What can happen to the store between two actions of the run's own driver. */
  datatype EnvStep =
    | Result(seqNo: nat, status: Status, output: Value, error: Option<StepError>)
    | SignalTo(token: string, payload: Value)
    | LoseRow(token: string)
    | Tick(to: int)

  /** A dispatched job is answered at most once, and time never runs backwards. */
  predicate EnvOk(st: RunState, e: EnvStep) {
    match e
    case Result(n, status, _, _) =>
      && n in st.cps && st.cps[n].kind == Remote && st.cps[n].status == Pending && n !in st.lost
      && status != Pending
    case SignalTo(_, _) => true
    case LoseRow(_) => true
    case Tick(to) => st.clock <= to
  }

  /** The signal takes a row whose position is on record, and overwrites what is recorded there. */
  predicate StaleTake(st: RunState, e: EnvStep) {
    e.SignalTo? && e.token in st.rows && st.rows[e.token] in st.cps
  }

  function ApplyEnv(st: RunState, e: EnvStep): RunState
    requires EnvOk(st, e)
  {
    match e
    case Result(n, status, output, error) =>
      var cp := st.cps[n];
      st.(cps := st.cps[n := cp.(status := status, error := error,
                                 output := if status == Completed then output else cp.output)])
    case SignalTo(token, payload) =>
      if token in st.rows
      then st.(cps := st.cps[st.rows[token] := SignalCheckpoint(token, payload)], rows := st.rows - {token})
      else
        var waiting := if HasBuffered(st, token) then st.buffered[token] else [];
        st.(buffered := st.buffered[token := waiting + [payload]])
    case LoseRow(token) => st.(rows := st.rows - {token})
    case Tick(to) => st.(clock := to)
  }

  // -------------------------------------------------------------- the system

  /**
   * A run being driven: `turn` holds the decision of an open turn and its commands still to be applied,
   * and `history` what the last turn read, with what it has recorded since.
   */
  datatype Sys = Sys(run: RunState, history: History, turn: Option<TurnResult>, result: Option<Decision>)

  /**
   * A turn begins by replaying the body over the history, applies its commands one by one and finishes.
   * `Crash(begun)`: its process dies, and if `begun` between the writes of the next command.
   */
  datatype SysStep = Begin(captures: Captures) | Apply | Finish | Crash(begun: bool) | Env(e: EnvStep)

  /** No result lands on a completed run, and on a failed one only a success does. */
  predicate Lands(result: Option<Decision>, e: EnvStep) {
    e.Result? && result.Some? ==> !result.value.Done? && e.status == Completed
  }

  /** What the late success of a failed run leaves: its output alone. */
  function Salvaged(result: Option<Decision>, e: EnvStep): EnvStep {
    if e.Result? && result.Some? then e.(error := None) else e
  }

  predicate Enabled(s: Sys, step: SysStep) {
    match step
    case Begin(_) => s.turn.None? && s.result.None?
    case Apply => s.turn.Some? && s.turn.value.commands != []
    case Finish => s.turn.Some? && s.turn.value.commands == []
    case Crash(_) => s.turn.Some?
    case Env(e) => EnvOk(s.run, e) && Lands(s.result, e)
  }

  /** A capture just recorded counts as read by the turn that made it. */
  function Noted(h: History, st: RunState, cmd: Command): History {
    if cmd.RecordStep? && cmd.seqNo in st.cps then h[cmd.seqNo := EventOf(st.cps[cmd.seqNo])] else h
  }

  function Next(body: Body, s: Sys, step: SysStep): Sys
    requires Enabled(s, step)
  {
    match step
    case Begin(captures) =>
      var h := RemoteHistory(s.run);
      s.(history := h, turn := Some(RunTurn(body, 0, h, captures)))
    case Apply =>
      var r := s.turn.value;
      var run := ApplyCommand(s.run, r.commands[0]);
      s.(run := run, history := Noted(s.history, run, r.commands[0]), turn := Some(r.(commands := r.commands[1..])))
    case Finish =>
      var d := s.turn.value.decision;
      s.(turn := None, result := if d.Continue? then None else Some(d))
    case Crash(begun) =>
      var cmds := s.turn.value.commands;
      if begun && cmds != [] then
        var run := WriteOnly(s.run, cmds[0]);
        s.(run := run, history := Noted(s.history, run, cmds[0]), turn := None)
      else s.(turn := None)
    case Env(e) => s.(run := ApplyEnv(s.run, Salvaged(s.result, e)))
  }

  ghost predicate Runs(body: Body, s: Sys, steps: seq<SysStep>)
    decreases |steps|
  {
    steps != [] ==> Enabled(s, steps[0]) && Runs(body, Next(body, s, steps[0]), steps[1..])
  }

  ghost function After(body: Body, s: Sys, steps: seq<SysStep>): Sys
    requires Runs(body, s, steps)
    decreases |steps|
  {
    if steps == [] then s else After(body, Next(body, s, steps[0]), steps[1..])
  }

  function Start(runId: string, clock: int): Sys {
    Sys(RunState(runId, map[], map[], map[], {}, [], [], {}, clock), map[], None, None)
  }

  // -------------------------------------------------------- uninterrupted pass

  type Oracle = nat -> HistoryEvent

  function OracleBlock(oracle: Oracle, n: nat, w: nat): (events: seq<HistoryEvent>)
    ensures |events| == w
  {
    seq(w, i requires 0 <= i < w => oracle(n + i))
  }

  /** One pass over the body in which every operation returns at once what the oracle holds for it. */
  function Uninterrupted(b: Body, n: nat, oracle: Oracle): Decision
    decreases b
  {
    match b
    case Return(v) => Done(v)
    case Throw(e) => Failure(e)
    case Do(op, rest) =>
      Uninterrupted(rest[Meaning(op, OracleBlock(oracle, n, Width(op)))], n + Width(op), oracle)
  }

  ghost predicate Agrees(oracle: Oracle, h: History) {
    forall s | s in h :: oracle(s) == h[s]
  }

  // ------------------------------------------------------------ replayable bodies

  /** A fan-out whose outcome cannot depend on which of its members resolved first. */
  predicate OrderFree(op: Op) {
    op.Gather? ==> op.mode.WaitAll? || |op.members| <= 1
  }

  /** A signal name the checkpoint reader would not mistake for a child completion. */
  predicate PlainSignal(op: Op) {
    op.WaitSignal? ==> !("child:" <= op.signal)
  }

  ghost predicate Replayable(b: Body)
    decreases b
  {
    match b
    case Return(_) => true
    case Throw(_) => true
    case Do(op, rest) => OrderFree(op) && PlainSignal(op) && forall o: Outcome :: Replayable(rest[o])
  }
}

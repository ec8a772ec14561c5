/**
 * What a run has to do with the world around it: what it asks of workers and child runs is what its body
 * performs, and what its body is told is what the world reported. Both are read off the steps of the
 * run, not off its checkpoints.
 * Models `applyCommands`, `remoteHistory` and the deliveries in packages/adonis/src/engine.ts.
 */
module ReplayWorld {
  import opened Common
  import opened WorkflowTurn
  import opened RemoteRun
  import opened ReplayTheorem
  import opened ReplayProgress

  // ------------------------------------------------------------------ what a run asks

  datatype Ask =
    | CallOf(name: string, input: Value)
    | ChildOf(workflow: string, input: Value)
    | TimerOf(ms: nat)
    | SignalOf(name: string)
    | CaptureOf(name: string)

  /** What an operation performed at position `n` asks of the world for position `n + i` of its block. */
  function AskOf(op: Op, n: nat, i: nat): Ask
    requires i < Width(op)
  {
    match op
    case Step(name, input) => CallOf(name, input)
    case StartChild(workflow, input) => ChildOf(workflow, input)
    case Gather(fan, members, _) =>
      if fan.Calls? then CallOf(members[i].name, members[i].input)
      else ChildOf(members[i].name, members[i].input)
    case Sleep(ms) => TimerOf(ms)
    case WaitSignal(name) => SignalOf(name)
    case Now => CaptureOf("now#" + Digits(n))
    case SideEffect => CaptureOf("sideEffect")
  }

  /** What the body asks for at position `p`, performed along the outcomes in `h`. */
  ghost function AskedAt(b: Body, n: nat, h: History, p: nat): Option<Ask>
    decreases b
  {
    match b
    case Return(_) => None
    case Throw(_) => None
    case Do(op, rest) =>
      if p < n then None
      else if p < n + Width(op) then Some(AskOf(op, n, p - n))
      else if Resolved(op, n, h) then AskedAt(rest[Meaning(op, Block(op, n, h))], n + Width(op), h, p)
      else None
  }

  /** Every job handed out is what the body asks for at its position. */
  ghost predicate JobsAsked(b: Body, h: History, st: RunState) {
    && (forall job | job in st.dispatched :: AskedAt(b, 0, h, job.seqNo) == Some(CallOf(job.name, job.input)))
    && (forall job | job in st.children :: AskedAt(b, 0, h, job.seqNo) == Some(ChildOf(job.name, job.input)))
  }

  lemma {:induction false} WiderHistoryAsks(b: Body, n: nat, h: History, h': History, p: nat)
    requires Extends(h, h') && AskedAt(b, n, h, p).Some?
    ensures AskedAt(b, n, h', p) == AskedAt(b, n, h, p)
    decreases b
  {
    if b.Do? && p >= n + Width(b.op) {
      assert Block(b.op, n, h') == Block(b.op, n, h);
      WiderHistoryAsks(b.rest[Meaning(b.op, Block(b.op, n, h))], n + Width(b.op), h, h', p);
    }
  }

  /** What a command asks of the world. */
  function AskedBy(cmd: Command): Ask {
    match cmd
    case Call(_, name, input, _) => CallOf(name, input)
    case SpawnChild(_, workflow, input, _) => ChildOf(workflow, input)
    case SleepFor(_, ms) => TimerOf(ms)
    case AwaitSignal(_, name) => SignalOf(name)
    case RecordStep(_, name, _) => CaptureOf(name)
  }

  /** The next command of an open turn asks for what the body asks for there. */
  lemma {:induction false} CommandAsks(b: Body, n: nat, h: History, t: TurnResult)
    requires TurnFits(b, n, h, t) && t.commands != []
    ensures AskedAt(b, n, h, t.commands[0].seqNo) == Some(AskedBy(t.commands[0]))
    decreases b
  {
    hide Meaning, CapturedOutcome;
    var cmd := t.commands[0];
    if b.Do? {
      if Resolved(b.op, n, h) {
        CommandAsks(b.rest[Meaning(b.op, Block(b.op, n, h))], n + Width(b.op), h, t);
        CommandIsAhead(b.rest[Meaning(b.op, Block(b.op, n, h))], n + Width(b.op), h, t);
      } else if !IsLocal(b.op) {
        assert EmittedBy(b.op, n, h, cmd);
      }
    }
  }

  lemma {:induction false} CommandIsAhead(b: Body, n: nat, h: History, t: TurnResult)
    requires TurnFits(b, n, h, t) && t.commands != []
    ensures n <= t.commands[0].seqNo && t.commands[0].seqNo !in h
    decreases b
  {
    hide Meaning, CaptureName, CapturedOutcome;
    if b.Do? {
      if Resolved(b.op, n, h) {
        CommandIsAhead(b.rest[Meaning(b.op, Block(b.op, n, h))], n + Width(b.op), h, t);
      } else if !IsLocal(b.op) {
        assert EmittedBy(b.op, n, h, t.commands[0]);
      }
    }
  }

  lemma CommandKeepsJobs(b: Body, h: History, st: RunState, t: TurnResult)
    requires JobsAsked(b, h, st) && TurnFits(b, 0, h, t) && t.commands != []
    ensures JobsAsked(b, h, ApplyCommand(st, t.commands[0])) && JobsAsked(b, h, WriteOnly(st, t.commands[0]))
  {
    hide TurnFits, AskedAt, ApplyCommand, WriteOnly;
    CommandAsks(b, 0, h, t);
    CommandHandsOut(st, t.commands[0]);
  }

  /** A command hands out at most its own job; dying after its first write, none. */
  lemma CommandHandsOut(st: RunState, cmd: Command)
    ensures forall job | job in ApplyCommand(st, cmd).dispatched ::
              job in st.dispatched || (cmd.Call? && job == Job(cmd.seqNo, cmd.name, cmd.input))
    ensures forall job | job in ApplyCommand(st, cmd).children ::
              job in st.children || (cmd.SpawnChild? && job == Job(cmd.seqNo, cmd.workflow, cmd.input))
    ensures WriteOnly(st, cmd).dispatched == st.dispatched && WriteOnly(st, cmd).children == st.children
  {
    hide ChildToken, Digits;
  }

  lemma NotedKeepsJobs(b: Body, h: History, st: RunState, like: RunState, cmd: Command)
    requires JobsAsked(b, h, st) && cmd.seqNo !in h
    ensures JobsAsked(b, Noted(h, like, cmd), st)
  {
    JobsWiden(b, h, Noted(h, like, cmd), st);
  }

  lemma JobsWiden(b: Body, h: History, h': History, st: RunState)
    requires JobsAsked(b, h, st) && Extends(h, h')
    ensures JobsAsked(b, h', st)
  {
    hide AskedAt;
    forall job | job in st.dispatched ensures AskedAt(b, 0, h', job.seqNo) == Some(CallOf(job.name, job.input)) {
      WiderHistoryAsks(b, 0, h, h', job.seqNo);
    }
    forall job | job in st.children ensures AskedAt(b, 0, h', job.seqNo) == Some(ChildOf(job.name, job.input)) {
      WiderHistoryAsks(b, 0, h, h', job.seqNo);
    }
  }

  lemma StepKeepsJobs(body: Body, s: Sys, step: SysStep)
    requires Replayable(body) && Inv(body, s) && Enabled(s, step) && JobsAsked(body, s.history, s.run)
    ensures var s' := Next(body, s, step); JobsAsked(body, s'.history, s'.run)
  {
    hide FitsAt, TurnFits, Reaches, Logged, LocalsKnown, JobsAsked, RunTurn, ApplyCommand, WriteOnly, Noted;
    match step
    case Begin(_) =>
      UnderExtends(s.history, s.run);
      JobsWiden(body, s.history, RemoteHistory(s.run), s.run);
    case Apply => ApplyKeepsJobs(body, s);
    case Finish =>
    case Crash(begun) => if begun && s.turn.value.commands != [] { ApplyKeepsJobs(body, s); }
    case Env(e) => EnvKeepsJobs(body, s.history, s.run, Salvaged(s.result, e));
  }

  lemma ApplyKeepsJobs(body: Body, s: Sys)
    requires Inv(body, s) && s.turn.Some? && s.turn.value.commands != [] && JobsAsked(body, s.history, s.run)
    ensures var cmd := s.turn.value.commands[0];
            && JobsAsked(body, Noted(s.history, ApplyCommand(s.run, cmd), cmd), ApplyCommand(s.run, cmd))
            && JobsAsked(body, Noted(s.history, WriteOnly(s.run, cmd), cmd), WriteOnly(s.run, cmd))
  {
    hide FitsAt, TurnFits, Reaches, Logged, LocalsKnown, Under, JobsAsked, ApplyCommand, WriteOnly, Noted;
    var cmd := s.turn.value.commands[0];
    CommandKeepsJobs(body, s.history, s.run, s.turn.value);
    CommandIsAhead(body, 0, s.history, s.turn.value);
    NotedKeepsJobs(body, s.history, ApplyCommand(s.run, cmd), ApplyCommand(s.run, cmd), cmd);
    NotedKeepsJobs(body, s.history, WriteOnly(s.run, cmd), WriteOnly(s.run, cmd), cmd);
  }

  lemma EnvKeepsJobs(b: Body, h: History, st: RunState, e: EnvStep)
    requires JobsAsked(b, h, st) && EnvOk(st, e)
    ensures JobsAsked(b, h, ApplyEnv(st, e))
  {
    hide AskedAt;
  }

  lemma {:induction false} RunKeepsJobs(body: Body, s: Sys, steps: seq<SysStep>)
    requires Replayable(body) && Inv(body, s) && Runs(body, s, steps) && NoStaleTake(body, s, steps)
    requires JobsAsked(body, s.history, s.run)
    ensures var s' := After(body, s, steps); JobsAsked(body, s'.history, s'.run)
    decreases |steps|
  {
    hide Inv, Next, Enabled, StaleTake, JobsAsked;
    if steps != [] {
      StepKeepsInv(body, s, steps[0]);
      StepKeepsJobs(body, s, steps[0]);
      RunKeepsJobs(body, Next(body, s, steps[0]), steps[1..]);
    }
  }

  /**
   * Over every run, each command about to be applied asks for what the body, performed along what the
   * turn has read, asks for at that position: the same call, child, delay, signal or capture.
   */
  lemma CommandsAreWhatTheBodyAsks(body: Body, runId: string, clock: int, steps: seq<SysStep>)
    requires Replayable(body) && Runs(body, Start(runId, clock), steps)
    requires NoStaleTake(body, Start(runId, clock), steps)
    requires var s := After(body, Start(runId, clock), steps); s.turn.Some? && s.turn.value.commands != []
    ensures var s := After(body, Start(runId, clock), steps);
            var cmd := s.turn.value.commands[0];
            AskedAt(body, 0, s.history, cmd.seqNo) == Some(AskedBy(cmd))
  {
    StartInv(body, runId, clock);
    RunKeepsInv(body, Start(runId, clock), steps);
    var s := After(body, Start(runId, clock), steps);
    CommandAsks(body, 0, s.history, s.turn.value);
  }

  /**
   * Over all turns of the run, every job dispatched and every child started is of the name and with the
   * input that the body, performed along what is on record, has at that position.
   */
  lemma JobsAreWhatTheBodyAsks(body: Body, runId: string, clock: int, steps: seq<SysStep>)
    requires Replayable(body) && Runs(body, Start(runId, clock), steps)
    requires NoStaleTake(body, Start(runId, clock), steps)
    ensures var st := After(body, Start(runId, clock), steps).run;
            var h := RemoteHistory(st);
            && (forall job | job in st.dispatched ::
                  AskedAt(body, 0, h, job.seqNo) == Some(CallOf(job.name, job.input)))
            && (forall job | job in st.children ::
                  AskedAt(body, 0, h, job.seqNo) == Some(ChildOf(job.name, job.input)))
  {
    StartInv(body, runId, clock);
    RunKeepsInv(body, Start(runId, clock), steps);
    RunKeepsJobs(body, Start(runId, clock), steps);
    var end := After(body, Start(runId, clock), steps);
    hide AskedAt, FitsAt, TurnFits, Reaches;
    UnderExtends(end.history, end.run);
    JobsWiden(body, end.history, RemoteHistory(end.run), end.run);
  }

  // --------------------------------------------------------------- what a run is told

  /** What the world says of a position: an output, or an error. */
  datatype Report = Report(output: Value, error: Option<StepError>)

  /**
   * What the world has said so far: `told` per position, `queue` the signals sent to a name nobody
   * waited for, oldest first, `due` the deadlines of the timers, and `captures` what the open turn's
   * captures produce.
   */
  datatype World = World(
    told: map<nat, Report>, queue: map<string, seq<Value>>, due: map<nat, int>, captures: Captures)

  const SILENT := World(map[], map[], map[], n => Produced(Undefined))

  function Queued(w: World, token: string): seq<Value> {
    if token in w.queue then w.queue[token] else []
  }

  /** A signal says its payload; the completion of a child says the child's value or its error. */
  function SaidBy(token: string, payload: Value): Report {
    if "child:" <= token then
      match payload
      case CompletionOk(v) => Report(v, None)
      case CompletionErr(message) => Report(Undefined, Some(StepError(message, None, [])))
      case _ => Report(Undefined, None)
    else Report(payload, None)
  }

  function SaidByCapture(c: Captured): Report {
    match c
    case Produced(v) => Report(v, None)
    case Threw(e) => Report(Undefined, Some(e))
  }

  /** What a step of the run adds to what the world has said. */
  function Hear(w: World, s: Sys, step: SysStep): World {
    match step
    case Begin(captures) => w.(captures := captures)
    case Apply =>
      if s.turn.Some? && s.turn.value.commands != []
      then Take(w, s.turn.value.commands[0], s.run.clock, true) else w
    case Finish => w
    case Crash(begun) =>
      if begun && s.turn.Some? && s.turn.value.commands != []
      then Take(w, s.turn.value.commands[0], s.run.clock, false) else w
    case Env(Result(n, status, output, error)) =>
      w.(told := w.told[n := if status == Completed then Report(output, None) else Report(Undefined, error)])
    case Env(SignalTo(token, payload)) =>
      if token in s.run.rows then w.(told := w.told[s.run.rows[token] := SaidBy(token, payload)])
      else w.(queue := w.queue[token := Queued(w, token) + [payload]])
    case Env(_) => w
  }

  /** A command takes what the world has ready for it; a process that dies at once loses a signal it took. */
  function Take(w: World, cmd: Command, clock: int, survives: bool): World {
    match cmd
    case RecordStep(n, _, _) => w.(told := w.told[n := SaidByCapture(w.captures(n))])
    case SleepFor(n, ms) => w.(due := w.due[n := clock + ms])
    case AwaitSignal(n, signal) =>
      if Queued(w, signal) == [] then w
      else
        var rest := w.(queue := w.queue[signal := Queued(w, signal)[1..]]);
        if survives then rest.(told := w.told[n := SaidBy(signal, Queued(w, signal)[0])]) else rest
    case _ => w
  }

  ghost function Heard(body: Body, s: Sys, steps: seq<SysStep>, w: World): World
    requires Runs(body, s, steps)
    decreases |steps|
  {
    if steps == [] then w else Heard(body, Next(body, s, steps[0]), steps[1..], Hear(w, s, steps[0]))
  }

  // ------------------------------------------------------- the record is what was told

  /** The checkpoint reads back as the report. */
  predicate ReadsAs(cp: Checkpoint, report: Report) {
    cp.status != Pending && EventOf(cp).output == report.output && EventOf(cp).error == report.error
  }

  ghost predicate RecordsTold(st: RunState, w: World) {
    && (forall p | p in w.told :: p in st.cps && ReadsAs(st.cps[p], w.told[p]))
    && (forall p | p in st.cps && st.cps[p].status != Pending :: p in w.told)
    && (forall p | p in w.due :: p in st.cps && st.cps[p].kind == SleepTimer && st.cps[p].wakeAt == Some(w.due[p]))
    && (forall p | p in st.cps && st.cps[p].kind == SleepTimer :: p in w.due)
  }

  ghost predicate QueuesTold(st: RunState, w: World) {
    forall token :: Queued(w, token) == if HasBuffered(st, token) then st.buffered[token] else []
  }

  predicate CapturesTold(t: TurnResult, captures: Captures) {
    forall cmd | cmd in t.commands && cmd.RecordStep? :: cmd.captured == captures(cmd.seqNo)
  }

  ghost predicate Faithful(s: Sys, w: World) {
    && RecordsTold(s.run, w) && QueuesTold(s.run, w)
    && (s.turn.Some? ==> CapturesTold(s.turn.value, w.captures))
  }

  lemma {:induction false} TurnCaptures(b: Body, n: nat, h: History, captures: Captures)
    ensures CapturesTold(RunTurn(b, n, h, captures), captures)
    decreases b
  {
    if b.Do? {
      OpCaptures(b.op, n, h, captures);
      var effect := PerformOp(b.op, n, h, captures);
      if effect.result.Settled? {
        TurnCaptures(b.rest[effect.result.outcome], n + Width(b.op), h, captures);
      }
      hide PerformOp;
    }
  }

  lemma OpCaptures(op: Op, n: nat, h: History, captures: Captures)
    ensures forall cmd | cmd in PerformOp(op, n, h, captures).commands && cmd.RecordStep? ::
              cmd.captured == captures(cmd.seqNo)
  {
    if op.Gather? {
      PendingCaptures(op, n, h, |op.members|);
    }
  }

  lemma {:induction false} PendingCaptures(op: Op, n: nat, h: History, i: nat)
    requires op.Gather? && i <= |op.members|
    ensures forall cmd | cmd in PendingUpTo(op.fan, op.members, n, h, i) :: !cmd.RecordStep?
  {
    if i > 0 {
      PendingCaptures(op, n, h, i - 1);
    }
  }

  /** A delivered signal reads back as what it said. */
  lemma SignalReads(token: string, payload: Value)
    ensures ReadsAs(SignalCheckpoint(token, payload), SaidBy(token, payload))
  {
    SignalChildPrefix(token);
  }

  /** One position is told something, and its checkpoint reads as that. */
  lemma OneTold(st: RunState, st': RunState, w: World, w': World, p: nat, report: Report)
    requires RecordsTold(st, w) && p in st'.cps && st'.cps == st.cps[p := st'.cps[p]]
    requires w'.told == w.told[p := report] && w'.due == w.due && ReadsAs(st'.cps[p], report)
    requires st'.cps[p].kind != SleepTimer && (p in st.cps ==> st.cps[p].kind != SleepTimer)
    ensures RecordsTold(st', w')
  {
    hide ReadsAs;
  }

  /** A timer is set, at a position that had nothing or that timer. */
  lemma OneDue(st: RunState, st': RunState, w: World, w': World, p: nat, at: int)
    requires RecordsTold(st, w) && p in st'.cps && st'.cps == st.cps[p := st'.cps[p]]
    requires w'.told == w.told && w'.due == w.due[p := at]
    requires st'.cps[p].kind == SleepTimer && st'.cps[p].status == Pending && st'.cps[p].wakeAt == Some(at)
    requires p in st.cps ==> st.cps[p].kind == SleepTimer && st.cps[p].status == Pending
    ensures RecordsTold(st', w')
  {
    assert p in w.told ==> ReadsAs(st.cps[p], w.told[p]);
  }

  /** A call is saved, of which the world has yet to say anything. */
  lemma OneCalled(st: RunState, st': RunState, w: World, p: nat)
    requires RecordsTold(st, w) && p !in st.cps && p in st'.cps && st'.cps == st.cps[p := st'.cps[p]]
    requires st'.cps[p].kind == Remote && st'.cps[p].status == Pending
    ensures RecordsTold(st', w)
  {
    hide ReadsAs;
  }

  lemma NoneTold(st: RunState, st': RunState, w: World, w': World)
    requires RecordsTold(st, w) && st'.cps == st.cps && w'.told == w.told && w'.due == w.due
    ensures RecordsTold(st', w')
  {
    hide ReadsAs;
  }

  lemma SameQueues(st: RunState, st': RunState, w: World, w': World)
    requires QueuesTold(st, w) && st'.buffered == st.buffered && w'.queue == w.queue
    ensures QueuesTold(st', w')
  {
    forall token ensures Queued(w', token) == if HasBuffered(st', token) then st'.buffered[token] else [] {
      assert Queued(w, token) == if HasBuffered(st, token) then st.buffered[token] else [];
    }
  }

  lemma EnvTold(s: Sys, e: EnvStep, w: World)
    requires RecordsTold(s.run, w) && QueuesTold(s.run, w) && Enabled(s, Env(e)) && !StaleTake(s.run, e)
    ensures var w', st' := Hear(w, s, Env(e)), ApplyEnv(s.run, Salvaged(s.result, e));
            RecordsTold(st', w') && QueuesTold(st', w') && w'.captures == w.captures
  {
    hide RecordsTold, QueuesTold, SaidBy, ReadsAs, EventOf;
    var w', st' := Hear(w, s, Env(e)), ApplyEnv(s.run, Salvaged(s.result, e));
    if !e.SignalTo? {
      SameQueues(s.run, st', w, w');
    }
    match e
    case Result(n, status, output, error) =>
      var report := if status == Completed then Report(output, None) else Report(Undefined, error);
      ResultReads(s, e);
      OneTold(s.run, st', w, w', n, report);
    case SignalTo(token, payload) =>
      SignalQueues(s, e, w);
      if token in s.run.rows {
        SignalReads(token, payload);
        OneTold(s.run, st', w, w', s.run.rows[token], SaidBy(token, payload));
      } else {
        NoneTold(s.run, st', w, w');
      }
    case _ => NoneTold(s.run, st', w, w');
  }

  /** A result that lands reads back as it was reported. */
  lemma ResultReads(s: Sys, e: EnvStep)
    requires Enabled(s, Env(e)) && e.Result?
    ensures var st', n := ApplyEnv(s.run, Salvaged(s.result, e)), e.seqNo;
            && n in st'.cps && st'.cps[n].kind == Remote && s.run.cps[n].kind == Remote
            && st'.cps == s.run.cps[n := st'.cps[n]] && st'.buffered == s.run.buffered
            && ReadsAs(st'.cps[n], if e.status == Completed then Report(e.output, None) else Report(Undefined, e.error))
  {
  }

  lemma SignalQueues(s: Sys, e: EnvStep, w: World)
    requires QueuesTold(s.run, w) && e.SignalTo?
    ensures QueuesTold(ApplyEnv(s.run, e), Hear(w, s, Env(e)))
  {
    hide SaidBy, SignalCheckpoint;
    var st', w' := ApplyEnv(s.run, e), Hear(w, s, Env(e));
    forall token ensures Queued(w', token) == if HasBuffered(st', token) then st'.buffered[token] else [] {
      assert Queued(w, token) == if HasBuffered(s.run, token) then s.run.buffered[token] else [];
    }
  }

  /** The timer command of an open turn meets at its position nothing, or its own timer. */
  lemma {:induction false} TimerMeetsTimer(b: Body, n: nat, h: History, st: RunState, t: TurnResult)
    requires FitsAt(b, n, h, st) && TurnFits(b, n, h, t) && t.commands != []
    ensures var cmd := t.commands[0];
            && (cmd.SleepFor? && cmd.seqNo in st.cps ==>
                  st.cps[cmd.seqNo].kind == SleepTimer && st.cps[cmd.seqNo].status == Pending)
            && (cmd.AwaitSignal? && cmd.seqNo in st.cps ==> st.cps[cmd.seqNo].kind == Signal)
    decreases b
  {
    hide Meaning, CaptureName, CapturedOutcome;
    if b.Do? {
      if Resolved(b.op, n, h) {
        TimerMeetsTimer(b.rest[Meaning(b.op, Block(b.op, n, h))], n + Width(b.op), h, st, t);
      } else if !IsLocal(b.op) {
        assert EmittedBy(b.op, n, h, t.commands[0]);
        if !b.op.Gather? && n in st.cps {
          assert SlotFits(b.op, n, n - n, st.cps[n]);
        }
      }
    }
  }

  lemma CommandTold(st: RunState, cmd: Command, w: World)
    requires RecordsTold(st, w) && QueuesTold(st, w)
    requires cmd.SleepFor? && cmd.seqNo in st.cps ==>
               st.cps[cmd.seqNo].kind == SleepTimer && st.cps[cmd.seqNo].status == Pending
    requires cmd.AwaitSignal? && cmd.seqNo in st.cps ==> st.cps[cmd.seqNo].kind == Signal
    requires cmd.RecordStep? ==> cmd.seqNo !in st.cps && cmd.captured == w.captures(cmd.seqNo)
    ensures RecordsTold(ApplyCommand(st, cmd), Take(w, cmd, st.clock, true))
    ensures RecordsTold(WriteOnly(st, cmd), Take(w, cmd, st.clock, false))
  {
    hide RecordsTold, SaidBy, ReadsAs, EventOf, ChildToken, Digits;
    var whole, part, n := ApplyCommand(st, cmd), WriteOnly(st, cmd), cmd.seqNo;
    var w1, w2 := Take(w, cmd, st.clock, true), Take(w, cmd, st.clock, false);
    match cmd
    case RecordStep(_, _, captured) =>
      CaptureReads(st, cmd);
      OneTold(st, whole, w, w1, n, SaidByCapture(captured));
      OneTold(st, part, w, w2, n, SaidByCapture(captured));
    case Call(_, _, _, _) =>
      if n !in st.cps {
        OneCalled(st, whole, w, n);
        OneCalled(st, part, w, n);
      } else {
        NoneTold(st, whole, w, w);
        NoneTold(st, part, w, w);
      }
    case SleepFor(_, ms) =>
      OneDue(st, whole, w, w1, n, st.clock + ms);
      OneDue(st, part, w, w2, n, st.clock + ms);
    case AwaitSignal(_, signal) =>
      assert Queued(w, signal) == if HasBuffered(st, signal) then st.buffered[signal] else [];
      NoneTold(st, part, w, w2);
      if HasBuffered(st, signal) {
        SignalReads(signal, st.buffered[signal][0]);
        OneTold(st, whole, w, w1, n, SaidBy(signal, st.buffered[signal][0]));
      } else {
        NoneTold(st, whole, w, w1);
      }
    case SpawnChild(_, _, _, _) =>
      NoneTold(st, whole, w, w1);
      NoneTold(st, part, w, w2);
  }

  lemma CaptureReads(st: RunState, cmd: Command)
    requires cmd.RecordStep? && cmd.seqNo !in st.cps
    ensures var whole, part := ApplyCommand(st, cmd), WriteOnly(st, cmd);
            && part.cps == whole.cps && cmd.seqNo in whole.cps && whole.cps[cmd.seqNo].kind == Local
            && whole.cps == st.cps[cmd.seqNo := whole.cps[cmd.seqNo]]
            && ReadsAs(whole.cps[cmd.seqNo], SaidByCapture(cmd.captured))
  {
  }

  lemma CommandQueues(st: RunState, cmd: Command, w: World)
    requires QueuesTold(st, w)
    ensures QueuesTold(ApplyCommand(st, cmd), Take(w, cmd, st.clock, true))
    ensures QueuesTold(WriteOnly(st, cmd), Take(w, cmd, st.clock, false))
  {
    hide SaidBy, SignalCheckpoint, ChildToken, Digits, QueuesTold;
    var whole, part := ApplyCommand(st, cmd), WriteOnly(st, cmd);
    if cmd.AwaitSignal? {
      AwaitQueues(st, cmd, w);
    } else {
      SameQueues(st, whole, w, Take(w, cmd, st.clock, true));
      SameQueues(st, part, w, Take(w, cmd, st.clock, false));
    }
  }

  /** A wait takes the oldest payload of its own queue and leaves the others. */
  lemma AwaitQueues(st: RunState, cmd: Command, w: World)
    requires QueuesTold(st, w) && cmd.AwaitSignal?
    ensures QueuesTold(ApplyCommand(st, cmd), Take(w, cmd, st.clock, true))
    ensures QueuesTold(WriteOnly(st, cmd), Take(w, cmd, st.clock, false))
  {
    hide SaidBy, SignalCheckpoint;
    var whole, part := ApplyCommand(st, cmd), WriteOnly(st, cmd);
    var w1, w2 := Take(w, cmd, st.clock, true), Take(w, cmd, st.clock, false);
    assert Queued(w, cmd.signal) == if HasBuffered(st, cmd.signal) then st.buffered[cmd.signal] else [];
    assert whole.buffered == part.buffered && w1.queue == w2.queue;
    forall token ensures Queued(w1, token) == if HasBuffered(whole, token) then whole.buffered[token] else [] {
      assert Queued(w, token) == if HasBuffered(st, token) then st.buffered[token] else [];
    }
    SameQueues(whole, part, w1, w2);
  }

  lemma ApplyTold(body: Body, s: Sys, w: World)
    requires Inv(body, s) && Faithful(s, w) && s.turn.Some? && s.turn.value.commands != []
    ensures var cmd := s.turn.value.commands[0];
            && RecordsTold(ApplyCommand(s.run, cmd), Take(w, cmd, s.run.clock, true))
            && QueuesTold(ApplyCommand(s.run, cmd), Take(w, cmd, s.run.clock, true))
            && RecordsTold(WriteOnly(s.run, cmd), Take(w, cmd, s.run.clock, false))
            && QueuesTold(WriteOnly(s.run, cmd), Take(w, cmd, s.run.clock, false))
  {
    hide FitsAt, TurnFits, Reaches, Logged, ApplyCommand, WriteOnly, RecordsTold, QueuesTold, Take;
    var t := s.turn.value;
    TimerMeetsTimer(body, 0, s.history, s.run, t);
    CommandIsAhead(body, 0, s.history, t);
    CaptureIsFresh(body, 0, s.history, s.run, t);
    CommandTold(s.run, t.commands[0], w);
    CommandQueues(s.run, t.commands[0], w);
  }

  lemma {:induction false} CaptureIsFresh(b: Body, n: nat, h: History, st: RunState, t: TurnResult)
    requires FitsAt(b, n, h, st) && LocalsKnown(h, st) && TurnFits(b, n, h, t) && t.commands != []
    ensures t.commands[0].RecordStep? ==> t.commands[0].seqNo !in st.cps
    decreases b
  {
    hide Meaning, CaptureName, CapturedOutcome;
    if b.Do? {
      if Resolved(b.op, n, h) {
        CaptureIsFresh(b.rest[Meaning(b.op, Block(b.op, n, h))], n + Width(b.op), h, st, t);
      } else if IsLocal(b.op) {
        assert n !in h && n !in st.cps;
      } else {
        assert EmittedBy(b.op, n, h, t.commands[0]);
      }
    }
  }

  lemma StepFaithful(body: Body, s: Sys, step: SysStep, w: World)
    requires Inv(body, s) && Faithful(s, w) && Enabled(s, step) && (step.Env? ==> !StaleTake(s.run, step.e))
    ensures Faithful(Next(body, s, step), Hear(w, s, step))
  {
    hide RecordsTold, QueuesTold, Inv, RunTurn, ApplyCommand, WriteOnly, Take, ApplyEnv, Noted, RemoteHistory;
    match step
    case Begin(captures) =>
      TurnCaptures(body, 0, RemoteHistory(s.run), captures);
      CapturesChange(s.run, w, captures);
    case Apply =>
      ApplyTold(body, s, w);
      TakeKeepsCaptures(w, s.turn.value.commands[0], s.run.clock, true);
      assert forall cmd | cmd in s.turn.value.commands[1..] :: cmd in s.turn.value.commands;
    case Finish =>
    case Crash(begun) => if begun && s.turn.value.commands != [] { ApplyTold(body, s, w); }
    case Env(e) => EnvTold(s, e, w);
  }

  lemma CapturesChange(st: RunState, w: World, captures: Captures)
    requires RecordsTold(st, w) && QueuesTold(st, w)
    ensures RecordsTold(st, w.(captures := captures)) && QueuesTold(st, w.(captures := captures))
  {
    SameQueues(st, st, w, w.(captures := captures));
  }

  lemma TakeKeepsCaptures(w: World, cmd: Command, clock: int, survives: bool)
    ensures Take(w, cmd, clock, survives).captures == w.captures
  {
  }

  lemma {:induction false} RunFaithful(body: Body, s: Sys, steps: seq<SysStep>, w: World)
    requires Replayable(body) && Inv(body, s) && Runs(body, s, steps) && NoStaleTake(body, s, steps)
    requires Faithful(s, w)
    ensures Faithful(After(body, s, steps), Heard(body, s, steps, w))
    decreases |steps|
  {
    hide Inv, Next, Enabled, StaleTake, Faithful, Hear;
    if steps != [] {
      StepKeepsInv(body, s, steps[0]);
      StepFaithful(body, s, steps[0], w);
      RunFaithful(body, Next(body, s, steps[0]), steps[1..], Hear(w, s, steps[0]));
    }
  }

  /**
   * Over every run, what the next turn would read is what the world has said: the positions it was told
   * about, and the timers whose deadline has come.
   */
  lemma HistoryIsWhatWasHeard(body: Body, runId: string, clock: int, steps: seq<SysStep>, p: nat)
    requires Replayable(body) && Runs(body, Start(runId, clock), steps)
    requires NoStaleTake(body, Start(runId, clock), steps)
    ensures var st := After(body, Start(runId, clock), steps).run;
            var w := Heard(body, Start(runId, clock), steps, SILENT);
            && (p in RemoteHistory(st) <==> p in w.told || (p in w.due && w.due[p] <= st.clock))
            && (p in w.told ==> RemoteHistory(st)[p].output == w.told[p].output
                                && RemoteHistory(st)[p].error == w.told[p].error)
  {
    StartInv(body, runId, clock);
    RunKeepsInv(body, Start(runId, clock), steps);
    RunFaithful(body, Start(runId, clock), steps, SILENT);
    hide Inv;
  }

  // ------------------------------------------------- a body that is answered at once

  type Reports = nat -> Report

  /** What a report is to the body. */
  function Heeded(report: Report): Outcome {
    if report.error.Some? then Raised(report.error.value) else Returned(report.output)
  }

  /** The failed members among the first `i` of a fan-out at `n`, in list order, under their own names. */
  function FailedAmong(members: seq<Member>, n: nat, reports: Reports, i: nat): seq<GatherItem>
    requires i <= |members|
  {
    if i == 0 then []
    else
      FailedAmong(members, n, reports, i - 1) +
      match reports(n + (i - 1)).error
      case Some(error) => [GatherItem(members[i - 1].name, error)]
      case None => []
  }

  /** What an operation performed at position `n` is to the body, given the reports. */
  function Answered(op: Op, n: nat, reports: Reports): Outcome {
    match op
    case Sleep(_) => Returned(Undefined)
    case Gather(_, members, _) =>
      var failed := FailedAmong(members, n, reports, |members|);
      if failed == [] then Outputs(seq(|members|, i requires 0 <= i < |members| => reports(n + i).output))
      else
        Raised(StepError("gather: " + Digits(|failed|) + " item(s) failed: " + JoinNames(failed),
                         Some("gather_failed"), failed))
    case _ => Heeded(reports(n))
  }

  /** One pass over the body in which every operation is answered at once by the world's report on it. */
  function AnsweredAtOnce(b: Body, n: nat, reports: Reports): Decision
    decreases b
  {
    match b
    case Return(v) => Done(v)
    case Throw(e) => Failure(e)
    case Do(op, rest) => AnsweredAtOnce(rest[Answered(op, n, reports)], n + Width(op), reports)
  }

  ghost predicate ReportsAs(reports: Reports, w: World) {
    forall p | p in w.told :: reports(p) == w.told[p]
  }

  /** A position on record that is not a timer's reads back as the report on it. */
  lemma PositionIsReported(h: History, st: RunState, w: World, reports: Reports, p: nat)
    requires Under(h, st) && RecordsTold(st, w) && ReportsAs(reports, w) && p in h && st.cps[p].kind != SleepTimer
    ensures h[p].output == reports(p).output && h[p].error == reports(p).error
    ensures h[p] == EventOf(st.cps[p]) && st.cps[p].status != Pending
  {
  }

  lemma OpIsAnswered(op: Op, n: nat, h: History, st: RunState, w: World, reports: Reports)
    requires Resolved(op, n, h) && BlockFits(op, n, st) && OrderFree(op)
    requires Under(h, st) && RecordsTold(st, w) && ReportsAs(reports, w)
    ensures Meaning(op, Block(op, n, h)) == Answered(op, n, reports)
  {
    if op.Gather? {
      GatherIsAnswered(op, n, h, st, w, reports);
    } else {
      assert n in h;
      assert SlotFits(op, n, n - n, st.cps[n]);
      if !op.Sleep? {
        PositionIsReported(h, st, w, reports, n);
      }
    }
  }

  lemma GatherIsAnswered(op: Op, n: nat, h: History, st: RunState, w: World, reports: Reports)
    requires op.Gather? && Resolved(op, n, h) && BlockFits(op, n, st) && OrderFree(op)
    requires Under(h, st) && RecordsTold(st, w) && ReportsAs(reports, w)
    ensures Meaning(op, Block(op, n, h)) == Answered(op, n, reports)
  {
    var events := Block(op, n, h);
    forall i | 0 <= i < |op.members|
      ensures events[i].output == reports(n + i).output && events[i].error == reports(n + i).error
      ensures Label(op.fan, op.mode, op.members[i], events[i]) == op.members[i].name
    {
      MemberIsReported(op, n, h, st, w, reports, i);
    }
    hide FailedAmong, FailuresUpTo, Label, RecordsTold, BlockFits, Under, Meaning, Answered, ReportsAs;
    FailuresAreReported(op, n, events, reports, |op.members|);
    EventsAreAnswered(op, n, events, reports);
  }

  lemma EventsAreAnswered(op: Op, n: nat, events: seq<HistoryEvent>, reports: Reports)
    requires op.Gather? && OrderFree(op) && |op.members| == |events|
    requires forall i | 0 <= i < |events| :: events[i].output == reports(n + i).output
    requires FailuresUpTo(op.fan, op.mode, op.members, events, |op.members|)
          == FailedAmong(op.members, n, reports, |op.members|)
    ensures Meaning(op, events) == Answered(op, n, reports)
  {
    hide FailedAmong, FailuresUpTo, JoinNames, Digits;
    var failed := FailedAmong(op.members, n, reports, |op.members|);
    if op.mode.FailFast? && failed != [] {
      FewFailures(op.members, n, reports, |op.members|);
      assert [failed[0]] == failed;
    }
  }

  lemma {:induction false} FewFailures(members: seq<Member>, n: nat, reports: Reports, i: nat)
    requires i <= |members|
    ensures |FailedAmong(members, n, reports, i)| <= i
  {
    if i > 0 {
      FewFailures(members, n, reports, i - 1);
    }
  }

  lemma MemberIsReported(op: Op, n: nat, h: History, st: RunState, w: World, reports: Reports, i: nat)
    requires op.Gather? && Resolved(op, n, h) && BlockFits(op, n, st) && i < |op.members|
    requires Under(h, st) && RecordsTold(st, w) && ReportsAs(reports, w)
    ensures var ev := Block(op, n, h)[i];
            && ev.output == reports(n + i).output && ev.error == reports(n + i).error
            && Label(op.fan, op.mode, op.members[i], ev) == op.members[i].name
  {
    assert n + i in h;
    assert SlotFits(op, n, n + i - n, st.cps[n + i]);
    PositionIsReported(h, st, w, reports, n + i);
  }

  lemma {:induction false} FailuresAreReported(op: Op, n: nat, events: seq<HistoryEvent>, reports: Reports, i: nat)
    requires op.Gather? && i <= |op.members| == |events|
    requires forall k | 0 <= k < |events| ::
               events[k].error == reports(n + k).error
               && Label(op.fan, op.mode, op.members[k], events[k]) == op.members[k].name
    ensures FailuresUpTo(op.fan, op.mode, op.members, events, i) == FailedAmong(op.members, n, reports, i)
  {
    if i > 0 {
      FailuresAreReported(op, n, events, reports, i - 1);
      assert events[i - 1].error == reports(n + (i - 1)).error;
    }
  }

  lemma {:induction false} ReachesAnswered(b: Body, n: nat, h: History, st: RunState, w: World, reports: Reports,
                                           d: Decision)
    requires Replayable(b) && Reaches(b, n, h, d) && FitsAt(b, n, h, st)
    requires Under(h, st) && RecordsTold(st, w) && ReportsAs(reports, w)
    ensures AnsweredAtOnce(b, n, reports) == d
    decreases b
  {
    hide Under, RecordsTold, ReportsAs, BlockFits, Meaning, Answered;
    if b.Do? {
      OpIsAnswered(b.op, n, h, st, w, reports);
      ReachesAnswered(b.rest[Meaning(b.op, Block(b.op, n, h))], n + Width(b.op), h, st, w, reports, d);
    }
  }

  /**
   * A settled run did what the world told it. However the run was chopped into turns and in whatever
   * order the world's reports came, its decision is that of one pass over the body in which every call,
   * child, signal and capture is answered at once with what the world said of it: a call with the result
   * that landed, a signal with the payload sent to its name, a child with its value or its error.
   */
  lemma SettledAsTold(body: Body, runId: string, clock: int, steps: seq<SysStep>, reports: Reports)
    requires Replayable(body) && Runs(body, Start(runId, clock), steps)
    requires NoStaleTake(body, Start(runId, clock), steps)
    requires ReportsAs(reports, Heard(body, Start(runId, clock), steps, SILENT))
    ensures var end := After(body, Start(runId, clock), steps);
            end.result.Some? ==> end.result.value == AnsweredAtOnce(body, 0, reports)
  {
    StartInv(body, runId, clock);
    RunKeepsInv(body, Start(runId, clock), steps);
    RunFaithful(body, Start(runId, clock), steps, SILENT);
    var end := After(body, Start(runId, clock), steps);
    hide FitsAt, Reaches, TurnFits, Under, RecordsTold;
    if end.result.Some? {
      ReachesAnswered(body, 0, end.history, end.run, Heard(body, Start(runId, clock), steps, SILENT), reports,
                      end.result.value);
    }
  }

  /** And it does settle, under any fair schedule, with the decision the world's reports call for. */
  lemma EveryScheduleSettlesAsTold(body: Body, runId: string, clock: int, sch: Schedule)
    returns (rounds: nat, steps: seq<SysStep>)
    requires Replayable(body) && Fair(sch, body)
    ensures var start := Start(runId, clock);
            && Runs(body, start, steps) && After(body, start, steps) == Played(sch, body, start, 0, rounds)
            && forall reports: Reports | ReportsAs(reports, Heard(body, start, steps, SILENT)) ::
                 After(body, start, steps).result == Some(AnsweredAtOnce(body, 0, reports))
  {
    rounds, steps := EveryScheduleSettles(body, runId, clock, sch);
    hide Played, Fair, Replayable;
    forall reports: Reports | ReportsAs(reports, Heard(body, Start(runId, clock), steps, SILENT))
      ensures After(body, Start(runId, clock), steps).result == Some(AnsweredAtOnce(body, 0, reports))
    {
      SettledAsTold(body, runId, clock, steps, reports);
    }
  }
}

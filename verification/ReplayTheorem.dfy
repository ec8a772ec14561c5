/**
 * Chopping a run into turns does not change its meaning: for every body, every order of results and
 * every interleaving with open turns, a settled run has the decision of one uninterrupted pass, as long
 * as no signal takes a row whose position is on record.
 * Models `runRemoteExecution` and `applyCommands` in packages/adonis/src/engine.ts.
 */
module ReplayTheorem {
  import opened Common
  import opened WorkflowTurn
  import opened RemoteRun

  // --------------------------------------------------------------- invariant

  /** A checkpoint at position `i` of an operation's block is one that operation produced. */
  predicate SlotFits(op: Op, n: nat, i: nat, cp: Checkpoint)
    requires i < Width(op)
  {
    match op
    case Step(name, _) => cp.kind == Remote && cp.name == name
    case Sleep(_) => cp.kind == SleepTimer && cp.status == Pending && cp.wakeAt.Some?
    case WaitSignal(signal) => cp.kind == Signal && cp.name == "signal:" + signal && cp.status == Completed
    case StartChild(_, _) => cp.kind == Signal && "signal:child:" <= cp.name && cp.status == Completed
    case Gather(fan, members, _) =>
      if fan.Calls? then cp.kind == Remote && cp.name == members[i].name
      else cp.kind == Signal && "signal:child:" <= cp.name && cp.status == Completed
    case Now => cp.kind == Local && cp.name == NowName(n) && LocalShape(cp)
    case SideEffect => cp.kind == Local && cp.name == "sideEffect" && LocalShape(cp)
  }

  predicate LocalShape(cp: Checkpoint) {
    (cp.status == Completed && cp.error.None?) || (cp.status == Failed && cp.error.Some?)
  }

  predicate RowFits(op: Op, token: string) {
    match op
    case WaitSignal(signal) => token == signal
    case StartChild(_, _) => "child:" <= token
    case Gather(fan, _, _) => fan.Children? && "child:" <= token
    case _ => false
  }

  predicate BlockFits(op: Op, n: nat, st: RunState) {
    && (forall s | n <= s < n + Width(op) && s in st.cps :: SlotFits(op, n, s - n, st.cps[s]))
    && (forall t | t in st.rows && n <= st.rows[t] < n + Width(op) :: RowFits(op, t))
  }

  /** Nothing is on record at position `n` or later. */
  predicate Quiet(st: RunState, n: nat) {
    && (forall s | s in st.cps :: s < n)
    && (forall t | t in st.rows :: st.rows[t] < n)
  }

  /**
   * Walking the body along `h`, every position on record belongs to the operation the body performs
   * there, and nothing is on record beyond the block of the first operation `h` does not resolve.
   */
  ghost predicate FitsAt(b: Body, n: nat, h: History, st: RunState)
    decreases b
  {
    match b
    case Return(_) => Quiet(st, n)
    case Throw(_) => Quiet(st, n)
    case Do(op, rest) =>
      && BlockFits(op, n, st)
      && if Resolved(op, n, h) then FitsAt(rest[Meaning(op, Block(op, n, h))], n + Width(op), h, st)
         else Quiet(st, n + Width(op))
  }

  /** Every entry of `h` is still what the store reads back. */
  predicate Under(h: History, st: RunState) {
    forall s | s in h :: s in st.cps && Visible(st.cps[s], st.clock) && h[s] == EventOf(st.cps[s])
  }

  /**
   * Each call on record was dispatched once or is lost, each capture recorded once, and the logs hold
   * nothing else. A lost call has no result.
   */
  predicate Logged(st: RunState) {
    && LogOf(Positions(st.dispatched), Remote, st.cps, st.lost)
    && LogOf(st.recorded, Local, st.cps, {})
    && (forall s | s in st.lost :: s in st.cps && st.cps[s].kind == Remote && st.cps[s].status == Pending)
  }

  predicate LogOf(log: seq<nat>, kind: StepKind, cps: map<nat, Checkpoint>, lost: set<nat>) {
    && (forall i, j | 0 <= i < j < |log| :: log[i] != log[j])
    && (forall s | s in log :: s in cps && cps[s].kind == kind && s !in lost)
    && (forall s | s in cps && cps[s].kind == kind :: s in log || s in lost)
  }

  /** Captures are written only when a turn is applied, so the history read last has them all. */
  predicate LocalsKnown(h: History, st: RunState) {
    forall s | s in st.cps && st.cps[s].kind == Local :: s in h
  }

  /** Following `h`, the body reaches its end with decision `d`. */
  ghost predicate Reaches(b: Body, n: nat, h: History, d: Decision)
    decreases b
  {
    match b
    case Return(v) => d == Done(v)
    case Throw(e) => d == Failure(e)
    case Do(op, rest) =>
      Resolved(op, n, h) && Reaches(rest[Meaning(op, Block(op, n, h))], n + Width(op), h, d)
  }

  /** The commands of an operation that has to wait. */
  function Emits(op: Op, n: nat, h: History): seq<Command>
    requires !IsLocal(op)
  {
    match op
    case Step(name, input) => [Call(n, name, input, None)]
    case Sleep(ms) => [SleepFor(n, ms)]
    case WaitSignal(signal) => [AwaitSignal(n, signal)]
    case StartChild(workflow, input) => [SpawnChild(n, workflow, input, None)]
    case Gather(fan, members, _) => PendingUpTo(fan, members, n, h, |members|)
  }

  function CaptureName(op: Op, n: nat): string {
    if op.Now? then NowName(n) else "sideEffect"
  }

  /** `cmd` is a command of an operation that waits at `n`, for a position `h` does not have. */
  predicate EmittedBy(op: Op, n: nat, h: History, cmd: Command)
    requires !IsLocal(op)
  {
    && n <= cmd.seqNo && cmd.seqNo !in h
    && if op.Gather? then exists i :: 0 <= i < |op.members| && cmd == MemberCommand(op.fan, op.members, n, i)
       else Emits(op, n, map[]) == [cmd]
  }

  /**
   * What is left of an open turn belongs to the body: along `h` it comes to the captures the turn makes,
   * in order, and then to the end it decides on or to the operation whose commands it still has to apply.
   */
  ghost predicate TurnFits(b: Body, n: nat, h: History, t: TurnResult)
    decreases b
  {
    match b
    case Return(v) => t == TurnResult(Done(v), [])
    case Throw(e) => t == TurnResult(Failure(e), [])
    case Do(op, rest) =>
      if Resolved(op, n, h) then TurnFits(rest[Meaning(op, Block(op, n, h))], n + Width(op), h, t)
      else if IsLocal(op) then
        && t.commands != [] && t.commands[0].RecordStep?
        && t.commands[0] == RecordStep(n, CaptureName(op, n), t.commands[0].captured)
        && TurnFits(rest[CapturedOutcome(t.commands[0].captured)], n + 1, h, t.(commands := t.commands[1..]))
      else t.decision == Continue && forall cmd | cmd in t.commands :: EmittedBy(op, n, h, cmd)
  }

  ghost predicate Inv(body: Body, s: Sys) {
    && FitsAt(body, 0, s.history, s.run)
    && Under(s.history, s.run)
    && LocalsKnown(s.history, s.run)
    && Logged(s.run)
    && (s.turn.Some? ==> s.result.None? && TurnFits(body, 0, s.history, s.turn.value))
    && (s.result.Some? ==> Reaches(body, 0, s.history, s.result.value))
  }

  // ------------------------------------------------------------ op-level facts

  lemma SignalChildPrefix(signal: string)
    ensures "signal:child:" <= "signal:" + signal <==> "child:" <= signal
  {
    assert "signal:child:" == "signal:" + "child:";
    PrefixShift("signal:", "child:", signal);
  }

  /** A visible slot reads back as an entry the guard accepts. */
  lemma SlotIsFound(op: Op, n: nat, i: nat, h: History, st: RunState)
    requires i < Width(op) && n + i in h
    requires Under(h, st) && BlockFits(op, n, st) && PlainSignal(op)
    ensures op.Step? ==> Lookup(h, n, CallEvent, Some(op.name)).Found?
    ensures op.Sleep? ==> Lookup(h, n, TimerEvent, None).Found?
    ensures op.WaitSignal? ==> Lookup(h, n, SignalEvent, Some(op.signal)).Found?
    ensures op.StartChild? ==> Lookup(h, n, ChildEvent, Some(op.workflow)).Found?
    ensures op.Gather? ==> MemberEntry(op.fan, op.members, n, h, i).Found?
    ensures op.Now? ==> Lookup(h, n, StepEvent, Some(NowName(n))).Found?
    ensures op.SideEffect? ==> Lookup(h, n, StepEvent, Some("sideEffect")).Found?
  {
    assert SlotFits(op, n, (n + i) - n, st.cps[n + i]);
    if op.WaitSignal? {
      SignalChildPrefix(op.signal);
    }
  }

  lemma {:induction false} NoFailureInSingleton(op: Op, n: nat, h: History)
    requires op.Gather? && OrderFree(op) && op.mode.FailFast? && !Resolved(op, n, h)
    ensures FirstFailureFrom(op.fan, op.members, n, h, 0).None?
  {
    if |op.members| == 1 {
      assert n !in h;
      assert FirstFailureFrom(op.fan, op.members, n, h, 1).None?;
    }
  }

  /** Without a recorded failure, and only then, a resolved fan-out has none to report. */
  lemma {:induction false} FirstFailureOfResolved(op: Op, n: nat, h: History)
    requires op.Gather? && op.mode.FailFast? && Resolved(op, n, h)
    requires !GatherDiverges(op.fan, op.members, n, h)
    ensures var failures := FailuresUpTo(op.fan, FailFast, op.members, Block(op, n, h), |op.members|);
            FirstFailureFrom(op.fan, op.members, n, h, 0) ==
            if failures == [] then None else Some(failures[0])
  {
    var g := Gather(op.fan, op.members, FailFast);
    assert Block(g, n, h) == Block(op, n, h);
    if FailuresUpTo(op.fan, FailFast, op.members, Block(op, n, h), |op.members|) == [] {
      FailFastSkips(op.fan, op.members, n, h, |op.members|);
    } else {
      FailFastFindsFailure(op.fan, op.members, n, h, |op.members|);
    }
  }

  /** An operation whose block is resolved replays to its meaning and emits nothing. */
  lemma ResolvedReplays(op: Op, n: nat, h: History, st: RunState, captures: Captures)
    requires Under(h, st) && BlockFits(op, n, st) && PlainSignal(op) && Resolved(op, n, h)
    ensures PerformOp(op, n, h, captures) == Effect(Settled(Meaning(op, Block(op, n, h))), [])
  {
    if op.Gather? {
      forall i | 0 <= i < |op.members|
        ensures MemberEntry(op.fan, op.members, n, h, i).Found?
      {
        assert n + i in h;
        SlotIsFound(op, n, i, h, st);
      }
      if op.mode.FailFast? {
        FirstFailureOfResolved(op, n, h);
      }
    } else {
      assert n in h;
      SlotIsFound(op, n, 0, h, st);
    }
  }

  lemma UnresolvedSuspends(op: Op, n: nat, h: History, st: RunState, captures: Captures)
    requires Under(h, st) && BlockFits(op, n, st) && PlainSignal(op) && OrderFree(op)
    requires !Resolved(op, n, h) && !IsLocal(op)
    ensures PerformOp(op, n, h, captures) == Effect(Suspended, Emits(op, n, h))
  {
    if op.Gather? {
      forall i | 0 <= i < |op.members|
        ensures !MemberEntry(op.fan, op.members, n, h, i).Mismatch?
      {
        if n + i in h {
          SlotIsFound(op, n, i, h, st);
        }
      }
      if op.mode.FailFast? {
        NoFailureInSingleton(op, n, h);
      }
    } else {
      assert n !in h;
    }
  }

  // -------------------------------------------------------- walking the body

  /** With nothing on record from `n` on, any body fits there. */
  lemma {:induction false} QuietFits(b: Body, n: nat, h: History, st: RunState)
    requires Quiet(st, n) && Under(h, st)
    ensures FitsAt(b, n, h, st)
    decreases b
  {
    if b.Do? && Resolved(b.op, n, h) {
      assert Width(b.op) > 0 ==> n in h;
      QuietFits(b.rest[Meaning(b.op, Block(b.op, n, h))], n + Width(b.op), h, st);
    }
  }

  /** Reading a longer history walks further but meets nothing the body did not produce. */
  lemma {:induction false} WiderHistoryFits(b: Body, n: nat, h: History, h': History, st: RunState)
    requires FitsAt(b, n, h, st) && Under(h', st)
    requires forall s | s in h :: s in h' && h'[s] == h[s]
    ensures FitsAt(b, n, h', st)
    decreases b
  {
    if b.Do? {
      if Resolved(b.op, n, h) {
        assert Block(b.op, n, h') == Block(b.op, n, h);
        WiderHistoryFits(b.rest[Meaning(b.op, Block(b.op, n, h))], n + Width(b.op), h, h', st);
      } else if Resolved(b.op, n, h') {
        QuietFits(b.rest[Meaning(b.op, Block(b.op, n, h'))], n + Width(b.op), h', st);
      }
    }
  }

  lemma {:induction false} WiderHistoryReaches(b: Body, n: nat, h: History, h': History, d: Decision)
    requires Reaches(b, n, h, d)
    requires forall s | s in h :: s in h' && h'[s] == h[s]
    ensures Reaches(b, n, h', d)
    decreases b
  {
    if b.Do? {
      assert Block(b.op, n, h') == Block(b.op, n, h);
      WiderHistoryReaches(b.rest[Meaning(b.op, Block(b.op, n, h))], n + Width(b.op), h, h', d);
    }
  }

  // --------------------------------------------------------- environment steps

  lemma EnvKeepsUnder(h: History, st: RunState, e: EnvStep)
    requires Under(h, st) && EnvOk(st, e) && !StaleTake(st, e)
    ensures Under(h, ApplyEnv(st, e))
  {
  }

  lemma EnvKeepsBlock(op: Op, n: nat, st: RunState, e: EnvStep)
    requires BlockFits(op, n, st) && EnvOk(st, e)
    ensures BlockFits(op, n, ApplyEnv(st, e))
  {
    var st' := ApplyEnv(st, e);
    if e.SignalTo? && e.token in st.rows {
      var p := st.rows[e.token];
      if n <= p < n + Width(op) {
        assert RowFits(op, e.token);
        PrefixShift("signal:", "child:", e.token);
        assert "signal:child:" == "signal:" + "child:";
        assert SlotFits(op, n, p - n, st'.cps[p]);
      }
    } else if e.Result? {
      var p := e.seqNo;
      if n <= p < n + Width(op) {
        assert SlotFits(op, n, p - n, st.cps[p]);
        assert SlotFits(op, n, p - n, st'.cps[p]);
      }
    }
  }

  lemma EnvKeepsQuiet(st: RunState, n: nat, e: EnvStep)
    requires Quiet(st, n) && EnvOk(st, e)
    ensures Quiet(ApplyEnv(st, e), n)
  {
  }

  lemma {:induction false} EnvKeepsFit(b: Body, n: nat, h: History, st: RunState, e: EnvStep)
    requires FitsAt(b, n, h, st) && EnvOk(st, e)
    ensures FitsAt(b, n, h, ApplyEnv(st, e))
    decreases b
  {
    hide ApplyEnv, BlockFits, Meaning, Quiet, EnvOk;
    match b
    case Return(_) => EnvKeepsQuiet(st, n, e);
    case Throw(_) => EnvKeepsQuiet(st, n, e);
    case Do(op, rest) =>
      EnvKeepsBlock(op, n, st, e);
      if Resolved(op, n, h) {
        EnvKeepsFit(rest[Meaning(op, Block(op, n, h))], n + Width(op), h, st, e);
      } else {
        EnvKeepsQuiet(st, n + Width(op), e);
      }
  }

  lemma EnvKeepsLogs(h: History, st: RunState, e: EnvStep)
    requires Logged(st) && LocalsKnown(h, st) && EnvOk(st, e) && !StaleTake(st, e)
    ensures Logged(ApplyEnv(st, e)) && LocalsKnown(h, ApplyEnv(st, e))
  {
  }

  // -------------------------------------------------------- applying a command

  /** `st'` has the same records as `st` before position `n`. */
  predicate SameBelow(st: RunState, st': RunState, n: nat) {
    && st'.runId == st.runId && st'.clock == st.clock
    && (forall s: nat | s < n :: (s in st.cps <==> s in st'.cps) && (s in st.cps ==> st'.cps[s] == st.cps[s]))
  }

  /** What applying the commands of one suspended operation does to the records. */
  ghost predicate BlockApplied(op: Op, n: nat, st: RunState, st': RunState) {
    && SameBelow(st, st', n)
    && BlockFits(op, n, st')
    && (forall s | s in st'.cps :: s < n + Width(op))
    && (forall t | t in st'.rows :: st'.rows[t] < n + Width(op))
    && (forall t | t in st'.rows && st'.rows[t] < n :: t in st.rows && st.rows[t] == st'.rows[t])
    && (forall s | s in st'.cps && st'.cps[s].kind == Local :: s in st.cps && st.cps[s] == st'.cps[s])
    && Logged(st')
  }

  /** Applying a command that overwrites neither a call nor a capture keeps the logs exact. */
  lemma CommandLogged(st: RunState, cmd: Command)
    requires Logged(st)
    requires cmd.RecordStep? ==> cmd.seqNo !in st.cps
    requires cmd.SleepFor? && cmd.seqNo in st.cps ==> st.cps[cmd.seqNo].kind == SleepTimer
    requires cmd.AwaitSignal? && cmd.seqNo in st.cps ==> st.cps[cmd.seqNo].kind == Signal
    ensures Logged(ApplyCommand(st, cmd))
  {
    if cmd.Call? {
      assert Positions(st.dispatched + [Job(cmd.seqNo, cmd.name, cmd.input)])
          == Positions(st.dispatched) + [cmd.seqNo];
    }
  }

  lemma ChildTokenPrefix(runId: string, n: nat)
    ensures "child:" <= ChildToken(runId, n)
  {
  }

  lemma MemberApplied(op: Op, n: nat, st: RunState, mid: RunState, i: nat)
    requires op.Gather? && i < |op.members| && BlockApplied(op, n, st, mid)
    ensures BlockApplied(op, n, st, ApplyCommand(mid, MemberCommand(op.fan, op.members, n, i)))
  {
    var cmd := MemberCommand(op.fan, op.members, n, i);
    assert Logged(ApplyCommand(mid, cmd)) by { CommandLogged(mid, cmd); }
    if op.fan.Calls? {
      CallApplied(op, n, st, mid, cmd);
    } else {
      ChildTokenPrefix(mid.runId, n + i);
      ChildApplied(op, n, st, mid, cmd);
    }
  }

  lemma CallApplied(op: Op, n: nat, st: RunState, mid: RunState, cmd: Command)
    requires op.Gather? && op.fan.Calls? && cmd.Call?
    requires n <= cmd.seqNo < n + |op.members| && cmd.name == op.members[cmd.seqNo - n].name
    requires BlockApplied(op, n, st, mid) && Logged(ApplyCommand(mid, cmd))
    ensures BlockApplied(op, n, st, ApplyCommand(mid, cmd))
  {
    hide Logged;
    if cmd.seqNo !in mid.cps {
      var st' := ApplyCommand(mid, cmd);
      assert st'.cps == mid.cps[cmd.seqNo := Checkpoint(cmd.name, Remote, Pending, Undefined, None, None)];
      assert st'.rows == mid.rows;
      hide ApplyCommand;
      assert BlockFits(op, n, st');
    }
  }

  lemma ChildApplied(op: Op, n: nat, st: RunState, mid: RunState, cmd: Command)
    requires op.Gather? && op.fan.Children? && cmd.SpawnChild?
    requires n <= cmd.seqNo < n + |op.members| && "child:" <= ChildToken(mid.runId, cmd.seqNo)
    requires BlockApplied(op, n, st, mid) && Logged(ApplyCommand(mid, cmd))
    ensures BlockApplied(op, n, st, ApplyCommand(mid, cmd))
  {
    hide Logged, ChildToken;
    var st' := ApplyCommand(mid, cmd);
    assert st'.cps == mid.cps && st'.rows == mid.rows[ChildToken(mid.runId, cmd.seqNo) := cmd.seqNo];
    hide ApplyCommand, SlotFits;
    assert BlockFits(op, n, st');
  }

  lemma NothingApplied(op: Op, n: nat, st: RunState)
    requires BlockFits(op, n, st) && Quiet(st, n + Width(op)) && Logged(st)
    ensures BlockApplied(op, n, st, st)
  {
    hide Logged, BlockFits;
  }

  lemma ApplyOne(st: RunState, cmd: Command)
    ensures ApplyAll(st, [cmd]) == ApplyCommand(st, cmd)
  {
  }

  lemma SingleApplied(op: Op, n: nat, st: RunState, cmd: Command)
    requires !IsLocal(op) && !op.Gather? && Emits(op, n, map[]) == [cmd]
    requires BlockFits(op, n, st) && Quiet(st, n + 1) && Logged(st)
    ensures BlockApplied(op, n, st, ApplyCommand(st, cmd))
  {
    match op
    case Step(_, _) =>
      CommandLogged(st, cmd);
      SlotApplied(op, n, st, cmd);
    case Sleep(_) =>
      assert n in st.cps ==> SlotFits(op, n, n - n, st.cps[n]);
      CommandLogged(st, cmd);
      SlotApplied(op, n, st, cmd);
    case WaitSignal(_) =>
      assert n in st.cps ==> SlotFits(op, n, n - n, st.cps[n]);
      CommandLogged(st, cmd);
      RowApplied(op, n, st, cmd);
    case StartChild(_, _) =>
      CommandLogged(st, cmd);
      ChildTokenPrefix(st.runId, n);
      RowApplied(op, n, st, cmd);
  }

  lemma SlotApplied(op: Op, n: nat, st: RunState, cmd: Command)
    requires op.Step? || op.Sleep?
    requires Emits(op, n, map[]) == [cmd]
    requires BlockFits(op, n, st) && Quiet(st, n + 1) && Logged(ApplyCommand(st, cmd))
    ensures BlockApplied(op, n, st, ApplyCommand(st, cmd))
  {
    hide Logged, Digits;
  }

  lemma RowApplied(op: Op, n: nat, st: RunState, cmd: Command)
    requires op.WaitSignal? || (op.StartChild? && "child:" <= ChildToken(st.runId, n))
    requires Emits(op, n, map[]) == [cmd]
    requires BlockFits(op, n, st) && Quiet(st, n + 1) && Logged(ApplyCommand(st, cmd))
    ensures BlockApplied(op, n, st, ApplyCommand(st, cmd))
  {
    hide ChildToken, Logged, Visible, EventOf;
    var st' := ApplyCommand(st, cmd);
    assert forall s | s in st'.cps && s != n :: s in st.cps && st'.cps[s] == st.cps[s];
    assert n in st'.cps ==> st'.cps[n].kind != Local;
    assert st'.runId == st.runId && st'.clock == st.clock;
    assert forall t | t in st'.rows :: (t in st.rows && st'.rows[t] == st.rows[t]) || st'.rows[t] == n;
    assert BlockFits(op, n, st');
    hide ApplyCommand, BlockFits, SlotFits, RowFits;
  }

  lemma ApplyNone(st: RunState)
    ensures ApplyAll(st, []) == st
  {
  }

  /** Recording a capture at an unrecorded position. */
  lemma CaptureApplied(op: Op, n: nat, st: RunState, c: Captured)
    requires IsLocal(op) && n !in st.cps && Quiet(st, n + 1) && BlockFits(op, n, st) && Logged(st)
    ensures var st' := ApplyCommand(st, RecordStep(n, CaptureName(op, n), c));
            && SameBelow(st, st', n) && Quiet(st', n + 1) && BlockFits(op, n, st') && Logged(st')
            && n in st'.cps && Visible(st'.cps[n], st'.clock)
            && OutcomeOf(EventOf(st'.cps[n])) == CapturedOutcome(c)
            && st'.rows == st.rows
            && st'.cps == st.cps[n := st'.cps[n]]
  {
    hide Logged, ApplyCommand, BlockFits, Quiet, SameBelow, Visible, EventOf, OutcomeOf, CapturedOutcome, CaptureName;
    var cmd := RecordStep(n, CaptureName(op, n), c);
    CommandLogged(st, cmd);
    CaptureRecorded(op, n, st, c);
    CaptureFits(op, n, st, ApplyCommand(st, cmd));
  }

  lemma CaptureRecorded(op: Op, n: nat, st: RunState, c: Captured)
    requires IsLocal(op) && n !in st.cps
    ensures var st' := ApplyCommand(st, RecordStep(n, CaptureName(op, n), c));
            && n in st'.cps && Visible(st'.cps[n], st'.clock) && SlotFits(op, n, 0, st'.cps[n])
            && OutcomeOf(EventOf(st'.cps[n])) == CapturedOutcome(c)
            && st'.rows == st.rows && st'.runId == st.runId && st'.clock == st.clock
            && st'.cps == st.cps[n := st'.cps[n]]
  {
    hide Digits;
  }

  lemma CaptureFits(op: Op, n: nat, st: RunState, st': RunState)
    requires IsLocal(op) && n !in st.cps && Quiet(st, n + 1) && BlockFits(op, n, st)
    requires n in st'.cps && st'.cps == st.cps[n := st'.cps[n]] && SlotFits(op, n, 0, st'.cps[n])
    requires st'.rows == st.rows && st'.runId == st.runId && st'.clock == st.clock
    ensures SameBelow(st, st', n) && Quiet(st', n + 1) && BlockFits(op, n, st')
  {
    hide SlotFits;
  }

  lemma HistoryIsUnder(st: RunState)
    ensures Under(RemoteHistory(st), st)
  {
  }

  /** A command of a waiting operation changes that operation's block alone, whatever else has arrived. */
  lemma EmittedApplies(op: Op, n: nat, h: History, st: RunState, cmd: Command)
    requires !IsLocal(op) && EmittedBy(op, n, h, cmd)
    requires BlockFits(op, n, st) && Quiet(st, n + Width(op)) && Logged(st)
    ensures BlockApplied(op, n, st, ApplyCommand(st, cmd))
  {
    hide Logged, BlockFits, ApplyCommand, BlockApplied, MemberCommand, Quiet, Emits;
    if op.Gather? {
      var i :| 0 <= i < |op.members| && cmd == MemberCommand(op.fan, op.members, n, i);
      NothingApplied(op, n, st);
      MemberApplied(op, n, st, st, i);
    } else {
      SingleApplied(op, n, st, cmd);
    }
  }

  lemma CommandStaysUnder(h: History, st: RunState, cmd: Command)
    requires Under(h, st) && cmd.seqNo !in h
    ensures Under(Noted(h, ApplyCommand(st, cmd), cmd), ApplyCommand(st, cmd))
  {
  }

  lemma {:induction false} PendingEmitted(op: Op, n: nat, h: History, i: nat)
    requires op.Gather? && i <= |op.members|
    ensures forall cmd | cmd in PendingUpTo(op.fan, op.members, n, h, i) :: EmittedBy(op, n, h, cmd)
  {
    if i > 0 {
      PendingEmitted(op, n, h, i - 1);
      var cmd := MemberCommand(op.fan, op.members, n, i - 1);
      assert n + (i - 1) !in h ==> EmittedBy(op, n, h, cmd);
    }
  }

  lemma EmitsFit(op: Op, n: nat, h: History)
    requires !IsLocal(op) && !Resolved(op, n, h)
    ensures forall cmd | cmd in Emits(op, n, h) :: EmittedBy(op, n, h, cmd)
  {
    if op.Gather? {
      PendingEmitted(op, n, h, |op.members|);
    }
  }

  lemma CaptureEffect(op: Op, n: nat, h: History, captures: Captures)
    requires IsLocal(op) && !Resolved(op, n, h)
    ensures n !in h
    ensures PerformOp(op, n, h, captures) ==
            Effect(Settled(CapturedOutcome(captures(n))), [RecordStep(n, CaptureName(op, n), captures(n))])
  {
  }

  /** Over the run's own history a turn never trips the guard: it walks the body and stops where that stops. */
  lemma {:induction false} TurnBegins(b: Body, n: nat, h: History, st: RunState, captures: Captures)
    requires Replayable(b) && FitsAt(b, n, h, st) && Under(h, st)
    ensures TurnFits(b, n, h, RunTurn(b, n, h, captures))
    decreases b
  {
    hide PerformOp, Meaning, BlockFits, Under, EmittedBy, CaptureName, CapturedOutcome, Emits;
    if b.Do? {
      var op := b.op;
      if Resolved(op, n, h) {
        ResolvedReplays(op, n, h, st, captures);
        var o := Meaning(op, Block(op, n, h));
        var tail := RunTurn(b.rest[o], n + Width(op), h, captures);
        assert [] + tail.commands == tail.commands;
        TurnBegins(b.rest[o], n + Width(op), h, st, captures);
      } else if IsLocal(op) {
        CaptureEffect(op, n, h, captures);
        var o := CapturedOutcome(captures(n));
        QuietFits(b.rest[o], n + 1, h, st);
        TurnBegins(b.rest[o], n + 1, h, st, captures);
        CaptureHeads(b, n, h, captures);
      } else {
        UnresolvedSuspends(op, n, h, st, captures);
        EmitsFit(op, n, h);
      }
    }
  }

  lemma CaptureHeads(b: Body, n: nat, h: History, captures: Captures)
    requires b.Do? && IsLocal(b.op) && !Resolved(b.op, n, h)
    requires TurnFits(b.rest[CapturedOutcome(captures(n))], n + 1, h,
                      RunTurn(b.rest[CapturedOutcome(captures(n))], n + 1, h, captures))
    ensures TurnFits(b, n, h, RunTurn(b, n, h, captures))
  {
    CaptureEffect(b.op, n, h, captures);
    hide PerformOp, CapturedOutcome, CaptureName;
    var tail := RunTurn(b.rest[CapturedOutcome(captures(n))], n + 1, h, captures);
    var r := RunTurn(b, n, h, captures);
    assert r.commands[1..] == tail.commands;
  }

  /** What is left of a turn is read off the entries from its position on. */
  lemma {:induction false} TurnFitsBeyond(b: Body, n: nat, h: History, h': History, t: TurnResult)
    requires TurnFits(b, n, h, t)
    requires forall s: nat | s >= n :: (s in h <==> s in h') && (s in h ==> h'[s] == h[s])
    ensures TurnFits(b, n, h', t)
    decreases b
  {
    hide Meaning, CaptureName, CapturedOutcome, Emits;
    if b.Do? {
      if Resolved(b.op, n, h) {
        assert Block(b.op, n, h) == Block(b.op, n, h');
        TurnFitsBeyond(b.rest[Meaning(b.op, Block(b.op, n, h))], n + Width(b.op), h, h', t);
      } else if IsLocal(b.op) {
        TurnFitsBeyond(b.rest[CapturedOutcome(t.commands[0].captured)], n + 1, h, h',
                       t.(commands := t.commands[1..]));
      } else {
        forall cmd | cmd in t.commands ensures EmittedBy(b.op, n, h', cmd) {
          assert EmittedBy(b.op, n, h, cmd);
        }
      }
    }
  }

  /** What the rest of the body relies on after a command: its own records fit, and none before `n` changed. */
  ghost predicate Moved(b: Body, n: nat, h: History, h': History, st: RunState, st': RunState, t': TurnResult) {
    && FitsAt(b, n, h', st') && TurnFits(b, n, h', t')
    && SameBelow(st, st', n)
    && (forall s: nat | s < n :: (s in h <==> s in h') && (s in h ==> h'[s] == h[s]))
    && (forall t | t in st'.rows && st'.rows[t] < n :: t in st.rows && st.rows[t] == st'.rows[t])
  }

  /** The store and history after a command of the turn. */
  ghost predicate Kept(h: History, st: RunState) {
    Under(h, st) && LocalsKnown(h, st) && Logged(st)
  }

  /**
   * Applying the next command of an open turn keeps everything in place, whatever else arrived since the
   * turn read its history or applied the command before.
   */
  lemma {:induction false} CommandApplies(b: Body, n: nat, h: History, st: RunState, t: TurnResult)
    requires FitsAt(b, n, h, st) && Kept(h, st) && TurnFits(b, n, h, t) && t.commands != []
    ensures var cmd := t.commands[0];
            var st' := ApplyCommand(st, cmd);
            var h' := Noted(h, st', cmd);
            && n <= cmd.seqNo && cmd.seqNo !in h && Kept(h', st')
            && Moved(b, n, h, h', st, st', t.(commands := t.commands[1..]))
    decreases b
  {
    hide Meaning, BlockFits, ApplyCommand, Kept, EmittedBy, Noted, CaptureName, CapturedOutcome, Moved;
    if Resolved(b.op, n, h) {
      CommandApplies(b.rest[Meaning(b.op, Block(b.op, n, h))], n + Width(b.op), h, st, t);
      MovedBehind(b, n, h, st, t);
    } else if IsLocal(b.op) {
      CaptureMoves(b, n, h, st, t);
    } else {
      EmittedMoves(b, n, h, st, t);
    }
  }

  lemma MovedBehind(b: Body, n: nat, h: History, st: RunState, t: TurnResult)
    requires b.Do? && Resolved(b.op, n, h) && BlockFits(b.op, n, st) && t.commands != []
    requires var st' := ApplyCommand(st, t.commands[0]);
             Moved(b.rest[Meaning(b.op, Block(b.op, n, h))], n + Width(b.op), h, Noted(h, st', t.commands[0]),
                   st, st', t.(commands := t.commands[1..]))
    ensures var st' := ApplyCommand(st, t.commands[0]);
            Moved(b, n, h, Noted(h, st', t.commands[0]), st, st', t.(commands := t.commands[1..]))
  {
    hide Meaning, BlockFits, ApplyCommand, Noted;
    var st' := ApplyCommand(st, t.commands[0]);
    var h' := Noted(h, st', t.commands[0]);
    SameBlockFits(b.op, n, st, st');
    forall s | n <= s < n + Width(b.op) ensures s in h' && h'[s] == h[s] {
      assert s in h;
    }
    assert Block(b.op, n, h') == Block(b.op, n, h);
  }

  lemma EmittedMoves(b: Body, n: nat, h: History, st: RunState, t: TurnResult)
    requires b.Do? && !IsLocal(b.op) && !Resolved(b.op, n, h)
    requires FitsAt(b, n, h, st) && Kept(h, st) && TurnFits(b, n, h, t) && t.commands != []
    ensures var cmd := t.commands[0];
            var st' := ApplyCommand(st, cmd);
            && n <= cmd.seqNo && cmd.seqNo !in h && Noted(h, st', cmd) == h && Kept(h, st')
            && Moved(b, n, h, h, st, st', t.(commands := t.commands[1..]))
  {
    hide ApplyCommand, BlockFits, EmittedBy, Meaning, Logged, Noted, Under, BlockApplied, LocalsKnown, Quiet;
    var cmd := t.commands[0];
    assert EmittedBy(b.op, n, h, cmd);
    assert forall c | c in t.commands[1..] :: c in t.commands;
    EmittedIsFresh(b.op, n, h, st, cmd);
    EmittedApplies(b.op, n, h, st, cmd);
    BlockMoves(b, n, h, st, ApplyCommand(st, cmd), t.(commands := t.commands[1..]));
  }

  lemma EmittedIsFresh(op: Op, n: nat, h: History, st: RunState, cmd: Command)
    requires !IsLocal(op) && EmittedBy(op, n, h, cmd) && Under(h, st)
    ensures n <= cmd.seqNo && cmd.seqNo !in h && Noted(h, ApplyCommand(st, cmd), cmd) == h
    ensures Under(h, ApplyCommand(st, cmd))
  {
    hide ApplyCommand, Under;
    assert !cmd.RecordStep?;
    CommandStaysUnder(h, st, cmd);
  }

  lemma BlockMoves(b: Body, n: nat, h: History, st: RunState, st': RunState, t: TurnResult)
    requires b.Do? && !IsLocal(b.op) && !Resolved(b.op, n, h) && BlockApplied(b.op, n, st, st')
    requires t.decision == Continue && forall cmd | cmd in t.commands :: EmittedBy(b.op, n, h, cmd)
    requires LocalsKnown(h, st) && Under(h, st')
    ensures Moved(b, n, h, h, st, st', t) && Kept(h, st')
  {
    hide BlockFits, EmittedBy, Meaning, Logged, Under;
  }

  /** A capture settles its operation, and the turn goes on behind it. */
  lemma CaptureMoves(b: Body, n: nat, h: History, st: RunState, t: TurnResult)
    requires b.Do? && IsLocal(b.op) && !Resolved(b.op, n, h)
    requires FitsAt(b, n, h, st) && Kept(h, st) && TurnFits(b, n, h, t) && t.commands != []
    ensures var cmd := t.commands[0];
            var st' := ApplyCommand(st, cmd);
            && n <= cmd.seqNo && cmd.seqNo !in h && Kept(Noted(h, st', cmd), st')
            && Moved(b, n, h, Noted(h, st', cmd), st, st', t.(commands := t.commands[1..]))
  {
    hide ApplyCommand, BlockFits, CaptureName, CapturedOutcome, Meaning, Kept, Noted;
    var cmd, tail := t.commands[0], t.(commands := t.commands[1..]);
    var st' := ApplyCommand(st, cmd);
    var h' := Noted(h, st', cmd);
    CaptureNoted(b.op, n, h, st, cmd.captured);
    TurnFitsBeyond(b.rest[CapturedOutcome(cmd.captured)], n + 1, h, h', tail);
    BehindCapture(b, n, h, h', st, st', cmd.captured, tail);
    hide FitsAt, TurnFits, Moved;
  }

  lemma BehindCapture(b: Body, n: nat, h: History, h': History, st: RunState, st': RunState, c: Captured,
                      tail: TurnResult)
    requires b.Do? && IsLocal(b.op) && n in h' && h' == h[n := h'[n]] && OutcomeOf(h'[n]) == CapturedOutcome(c)
    requires Kept(h', st') && Quiet(st', n + 1) && BlockFits(b.op, n, st')
    requires SameBelow(st, st', n) && st'.rows == st.rows
    requires TurnFits(b.rest[CapturedOutcome(c)], n + 1, h', tail)
    ensures Moved(b, n, h, h', st, st', tail)
  {
    hide BlockFits, CapturedOutcome, Meaning, Logged, LocalsKnown, OutcomeOf, Quiet;
    var o := CapturedOutcome(c);
    CaptureMeans(b.op, n, h', o);
    QuietFits(b.rest[o], n + 1, h', st');
    hide Under, SameBelow, Kept, Block;
  }

  lemma CaptureMeans(op: Op, n: nat, h: History, o: Outcome)
    requires IsLocal(op) && n in h && OutcomeOf(h[n]) == o
    ensures Resolved(op, n, h) && Meaning(op, Block(op, n, h)) == o
  {
    assert Block(op, n, h) == [h[n]];
  }

  lemma CaptureNoted(op: Op, n: nat, h: History, st: RunState, c: Captured)
    requires IsLocal(op) && !Resolved(op, n, h) && Quiet(st, n + 1) && BlockFits(op, n, st) && Kept(h, st)
    ensures var cmd := RecordStep(n, CaptureName(op, n), c);
            var st' := ApplyCommand(st, cmd);
            var h' := Noted(h, st', cmd);
            && Kept(h', st') && Quiet(st', n + 1) && BlockFits(op, n, st')
            && SameBelow(st, st', n) && st'.rows == st.rows
            && n !in h && n in h' && h' == h[n := h'[n]] && OutcomeOf(h'[n]) == CapturedOutcome(c)
  {
    assert n !in h && n !in st.cps;
    CaptureApplied(op, n, st, c);
    var cmd := RecordStep(n, CaptureName(op, n), c);
    var st' := ApplyCommand(st, cmd);
    CommandStaysUnder(h, st, cmd);
    hide ApplyCommand, Logged, BlockFits, EventOf, Visible, CapturedOutcome, OutcomeOf;
  }

  lemma SameBlockFits(op: Op, n: nat, st: RunState, st': RunState)
    requires BlockFits(op, n, st) && SameBelow(st, st', n + Width(op))
    requires forall t | t in st'.rows && st'.rows[t] < n + Width(op) :: t in st.rows && st.rows[t] == st'.rows[t]
    ensures BlockFits(op, n, st')
  {
  }

  /** Applying all that is left of a turn, with nothing in between, keeps everything and settles its captures. */
  lemma {:induction false} TurnApplies(b: Body, n: nat, h: History, st: RunState, t: TurnResult) returns (h': History)
    requires FitsAt(b, n, h, st) && Kept(h, st) && TurnFits(b, n, h, t)
    ensures var st' := ApplyAll(st, t.commands);
            FitsAt(b, n, h', st') && Kept(h', st') && TurnFits(b, n, h', t.(commands := []))
    decreases |t.commands|
  {
    hide FitsAt, Kept, TurnFits, ApplyCommand, Noted;
    if t.commands == [] {
      h' := h;
      assert t.(commands := []) == t;
    } else {
      var rest := t.(commands := t.commands[1..]);
      var st1 := ApplyCommand(st, t.commands[0]);
      CommandApplies(b, n, h, st, t);
      h' := TurnApplies(b, n, Noted(h, st1, t.commands[0]), st1, rest);
      assert rest.(commands := []) == t.(commands := []);
    }
  }

  // --------------------------------------------------------- what a turn decides

  /** A turn with nothing left to apply parks, or has the decision its history leads to. */
  lemma {:induction false} FinishDecides(b: Body, n: nat, h: History, t: TurnResult)
    requires TurnFits(b, n, h, t) && t.commands == []
    ensures t.decision != Nondeterminism && (!t.decision.Continue? ==> Reaches(b, n, h, t.decision))
    decreases b
  {
    if b.Do? && Resolved(b.op, n, h) {
      FinishDecides(b.rest[Meaning(b.op, Block(b.op, n, h))], n + Width(b.op), h, t);
    }
  }

  /** An oracle that agrees with the recorded history makes the uninterrupted pass end the same way. */
  lemma {:induction false} ReachesUninterrupted(b: Body, n: nat, h: History, d: Decision, oracle: Oracle)
    requires Reaches(b, n, h, d) && Agrees(oracle, h)
    ensures Uninterrupted(b, n, oracle) == d
    decreases b
  {
    if b.Do? {
      assert OracleBlock(oracle, n, Width(b.op)) == Block(b.op, n, h);
      ReachesUninterrupted(b.rest[Meaning(b.op, Block(b.op, n, h))], n + Width(b.op), h, d, oracle);
    }
  }

  lemma DecisionReached(b: Body, n: nat, h: History, d: Decision)
    requires Reaches(b, n, h, d)
    ensures d.Done? || d.Failure?
    decreases b
  {
    if b.Do? {
      DecisionReached(b.rest[Meaning(b.op, Block(b.op, n, h))], n + Width(b.op), h, d);
    }
  }

  // --------------------------------------------------------------- main results

  lemma StartInv(body: Body, runId: string, clock: int)
    ensures Inv(body, Start(runId, clock))
  {
    QuietFits(body, 0, map[], Start(runId, clock).run);
  }

  /** No signal of the run takes a row whose position is on record already. */
  ghost predicate NoStaleTake(body: Body, s: Sys, steps: seq<SysStep>)
    requires Runs(body, s, steps)
    decreases |steps|
  {
    steps != [] ==>
      && (steps[0].Env? ==> !StaleTake(s.run, steps[0].e))
      && NoStaleTake(body, Next(body, s, steps[0]), steps[1..])
  }

  /** Every step of the driver or the environment keeps the invariant. */
  lemma StepKeepsInv(body: Body, s: Sys, step: SysStep)
    requires Replayable(body) && Inv(body, s) && Enabled(s, step)
    requires step.Env? ==> !StaleTake(s.run, step.e)
    ensures Inv(body, Next(body, s, step))
  {
    hide FitsAt, TurnFits, Reaches, Logged, Under, LocalsKnown, Replayable, ApplyEnv, Noted, ApplyCommand;
    match step
    case Begin(captures) => BeginKeepsInv(body, s, captures);
    case Apply => ApplyKeepsInv(body, s);
    case Finish => FinishDecides(body, 0, s.history, s.turn.value);
    case Crash(begun) => CrashKeepsInv(body, s, begun);
    case Env(e) =>
      SalvagedIsOk(s.run, s.result, e);
      EnvKeepsFit(body, 0, s.history, s.run, Salvaged(s.result, e));
      EnvKeepsUnder(s.history, s.run, Salvaged(s.result, e));
      EnvKeepsLogs(s.history, s.run, Salvaged(s.result, e));
  }

  lemma SalvagedIsOk(st: RunState, result: Option<Decision>, e: EnvStep)
    requires EnvOk(st, e)
    ensures EnvOk(st, Salvaged(result, e)) && (StaleTake(st, Salvaged(result, e)) <==> StaleTake(st, e))
  {
  }

  lemma BeginKeepsInv(body: Body, s: Sys, captures: Captures)
    requires Replayable(body) && Inv(body, s) && s.turn.None? && s.result.None?
    ensures Inv(body, Next(body, s, Begin(captures)))
  {
    hide FitsAt, TurnFits, Reaches, Logged, Replayable, RunTurn;
    var h := RemoteHistory(s.run);
    HistoryIsUnder(s.run);
    WiderHistoryFits(body, 0, s.history, h, s.run);
    TurnBegins(body, 0, h, s.run, captures);
  }

  lemma ApplyKeepsInv(body: Body, s: Sys)
    requires Inv(body, s) && Enabled(s, Apply)
    ensures Inv(body, Next(body, s, Apply))
  {
    hide FitsAt, TurnFits, Reaches, Logged, Under, LocalsKnown, ApplyCommand, Noted;
    CommandApplies(body, 0, s.history, s.run, s.turn.value);
  }

  /** A process may die after any command of its turn, or between the writes of the next one. */
  lemma CrashKeepsInv(body: Body, s: Sys, begun: bool)
    requires Inv(body, s) && s.turn.Some?
    ensures Inv(body, Next(body, s, Crash(begun)))
  {
    hide FitsAt, TurnFits, Reaches, Logged, Under, LocalsKnown, ApplyCommand, WriteOnly, Noted;
    var t := s.turn.value;
    if begun && t.commands != [] {
      var cmd := t.commands[0];
      CommandApplies(body, 0, s.history, s.run, t);
      hide Moved;
      WriteFits(body, s.history, s.run, cmd, t.(commands := t.commands[1..]));
    }
  }

  /** A command's first write leaves the records its whole effect would, one dispatch missing. */
  lemma WriteFits(body: Body, h: History, st: RunState, cmd: Command, t: TurnResult)
    requires FitsAt(body, 0, h, st) && Kept(h, st)
    requires var whole := ApplyCommand(st, cmd);
             Kept(Noted(h, whole, cmd), whole) && Moved(body, 0, h, Noted(h, whole, cmd), st, whole, t)
    ensures var part := WriteOnly(st, cmd);
            FitsAt(body, 0, Noted(h, part, cmd), part) && Kept(Noted(h, part, cmd), part)
  {
    hide ApplyCommand, WriteOnly, FitsAt, Logged, TurnFits;
    WriteLogged(st, cmd);
    WriteRecords(st, cmd);
    var part := WriteOnly(st, cmd);
    var taken := cmd.AwaitSignal? && HasBuffered(st, cmd.signal);
    var like := if taken then st else ApplyCommand(st, cmd);
    assert Noted(h, part, cmd) == Noted(h, like, cmd);
    SameRecordsFit(body, 0, Noted(h, like, cmd), like, part);
  }

  lemma WriteRecords(st: RunState, cmd: Command)
    ensures var part := WriteOnly(st, cmd);
            var like := if cmd.AwaitSignal? && HasBuffered(st, cmd.signal) then st else ApplyCommand(st, cmd);
            part.cps == like.cps && part.rows == like.rows && part.clock == like.clock
  {
  }

  lemma WriteLogged(st: RunState, cmd: Command)
    requires Logged(st) && Logged(ApplyCommand(st, cmd))
    ensures Logged(WriteOnly(st, cmd))
  {
    var whole := ApplyCommand(st, cmd);
    if cmd.Call? && cmd.seqNo !in st.cps {
      assert Positions(whole.dispatched) == Positions(st.dispatched) + [cmd.seqNo];
      assert Positions(whole.dispatched)[|st.dispatched|] == cmd.seqNo;
    }
  }

  lemma {:induction false} SameRecordsFit(b: Body, n: nat, h: History, st: RunState, st': RunState)
    requires FitsAt(b, n, h, st) && st'.cps == st.cps && st'.rows == st.rows
    ensures FitsAt(b, n, h, st')
    decreases b
  {
    if b.Do? && Resolved(b.op, n, h) {
      SameRecordsFit(b.rest[Meaning(b.op, Block(b.op, n, h))], n + Width(b.op), h, st, st');
    }
  }

  lemma {:induction false} RunKeepsInv(body: Body, s: Sys, steps: seq<SysStep>)
    requires Replayable(body) && Inv(body, s) && Runs(body, s, steps) && NoStaleTake(body, s, steps)
    ensures Inv(body, After(body, s, steps))
    decreases |steps|
  {
    hide Inv, Next, Enabled, StaleTake;
    if steps != [] {
      StepKeepsInv(body, s, steps[0]);
      RunKeepsInv(body, Next(body, s, steps[0]), steps[1..]);
    }
  }

  /** In a state a run can be in, its decision is that of an uninterrupted pass over the record. */
  lemma InvMeans(body: Body, s: Sys, oracle: Oracle)
    requires Inv(body, s) && Agrees(oracle, RemoteHistory(s.run))
    ensures s.result.Some? ==> s.result.value == Uninterrupted(body, 0, oracle)
    ensures s.result != Some(Nondeterminism)
  {
    if s.result.Some? {
      DecisionReached(body, 0, s.history, s.result.value);
      assert Agrees(oracle, s.history);
      ReachesUninterrupted(body, 0, s.history, s.result.value, oracle);
    }
  }

  /**
   * Replay preserves meaning. However the run is chopped into turns, turns that die part way included,
   * and in whatever order results arrive, even between the commands of a turn, a settled run's decision
   * is that of one uninterrupted pass over the outcomes on record, and it is never the nondeterminism
   * failure. The one thing asked of the world is that no signal takes a row whose position is on record.
   */
  lemma ReplayPreservesMeaning(body: Body, runId: string, clock: int, steps: seq<SysStep>, oracle: Oracle)
    requires Replayable(body) && Runs(body, Start(runId, clock), steps)
    requires NoStaleTake(body, Start(runId, clock), steps)
    requires Agrees(oracle, RemoteHistory(After(body, Start(runId, clock), steps).run))
    ensures var end := After(body, Start(runId, clock), steps);
            end.result.Some? ==> end.result.value == Uninterrupted(body, 0, oracle)
    ensures After(body, Start(runId, clock), steps).result != Some(Nondeterminism)
  {
    StartInv(body, runId, clock);
    RunKeepsInv(body, Start(runId, clock), steps);
    InvMeans(body, After(body, Start(runId, clock), steps), oracle);
  }

  lemma {:induction false} CountDistinct(log: seq<nat>, n: nat)
    requires forall i, j | 0 <= i < j < |log| :: log[i] != log[j]
    ensures multiset(log)[n] == if n in log then 1 else 0
  {
    if log != [] {
      var front := log[..|log| - 1];
      assert log == front + [log[|log| - 1]];
      CountDistinct(front, n);
    }
  }

  /**
   * Over all turns of the run, crashes at any point included, no call is dispatched twice and no capture
   * recorded twice, and each call on record has been dispatched unless it is lost.
   */
  lemma DispatchedOnceUnlessLost(body: Body, runId: string, clock: int, steps: seq<SysStep>, n: nat)
    requires Replayable(body) && Runs(body, Start(runId, clock), steps)
    requires NoStaleTake(body, Start(runId, clock), steps)
    ensures var st := After(body, Start(runId, clock), steps).run;
            && multiset(Positions(st.dispatched))[n]
               == (if n in st.cps && st.cps[n].kind == Remote && n !in st.lost then 1 else 0)
            && multiset(st.recorded)[n] == (if n in st.cps && st.cps[n].kind == Local then 1 else 0)
  {
    StartInv(body, runId, clock);
    RunKeepsInv(body, Start(runId, clock), steps);
    var st := After(body, Start(runId, clock), steps).run;
    CountDistinct(Positions(st.dispatched), n);
    CountDistinct(st.recorded, n);
  }

  /** The step is the death of a process between saving a new call and dispatching it. */
  predicate CutsCall(s: Sys, step: SysStep) {
    && step.Crash? && step.begun && s.turn.Some? && s.turn.value.commands != []
    && s.turn.value.commands[0].Call? && s.turn.value.commands[0].seqNo !in s.run.cps
  }

  /** No process of the run dies like that. */
  ghost predicate NoCallCut(body: Body, s: Sys, steps: seq<SysStep>)
    requires Runs(body, s, steps)
    decreases |steps|
  {
    steps != [] ==> !CutsCall(s, steps[0]) && NoCallCut(body, Next(body, s, steps[0]), steps[1..])
  }

  predicate LostOnRecord(st: RunState) {
    forall p | p in st.lost :: p in st.cps
  }

  lemma StepLoses(body: Body, s: Sys, step: SysStep)
    requires Enabled(s, step)
    ensures Next(body, s, step).run.lost
            == s.run.lost + if CutsCall(s, step) then {s.turn.value.commands[0].seqNo} else {}
    ensures LostOnRecord(s.run) ==> LostOnRecord(Next(body, s, step).run)
  {
    hide RunTurn, RemoteHistory, Noted;
  }

  lemma {:induction false} LostGrows(body: Body, s: Sys, steps: seq<SysStep>)
    requires Runs(body, s, steps)
    ensures s.run.lost <= After(body, s, steps).run.lost
    decreases |steps|
  {
    hide Next, Enabled;
    if steps != [] {
      StepLoses(body, s, steps[0]);
      LostGrows(body, Next(body, s, steps[0]), steps[1..]);
    }
  }

  /** Over any run whatever, a call is lost exactly when some process dies between its save and its dispatch. */
  lemma {:induction false} NothingLostIffNoCallCut(body: Body, s: Sys, steps: seq<SysStep>)
    requires Runs(body, s, steps) && LostOnRecord(s.run)
    ensures After(body, s, steps).run.lost == s.run.lost <==> NoCallCut(body, s, steps)
    decreases |steps|
  {
    if steps != [] {
      StepLoses(body, s, steps[0]);
      var s' := Next(body, s, steps[0]);
      LostGrows(body, s', steps[1..]);
      NothingLostIffNoCallCut(body, s', steps[1..]);
      if CutsCall(s, steps[0]) {
        assert s.turn.value.commands[0].seqNo in s'.run.lost;
      }
    }
  }

  // ------------------------------------------------------------ a lost call stalls its run

  /** What has no result keeps any walk along the record from reaching the end. */
  lemma {:induction false} UnresolvedBlocks(b: Body, n: nat, h: History, st: RunState, d: Decision, p: nat)
    requires FitsAt(b, n, h, st) && Reaches(b, n, h, d) && p in st.cps && n <= p
    ensures p in h
    decreases b
  {
    if b.Do? && p >= n + Width(b.op) {
      UnresolvedBlocks(b.rest[Meaning(b.op, Block(b.op, n, h))], n + Width(b.op), h, st, d, p);
    }
  }

  /** Once a call is lost its run never settles: every later turn finds it on record and skips it. */
  lemma LostCallStalls(body: Body, s: Sys, steps: seq<SysStep>)
    requires Replayable(body) && Inv(body, s) && s.run.lost != {}
    requires Runs(body, s, steps) && NoStaleTake(body, s, steps)
    ensures After(body, s, steps).result.None?
  {
    var p :| p in s.run.lost;
    LostGrows(body, s, steps);
    RunKeepsInv(body, s, steps);
    var end := After(body, s, steps);
    if end.result.Some? {
      UnresolvedBlocks(body, 0, end.history, end.run, end.result.value, p);
      LostIsUnread(end.history, end.run, p);
    }
  }

  lemma LostIsUnread(h: History, st: RunState, p: nat)
    requires Under(h, st) && Logged(st) && p in st.lost
    ensures p !in h
  {
  }
}

/** A driven run always settles: no body, no answers and no order of answers can leave it stuck. */
module ReplayProgress {
  import opened Common
  import opened WorkflowTurn
  import opened RemoteRun
  import opened ReplayTheorem

  /** The first operation `h` does not resolve, or the end of the body, with its position. */
  ghost function Frontier(b: Body, n: nat, h: History): (f: (Body, nat))
    ensures f.0 == b || f.0 < b
    ensures f.0.Do? ==> !Resolved(f.0.op, f.1, h)
    decreases b
  {
    if b.Do? && Resolved(b.op, n, h) then
      Frontier(b.rest[Meaning(b.op, Block(b.op, n, h))], n + Width(b.op), h)
    else (b, n)
  }

  function Open(op: Op, n: nat, h: History): set<nat> {
    set s: nat | n <= s < n + Width(op) && s !in h
  }

  ghost predicate Extends(h: History, h': History) {
    forall s | s in h :: s in h' && h'[s] == h[s]
  }

  /** A longer history leaves the frontier where it is or moves it into a proper part of the body. */
  lemma {:induction false} FrontierAdvances(b: Body, n: nat, h: History, h': History)
    requires Extends(h, h')
    ensures Frontier(b, n, h') == Frontier(b, n, h) || Frontier(b, n, h').0 < Frontier(b, n, h).0
    decreases b
  {
    if b.Do? {
      if Resolved(b.op, n, h) {
        assert Block(b.op, n, h') == Block(b.op, n, h);
        FrontierAdvances(b.rest[Meaning(b.op, Block(b.op, n, h))], n + Width(b.op), h, h');
      } else if Resolved(b.op, n, h') {
        assert Frontier(b, n, h').0 < b;
      }
    }
  }

  // ------------------------------------------------------ what a parked run awaits

  /** The child run of position `p` has been started. */
  ghost predicate Started(st: RunState, p: nat) {
    exists job :: job in st.children && job.seqNo == p
  }

  /** Some step of the environment can resolve position `p`; a child's completion, only of a child started. */
  ghost predicate Awaited(st: RunState, p: nat) {
    || (p in st.cps && st.cps[p].kind == Remote && st.cps[p].status == Pending && p !in st.lost)
    || (p in st.cps && st.cps[p].kind == SleepTimer && st.cps[p].status == Pending && st.cps[p].wakeAt.Some?)
    || (p !in st.cps && exists t :: t in st.rows && st.rows[t] == p && ("child:" <= t ==> Started(st, p)))
  }

  /** The position is resolved already, by a signal found buffered, or some step can resolve it. */
  ghost predicate Resolvable(st: RunState, p: nat) {
    Awaited(st, p) || p in RemoteHistory(st)
  }

  lemma ChildTokenInjective(runId: string, m: nat, n: nat)
    requires ChildToken(runId, m) == ChildToken(runId, n)
    ensures m == n
  {
    var prefix := "child:" + runId + ".child.";
    assert Digits(m) == (prefix + Digits(m))[|prefix|..];
    assert Digits(n) == (prefix + Digits(n))[|prefix|..];
    DigitsInjective(m, n);
  }

  /** The way in which position `p` of a fan-out is waited for. */
  ghost predicate MemberAwaited(fan: Fan, st: RunState, p: nat) {
    if fan.Calls? then p in st.cps && st.cps[p].kind == Remote && st.cps[p].status == Pending && p !in st.lost
    else p !in st.cps && ChildToken(st.runId, p) in st.rows && st.rows[ChildToken(st.runId, p)] == p && Started(st, p)
  }

  lemma MemberBecomesAwaited(op: Op, n: nat, st: RunState, i: nat)
    requires op.Gather? && i < |op.members|
    requires st.lost == {}
    requires n + i in st.cps ==> op.fan.Calls? && st.cps[n + i].kind == Remote && st.cps[n + i].status == Pending
    ensures var st' := ApplyCommand(st, MemberCommand(op.fan, op.members, n, i));
            MemberAwaited(op.fan, st', n + i)
  {
    hide ChildToken;
    if op.fan.Children? {
      StartsChild(st, MemberCommand(op.fan, op.members, n, i));
    }
  }

  lemma StartsChild(st: RunState, cmd: Command)
    requires cmd.SpawnChild?
    ensures Started(ApplyCommand(st, cmd), cmd.seqNo)
    ensures forall p | Started(st, p) :: Started(ApplyCommand(st, cmd), p)
  {
    hide ChildToken;
    assert Job(cmd.seqNo, cmd.workflow, cmd.input) in ApplyCommand(st, cmd).children;
  }

  lemma OthersStayAwaited(op: Op, n: nat, st: RunState, i: nat, p: nat)
    requires op.Gather? && i < |op.members| && p != n + i && MemberAwaited(op.fan, st, p)
    ensures MemberAwaited(op.fan, ApplyCommand(st, MemberCommand(op.fan, op.members, n, i)), p)
  {
    hide ChildToken, Started;
    if op.fan.Children? {
      StartsChild(st, MemberCommand(op.fan, op.members, n, i));
      if ChildToken(st.runId, p) == ChildToken(st.runId, n + i) {
        ChildTokenInjective(st.runId, p, n + i);
      }
    }
  }

  /** The records of a fan-out's unresolved members before its commands are applied. */
  predicate Undecided(op: Op, n: nat, st: RunState, s: nat)
    requires op.Gather?
  {
    s in st.cps ==> op.fan.Calls? && st.cps[s].kind == Remote && st.cps[s].status == Pending
  }

  lemma {:induction false} PendingAwaited(op: Op, n: nat, h: History, st: RunState, i: nat)
    requires op.Gather? && i <= |op.members|
    requires forall s | n <= s < n + |op.members| && s !in h :: Undecided(op, n, st, s)
    requires st.lost == {}
    ensures var st' := ApplyAll(st, PendingUpTo(op.fan, op.members, n, h, i));
            && st'.runId == st.runId && st'.lost == {}
            && (forall s | n <= s < n + i && s !in h :: MemberAwaited(op.fan, st', s))
            && (forall s | n <= s < n + |op.members| && s !in h :: Undecided(op, n, st', s))
  {
    hide ApplyCommand, MemberCommand, MemberAwaited, Undecided;
    if i > 0 {
      PendingAwaited(op, n, h, st, i - 1);
      var front := PendingUpTo(op.fan, op.members, n, h, i - 1);
      if n + (i - 1) in h {
        assert front + [] == front;
      } else {
        var cmd := MemberCommand(op.fan, op.members, n, i - 1);
        var mid := ApplyAll(st, front);
        ApplyAllAppend(st, front, [cmd]);
        ApplyOne(mid, cmd);
        MemberDispatched(op, n, h, mid, i - 1);
      }
    }
  }

  /** Applying one member's command leaves that member awaited, and the others as they were. */
  lemma MemberDispatched(op: Op, n: nat, h: History, st: RunState, i: nat)
    requires op.Gather? && i < |op.members| && n + i !in h && st.lost == {}
    requires forall s | n <= s < n + |op.members| && s !in h :: Undecided(op, n, st, s)
    requires forall s | n <= s < n + i && s !in h :: MemberAwaited(op.fan, st, s)
    ensures var st' := ApplyCommand(st, MemberCommand(op.fan, op.members, n, i));
            && st'.runId == st.runId && st'.lost == {}
            && (forall s | n <= s < n + i + 1 && s !in h :: MemberAwaited(op.fan, st', s))
            && (forall s | n <= s < n + |op.members| && s !in h :: Undecided(op, n, st', s))
  {
    var st' := ApplyCommand(st, MemberCommand(op.fan, op.members, n, i));
    assert Undecided(op, n, st, n + i);
    MemberBecomesAwaited(op, n, st, i);
    forall s | n <= s < n + i && s !in h
      ensures MemberAwaited(op.fan, st', s)
    {
      OthersStayAwaited(op, n, st, i, s);
    }
    hide MemberAwaited, ChildToken;
  }

  /** Once a waiting operation's commands are applied, each of its open positions is awaited. */
  lemma EmittedIsAwaited(op: Op, n: nat, h: History, st: RunState)
    requires !IsLocal(op) && BlockFits(op, n, st) && h == RemoteHistory(st) && !Resolved(op, n, h) && st.lost == {}
    requires PlainSignal(op)
    ensures forall p | p in Open(op, n, h) :: Resolvable(ApplyAll(st, Emits(op, n, h)), p)
  {
    if op.Gather? {
      GatherIsAwaited(op, n, h, st);
    } else {
      assert n in st.cps ==> SlotFits(op, n, n - n, st.cps[n]);
      assert n !in h;
      ApplyOne(st, Emits(op, n, h)[0]);
      hide ApplyAll, ApplyCommand, Resolvable, RemoteHistory, BlockFits;
      if op.Step? || op.Sleep? {
        RecordIsAwaited(op, n, st);
      } else {
        RowIsAwaited(op, n, st);
      }
    }
  }

  lemma RecordIsAwaited(op: Op, n: nat, st: RunState)
    requires op.Step? || op.Sleep?
    requires n in st.cps ==> SlotFits(op, n, 0, st.cps[n]) && n !in RemoteHistory(st)
    requires st.lost == {}
    ensures Resolvable(ApplyCommand(st, Emits(op, n, map[])[0]), n)
  {
    hide RemoteHistory, Digits;
    if n in st.cps {
      PendingUnread(st, n);
    }
  }

  lemma PendingUnread(st: RunState, n: nat)
    requires n in st.cps && n !in RemoteHistory(st)
    ensures st.cps[n].status == Pending
  {
  }

  lemma RowIsAwaited(op: Op, n: nat, st: RunState)
    requires (op.WaitSignal? || op.StartChild?) && PlainSignal(op)
    requires n in st.cps ==> SlotFits(op, n, 0, st.cps[n]) && n !in RemoteHistory(st)
    ensures Resolvable(ApplyCommand(st, Emits(op, n, map[])[0]), n)
  {
    var st' := ApplyCommand(st, Emits(op, n, map[])[0]);
    if op.WaitSignal? && HasBuffered(st, op.signal) {
      assert st'.cps[n].status == Completed;
    } else {
      var t := if op.WaitSignal? then op.signal else ChildToken(st.runId, n);
      assert t in st'.rows && st'.rows[t] == n;
      assert n !in st'.cps;
      if op.StartChild? {
        StartsChild(st, SpawnChild(n, op.workflow, op.input, None));
      }
    }
    hide ChildToken, Digits;
  }

  lemma GatherIsAwaited(op: Op, n: nat, h: History, st: RunState)
    requires op.Gather? && BlockFits(op, n, st) && h == RemoteHistory(st) && st.lost == {}
    ensures forall p | p in Open(op, n, h) :: Resolvable(ApplyAll(st, Emits(op, n, h)), p)
  {
    forall s | n <= s < n + |op.members| && s !in h
      ensures Undecided(op, n, st, s)
    {
      if s in st.cps {
        assert SlotFits(op, n, s - n, st.cps[s]);
      }
    }
    PendingAwaited(op, n, h, st, |op.members|);
    var st' := ApplyAll(st, Emits(op, n, h));
    forall p | p in Open(op, n, h)
      ensures Resolvable(st', p)
    {
      assert MemberAwaited(op.fan, st', p);
      assert op.fan.Children? ==> "child:" <= ChildToken(st'.runId, p);
    }
  }

  /** What a turn leaves behind, given the frontier `f` of the history `h` it read. */
  ghost predicate Parks(f: (Body, nat), h: History, st': RunState, d: Decision) {
    && (!f.0.Do? ==> !d.Continue?)
    && (f.0.Do? && IsLocal(f.0.op) ==> f.1 in RemoteHistory(st'))
    && (f.0.Do? && !IsLocal(f.0.op) ==> forall p | p in Open(f.0.op, f.1, h) :: Resolvable(st', p))
  }

  /** A turn that reads the current history either moves the frontier or leaves it fully awaited. */
  lemma {:induction false} TurnParks(b: Body, n: nat, st: RunState, captures: Captures)
    requires st.lost == {}
    requires Replayable(b) && var h := RemoteHistory(st);
             FitsAt(b, n, h, st) && LocalsKnown(h, st) && Logged(st)
    ensures var h := RemoteHistory(st);
            var r := RunTurn(b, n, h, captures);
            Parks(Frontier(b, n, h), h, ApplyAll(st, r.commands), r.decision)
    decreases b
  {
    if b.Do? {
      if Resolved(b.op, n, RemoteHistory(st)) {
        ResolvedParks(b, n, st, captures);
      } else if IsLocal(b.op) {
        LocalParks(b, n, st, captures);
      } else {
        WaitingParks(b, n, st, captures);
      }
    } else {
      hide FitsAt, LocalsKnown, Logged, RemoteHistory;
    }
  }

  lemma {:induction false} ResolvedParks(b: Body, n: nat, st: RunState, captures: Captures)
    requires st.lost == {}
    requires Replayable(b) && b.Do?
    requires var h := RemoteHistory(st);
             Resolved(b.op, n, h) && FitsAt(b, n, h, st) && LocalsKnown(h, st) && Logged(st)
    ensures var h := RemoteHistory(st);
            var r := RunTurn(b, n, h, captures);
            Parks(Frontier(b, n, h), h, ApplyAll(st, r.commands), r.decision)
    decreases b, 0
  {
    hide PerformOp, Parks, ApplyAll, BlockFits, Logged, RemoteHistory, Meaning, LocalsKnown, Resolved, Block;
    var h := RemoteHistory(st);
    HistoryIsUnder(st);
    ResolvedReplays(b.op, n, h, st, captures);
    var o := Meaning(b.op, Block(b.op, n, h));
    ResolvedTurn(b, n, h, captures, o);
    TurnParks(b.rest[o], n + Width(b.op), st, captures);
    hide RunTurn, FitsAt, Replayable;
  }

  lemma ResolvedTurn(b: Body, n: nat, h: History, captures: Captures, o: Outcome)
    requires b.Do? && PerformOp(b.op, n, h, captures) == Effect(Settled(o), [])
    ensures RunTurn(b, n, h, captures) == RunTurn(b.rest[o], n + Width(b.op), h, captures)
  {
    hide PerformOp;
    var tail := RunTurn(b.rest[o], n + Width(b.op), h, captures);
    assert [] + tail.commands == tail.commands;
  }

  lemma LocalParks(b: Body, n: nat, st: RunState, captures: Captures)
    requires st.lost == {}
    requires Replayable(b) && b.Do? && IsLocal(b.op)
    requires var h := RemoteHistory(st);
             !Resolved(b.op, n, h) && FitsAt(b, n, h, st) && LocalsKnown(h, st) && Logged(st)
    ensures var h := RemoteHistory(st);
            var r := RunTurn(b, n, h, captures);
            Parks(Frontier(b, n, h), h, ApplyAll(st, r.commands), r.decision)
  {
    hide PerformOp, ApplyAll, BlockFits, Logged, Awaited, RunTurn, FitsAt, RemoteHistory, LocalsKnown, Replayable;
    hide TurnFits, Under;
    var h := RemoteHistory(st);
    HistoryIsUnder(st);
    TurnBegins(b, n, h, st, captures);
    var h' := TurnApplies(b, n, h, st, RunTurn(b, n, h, captures));
    CaptureIsIn(b, n, h', ApplyAll(st, RunTurn(b, n, h, captures).commands), RunTurn(b, n, h, captures).decision);
  }

  lemma CaptureIsIn(b: Body, n: nat, h: History, st: RunState, d: Decision)
    requires b.Do? && IsLocal(b.op) && TurnFits(b, n, h, TurnResult(d, [])) && Under(h, st)
    ensures n in RemoteHistory(st)
  {
  }

  lemma WaitingParks(b: Body, n: nat, st: RunState, captures: Captures)
    requires st.lost == {}
    requires Replayable(b) && b.Do? && !IsLocal(b.op)
    requires var h := RemoteHistory(st); !Resolved(b.op, n, h) && FitsAt(b, n, h, st)
    ensures var h := RemoteHistory(st);
            var r := RunTurn(b, n, h, captures);
            Parks(Frontier(b, n, h), h, ApplyAll(st, r.commands), r.decision)
  {
    var h := RemoteHistory(st);
    HistoryIsUnder(st);
    UnresolvedSuspends(b.op, n, h, st, captures);
    EmittedIsAwaited(b.op, n, h, st);
    assert RunTurn(b, n, h, captures) == TurnResult(Continue, Emits(b.op, n, h));
    hide PerformOp, ApplyAll, BlockFits, Awaited, Emits, RemoteHistory, RunTurn, FitsAt;
  }

  // -------------------------------------------------------------------- schedules

  /**
   * What the world does in each round of a run: `noise` is anything at all that happens before the
   * driver gets through a turn (results, ticks, signals, turns of other processes, crashed turns), and
   * then one open position that can be answered is.
   */
  datatype Schedule = Schedule(
    noise: (nat, Sys) -> seq<SysStep>, choose: (nat, set<nat>) -> nat,
    failed: nat -> bool, output: nat -> Value, error: nat -> Option<StepError>,
    captures: nat -> Captures)

  /**
   * Noise is a run of its own that leaves no turn open, cuts no dispatch and takes no row whose position
   * is on record; an open position is chosen.
   */
  ghost predicate Fair(sch: Schedule, body: Body) {
    && (forall round, open: set<nat> | open != {} :: sch.choose(round, open) in open)
    && (forall round, s: Sys | s.turn.None? && s.result.None? :: FairNoise(body, s, sch.noise(round, s)))
  }

  ghost predicate FairNoise(body: Body, s: Sys, steps: seq<SysStep>) {
    && Runs(body, s, steps) && After(body, s, steps).turn.None?
    && NoCallCut(body, s, steps) && NoStaleTake(body, s, steps)
  }

  /** The environment step that resolves an awaited position. */
  ghost function Answer(sch: Schedule, st: RunState, p: nat): (e: EnvStep)
    requires Awaited(st, p)
    ensures EnvOk(st, e) && !StaleTake(st, e) && p in RemoteHistory(ApplyEnv(st, e))
  {
    if p in st.cps && st.cps[p].kind == Remote then
      Result(p, if sch.failed(p) then Failed else Completed, sch.output(p), sch.error(p))
    else if p in st.cps then
      Tick(if st.clock < st.cps[p].wakeAt.value then st.cps[p].wakeAt.value else st.clock)
    else
      var t :| t in st.rows && st.rows[t] == p;
      SignalTo(t, sch.output(p))
  }

  function OpenOf(f: (Body, nat), h: History): set<nat> {
    if f.0.Do? then Open(f.0.op, f.1, h) else {}
  }

  function Applies(k: nat): seq<SysStep> {
    seq(k, i => Apply)
  }

  /** The steps of one turn that nothing disturbs. */
  function TurnSteps(body: Body, s: Sys, captures: Captures): seq<SysStep> {
    [Begin(captures)] + (Applies(|RunTurn(body, 0, RemoteHistory(s.run), captures).commands|) + [Finish])
  }

  /** The answer the schedule gives in a round to a parked run, if the position it chose awaits one. */
  ghost function AnswerSteps(sch: Schedule, body: Body, s: Sys, round: nat): seq<SysStep>
    requires Fair(sch, body)
  {
    var open := OpenOf(Frontier(body, 0, RemoteHistory(s.run)), RemoteHistory(s.run));
    if s.result.Some? || open == {} then []
    else
      var p := sch.choose(round, open);
      if Awaited(s.run, p) then [Env(Answer(sch, s.run, p))] else []
  }

  /** What the schedule makes of an unsettled run in one round. */
  ghost function RoundSteps(sch: Schedule, body: Body, s: Sys, round: nat): (steps: seq<SysStep>)
    requires Fair(sch, body) && s.turn.None? && s.result.None?
    ensures Tame(body, s, steps) && After(body, s, steps).turn.None?
  {
    var noise := sch.noise(round, s);
    assert FairNoise(body, s, noise) && Tame(body, s, noise);
    var s0 := After(body, s, noise);
    if s0.result.Some? then noise
    else
      var turn := TurnSteps(body, s0, sch.captures(round));
      TurnRuns(body, s0, sch.captures(round));
      var s2 := After(body, s0, turn);
      var answer := AnswerSteps(sch, body, s2, round);
      AnswerRuns(sch, body, s2, round);
      RunsAppend(body, s0, turn, answer);
      RunsAppend(body, s, noise, turn + answer);
      noise + (turn + answer)
  }

  /** The run the schedule dictates: up to `rounds` rounds, until it settles. */
  ghost function Played(sch: Schedule, body: Body, s: Sys, round: nat, rounds: nat): Sys
    requires Fair(sch, body) && s.turn.None?
    decreases rounds
  {
    if rounds == 0 || s.result.Some? then s
    else Played(sch, body, After(body, s, RoundSteps(sch, body, s, round)), round + 1, rounds - 1)
  }

  lemma {:induction false} RunsAppend(body: Body, s: Sys, a: seq<SysStep>, b: seq<SysStep>)
    requires Runs(body, s, a) && Runs(body, After(body, s, a), b)
    ensures Runs(body, s, a + b) && After(body, s, a + b) == After(body, After(body, s, a), b)
    ensures Tame(body, s, a) && Tame(body, After(body, s, a), b) ==> Tame(body, s, a + b)
    decreases |a|
  {
    hide Next, Enabled, CutsCall, StaleTake;
    if a == [] {
      assert a + b == b;
    } else {
      assert (a + b)[1..] == a[1..] + b;
      RunsAppend(body, Next(body, s, a[0]), a[1..], b);
    }
  }

  /** A run nothing of which takes a stale row or cuts a call. */
  ghost predicate Tame(body: Body, s: Sys, steps: seq<SysStep>) {
    Runs(body, s, steps) && NoCallCut(body, s, steps) && NoStaleTake(body, s, steps)
  }

  lemma TameRuns(body: Body, s: Sys, steps: seq<SysStep>)
    requires Tame(body, s, steps)
    ensures Runs(body, s, steps)
  {
  }

  lemma OneStep(body: Body, s: Sys, step: SysStep)
    requires Enabled(s, step)
    ensures Runs(body, s, [step]) && After(body, s, [step]) == Next(body, s, step)
    ensures !CutsCall(s, step) && (step.Env? ==> !StaleTake(s.run, step.e)) ==> Tame(body, s, [step])
  {
    hide Next, Enabled, CutsCall, StaleTake;
    var s' := Next(body, s, step);
    assert [step][1..] == [];
    assert Runs(body, s', []) && NoCallCut(body, s', []) && NoStaleTake(body, s', []);
  }

  lemma StepAhead(body: Body, s: Sys, step: SysStep, tail: seq<SysStep>)
    requires Enabled(s, step) && Tame(body, Next(body, s, step), tail)
    requires !CutsCall(s, step) && (step.Env? ==> !StaleTake(s.run, step.e))
    ensures Tame(body, s, [step] + tail)
    ensures After(body, s, [step] + tail) == After(body, Next(body, s, step), tail)
  {
    hide Next, Enabled, CutsCall, StaleTake;
    assert ([step] + tail)[1..] == tail;
  }

  /** The rest of an open turn, with nothing in between. */
  lemma {:induction false} AppliesRun(body: Body, s: Sys)
    requires s.turn.Some?
    ensures var cmds, d := s.turn.value.commands, s.turn.value.decision;
            var steps := Applies(|cmds|) + [Finish];
            && Tame(body, s, steps)
            && var end := After(body, s, steps);
               && end.run == ApplyAll(s.run, cmds) && end.turn.None?
               && end.result == if d.Continue? then None else Some(d)
    decreases |s.turn.value.commands|
  {
    hide ApplyCommand, Noted, Tame, Runs, After;
    var cmds := s.turn.value.commands;
    if cmds == [] {
      assert Applies(0) + [Finish] == [Finish];
      OneStep(body, s, Finish);
    } else {
      var s' := Next(body, s, Apply);
      AppliesRun(body, s');
      assert Applies(|cmds|) + [Finish] == [Apply] + (Applies(|cmds| - 1) + [Finish]);
      StepAhead(body, s, Apply, Applies(|cmds| - 1) + [Finish]);
    }
  }

  /** One undisturbed turn applies its commands and has its decision. */
  lemma TurnRuns(body: Body, s: Sys, captures: Captures)
    requires s.turn.None? && s.result.None?
    ensures Tame(body, s, TurnSteps(body, s, captures))
    ensures var r := RunTurn(body, 0, RemoteHistory(s.run), captures);
            var end := After(body, s, TurnSteps(body, s, captures));
            && end.run == ApplyAll(s.run, r.commands) && end.turn.None?
            && end.result == if r.decision.Continue? then None else Some(r.decision)
  {
    hide RunTurn, ApplyAll, RemoteHistory, Tame, Runs, After, Applies;
    var s' := Next(body, s, Begin(captures));
    AppliesRun(body, s');
    StepAhead(body, s, Begin(captures), Applies(|s'.turn.value.commands|) + [Finish]);
  }

  lemma AnswerRuns(sch: Schedule, body: Body, s: Sys, round: nat)
    requires Fair(sch, body) && s.turn.None?
    ensures var steps := AnswerSteps(sch, body, s, round);
            Tame(body, s, steps) && After(body, s, steps).turn.None?
  {
    hide Fair, Frontier, Answer, Awaited, ApplyEnv, EnvOk, RemoteHistory, StaleTake;
    var steps := AnswerSteps(sch, body, s, round);
    if steps != [] {
      OneStep(body, s, steps[0]);
    }
  }

  // ------------------------------------------------------------------- it settles

  function OpenAt(f: (Body, nat), h: History): nat {
    |OpenOf(f, h)|
  }

  /** How far a run has got: its frontier, and how much of it is still open. */
  ghost predicate Nearer(body: Body, h: History, h': History) {
    var f, f' := Frontier(body, 0, h), Frontier(body, 0, h');
    f'.0 < f.0 || (f' == f && OpenAt(f', h') < OpenAt(f, h))
  }

  /** The run the schedule dictates settles, after finitely many rounds. */
  lemma {:induction false} Settles(body: Body, s: Sys, sch: Schedule, round: nat)
    returns (rounds: nat, steps: seq<SysStep>)
    requires Replayable(body) && Fair(sch, body)
    requires Inv(body, s) && s.turn.None? && s.run.lost == {}
    ensures Tame(body, s, steps) && After(body, s, steps) == Played(sch, body, s, round, rounds)
    ensures Played(sch, body, s, round, rounds).result.Some?
    decreases Frontier(body, 0, RemoteHistory(s.run)).0,
              OpenAt(Frontier(body, 0, RemoteHistory(s.run)), RemoteHistory(s.run))
  {
    hide Next, Inv, RemoteHistory, Fair, RoundSteps, Frontier, CutsCall, StaleTake;
    if s.result.Some? {
      rounds, steps := 0, [];
    } else {
      var first := RoundSteps(sch, body, s, round);
      var s' := After(body, s, first);
      RoundNearer(sch, body, s, round);
      if s'.result.Some? {
        rounds, steps := 1, first;
        assert Played(sch, body, s, round, 1) == Played(sch, body, s', round + 1, 0);
      } else {
        var more, tail := Settles(body, s', sch, round + 1);
        rounds, steps := more + 1, first + tail;
        RunsAppend(body, s, first, tail);
      }
    }
  }

  /** One round settles the run or brings it nearer. */
  lemma RoundNearer(sch: Schedule, body: Body, s: Sys, round: nat)
    requires Replayable(body) && Fair(sch, body)
    requires Inv(body, s) && s.turn.None? && s.result.None? && s.run.lost == {}
    ensures var s' := After(body, s, RoundSteps(sch, body, s, round));
            && Inv(body, s') && s'.run.lost == {}
            && (s'.result.Some? || Nearer(body, RemoteHistory(s.run), RemoteHistory(s'.run)))
  {
    hide Next, Inv, RemoteHistory, Frontier, Answer, Awaited, AnswerSteps, Nearer;
    var noise := sch.noise(round, s);
    assert FairNoise(body, s, noise);
    var s0 := After(body, s, noise);
    NoiseKeeps(body, s, noise);
    if s0.result.None? {
      var turn := TurnSteps(body, s0, sch.captures(round));
      TurnRuns(body, s0, sch.captures(round));
      var s2 := OneTurn(body, s0, sch.captures(round));
      var answer := AnswerSteps(sch, body, s2, round);
      AnswerRuns(sch, body, s2, round);
      RunsAppend(body, s0, turn, answer);
      RunsAppend(body, s, noise, turn + answer);
      if s2.result.None? {
        AnswerNearer(sch, body, s, s0, s2, round);
      } else {
        assert AnswerSteps(sch, body, s2, round) == [] by { NoAnswer(sch, body, s2, round); }
      }
    }
  }

  lemma NoAnswer(sch: Schedule, body: Body, s: Sys, round: nat)
    requires Fair(sch, body) && s.result.Some?
    ensures AnswerSteps(sch, body, s, round) == []
  {
  }

  /** Noise keeps the invariant and the history, and loses nothing. */
  lemma NoiseKeeps(body: Body, s: Sys, noise: seq<SysStep>)
    requires Replayable(body) && Inv(body, s) && s.turn.None? && Tame(body, s, noise)
    ensures var s0 := After(body, s, noise);
            && Inv(body, s0) && s0.run.lost == s.run.lost && Extends(RemoteHistory(s.run), RemoteHistory(s0.run))
  {
    hide NoCallCut, NoStaleTake, Runs, After, RemoteHistory, FitsAt, TurnFits, Reaches, Under, LocalsKnown;
    assert LostOnRecord(s.run);
    RunKeepsInv(body, s, noise);
    NothingLostIffNoCallCut(body, s, noise);
    HistoryIsUnder(s.run);
    RunKeepsHistory(body, s, noise, RemoteHistory(s.run));
    UnderExtends(RemoteHistory(s.run), After(body, s, noise).run);
  }

  /** What a turn had read before it applies a command is still readable after it. */
  lemma CommandKeeps(body: Body, s: Sys, begun: bool, h: History)
    requires Inv(body, s) && s.turn.Some? && s.turn.value.commands != []
    requires Under(h, s.run) && Extends(h, s.history)
    ensures Under(h, Next(body, s, Apply).run) && Extends(h, Next(body, s, Apply).history)
    ensures Under(h, Next(body, s, Crash(begun)).run)
  {
    hide ApplyCommand, WriteOnly, FitsAt, TurnFits, Moved, Logged, LocalsKnown, Under, Reaches;
    CommandApplies(body, 0, s.history, s.run, s.turn.value);
    hide Kept;
    FreshCommandKeeps(s.run, h, s.turn.value.commands[0]);
  }

  lemma FreshCommandKeeps(st: RunState, h: History, cmd: Command)
    requires Under(h, st) && cmd.seqNo !in h
    ensures Under(h, ApplyCommand(st, cmd)) && Under(h, WriteOnly(st, cmd))
  {
  }

  /** What a run has read stays readable: a turn overwrites only what it did not find in its history. */
  lemma {:induction false} RunKeepsHistory(body: Body, s: Sys, steps: seq<SysStep>, h: History)
    requires Replayable(body) && Inv(body, s) && Runs(body, s, steps) && NoStaleTake(body, s, steps)
    requires Under(h, s.run) && (s.turn.Some? ==> Extends(h, s.history))
    ensures Under(h, After(body, s, steps).run)
    decreases |steps|
  {
    if steps != [] {
      StepKeepsInv(body, s, steps[0]);
      StepKeepsHistory(body, s, steps[0], h);
      hide Next, Enabled, Inv, Under, StaleTake;
      RunKeepsHistory(body, Next(body, s, steps[0]), steps[1..], h);
    }
  }

  lemma StepKeepsHistory(body: Body, s: Sys, step: SysStep, h: History)
    requires Inv(body, s) && Enabled(s, step) && (step.Env? ==> !StaleTake(s.run, step.e))
    requires Under(h, s.run) && (s.turn.Some? ==> Extends(h, s.history))
    ensures var s' := Next(body, s, step); Under(h, s'.run) && (s'.turn.Some? ==> Extends(h, s'.history))
  {
    hide RunTurn, RemoteHistory, Inv, Under, ApplyCommand, WriteOnly, Noted, ApplyEnv, StaleTake, EnvOk;
    match step
    case Begin(_) => UnderExtends(h, s.run);
    case Apply => CommandKeeps(body, s, false, h);
    case Finish =>
    case Crash(begun) => if s.turn.value.commands != [] { CommandKeeps(body, s, begun, h); }
    case Env(e) =>
      SalvagedIsOk(s.run, s.result, e);
      EnvKeepsUnder(h, s.run, Salvaged(s.result, e));
  }

  /** A parked run whose round is answered has fewer open positions, or its frontier has moved. */
  lemma AnswerNearer(sch: Schedule, body: Body, s: Sys, s0: Sys, s2: Sys, round: nat)
    requires Replayable(body) && Fair(sch, body)
    requires Inv(body, s2) && s2.turn.None? && s2.result.None? && s2.run.lost == {}
    requires Extends(RemoteHistory(s.run), RemoteHistory(s0.run))
    requires Extends(RemoteHistory(s0.run), RemoteHistory(s2.run))
    requires Parks(Frontier(body, 0, RemoteHistory(s0.run)), RemoteHistory(s0.run), s2.run, Continue)
    requires Tame(body, s2, AnswerSteps(sch, body, s2, round))
    ensures var s3 := After(body, s2, AnswerSteps(sch, body, s2, round));
            && Inv(body, s3) && s3.run.lost == {} && s3.result.None?
            && Nearer(body, RemoteHistory(s.run), RemoteHistory(s3.run))
  {
    hide Inv, RemoteHistory, Frontier, Awaited, ApplyEnv, EnvOk, Parks, Answer, AnswerSteps, Next;
    var h, h0, h2 := RemoteHistory(s.run), RemoteHistory(s0.run), RemoteHistory(s2.run);
    var s3 := AnswerAfter(sch, body, s2, round);
    var h3 := RemoteHistory(s3.run);
    FrontierAdvances(body, 0, h, h0);
    FrontierAdvances(body, 0, h0, h2);
    FrontierAdvances(body, 0, h2, h3);
    var f := Frontier(body, 0, h);
    if Frontier(body, 0, h3) == f {
      assert f == Frontier(body, 0, h0) && f == Frontier(body, 0, h2);
      StillOpen(body, f, h0, h2, s2);
      var p := AnsweredPosition(sch, body, s0, s2, round, f);
      assert p in Open(f.0.op, f.1, h);
      OpenShrinks(f.0.op, f.1, h, h3, p);
    }
  }

  /** What the answer of a round does to the state: nothing, or one environment step. */
  lemma AnswerAfter(sch: Schedule, body: Body, s: Sys, round: nat) returns (s': Sys)
    requires Replayable(body) && Fair(sch, body) && Inv(body, s) && s.result.None? && s.run.lost == {}
    requires Tame(body, s, AnswerSteps(sch, body, s, round))
    ensures s' == After(body, s, AnswerSteps(sch, body, s, round))
    ensures Inv(body, s') && s'.run.lost == {} && s'.result.None?
    ensures Extends(RemoteHistory(s.run), RemoteHistory(s'.run))
  {
    hide Inv, RemoteHistory, Frontier, Awaited, ApplyEnv, EnvOk, Answer, Next, Fair;
    var steps := AnswerSteps(sch, body, s, round);
    s' := After(body, s, steps);
    if steps != [] {
      var e := steps[0].e;
      assert |steps| == 1 && steps[1..] == [];
      assert s' == After(body, Next(body, s, steps[0]), steps[1..]);
      assert EnvOk(s.run, e) && !StaleTake(s.run, e);
      StepKeepsInv(body, s, Env(e));
      StepLoses(body, s, Env(e));
      EnvNext(body, s, e);
    }
  }

  /** The position answered was open, and is on record afterwards. */
  lemma AnsweredPosition(sch: Schedule, body: Body, s0: Sys, s2: Sys, round: nat, f: (Body, nat)) returns (p: nat)
    requires Fair(sch, body) && s2.result.None?
    requires f == Frontier(body, 0, RemoteHistory(s0.run)) && f == Frontier(body, 0, RemoteHistory(s2.run))
    requires f.0.Do? && !IsLocal(f.0.op) && Parks(f, RemoteHistory(s0.run), s2.run, Continue)
    requires Extends(RemoteHistory(s0.run), RemoteHistory(s2.run))
    requires Runs(body, s2, AnswerSteps(sch, body, s2, round))
    ensures p in Open(f.0.op, f.1, RemoteHistory(s2.run))
    ensures p in RemoteHistory(After(body, s2, AnswerSteps(sch, body, s2, round)).run)
  {
    hide RemoteHistory, Awaited, ApplyEnv, EnvOk;
    var h2 := RemoteHistory(s2.run);
    var open := Open(f.0.op, f.1, h2);
    SomeOpen(f.0.op, f.1, h2);
    p := sch.choose(round, open);
    assert p in open && p in Open(f.0.op, f.1, RemoteHistory(s0.run));
    var steps := AnswerSteps(sch, body, s2, round);
    assert steps == [Env(Answer(sch, s2.run, p))] && steps[1..] == [];
  }

  lemma EnvNext(body: Body, s: Sys, e: EnvStep)
    requires EnvOk(s.run, e) && s.result.None? && !StaleTake(s.run, e)
    ensures var s' := Next(body, s, Env(e));
            && s'.run == ApplyEnv(s.run, e) && s'.turn == s.turn && s'.result == s.result
            && Extends(RemoteHistory(s.run), RemoteHistory(s'.run))
  {
    HistoryIsUnder(s.run);
    EnvKeepsUnder(RemoteHistory(s.run), s.run, e);
  }

  lemma SomeOpen(op: Op, n: nat, h: History)
    requires !Resolved(op, n, h)
    ensures Open(op, n, h) != {}
  {
    var s :| n <= s < n + Width(op) && s !in h;
    assert s in Open(op, n, h);
  }

  lemma UnderExtends(h: History, st: RunState)
    requires Under(h, st)
    ensures Extends(h, RemoteHistory(st))
  {
  }

  lemma OpenShrinks(op: Op, n: nat, h: History, h3: History, p: nat)
    requires Extends(h, h3) && p in Open(op, n, h) && p in h3
    ensures |Open(op, n, h3)| < |Open(op, n, h)|
  {
    assert Open(op, n, h3) <= Open(op, n, h) - {p};
    SubsetSize(Open(op, n, h3), Open(op, n, h) - {p});
  }

  /** One undisturbed turn: it keeps the history and, if it parks, every open position is awaited. */
  lemma OneTurn(body: Body, s: Sys, captures: Captures) returns (s': Sys)
    requires Replayable(body) && Inv(body, s) && s.turn.None? && s.result.None? && s.run.lost == {}
    ensures Tame(body, s, TurnSteps(body, s, captures)) && s' == After(body, s, TurnSteps(body, s, captures))
    ensures Inv(body, s') && s'.turn.None? && s'.run.lost == {}
    ensures Extends(RemoteHistory(s.run), RemoteHistory(s'.run))
    ensures Parks(Frontier(body, 0, RemoteHistory(s.run)), RemoteHistory(s.run), s'.run, s'.result.GetOr(Continue))
  {
    hide Parks, RunTurn, ApplyAll, FitsAt, Logged, RemoteHistory, LocalsKnown, Frontier, Inv;
    hide Tame, TurnSteps, Runs, After;
    TurnRuns(body, s, captures);
    assert Runs(body, s, TurnSteps(body, s, captures)) by { TameRuns(body, s, TurnSteps(body, s, captures)); }
    s' := After(body, s, TurnSteps(body, s, captures));
    NoiseKeeps(body, s, TurnSteps(body, s, captures));
    BeginKnowsLocals(body, s, captures);
    TurnParks(body, 0, s.run, captures);
  }

  lemma BeginKnowsLocals(body: Body, s: Sys, captures: Captures)
    requires Replayable(body) && Inv(body, s) && s.turn.None? && s.result.None?
    ensures var h := RemoteHistory(s.run);
            FitsAt(body, 0, h, s.run) && LocalsKnown(h, s.run) && Logged(s.run)
  {
    BeginKeepsInv(body, s, captures);
    var s' := Next(body, s, Begin(captures));
    assert Inv(body, s') && s'.run == s.run && s'.history == RemoteHistory(s.run);
  }

  lemma StillOpen(body: Body, f: (Body, nat), h: History, h2: History, s2: Sys)
    requires f == Frontier(body, 0, h) && f == Frontier(body, 0, h2) && h2 == RemoteHistory(s2.run)
    requires Parks(f, h, s2.run, s2.result.GetOr(Continue)) && s2.result.None?
    ensures f.0.Do? && !IsLocal(f.0.op)
  {
  }

  /**
   * Every run settles. Whatever a fair schedule lets happen in between, turns that die included, and in
   * whatever order it answers, the run it dictates reaches a decision after finitely many rounds, and
   * that is the output or error of one uninterrupted pass over what is then on record.
   */
  lemma EveryScheduleSettles(body: Body, runId: string, clock: int, sch: Schedule)
    returns (rounds: nat, steps: seq<SysStep>)
    requires Replayable(body) && Fair(sch, body)
    ensures var end := Played(sch, body, Start(runId, clock), 0, rounds);
            && Tame(body, Start(runId, clock), steps) && end == After(body, Start(runId, clock), steps)
            && end.result.Some?
            && forall oracle: Oracle | Agrees(oracle, RemoteHistory(end.run)) ::
                 end.result == Some(Uninterrupted(body, 0, oracle))
  {
    StartInv(body, runId, clock);
    rounds, steps := Settles(body, Start(runId, clock), sch, 0);
    var end := After(body, Start(runId, clock), steps);
    forall oracle: Oracle | Agrees(oracle, RemoteHistory(end.run))
      ensures end.result == Some(Uninterrupted(body, 0, oracle))
    {
      ReplayPreservesMeaning(body, runId, clock, steps, oracle);
    }
  }

  // ------------------------------------------------------------------ when it cannot

  /** A schedule without noise that answers the least open position. */
  ghost function Plain(): (sch: Schedule)
    ensures forall body :: Fair(sch, body)
  {
    var choose := (round: nat, open: set<nat>) => if open != {} then Least(open) else 0;
    Schedule((round, s) => [], choose, n => false, n => Undefined, n => None, round => (n => Produced(Undefined)))
  }

  ghost function Least(open: set<nat>): (p: nat)
    requires open != {}
    ensures p in open
  {
    var p :| p in open;
    p
  }

  /**
   * A run at rest can still settle exactly when no call of it is lost: a process that dies between
   * saving a call and dispatching it stalls its run for good, and nothing else does.
   */
  lemma CanSettleIffNothingLost(body: Body, runId: string, clock: int, before: seq<SysStep>)
    requires Replayable(body) && Runs(body, Start(runId, clock), before)
    requires NoStaleTake(body, Start(runId, clock), before)
    requires var s := After(body, Start(runId, clock), before); s.turn.None? && s.result.None?
    ensures var s := After(body, Start(runId, clock), before);
            && (CanSettle(body, s) <==> s.run.lost == {})
            && (s.run.lost == {} <==> NoCallCut(body, Start(runId, clock), before))
  {
    StartInv(body, runId, clock);
    RunKeepsInv(body, Start(runId, clock), before);
    NothingLostIffNoCallCut(body, Start(runId, clock), before);
    var s := After(body, Start(runId, clock), before);
    if s.run.lost == {} {
      var rounds, steps := Settles(body, s, Plain(), 0);
    } else {
      forall after | Runs(body, s, after) && NoStaleTake(body, s, after)
        ensures After(body, s, after).result.None?
      {
        LostCallStalls(body, s, after);
      }
    }
  }

  /** Some way to go on, in which no signal takes a row whose position is on record, settles the run. */
  ghost predicate CanSettle(body: Body, s: Sys) {
    exists after :: Runs(body, s, after) && NoStaleTake(body, s, after) && After(body, s, after).result.Some?
  }

  /** It does happen: dying after the first write of a body's first call loses that call. */
  lemma CutCallIsLost(body: Body, runId: string, clock: int, captures: Captures)
    requires Replayable(body) && body.Do? && body.op.Step?
    ensures var steps := [Begin(captures), Crash(true)];
            && Runs(body, Start(runId, clock), steps)
            && After(body, Start(runId, clock), steps).run.lost == {0}
  {
    var s0 := Start(runId, clock);
    var s1 := Next(body, s0, Begin(captures));
    var cmd := Call(0, body.op.name, body.op.input, None);
    assert PerformOp(body.op, 0, s1.history, captures) == Effect(Suspended, [cmd]);
    assert RunTurn(body, 0, s1.history, captures).commands == [cmd];
    var steps := [Begin(captures), Crash(true)];
    assert steps[1..] == [Crash(true)] && [Crash(true)][1..] == [];
    assert Next(body, s1, Crash(true)).run.lost == {0};
    hide RunTurn, RemoteHistory;
  }
}

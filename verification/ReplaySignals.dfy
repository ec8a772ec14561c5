/**
 * How many signals one name may receive: a wait that is registered again after it has been answered
 * leaves a row that points at a recorded position, and a second signal of that name overwrites the record.
 */
module ReplaySignals {
  import opened Common
  import opened WorkflowTurn
  import opened RemoteRun
  import opened ReplayTheorem
  import opened ReplayProgress
  import opened ReplayLimits

  // ------------------------------------------------------------- counting the signals

  function SignalsTo(steps: seq<SysStep>, token: string): nat {
    if steps == [] then 0
    else (if steps[0].Env? && steps[0].e.SignalTo? && steps[0].e.token == token then 1 else 0)
         + SignalsTo(steps[1..], token)
  }

  /** No name is signalled more than `n` times. */
  ghost predicate SignalsWithin(steps: seq<SysStep>, n: nat) {
    forall token :: SignalsTo(steps, token) <= n
  }

  // --------------------------------------------------- what one signal a name leaves behind

  /** Rows of children are their own, and a row whose position is on record belongs to a name signalled before. */
  predicate RowSigned(st: RunState, t: string, sent: set<string>)
    requires t in st.rows
  {
    && ("child:" <= t ==> t == ChildToken(st.runId, st.rows[t]))
    && (st.rows[t] in st.cps ==> t in sent)
  }

  /** A recorded signal names one that was sent; a child's completion is that of the child started there. */
  predicate NamesSent(st: RunState, n: nat, name: string, sent: set<string>) {
    exists t | t in sent :: name == "signal:" + t && ("child:" <= t ==> t == ChildToken(st.runId, n))
  }

  /** The rows, the buffer and the records go back to the names signalled so far. */
  ghost predicate Signed(st: RunState, sent: set<string>) {
    && (forall t | t in st.rows :: RowSigned(st, t, sent))
    && (forall t | HasBuffered(st, t) :: t in sent)
    && (forall n | n in st.cps && st.cps[n].kind == Signal :: NamesSent(st, n, st.cps[n].name, sent))
  }

  /** Two rows for one position are rows of children. */
  lemma {:induction false} RowsAgree(b: Body, n: nat, h: History, st: RunState, t: string, u: string)
    requires FitsAt(b, n, h, st) && t in st.rows && u in st.rows && st.rows[t] == st.rows[u] && n <= st.rows[t]
    ensures t == u || ("child:" <= t && "child:" <= u)
    decreases b
  {
    if b.Do? {
      if st.rows[t] < n + Width(b.op) {
        assert RowFits(b.op, t) && RowFits(b.op, u);
      } else if Resolved(b.op, n, h) {
        RowsAgree(b.rest[Meaning(b.op, Block(b.op, n, h))], n + Width(b.op), h, st, t, u);
      }
    }
  }

  lemma NamesMore(st: RunState, st': RunState, n: nat, name: string, sent: set<string>, more: set<string>)
    requires NamesSent(st, n, name, sent) && sent <= more && st'.runId == st.runId
    ensures NamesSent(st', n, name, more)
  {
  }

  lemma SignedName(st: RunState, n: nat, t: string, sent: set<string>)
    requires NamesSent(st, n, "signal:" + t, sent)
    ensures t in sent && ("child:" <= t ==> t == ChildToken(st.runId, n))
  {
    var u :| u in sent && "signal:" + t == "signal:" + u && ("child:" <= u ==> u == ChildToken(st.runId, n));
    assert t == ("signal:" + t)[7..] == ("signal:" + u)[7..] == u;
  }

  function Sending(e: EnvStep, sent: set<string>): set<string> {
    if e.SignalTo? then sent + {e.token} else sent
  }

  lemma EnvKeepsSigned(body: Body, h: History, st: RunState, e: EnvStep, sent: set<string>)
    requires FitsAt(body, 0, h, st) && Signed(st, sent) && EnvOk(st, e)
    ensures Signed(ApplyEnv(st, e), Sending(e, sent))
  {
    var st', more := ApplyEnv(st, e), Sending(e, sent);
    forall n | n in st'.cps && st'.cps[n].kind == Signal
      ensures NamesSent(st', n, st'.cps[n].name, more)
    {
      if e.SignalTo? && e.token in st.rows && st.rows[e.token] == n {
        assert RowSigned(st, e.token, sent) && e.token in more;
      } else {
        NamesMore(st, st', n, st.cps[n].name, sent, more);
      }
    }
    assert e.SignalTo? && e.token in st.rows ==> RowSigned(st, e.token, sent);
    forall t | t in st'.rows
      ensures RowSigned(st', t, more)
    {
      assert RowSigned(st, t, sent);
      if e.SignalTo? && e.token in st.rows && st.rows[e.token] == st.rows[t] {
        RowsAgree(body, 0, h, st, t, e.token);
      }
    }
    forall t | HasBuffered(st', t) ensures t in more {
      if !HasBuffered(st, t) {
        assert e.SignalTo?;
      }
    }
  }

  // ------------------------------------------------------------------- and of a command

  /** The command belongs to the operation at the block that starts at `m`, which the records fit. */
  ghost predicate Belongs(op: Op, m: nat, st: RunState, cmd: Command) {
    && BlockFits(op, m, st) && PlainSignal(op) && m <= cmd.seqNo < m + Width(op)
    && (cmd.AwaitSignal? ==> op == WaitSignal(cmd.signal))
    && (cmd.SpawnChild? ==> op.StartChild? || (op.Gather? && op.fan.Children?))
    && (cmd.Call? || cmd.SleepFor? || cmd.RecordStep? ==>
          !op.WaitSignal? && !op.StartChild? && (op.Gather? ==> op.fan.Calls?))
  }

  lemma {:induction false} CommandBelongs(b: Body, n: nat, h: History, st: RunState, t: TurnResult)
    returns (op: Op, m: nat)
    requires Replayable(b) && FitsAt(b, n, h, st) && TurnFits(b, n, h, t) && t.commands != []
    ensures Belongs(op, m, st, t.commands[0])
    decreases b
  {
    hide BlockFits, Meaning, CaptureName, CapturedOutcome;
    if Resolved(b.op, n, h) {
      op, m := CommandBelongs(b.rest[Meaning(b.op, Block(b.op, n, h))], n + Width(b.op), h, st, t);
    } else {
      op, m := b.op, n;
      if !IsLocal(b.op) {
        assert EmittedBy(op, n, h, t.commands[0]);
      }
    }
  }

  lemma CommandKeepsSigned(op: Op, m: nat, st: RunState, cmd: Command, sent: set<string>)
    requires Signed(st, sent) && Belongs(op, m, st, cmd)
    ensures Signed(ApplyCommand(st, cmd), sent)
  {
    var st', n := ApplyCommand(st, cmd), cmd.seqNo;
    hide Belongs, ChildToken, Digits;
    forall t | HasBuffered(st', t) ensures t in sent {
      assert HasBuffered(st, t);
    }
    RecordsSigned(op, m, st, cmd, sent);
    RowsSigned(op, m, st, cmd, sent);
  }

  lemma RecordsSigned(op: Op, m: nat, st: RunState, cmd: Command, sent: set<string>)
    requires Signed(st, sent) && Belongs(op, m, st, cmd)
    ensures var st' := ApplyCommand(st, cmd);
            forall n | n in st'.cps && st'.cps[n].kind == Signal :: NamesSent(st', n, st'.cps[n].name, sent)
  {
    hide ChildToken, Digits, BlockFits, RowSigned;
    var st' := ApplyCommand(st, cmd);
    forall n | n in st'.cps && st'.cps[n].kind == Signal
      ensures NamesSent(st', n, st'.cps[n].name, sent)
    {
      if n in st.cps && st'.cps[n] == st.cps[n] {
        NamesMore(st, st', n, st.cps[n].name, sent, sent);
      } else {
        assert cmd.AwaitSignal? && HasBuffered(st, cmd.signal) && cmd.signal in sent;
      }
    }
  }

  lemma RowsSigned(op: Op, m: nat, st: RunState, cmd: Command, sent: set<string>)
    requires Signed(st, sent) && Belongs(op, m, st, cmd)
    ensures var st' := ApplyCommand(st, cmd); forall t | t in st'.rows :: RowSigned(st', t, sent)
  {
    hide ChildToken, Digits;
    var st', n := ApplyCommand(st, cmd), cmd.seqNo;
    forall t | t in st'.rows
      ensures RowSigned(st', t, sent)
    {
      if t in st.rows && st'.rows[t] == st.rows[t] {
        assert RowSigned(st, t, sent);
        if st.rows[t] == n {
          assert RowFits(op, t);
        }
      } else if n in st.cps {
        FreshRowSigned(op, m, st, cmd, sent, t);
      } else {
        assert cmd.SpawnChild? ==> t == ChildToken(st.runId, n);
      }
    }
  }

  /** A row registered again at a recorded position is of the name recorded there. */
  lemma FreshRowSigned(op: Op, m: nat, st: RunState, cmd: Command, sent: set<string>, t: string)
    requires Signed(st, sent) && Belongs(op, m, st, cmd) && cmd.seqNo in st.cps
    requires (cmd.AwaitSignal? && t == cmd.signal) || (cmd.SpawnChild? && t == ChildToken(st.runId, cmd.seqNo))
    ensures t in sent
  {
    hide ChildToken, Digits;
    var n := cmd.seqNo;
    assert SlotFits(op, m, n - m, st.cps[n]);
    var u :| u in sent && st.cps[n].name == "signal:" + u && ("child:" <= u ==> u == ChildToken(st.runId, n));
    if cmd.AwaitSignal? {
      SignedName(st, n, t, sent);
    } else {
      SignalChildPrefix(u);
    }
  }

  // ------------------------------------------------------------------------- over runs

  lemma StepKeepsSigned(body: Body, s: Sys, step: SysStep, sent: set<string>)
    requires Replayable(body) && Inv(body, s) && Signed(s.run, sent) && Enabled(s, step)
    ensures Signed(Next(body, s, step).run, if step.Env? then Sending(step.e, sent) else sent)
  {
    hide FitsAt, TurnFits, Reaches, Logged, Under, LocalsKnown, Replayable, ApplyEnv, Noted, ApplyCommand, WriteOnly;
    hide Signed;
    match step
    case Begin(_) =>
    case Apply =>
      var op, m := CommandBelongs(body, 0, s.history, s.run, s.turn.value);
      CommandKeepsSigned(op, m, s.run, s.turn.value.commands[0], sent);
    case Finish =>
    case Crash(begun) =>
      if begun && s.turn.value.commands != [] {
        var op, m := CommandBelongs(body, 0, s.history, s.run, s.turn.value);
        CommandKeepsSigned(op, m, s.run, s.turn.value.commands[0], sent);
        WriteKeepsSigned(s.run, s.turn.value.commands[0], sent);
      }
    case Env(e) =>
      SalvagedIsOk(s.run, s.result, e);
      EnvKeepsSigned(body, s.history, s.run, Salvaged(s.result, e), sent);
  }

  lemma WriteKeepsSigned(st: RunState, cmd: Command, sent: set<string>)
    requires Signed(st, sent) && Signed(ApplyCommand(st, cmd), sent)
    ensures Signed(WriteOnly(st, cmd), sent)
  {
    var part := WriteOnly(st, cmd);
    var like := if cmd.AwaitSignal? && HasBuffered(st, cmd.signal) then st else ApplyCommand(st, cmd);
    WriteRecords(st, cmd);
    hide ChildToken, Digits;
    assert part.runId == like.runId;
    forall t | t in part.rows ensures RowSigned(part, t, sent) {
      assert RowSigned(like, t, sent);
    }
    forall t | HasBuffered(part, t) ensures t in sent {
      assert HasBuffered(st, t);
    }
    forall n | n in part.cps && part.cps[n].kind == Signal ensures NamesSent(part, n, part.cps[n].name, sent) {
      NamesMore(like, part, n, like.cps[n].name, sent, sent);
    }
  }

  lemma SignedIsNotStale(st: RunState, e: EnvStep, sent: set<string>)
    requires Signed(st, sent) && e.SignalTo? && e.token !in sent
    ensures !StaleTake(st, e)
  {
    assert e.token in st.rows ==> RowSigned(st, e.token, sent);
  }

  /** While no name is signalled a second time, no signal takes a row whose position is on record. */
  lemma {:induction false} OneSignalIsNeverStale(body: Body, s: Sys, steps: seq<SysStep>, sent: set<string>)
    requires Replayable(body) && Inv(body, s) && Signed(s.run, sent) && Runs(body, s, steps)
    requires forall token :: SignalsTo(steps, token) <= if token in sent then 0 else 1
    ensures NoStaleTake(body, s, steps)
    decreases |steps|
  {
    hide Inv, Signed, Next, Enabled, StaleTake;
    if steps != [] {
      var step := steps[0];
      if step.Env? && step.e.SignalTo? {
        assert SignalsTo(steps, step.e.token) >= 1;
        SignedIsNotStale(s.run, step.e, sent);
      }
      NotASignal(s.run, step);
      StepKeepsInv(body, s, step);
      StepKeepsSigned(body, s, step, sent);
      var more := if step.Env? then Sending(step.e, sent) else sent;
      forall token ensures SignalsTo(steps[1..], token) <= if token in more then 0 else 1 {
        assert SignalsTo(steps, token) <= if token in sent then 0 else 1;
      }
      OneSignalIsNeverStale(body, Next(body, s, step), steps[1..], more);
    }
  }

  lemma NotASignal(st: RunState, step: SysStep)
    ensures step.Env? && !step.e.SignalTo? ==> !StaleTake(st, step.e)
  {
  }

  // ------------------------------------------------------------- two signals of one name

  const WAIT := WaitSignal("s")
  const ONE := SignalCheckpoint("s", Json("1"))
  const TWO := SignalCheckpoint("s", Json("2"))

  /**
   * The wait is registered; it is registered again by a turn that began before the signal landed, so that
   * the row points at the recorded position.
   */
  lemma RowGoesStale(body: Body, captures: Captures) returns (steps: seq<SysStep>, s: Sys)
    requires body.Do? && body.op == WAIT
    ensures ComesTo(body, steps, s, true) && s.turn.None? && s.result.None? && s.run.lost == {}
    ensures s.run.cps == map[0 := ONE] && s.run.rows == map["s" := 0] && s.run.buffered == map[]
    ensures SignalsTo(steps, "s") == 1 && forall token | token != "s" :: SignalsTo(steps, token) == 0
  {
    s := Start("run", 0);
    FromStart(body);
    var cmd, signal := AwaitSignal(0, "s"), Env(SignalTo("s", Json("1")));
    assert RemoteHistory(s.run) == map[];
    var r := TurnResult(Continue, [cmd]);
    assert r == RunTurn(body, 0, map[], captures);
    ApplyOne(s.run, cmd);
    hide ComesTo, ApplyAll, RunTurn, SignalsTo, TurnSteps;
    steps, s := GoOnTurn(body, [], s, captures, r, true);
    var first := steps;
    assert s.run.rows == map["s" := 0] && s.run.cps == map[];
    assert RemoteHistory(s.run) == map[];
    steps := GoOn(body, steps, s, Begin(captures), true);
    s := Next(body, s, Begin(captures));
    assert s.turn == Some(r);
    steps := GoOn(body, steps, s, signal, true);
    s := Next(body, s, signal);
    assert s.run.rows == map[] && s.run.cps == map[0 := ONE];
    steps := GoOn(body, steps, s, Apply, true);
    s := Next(body, s, Apply);
    assert s.run.rows == map["s" := 0] && s.turn.value.commands == [];
    steps := GoOn(body, steps, s, Finish, true);
    s := Next(body, s, Finish);
    hide RemoteHistory, Next, Enabled;
    forall token ensures SignalsTo(steps, token) == if token == "s" then 1 else 0 {
      TurnSendsNothing(body, Start("run", 0), captures, token);
      assert steps == first + [Begin(captures), signal, Apply, Finish];
      assert first == [] + TurnSteps(body, Start("run", 0), captures) == TurnSteps(body, Start("run", 0), captures);
      CountAppend(first, [Begin(captures), signal, Apply, Finish], token);
      FourSteps(captures, signal, token);
    }
  }

  lemma FourSteps(captures: Captures, signal: SysStep, token: string)
    requires signal.Env? && signal.e.SignalTo?
    ensures SignalsTo([Begin(captures), signal, Apply, Finish], token) == if token == signal.e.token then 1 else 0
  {
    var steps := [Begin(captures), signal, Apply, Finish];
    assert steps[1..] == [signal, Apply, Finish] && steps[1..][1..] == [Apply, Finish];
    assert [Apply, Finish][1..] == [Finish] && [Finish][1..] == [];
    assert SignalsTo([Finish], token) == 0;
    assert SignalsTo([Apply, Finish], token) == 0;
  }

  lemma {:induction false} CountAppend(a: seq<SysStep>, b: seq<SysStep>, token: string)
    ensures SignalsTo(a + b, token) == SignalsTo(a, token) + SignalsTo(b, token)
  {
    if a == [] {
      assert a + b == b;
    } else {
      assert (a + b)[1..] == a[1..] + b;
      CountAppend(a[1..], b, token);
    }
  }

  lemma {:induction false} QuietCount(steps: seq<SysStep>, token: string)
    requires forall i | 0 <= i < |steps| :: !steps[i].Env?
    ensures SignalsTo(steps, token) == 0
  {
    if steps != [] {
      QuietCount(steps[1..], token);
    }
  }

  lemma TurnSendsNothing(body: Body, s: Sys, captures: Captures, token: string)
    ensures SignalsTo(TurnSteps(body, s, captures), token) == 0
  {
    hide RunTurn, RemoteHistory;
    QuietCount(TurnSteps(body, s, captures), token);
  }

  /**
   * A whole run that fails by the guard: the body branches on the payload, a second signal of the name
   * takes the stale row and overwrites the first, and the next turn comes to the other branch.
   */
  lemma SecondSignalFailsTheRun(captures: Captures) returns (steps: seq<SysStep>)
    ensures var body := Branching(WAIT, ByPayload);
            && Replayable(body) && Runs(body, Start("run", 0), steps) && SignalsWithin(steps, 2)
            && After(body, Start("run", 0), steps).result == Some(Nondeterminism)
  {
    hide *;
    var body := Branching(WAIT, ByPayload);
    var s: Sys;
    steps, s := RowGoesStale(body, captures);
    steps, s := BranchTaken(body, steps, s, captures);
    steps, s := RecordOverwritten(body, steps, s);
    OtherBranchTrips(body, RemoteHistory(s.run), captures) by { OverwrittenHistory(s.run); }
    var before, s0 := steps, s;
    steps, s := GoOnTurn(body, steps, s, captures, TurnResult(Nondeterminism, []), false);
    Arrives(body, steps, s, false);
    forall token ensures SignalsTo(steps, token) <= 2 {
      TurnSendsNothing(body, s0, captures, token);
      CountAppend(before, TurnSteps(body, s0, captures), token);
    }
    AtMostTwo(steps);
    BranchingReplays();
  }

  lemma AtMostTwo(steps: seq<SysStep>)
    requires forall token :: SignalsTo(steps, token) <= 2
    ensures SignalsWithin(steps, 2)
  {
  }

  lemma BranchingReplays()
    ensures Replayable(Branching(WAIT, ByPayload))
  {
    var body := Branching(WAIT, ByPayload);
    assert !("child:" <= "s");
    forall o: Outcome ensures Replayable(body.rest[o]) {
      StepReplays(Chosen(ByPayload, o));
    }
  }

  lemma StepReplays(name: string)
    ensures Replayable(NamedStep(name))
  {
    var b := NamedStep(name);
    forall o: Outcome ensures Replayable(b.rest[o]) {
      assert b.rest[o] == ReturnNothing(o);
    }
  }

  lemma BranchTaken(body: Body, before: seq<SysStep>, s: Sys, captures: Captures)
    returns (steps: seq<SysStep>, s': Sys)
    requires body == Branching(WAIT, ByPayload) && ComesTo(body, before, s, true)
    requires s.turn.None? && s.result.None? && s.run.lost == {}
    requires s.run.cps == map[0 := ONE] && s.run.rows == map["s" := 0] && s.run.buffered == map[]
    ensures ComesTo(body, steps, s', true) && s'.turn.None? && s'.result.None? && s'.run.lost == {}
    ensures s'.run.cps == map[0 := ONE, 1 := PendingCall("a")] && s'.run.rows == s.run.rows
    ensures forall token :: SignalsTo(steps, token) == SignalsTo(before, token)
  {
    hide ComesTo, ApplyAll, SignalsTo, TurnSteps, RemoteHistory, RunTurn;
    var call := Call(1, "a", Undefined, None);
    FirstBranch(body, RemoteHistory(s.run), captures) by { AnsweredHistory(s.run); }
    steps, s' := GoOnTurn(body, before, s, captures, TurnResult(Continue, [call]), true);
    ApplyOne(s.run, call);
    forall token ensures SignalsTo(steps, token) == SignalsTo(before, token) {
      TurnSendsNothing(body, s, captures, token);
      CountAppend(before, TurnSteps(body, s, captures), token);
    }
  }

  lemma AnsweredHistory(st: RunState)
    requires st.cps == map[0 := ONE]
    ensures RemoteHistory(st) == map[0 := EventOf(ONE)]
  {
    hide EventOf;
  }

  lemma FirstBranch(body: Body, h: History, captures: Captures)
    requires body == Branching(WAIT, ByPayload) && h == map[0 := EventOf(ONE)]
    ensures RunTurn(body, 0, h, captures) == TurnResult(Continue, [Call(1, "a", Undefined, None)])
  {
    var o := Returned(Json("1"));
    assert "signal:" + "s" == "signal:s" && !("signal:child:" <= "signal:s");
    assert PerformOp(body.op, 0, h, captures) == Effect(Settled(o), []);
    hide PerformOp;
    SettledTurn(body, h, captures, o);
    StepTurn(body.rest[o], 1, h, captures, "a", Undefined);
  }

  lemma RecordOverwritten(body: Body, before: seq<SysStep>, s: Sys) returns (steps: seq<SysStep>, s': Sys)
    requires ComesTo(body, before, s, true) && s.turn.None? && s.result.None? && s.run.lost == {}
    requires s.run.cps == map[0 := ONE, 1 := PendingCall("a")] && s.run.rows == map["s" := 0]
    requires SignalsTo(before, "s") == 1 && forall token | token != "s" :: SignalsTo(before, token) == 0
    ensures ComesTo(body, steps, s', false) && s'.turn.None? && s'.result.None?
    ensures s'.run.cps == map[0 := TWO, 1 := DoneCall("a")]
    ensures forall token :: SignalsTo(steps, token) <= 2
  {
    var done, signal := Env(Result(1, Completed, Undefined, None)), Env(SignalTo("s", Json("2")));
    assert ComesTo(body, before, s, false);
    hide ComesTo, SignalsTo;
    steps := GoOn(body, before, s, done, false);
    s' := Next(body, s, done);
    steps := GoOn(body, steps, s', signal, false);
    s' := Next(body, s', signal);
    forall token ensures SignalsTo(steps, token) <= 2 {
      CountAppend(before, [done], token);
      CountAppend(before + [done], [signal], token);
      OneCount(done, token);
      OneCount(signal, token);
    }
  }

  lemma OneCount(step: SysStep, token: string)
    ensures SignalsTo([step], token) == if step.Env? && step.e.SignalTo? && step.e.token == token then 1 else 0
  {
    assert [step][1..] == [];
  }

  lemma OverwrittenHistory(st: RunState)
    requires st.cps == map[0 := TWO, 1 := DoneCall("a")]
    ensures var h := RemoteHistory(st); 0 in h && h[0] == EventOf(TWO) && 1 in h && h[1] == EventOf(DoneCall("a"))
  {
  }

  lemma OtherBranchTrips(body: Body, h: History, captures: Captures)
    requires body == Branching(WAIT, ByPayload)
    requires 0 in h && h[0] == EventOf(TWO) && 1 in h && h[1] == EventOf(DoneCall("a"))
    ensures RunTurn(body, 0, h, captures) == TurnResult(Nondeterminism, [])
  {
    var o := Returned(Json("2"));
    assert "signal:" + "s" == "signal:s" && !("signal:child:" <= "signal:s");
    assert PerformOp(body.op, 0, h, captures) == Effect(Settled(o), []);
    hide PerformOp;
    SettledTurn(body, h, captures, o);
    assert "1"[0] != "2"[0] && "a"[0] != "b"[0];
    StepMismatch(body.rest[o], 1, h, captures, "b", "a");
  }

  // -------------------------------------------------------------------- the limit is exact

  ghost predicate FailsToReplay(n: nat, body: Body, runId: string, clock: int, steps: seq<SysStep>, oracle: Oracle) {
    && Replayable(body) && Runs(body, Start(runId, clock), steps) && SignalsWithin(steps, n)
    && var end := After(body, Start(runId, clock), steps);
       && Agrees(oracle, RemoteHistory(end.run)) && end.result.Some?
       && end.result.value != Uninterrupted(body, 0, oracle)
  }

  /** In every run that signals no name more than `n` times a decision is that of an uninterrupted pass. */
  ghost predicate MeaningHolds(n: nat) {
    forall body, runId, clock, steps, oracle :: !FailsToReplay(n, body, runId, clock, steps, oracle)
  }

  ghost function SomeOracle(h: History): (oracle: Oracle)
    ensures Agrees(oracle, h)
  {
    n => if n in h then h[n] else HistoryEvent(StepEvent, None, Undefined, None)
  }

  lemma StartSigned(runId: string, clock: int)
    ensures Signed(Start(runId, clock).run, {})
  {
  }

  lemma {:induction false} PassDecides(b: Body, n: nat, oracle: Oracle)
    ensures Uninterrupted(b, n, oracle) != Nondeterminism
    decreases b
  {
    if b.Do? {
      var o := Meaning(b.op, OracleBlock(oracle, n, Width(b.op)));
      PassDecides(b.rest[o], n + Width(b.op), oracle);
    }
  }

  lemma OneSignalReplays(n: nat, body: Body, runId: string, clock: int, steps: seq<SysStep>, oracle: Oracle)
    requires n <= 1
    ensures !FailsToReplay(n, body, runId, clock, steps, oracle)
  {
    if FailsToReplay(n, body, runId, clock, steps, oracle) {
      hide Inv, Signed, Start, Uninterrupted, SignalsTo;
      StartInv(body, runId, clock);
      StartSigned(runId, clock);
      forall token ensures SignalsTo(steps, token) <= 1 {
      }
      OneSignalIsNeverStale(body, Start(runId, clock), steps, {});
      ReplayPreservesMeaning(body, runId, clock, steps, oracle);
    }
  }

  /** Replay preserves meaning, however often each name is signalled, exactly up to one signal a name. */
  lemma MeaningHoldsIffOneSignal(n: nat)
    ensures MeaningHolds(n) <==> n <= 1
  {
    hide FailsToReplay;
    if n <= 1 {
      forall body, runId, clock, steps, oracle ensures !FailsToReplay(n, body, runId, clock, steps, oracle) {
        OneSignalReplays(n, body, runId, clock, steps, oracle);
      }
    } else {
      SecondSignalFails(n);
    }
  }

  lemma SecondSignalFails(n: nat)
    requires n >= 2
    ensures !MeaningHolds(n)
  {
    var body := Branching(WAIT, ByPayload);
    var steps := SecondSignalFailsTheRun(at => Produced(Undefined));
    var oracle := SomeOracle(RemoteHistory(After(body, Start("run", 0), steps).run));
    PassDecides(body, 0, oracle);
    assert SignalsWithin(steps, n) by { assert forall token :: SignalsTo(steps, token) <= 2; }
    hide Start, After, Runs, Uninterrupted, Agrees, Replayable, SignalsWithin, RemoteHistory;
    assert FailsToReplay(n, body, "run", 0, steps, oracle);
  }
}

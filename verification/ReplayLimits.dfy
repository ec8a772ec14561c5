/**
 * The exact edges of replay: what a fan-out hands to the body, the shape of the records at any
 * moment, and the inputs on which the recorded history does not read back as what happened.
 */
module ReplayLimits {
  import opened Common
  import opened WorkflowTurn
  import opened RemoteRun
  import opened ReplayTheorem
  import opened ReplayProgress

  // ------------------------------------------------------- the shape of the records

  /** At any moment a full prefix is resolved, and beyond it only one operation's block is on record. */
  lemma {:induction false} PrefixAndBlock(b: Body, n: nat, h: History, st: RunState)
    returns (m: nat, w: nat)
    requires FitsAt(b, n, h, st)
    ensures n <= m && (forall s | n <= s < m :: s in h)
    ensures forall s | s in st.cps :: s < m + w
    ensures forall t | t in st.rows :: st.rows[t] < m + w
    ensures w > 0 ==> exists s: nat :: m <= s < m + w && s !in h
    decreases b
  {
    match b
    case Return(_) => m, w := n, 0;
    case Throw(_) => m, w := n, 0;
    case Do(op, rest) =>
      if Resolved(op, n, h) {
        m, w := PrefixAndBlock(rest[Meaning(op, Block(op, n, h))], n + Width(op), h, st);
      } else {
        m, w := n, Width(op);
      }
  }

  /** That shape: all of `[0, m)` resolved, nothing beyond the block `[m, m + w)`, which has a gap. */
  ghost predicate Shape(s: Sys, m: nat, w: nat) {
    && (forall n: nat | n < m :: n in s.history && n in s.run.cps)
    && (forall n | n in s.run.cps :: n < m + w)
    && (forall t | t in s.run.rows :: s.run.rows[t] < m + w)
    && (w > 0 ==> exists n: nat :: m <= n < m + w && n !in s.history)
  }

  /** It holds in every state a run reaches without a signal taking a row whose position is on record. */
  lemma ReachableShape(body: Body, runId: string, clock: int, steps: seq<SysStep>) returns (m: nat, w: nat)
    requires Replayable(body) && Runs(body, Start(runId, clock), steps)
    requires NoStaleTake(body, Start(runId, clock), steps)
    ensures Shape(After(body, Start(runId, clock), steps), m, w)
  {
    StartInv(body, runId, clock);
    RunKeepsInv(body, Start(runId, clock), steps);
    m, w := InvShape(body, After(body, Start(runId, clock), steps));
  }

  lemma InvShape(body: Body, s: Sys) returns (m: nat, w: nat)
    requires Inv(body, s)
    ensures Shape(s, m, w)
  {
    m, w := PrefixAndBlock(body, 0, s.history, s.run);
  }

  // ----------------------------------------------------------- what a fan-out means

  /** `index` lists, in increasing order, exactly the failed members among the first `i`. */
  predicate FailedMembers(index: seq<nat>, failures: seq<GatherItem>, events: seq<HistoryEvent>, i: nat)
    requires i <= |events|
  {
    && |index| == |failures|
    && (forall a, b | 0 <= a < b < |index| :: index[a] < index[b])
    && (forall a | 0 <= a < |index| :: index[a] < i && events[index[a]].error == Some(failures[a].error))
    && (forall s | 0 <= s < i && events[s].error.Some? :: s in index)
  }

  lemma FailedMembersExtend(index: seq<nat>, failures: seq<GatherItem>, item: GatherItem,
                            events: seq<HistoryEvent>, i: nat)
    requires i < |events| && FailedMembers(index, failures, events, i)
    requires events[i].error == Some(item.error)
    ensures FailedMembers(index + [i], failures + [item], events, i + 1)
  {
    var index' := index + [i];
    assert forall a | 0 <= a < |index| :: index'[a] == index[a];
    assert i in index';
    assert forall s | s in index :: s in index';
  }

  /** The failures reported are the failed members, each once and in list order. */
  lemma {:induction false} FailuresInOrder(fan: Fan, mode: Mode, members: seq<Member>,
                                           events: seq<HistoryEvent>, i: nat)
    returns (index: seq<nat>)
    requires i <= |members| == |events|
    ensures FailedMembers(index, FailuresUpTo(fan, mode, members, events, i), events, i)
  {
    if i == 0 {
      index := [];
    } else {
      index := FailuresInOrder(fan, mode, members, events, i - 1);
      var failures := FailuresUpTo(fan, mode, members, events, i - 1);
      if events[i - 1].error.Some? {
        var item := GatherItem(Label(fan, mode, members[i - 1], events[i - 1]), events[i - 1].error.value);
        FailedMembersExtend(index, failures, item, events, i - 1);
        index := index + [i - 1];
        hide FailedMembers, Label;
      }
    }
  }

  lemma NoFailureIffNoError(fan: Fan, mode: Mode, members: seq<Member>, events: seq<HistoryEvent>)
    requires |members| == |events|
    ensures FailuresUpTo(fan, mode, members, events, |members|) == []
            <==> forall i | 0 <= i < |events| :: events[i].error.None?
  {
    var index := FailuresInOrder(fan, mode, members, events, |members|);
    assert index != [] ==> events[index[0]].error.Some?;
  }

  /** A resolved wait-all fan-out returns every output in input order, or one error naming all failures. */
  lemma GatherInInputOrder(fan: Fan, members: seq<Member>, n: nat, h: History, captures: Captures)
    requires var op := Gather(fan, members, WaitAll);
             !GatherDiverges(fan, members, n, h) && Resolved(op, n, h)
    ensures var op := Gather(fan, members, WaitAll);
            var r := PerformOp(op, n, h, captures).result;
            var events := Block(op, n, h);
            && r.Settled?
            && (if forall i | 0 <= i < |members| :: events[i].error.None?
                then && r.outcome.Outputs? && |r.outcome.values| == |members|
                     && forall i | 0 <= i < |members| :: r.outcome.values[i] == h[n + i].output
                else r.outcome.Raised?
                     && r.outcome.error.failures == FailuresUpTo(fan, WaitAll, members, events, |members|)
                     && r.outcome.error.failures != [])
  {
    NoFailureIffNoError(fan, WaitAll, members, Block(Gather(fan, members, WaitAll), n, h));
  }

  /** All recorded members of the fan-out are entries the guard accepts. */
  predicate WellNamed(op: Op, n: nat, h: History)
    requires op.Gather?
  {
    forall i | 0 <= i < |op.members| :: !MemberEntry(op.fan, op.members, n, h, i).Mismatch?
  }

  predicate SubHistory(h: History, h': History) {
    forall s | s in h :: s in h' && h'[s] == h[s]
  }

  /** Once the fan-out has settled for the body, more results never change what it settled to. */
  ghost predicate OutcomeFixed(op: Op)
    requires op.Gather?
  {
    forall n: nat, h: History, h': History ::
      SubHistory(h, h') && WellNamed(op, n, h') && GatherEffect(op, n, h).result.Settled?
      ==> GatherEffect(op, n, h').result == GatherEffect(op, n, h).result
  }

  lemma WellNamedConverges(op: Op, n: nat, h: History, h': History)
    requires op.Gather? && SubHistory(h, h') && WellNamed(op, n, h')
    ensures !GatherDiverges(op.fan, op.members, n, h) && !GatherDiverges(op.fan, op.members, n, h')
  {
    forall i | 0 <= i < |op.members|
      ensures !MemberEntry(op.fan, op.members, n, h, i).Mismatch?
      ensures !MemberEntry(op.fan, op.members, n, h', i).Mismatch?
    {
      assert !MemberEntry(op.fan, op.members, n, h', i).Mismatch?;
    }
  }

  lemma SettledStays(op: Op, n: nat, h: History, h': History)
    requires op.Gather? && OrderFree(op) && SubHistory(h, h') && WellNamed(op, n, h')
    requires GatherEffect(op, n, h).result.Settled?
    ensures GatherEffect(op, n, h').result == GatherEffect(op, n, h).result
  {
    WellNamedConverges(op, n, h, h');
    assert !Resolved(op, n, h) && op.mode.FailFast? ==> |op.members| == 1 && n !in h;
    if !Resolved(op, n, h) && op.mode.FailFast? {
      NoFailureInSingleton(op, n, h);
    }
    assert Resolved(op, n, h);
    forall s | n <= s < n + |op.members|
      ensures s in h' && h'[s] == h[s]
    {
      assert s in h;
    }
    assert Block(op, n, h) == Block(op, n, h');
    if op.mode.FailFast? {
      FirstFailureOfResolved(op, n, h);
      FirstFailureOfResolved(op, n, h');
    }
  }

  /** A failed entry of member `i` carrying the given message. */
  function FailedMember(op: Op, i: nat, message: string): HistoryEvent
    requires op.Gather? && i < |op.members|
  {
    HistoryEvent(FanKind(op.fan), Some(op.members[i].name), Undefined, Some(PlainError(message)))
  }

  /** A fail-fast fan-out of two or more members reports whichever failure happened to be read first. */
  lemma FailFastDrifts(op: Op) returns (h: History, h': History)
    requires op.Gather? && !OrderFree(op)
    ensures SubHistory(h, h') && WellNamed(op, 0, h')
    ensures GatherEffect(op, 0, h).result.Settled?
    ensures GatherEffect(op, 0, h').result != GatherEffect(op, 0, h).result
  {
    h := map[1 := FailedMember(op, 1, "second")];
    h' := map[0 := FailedMember(op, 0, "first"), 1 := FailedMember(op, 1, "second")];
    forall i | 0 <= i < |op.members|
      ensures !MemberEntry(op.fan, op.members, 0, h', i).Mismatch?
    {
    }
    WellNamedConverges(op, 0, h, h');
    assert MemberEntry(op.fan, op.members, 0, h, 0).Missing?;
    assert FirstFailureFrom(op.fan, op.members, 0, h, 0) == FirstFailureFrom(op.fan, op.members, 0, h, 1);
    assert FirstFailureFrom(op.fan, op.members, 0, h, 1).value.error == PlainError("second");
    assert FirstFailureFrom(op.fan, op.members, 0, h', 0).value.error == PlainError("first");
    assert PlainError("first").message[0] == 'f' && PlainError("second").message[0] == 's';
  }

  /** A fan-out's outcome is independent of arrival order exactly when it waits for all or has one member. */
  lemma FanOutFixedIffOrderFree(op: Op)
    requires op.Gather?
    ensures OutcomeFixed(op) <==> OrderFree(op)
  {
    if OrderFree(op) {
      forall n: nat, h: History, h': History
        | SubHistory(h, h') && WellNamed(op, n, h') && GatherEffect(op, n, h).result.Settled?
        ensures GatherEffect(op, n, h').result == GatherEffect(op, n, h).result
      {
        SettledStays(op, n, h, h');
      }
    } else {
      var h, h' := FailFastDrifts(op);
    }
  }

  // ---------------------------------------------------------------- building whole runs

  /** A run from its start that comes to `s`; if `clean`, it takes no stale row and cuts no call. */
  ghost predicate ComesTo(body: Body, steps: seq<SysStep>, s: Sys, clean: bool) {
    && Runs(body, Start("run", 0), steps) && After(body, Start("run", 0), steps) == s
    && (clean ==> Tame(body, Start("run", 0), steps))
  }

  lemma FromStart(body: Body)
    ensures ComesTo(body, [], Start("run", 0), true)
  {
  }

  lemma GoOn(body: Body, steps: seq<SysStep>, s: Sys, step: SysStep, clean: bool) returns (more: seq<SysStep>)
    requires ComesTo(body, steps, s, clean) && Enabled(s, step)
    requires clean ==> !step.Crash? && (step.Env? ==> !StaleTake(s.run, step.e))
    ensures more == steps + [step] && ComesTo(body, more, Next(body, s, step), clean)
  {
    assert clean ==> !CutsCall(s, step);
    hide Next, Enabled, CutsCall, StaleTake;
    OneStep(body, s, step);
    RunsAppend(body, Start("run", 0), steps, [step]);
    more := steps + [step];
  }

  /** Go on with one undisturbed turn, which has the given decision and commands. */
  lemma GoOnTurn(body: Body, steps: seq<SysStep>, s: Sys, captures: Captures, r: TurnResult, clean: bool)
    returns (more: seq<SysStep>, s': Sys)
    requires ComesTo(body, steps, s, clean) && s.turn.None? && s.result.None?
    requires r == RunTurn(body, 0, RemoteHistory(s.run), captures)
    ensures more == steps + TurnSteps(body, s, captures) && ComesTo(body, more, s', clean)
    ensures s'.run == ApplyAll(s.run, r.commands) && s'.turn.None?
    ensures s'.result == if r.decision.Continue? then None else Some(r.decision)
  {
    hide RunTurn, RemoteHistory, ApplyAll, TurnSteps, CutsCall, StaleTake;
    TurnRuns(body, s, captures);
    RunsAppend(body, Start("run", 0), steps, TurnSteps(body, s, captures));
    more := steps + TurnSteps(body, s, captures);
    s' := After(body, s, TurnSteps(body, s, captures));
  }

  lemma Arrives(body: Body, steps: seq<SysStep>, s: Sys, clean: bool)
    requires ComesTo(body, steps, s, clean)
    ensures Runs(body, Start("run", 0), steps) && After(body, Start("run", 0), steps) == s
    ensures clean ==> NoStaleTake(body, Start("run", 0), steps)
  {
  }

  function FailedResult(n: nat, message: string): SysStep {
    Env(Result(n, Failed, Undefined, Some(PlainError(message))))
  }

  // ---------------------------------------------------- what a drifting error does to a run

  /** The body that performs one operation and rethrows its failure. */
  ghost function Rethrow(op: Op): (b: Body)
    ensures b.Do? && b.op == op
    ensures forall o: Outcome :: b.rest[o] == RethrowOutcome(o)
  {
    var rest := imap o: Outcome | true :: RethrowOutcome(o);
    assert forall o: Outcome :: o in rest && rest[o] == RethrowOutcome(o) && Total(RethrowOutcome(o));
    Do(op, rest)
  }

  function RethrowOutcome(o: Outcome): RawBody {
    if o.Raised? then Throw(o.error) else Return(Undefined)
  }

  /** The body that performs one operation and returns, whatever the outcome. */
  ghost function IgnoreOutcome(op: Op): (b: Body)
    ensures b.Do? && b.op == op
  {
    var rest := imap o: Outcome | true :: ReturnNothing(o);
    assert forall o: Outcome :: o in rest && rest[o] == ReturnNothing(o) && Total(ReturnNothing(o));
    Do(op, rest)
  }

  function ReturnNothing(o: Outcome): RawBody {
    Return(Undefined)
  }

  /** What a branching body looks at: the member an error names, or the payload of a signal. */
  datatype Choice = ByFailure | ByPayload

  /** The step it goes on with. */
  function Chosen(choice: Choice, o: Outcome): string {
    match choice
    case ByFailure => if o == Raised(ErrorOf("b", "second")) then "undo b" else "undo a"
    case ByPayload => if o == Returned(Json("1")) then "a" else "b"
  }

  ghost function ChosenStep(choice: Choice, o: Outcome): Body {
    NamedStep(Chosen(choice, o))
  }

  /** The body that performs one operation and then a step whose name depends on the outcome. */
  ghost function Branching(op: Op, choice: Choice): (b: Body)
    ensures b.Do? && b.op == op
    ensures forall o: Outcome :: b.rest[o] == ChosenStep(choice, o)
  {
    var rest: imap<Outcome, RawBody> := imap o: Outcome | true :: ChosenStep(choice, o);
    assert forall o: Outcome :: o in rest && rest[o] == ChosenStep(choice, o) && Total(ChosenStep(choice, o));
    Do(op, rest)
  }

  ghost function NamedStep(name: string): (b: Body)
    ensures b.Do? && b.op == Step(name, Undefined)
  {
    IgnoreOutcome(Step(name, Undefined))
  }

  const PAIR := Gather(Calls, [Member("a", Undefined), Member("b", Undefined)], FailFast)

  function PairCall(i: nat): Command
    requires i < 2
  {
    Call(i, PAIR.members[i].name, Undefined, Some(0))
  }

  function PendingCall(name: string): Checkpoint {
    Checkpoint(name, Remote, Pending, Undefined, None, None)
  }

  function FailedCall(name: string, message: string): Checkpoint {
    Checkpoint(name, Remote, Failed, Undefined, Some(PlainError(message)), None)
  }

  function ErrorOf(name: string, message: string): StepError {
    GatherError([GatherItem(name, PlainError(message))])
  }

  lemma ErrorsDiffer()
    ensures ErrorOf("a", "first") != ErrorOf("b", "second")
  {
    assert GatherItem("a", PlainError("first")).name[0] == 'a' && GatherItem("b", PlainError("second")).name[0] == 'b';
    assert ErrorOf("a", "first").failures[0] != ErrorOf("b", "second").failures[0];
  }

  lemma PairWaits(captures: Captures)
    ensures PerformOp(PAIR, 0, map[], captures) == Effect(Suspended, [PairCall(0), PairCall(1)])
  {
    var h: History := map[];
    assert !Resolved(PAIR, 0, h) by { assert 0 !in h; }
    assert FirstFailureFrom(Calls, PAIR.members, 0, h, 2).None?;
    assert FirstFailureFrom(Calls, PAIR.members, 0, h, 1).None?;
    assert PendingUpTo(Calls, PAIR.members, 0, h, 1) == [PairCall(0)];
    assert PendingUpTo(Calls, PAIR.members, 0, h, 2) == [PairCall(0), PairCall(1)];
  }

  lemma PairApplied(st: RunState)
    requires st.cps == map[]
    ensures var st' := ApplyAll(st, [PairCall(0), PairCall(1)]);
            && st'.lost == st.lost && st'.clock == st.clock
            && st'.cps == map[0 := PendingCall("a"), 1 := PendingCall("b")]
  {
    var cmds := [PairCall(0), PairCall(1)];
    assert cmds[1..] == [PairCall(1)];
    ApplyOne(ApplyCommand(st, PairCall(0)), PairCall(1));
  }

  /** With only the second member's failure on record the fan-out raises that. */
  lemma PairReadsSecond(h: History, captures: Captures)
    requires 0 !in h && 1 in h && h[1] == EventOf(FailedCall("b", "second"))
    ensures PerformOp(PAIR, 0, h, captures) == Effect(Settled(Raised(ErrorOf("b", "second"))), [])
  {
    forall i | 0 <= i < 2 ensures !MemberEntry(Calls, PAIR.members, 0, h, i).Mismatch? {
    }
    assert MemberEntry(Calls, PAIR.members, 0, h, 0).Missing?;
    assert FirstFailureFrom(Calls, PAIR.members, 0, h, 0) == FirstFailureFrom(Calls, PAIR.members, 0, h, 1);
    assert FirstFailureFrom(Calls, PAIR.members, 0, h, 1) == Some(GatherItem("b", PlainError("second")));
  }

  /** With both on record it raises the first member's. */
  lemma PairReadsFirst(h: History, captures: Captures)
    requires 0 in h && h[0] == EventOf(FailedCall("a", "first"))
    requires 1 in h && h[1] == EventOf(FailedCall("b", "second"))
    ensures PerformOp(PAIR, 0, h, captures) == Effect(Settled(Raised(ErrorOf("a", "first"))), [])
  {
    forall i | 0 <= i < 2 ensures !MemberEntry(Calls, PAIR.members, 0, h, i).Mismatch? {
    }
    assert FirstFailureFrom(Calls, PAIR.members, 0, h, 0) == Some(GatherItem("a", PlainError("first")));
  }

  /** A run of a body that opens with the pair, up to the second member's failure. */
  lemma PairHalfFailed(body: Body, captures: Captures) returns (steps: seq<SysStep>, s: Sys)
    requires body.Do? && body.op == PAIR
    ensures ComesTo(body, steps, s, true) && s.turn.None? && s.result.None? && s.run.lost == {}
    ensures s.run.cps == map[0 := PendingCall("a"), 1 := FailedCall("b", "second")]
  {
    var s0 := Start("run", 0);
    FromStart(body);
    PairWaits(captures);
    assert RemoteHistory(s0.run) == map[];
    var r := TurnResult(Continue, [PairCall(0), PairCall(1)]);
    assert r == RunTurn(body, 0, map[], captures) by { hide PerformOp; }
    hide RunTurn, PerformOp, ComesTo, ApplyAll, RemoteHistory;
    steps, s := GoOnTurn(body, [], s0, captures, r, true);
    PairApplied(s0.run);
    steps := GoOn(body, steps, s, FailedResult(1, "second"), true);
    s := Next(body, s, FailedResult(1, "second"));
  }

  /**
   * A whole run whose decision is not that of an uninterrupted pass over its record: of two failing
   * members the second answers first, a turn reads it and decides, the first member's failure lands
   * before that turn is over, and the run fails with the second.
   */
  lemma FailFastRunDrifts(captures: Captures, oracle: Oracle) returns (steps: seq<SysStep>)
    ensures var body := Rethrow(PAIR);
            && Runs(body, Start("run", 0), steps) && NoStaleTake(body, Start("run", 0), steps)
            && After(body, Start("run", 0), steps).result == Some(Failure(ErrorOf("b", "second")))
            && (Agrees(oracle, RemoteHistory(After(body, Start("run", 0), steps).run)) ==>
                  Uninterrupted(body, 0, oracle) == Failure(ErrorOf("a", "first")))
            && ErrorOf("a", "first") != ErrorOf("b", "second")
  {
    var body := Rethrow(PAIR);
    var s: Sys;
    steps, s := PairHalfFailed(body, captures);
    HalfFailedHistory(s.run);
    PairReadsSecond(RemoteHistory(s.run), captures);
    SettledTurn(body, RemoteHistory(s.run), captures, Raised(ErrorOf("b", "second")));
    hide RunTurn, PerformOp, ComesTo, ApplyAll, RemoteHistory;
    steps := GoOn(body, steps, s, Begin(captures), true);
    s := Next(body, s, Begin(captures));
    assert s.turn == Some(TurnResult(Failure(ErrorOf("b", "second")), []));
    steps := GoOn(body, steps, s, FailedResult(0, "first"), true);
    s := Next(body, s, FailedResult(0, "first"));
    steps := GoOn(body, steps, s, Finish, true);
    s := Next(body, s, Finish);
    DriftUninterrupted(s.run, oracle);
    ErrorsDiffer();
    hide Next, Enabled;
    Arrives(body, steps, s, true);
  }

  lemma HalfFailedHistory(st: RunState)
    requires st.cps == map[0 := PendingCall("a"), 1 := FailedCall("b", "second")]
    ensures RemoteHistory(st) == map[1 := EventOf(FailedCall("b", "second"))]
  {
  }

  /** A turn of a body that rethrows, once its operation has settled. */
  lemma SettledTurn(body: Body, h: History, captures: Captures, o: Outcome)
    requires body.Do? && PerformOp(body.op, 0, h, captures) == Effect(Settled(o), [])
    ensures RunTurn(body, 0, h, captures) == RunTurn(body.rest[o], Width(body.op), h, captures)
  {
    ResolvedTurn(body, 0, h, captures, o);
  }

  lemma DriftUninterrupted(st: RunState, oracle: Oracle)
    requires st.cps == map[0 := FailedCall("a", "first"), 1 := FailedCall("b", "second")]
    ensures Agrees(oracle, RemoteHistory(st))
            ==> Uninterrupted(Rethrow(PAIR), 0, oracle) == Failure(ErrorOf("a", "first"))
  {
    if Agrees(oracle, RemoteHistory(st)) {
      var events := OracleBlock(oracle, 0, 2);
      assert events[0] == RemoteHistory(st)[0] == EventOf(FailedCall("a", "first"));
      assert events[1] == RemoteHistory(st)[1] == EventOf(FailedCall("b", "second"));
      var a, b := GatherItem("a", PlainError("first")), GatherItem("b", PlainError("second"));
      assert FailuresUpTo(Calls, FailFast, PAIR.members, events, 0) == [];
      assert FailuresUpTo(Calls, FailFast, PAIR.members, events, 1) == [a];
      assert FailuresUpTo(Calls, FailFast, PAIR.members, events, 2) == [a, b];
      assert Meaning(PAIR, events) == Raised(GatherError([a]));
      hide Meaning, FailuresUpTo;
      assert Uninterrupted(Rethrow(PAIR).rest[Raised(GatherError([a]))], 2, oracle) == Failure(ErrorOf("a", "first"));
    }
  }

  // A body that catches the error and branches on the member it names.

  /**
   * A whole run on which the drift is fatal: the body undoes the member named by the error, at a recorded
   * position; once the other failure has landed it comes to undo the other one, and trips the guard.
   */
  lemma CaughtDriftFailsTheRun(captures: Captures) returns (steps: seq<SysStep>)
    ensures var body := Branching(PAIR, ByFailure);
            && Runs(body, Start("run", 0), steps) && NoStaleTake(body, Start("run", 0), steps)
            && After(body, Start("run", 0), steps).result == Some(Nondeterminism)
  {
    hide *;
    var body := Branching(PAIR, ByFailure);
    var s: Sys;
    steps, s := PairHalfFailed(body, captures);
    steps, s := UndoCalled(body, steps, s, captures);
    steps, s := UndoOvertaken(body, steps, s);
    UndoTrips(body, RemoteHistory(s.run), captures) by { UndoneHistory(s.run); }
    steps, s := GoOnTurn(body, steps, s, captures, TurnResult(Nondeterminism, []), true);
    Arrives(body, steps, s, true);
  }

  /** A turn reads the second failure and calls for the undo of its member. */
  lemma UndoCalled(body: Body, before: seq<SysStep>, s: Sys, captures: Captures) returns (steps: seq<SysStep>, s': Sys)
    requires body == Branching(PAIR, ByFailure) && ComesTo(body, before, s, true)
    requires s.turn.None? && s.result.None? && s.run.lost == {}
    requires s.run.cps == map[0 := PendingCall("a"), 1 := FailedCall("b", "second")]
    ensures ComesTo(body, steps, s', true) && s'.turn.None? && s'.result.None? && s'.run.lost == {}
    ensures s'.run.cps == s.run.cps[2 := PendingCall("undo b")]
  {
    hide ComesTo, ApplyAll;
    var h, o, undo := RemoteHistory(s.run), Raised(ErrorOf("b", "second")), Call(2, "undo b", Undefined, None);
    HalfFailedHistory(s.run);
    PairReadsSecond(h, captures);
    hide PerformOp, RemoteHistory;
    SettledTurn(body, h, captures, o);
    StepTurn(body.rest[o], 2, h, captures, "undo b", Undefined);
    hide RunTurn;
    steps, s' := GoOnTurn(body, before, s, captures, TurnResult(Continue, [undo]), true);
    ApplyOne(s.run, undo);
  }

  /** The first member's failure lands, and the undo is done. */
  lemma UndoOvertaken(body: Body, before: seq<SysStep>, s: Sys) returns (steps: seq<SysStep>, s': Sys)
    requires ComesTo(body, before, s, true) && s.turn.None? && s.result.None? && s.run.lost == {}
    requires s.run.cps == map[0 := PendingCall("a"), 1 := FailedCall("b", "second"), 2 := PendingCall("undo b")]
    ensures ComesTo(body, steps, s', true) && s'.turn.None? && s'.result.None?
    ensures s'.run.cps == map[0 := FailedCall("a", "first"), 1 := FailedCall("b", "second"), 2 := DoneCall("undo b")]
  {
    hide ComesTo;
    var done := Env(Result(2, Completed, Undefined, None));
    steps := GoOn(body, before, s, FailedResult(0, "first"), true);
    s' := Next(body, s, FailedResult(0, "first"));
    steps := GoOn(body, steps, s', done, true);
    s' := Next(body, s', done);
  }

  /** The next turn reads the first failure, and comes to undo the other member. */
  lemma UndoTrips(body: Body, h: History, captures: Captures)
    requires body == Branching(PAIR, ByFailure)
    requires 0 in h && h[0] == EventOf(FailedCall("a", "first")) && 1 in h && h[1] == EventOf(FailedCall("b", "second"))
    requires 2 in h && h[2] == EventOf(DoneCall("undo b"))
    ensures RunTurn(body, 0, h, captures) == TurnResult(Nondeterminism, [])
  {
    var o := Raised(ErrorOf("a", "first"));
    PairReadsFirst(h, captures);
    hide PerformOp;
    SettledTurn(body, h, captures, o);
    ErrorsDiffer();
    assert Chosen(ByFailure, o) == "undo a" && "undo a" != "undo b" by { assert "undo a"[5] != "undo b"[5]; }
    StepMismatch(body.rest[o], 2, h, captures, "undo a", "undo b");
  }

  function DoneCall(name: string): Checkpoint {
    Checkpoint(name, Remote, Completed, Undefined, None, None)
  }

  lemma UndoneHistory(st: RunState)
    requires st.cps == map[0 := FailedCall("a", "first"), 1 := FailedCall("b", "second"), 2 := DoneCall("undo b")]
    ensures var h := RemoteHistory(st);
            && 0 in h && h[0] == EventOf(FailedCall("a", "first"))
            && 1 in h && h[1] == EventOf(FailedCall("b", "second"))
            && 2 in h && h[2] == EventOf(DoneCall("undo b"))
  {
  }

  /** A step that finds nothing is called. */
  lemma StepTurn(b: Body, n: nat, h: History, captures: Captures, name: string, input: Value)
    requires b.Do? && b.op == Step(name, input) && n !in h
    ensures RunTurn(b, n, h, captures) == TurnResult(Continue, [Call(n, name, input, None)])
  {
  }

  /** A step that finds another one's record trips the guard. */
  lemma StepMismatch(b: Body, n: nat, h: History, captures: Captures, name: string, other: string)
    requires b.Do? && b.op == Step(name, Undefined) && name != other
    requires n in h && h[n] == EventOf(DoneCall(other))
    ensures RunTurn(b, n, h, captures) == TurnResult(Nondeterminism, [])
  {
  }

  // ------------------------------------------------- what does not read back faithfully

  /** A delivered signal trips the guard of its own wait exactly when its name starts with `child:`. */
  lemma SignalTripsIffChildNamed(signal: string, payload: Value, n: nat)
    ensures Lookup(map[n := EventOf(SignalCheckpoint(signal, payload))], n, SignalEvent, Some(signal)).Mismatch?
            <==> "child:" <= signal
  {
    SignalChildPrefix(signal);
  }

  /** A whole run on which it happens: wait for `child:x`, receive it, and the next turn fails. */
  lemma ChildNamedSignalFailsTheRun(payload: Value, captures: Captures) returns (body: Body, steps: seq<SysStep>)
    ensures Runs(body, Start("run", 0), steps) && NoStaleTake(body, Start("run", 0), steps)
    ensures After(body, Start("run", 0), steps).result == Some(Nondeterminism)
  {
    var signal := "child:x";
    body := IgnoreOutcome(WaitSignal(signal));
    var s := Start("run", 0);
    FromStart(body);
    var cmd := AwaitSignal(0, signal);
    assert RemoteHistory(s.run) == map[];
    assert RunTurn(body, 0, map[], captures) == TurnResult(Continue, [cmd]);
    ApplyOne(s.run, cmd);
    hide ComesTo, ApplyAll;
    steps, s := GoOnTurn(body, [], s, captures, TurnResult(Continue, [cmd]), true);
    assert s.run.rows == map[signal := 0] && s.run.cps == map[];
    var step := Env(SignalTo(signal, payload));
    steps := GoOn(body, steps, s, step, true);
    s := Next(body, s, step);
    assert RemoteHistory(s.run) == map[0 := EventOf(SignalCheckpoint(signal, payload))];
    SignalTripsIffChildNamed(signal, payload, 0);
    assert PerformOp(body.op, 0, RemoteHistory(s.run), captures) == Effect(Diverged, []);
    assert RunTurn(body, 0, RemoteHistory(s.run), captures) == TurnResult(Nondeterminism, []);
    hide RunTurn, PerformOp, RemoteHistory, Next, Enabled;
    steps, s := GoOnTurn(body, steps, s, captures, TurnResult(Nondeterminism, []), true);
    Arrives(body, steps, s, true);
  }

  /**
   * A whole run of one step whose worker reports a failure: it fails exactly when the report carries an
   * error, and otherwise completes as if the step had returned nothing.
   */
  lemma FailedStepFailsRunIffErrorGiven(name: string, input: Value, output: Value, error: Option<StepError>,
                                        captures: Captures)
    returns (steps: seq<SysStep>)
    ensures var body := Rethrow(Step(name, input));
            && Runs(body, Start("run", 0), steps) && Env(Result(0, Failed, output, error)) in steps
            && After(body, Start("run", 0), steps).result
               == Some(if error.Some? then Failure(error.value) else Done(Undefined))
  {
    var body := Rethrow(Step(name, input));
    var s := Start("run", 0);
    FromStart(body);
    var cmd := Call(0, name, input, None);
    assert RemoteHistory(s.run) == map[];
    StepTurn(body, 0, map[], captures, name, input);
    ApplyOne(s.run, cmd);
    hide ComesTo, ApplyAll, RunTurn;
    steps, s := GoOnTurn(body, [], s, captures, TurnResult(Continue, [cmd]), true);
    var report := Env(Result(0, Failed, output, error));
    steps := GoOn(body, steps, s, report, true);
    var reported := steps;
    s := Next(body, s, report);
    var d := FailedStepRead(body, name, input, s.run, captures);
    hide RemoteHistory, Next, Enabled;
    steps, s := GoOnTurn(body, steps, s, captures, TurnResult(d, []), true);
    Arrives(body, steps, s, true);
    assert reported[|reported| - 1] == report && report in reported;
  }

  /** How a failed record of its step ends a body that rethrows. */
  lemma FailedStepRead(body: Body, name: string, input: Value, st: RunState, captures: Captures)
    returns (d: Decision)
    requires body == Rethrow(Step(name, input)) && 0 in st.cps
    requires st.cps[0].kind == Remote && st.cps[0].status == Failed && st.cps[0].name == name
    ensures d == if st.cps[0].error.Some? then Failure(st.cps[0].error.value) else Done(Undefined)
    ensures RunTurn(body, 0, RemoteHistory(st), captures) == TurnResult(d, [])
  {
    var h, cp := RemoteHistory(st), st.cps[0];
    assert 0 in h && h[0] == EventOf(cp);
    var o := if cp.error.Some? then Raised(cp.error.value) else Returned(Undefined);
    assert PerformOp(body.op, 0, h, captures) == Effect(Settled(o), []);
    SettledTurn(body, h, captures, o);
    d := if cp.error.Some? then Failure(cp.error.value) else Done(Undefined);
  }
}

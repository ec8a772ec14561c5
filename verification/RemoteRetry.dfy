/**
 * The durable remote step: one checkpoint driven by replays of the run and results of workers, each
 * atomic. A replay dispatches, re-dispatches a presumed-lost job, retries a failed attempt after its
 * backoff, or suspends.
 * Models `callRemote` and `completeRemoteResult` in packages/adonis/src/engine.ts and
 * packages/adonis/src/backoff.ts.
 */
module RemoteRetry {
  import opened Common

  /** `redispatchMs` is absent when the option is unset or zero. */
  datatype Config = Config(
    retries: Option<int>, backoffMs: int, exponential: bool, backoffMaxMs: Option<int>,
    redispatchMs: Option<int>, redispatchMax: Option<int>)

  function MaxAttempts(cfg: Config): (n: nat)
    ensures n >= 1
  {
    if cfg.retries.Some? && cfg.retries.value > 1 then cfg.retries.value else 1
  }

  function MaxDispatches(cfg: Config): (n: nat)
    ensures n >= 1
  {
    var max := if cfg.redispatchMax.Some? then cfg.redispatchMax.value else 10;
    if max > 1 then max else 1
  }

  function Pow2(n: nat): (p: nat)
    ensures p >= 1
  {
    if n == 0 then 1 else 2 * Pow2(n - 1)
  }

  /** The delay after a failed attempt, jitter apart; a cap of zero is no cap. */
  function BackoffDelay(cfg: Config, attempt: nat): int {
    if cfg.backoffMs <= 0 then 0
    else
      var raw := if cfg.exponential && attempt > 1 then cfg.backoffMs * Pow2(attempt - 1) else cfg.backoffMs;
      if cfg.backoffMaxMs.Some? && cfg.backoffMaxMs.value != 0 && cfg.backoffMaxMs.value < raw
      then cfg.backoffMaxMs.value else raw
  }

  datatype Status = Pending | Completed(output: Value) | Failed(retryable: bool)

  datatype Checkpoint = Checkpoint(status: Status, attempts: nat, wakeAt: Option<int>)

  /** Why an attempt was sent: first, in place of one presumed lost, or after a failure at the given time. */
  datatype Cause = First | Lost | Retry(failedAt: int)

  datatype Dispatch = Dispatch(attempt: nat, at: int, cause: Cause)

  /** `failedAt` is when the last failure landed. */
  datatype State = State(cp: Option<Checkpoint>, sent: seq<Dispatch>, failedAt: int)

  const UNSENT := State(None, [], 0)

  datatype Answer = Output(value: Value) | Suspended(wakeAt: Option<int>) | StepLost | StepFailed

  datatype RunStatus = Live | Ended | Stranded

  // ---------------------------------------------------------------- specification

  function Send(s: State, attempt: nat, wakeAt: Option<int>, now: int, cause: Cause): State {
    s.(cp := Some(Checkpoint(Pending, attempt, wakeAt)), sent := s.sent + [Dispatch(attempt, now, cause)])
  }

  /** One replay reaching the step; `admitted` is the verdict of its queue, if it has one. */
  function Replayed(cfg: Config, s: State, now: int, admitted: bool): (State, Answer) {
    if s.cp.None? then
      if admitted then (Send(s, 1, None, now, First), Suspended(None)) else (s, Suspended(None))
    else
      var cp := s.cp.value;
      match cp.status
      case Completed(output) => (s, Output(output))
      case Pending =>
        if cfg.redispatchMs.None? then (s, Suspended(None))
        else
          var deadline := now + cfg.redispatchMs.value;
          if cp.wakeAt.None? then (s.(cp := Some(cp.(wakeAt := Some(deadline)))), Suspended(Some(deadline)))
          else if now < cp.wakeAt.value then (s, Suspended(cp.wakeAt))
          else if cp.attempts >= MaxDispatches(cfg) then (s, StepLost)
          else (Send(s, cp.attempts + 1, Some(deadline), now, Lost), Suspended(Some(deadline)))
      case Failed(retryable) =>
        if !retryable || cp.attempts >= MaxAttempts(cfg) then (s, StepFailed)
        else if cp.wakeAt.None? then
          var wake := now + BackoffDelay(cfg, cp.attempts);
          (s.(cp := Some(cp.(wakeAt := Some(wake)))), Suspended(Some(wake)))
        else if now < cp.wakeAt.value then (s, Suspended(cp.wakeAt))
        else if admitted then (Send(s, cp.attempts + 1, None, now, Retry(s.failedAt)), Suspended(None))
        else (s, Suspended(None))
  }

  /**
   * One worker result. A late success of a failed run is salvaged; anything late for a run that was
   * cancelled or completed, and a late failure, is dropped.
   */
  function Resulted(s: State, now: int, status: Status, run: RunStatus): State {
    if s.cp.None? || !s.cp.value.status.Pending? || status.Pending? then s
    else if run.Ended? || (run.Stranded? && !status.Completed?) then s
    else s.(cp := Some(s.cp.value.(status := status)), failedAt := if status.Failed? then now else s.failedAt)
  }

  // ---------------------------------------------------------------------- the engine

  class RemoteStep {
    const config: Config
    var checkpoint: Option<Checkpoint>
    // what went to the transport, and when the last failure landed
    ghost var sent: seq<Dispatch>
    ghost var failedAt: int

    ghost function Abs(): State
      reads this
    {
      State(checkpoint, sent, failedAt)
    }

    constructor (config: Config)
      ensures Abs() == UNSENT && this.config == config
    {
      this.config := config;
      checkpoint, sent, failedAt := None, [], 0;
    }

    method SendTask(attempt: nat, wakeAt: Option<int>, ghost now: int, ghost cause: Cause)
      modifies this`checkpoint, this`sent
      ensures Abs() == Send(old(Abs()), attempt, wakeAt, now, cause)
    {
      checkpoint := Some(Checkpoint(Pending, attempt, wakeAt));
      sent := sent + [Dispatch(attempt, now, cause)];
    }

    method CallRemote(now: int, admitted: bool) returns (answer: Answer)
      modifies this
      ensures (Abs(), answer) == Replayed(config, old(Abs()), now, admitted)
    {
      if checkpoint.Some? && checkpoint.value.status.Completed? {
        return Output(checkpoint.value.status.output);
      }
      if checkpoint.Some? && checkpoint.value.status.Pending? {
        var existing := checkpoint.value;
        if config.redispatchMs.None? { return Suspended(None); }
        var deadline := now + config.redispatchMs.value;
        if existing.wakeAt.None? {
          checkpoint := Some(existing.(wakeAt := Some(deadline)));
          return Suspended(Some(deadline));
        }
        if now < existing.wakeAt.value { return Suspended(existing.wakeAt); }
        if existing.attempts >= MaxDispatches(config) { return StepLost; }
        SendTask(existing.attempts + 1, Some(deadline), now, Lost);
        return Suspended(Some(deadline));
      }
      var attempt := 1;
      ghost var cause := First;
      if checkpoint.Some? {
        var existing := checkpoint.value;
        if !existing.status.retryable || existing.attempts >= MaxAttempts(config) { return StepFailed; }
        if existing.wakeAt.None? {
          var wake := now + BackoffDelay(config, existing.attempts);
          checkpoint := Some(existing.(wakeAt := Some(wake)));
          return Suspended(Some(wake));
        }
        if now < existing.wakeAt.value { return Suspended(existing.wakeAt); }
        attempt := existing.attempts + 1;
        cause := Retry(failedAt);
      }
      if !admitted { return Suspended(None); }
      SendTask(attempt, None, now, cause);
      answer := Suspended(None);
    }

    method CompleteRemoteResult(ghost now: int, status: Status, run: RunStatus)
      requires !status.Pending?
      modifies this
      ensures Abs() == Resulted(old(Abs()), now, status, run)
    {
      if checkpoint.None? || !checkpoint.value.status.Pending? { return; }
      if run.Ended? { return; }
      if run.Stranded? && !status.Completed? { return; }
      checkpoint := Some(checkpoint.value.(status := status));
      if status.Failed? { failedAt := now; }
    }
  }

  // -------------------------------------------------------------------------- runs

  datatype Event = Replay(now: int, admitted: bool) | Result(now: int, status: Status, run: RunStatus)

  function Next(cfg: Config, s: State, e: Event): State {
    match e
    case Replay(now, admitted) => Replayed(cfg, s, now, admitted).0
    case Result(now, status, run) => Resulted(s, now, status, run)
  }

  function Run(cfg: Config, s: State, events: seq<Event>): State
    decreases |events|
  {
    if events == [] then s else Run(cfg, Next(cfg, s, events[0]), events[1..])
  }

  /** The clock never runs backwards. */
  predicate Clocked(from: int, events: seq<Event>)
    decreases |events|
  {
    events != [] ==> from <= events[0].now && Clocked(events[0].now, events[1..])
  }

  // ------------------------------------------------- dispatches are the attempts recorded

  function Max(a: nat, b: nat): nat {
    if a > b then a else b
  }

  predicate Counted(cfg: Config, s: State) {
    && (if s.cp.None? then s.sent == [] else s.cp.value.attempts == |s.sent|)
    && |s.sent| <= Max(MaxAttempts(cfg), MaxDispatches(cfg))
    && (forall i | 0 <= i < |s.sent| :: s.sent[i].attempt == i + 1)
  }

  lemma StepKeepsCount(cfg: Config, s: State, e: Event)
    requires Counted(cfg, s)
    ensures Counted(cfg, Next(cfg, s, e))
  {
  }

  /**
   * In every run the number of dispatches is the attempts recorded, they are numbered in order, and
   * they never exceed the larger of the retry budget and the re-dispatch budget.
   */
  lemma {:induction false} DispatchesAreAttempts(cfg: Config, s: State, events: seq<Event>)
    requires Counted(cfg, s)
    ensures Counted(cfg, Run(cfg, s, events))
    decreases |events|
  {
    hide Counted, Next;
    if events != [] {
      StepKeepsCount(cfg, s, events[0]);
      DispatchesAreAttempts(cfg, Next(cfg, s, events[0]), events[1..]);
    }
  }

  /** A recorded output never changes and nothing is dispatched after it. */
  lemma {:induction false} OutputIsFinal(cfg: Config, s: State, events: seq<Event>)
    requires s.cp.Some? && s.cp.value.status.Completed?
    ensures Run(cfg, s, events) == s
    decreases |events|
  {
    if events != [] {
      OutputIsFinal(cfg, Next(cfg, s, events[0]), events[1..]);
    }
  }

  // --------------------------------------------------------------------- spacing

  /** Every retry comes at least its backoff after the failure it follows. */
  predicate BackoffHonoured(cfg: Config, sent: seq<Dispatch>) {
    forall i | 0 <= i < |sent| && sent[i].cause.Retry? :: sent[i].at >= sent[i].cause.failedAt + BackoffDelay(cfg, i)
  }

  predicate Delays(cfg: Config) {
    BackoffDelay(cfg, 1) > 0
  }

  lemma {:induction false} DelaySign(cfg: Config, attempt: nat)
    ensures BackoffDelay(cfg, attempt) > 0 <==> Delays(cfg)
    ensures !Delays(cfg) ==> BackoffDelay(cfg, attempt) <= 0
  {
    if cfg.backoffMs > 0 && attempt > 1 {
      var p := Pow2(attempt - 1);
      assert cfg.backoffMs * p >= cfg.backoffMs by {
        assert cfg.backoffMs * (p - 1) >= 0;
      }
    }
  }

  /**
   * The delay is the base, doubled for each further attempt when exponential, or a cap other than zero
   * where that is less.
   */
  lemma DelayShape(cfg: Config, attempt: nat)
    requires cfg.backoffMs > 0 && attempt >= 1
    ensures var uncapped := cfg.(backoffMaxMs := None);
            && (match cfg.backoffMaxMs
                case None => BackoffDelay(cfg, attempt) == BackoffDelay(uncapped, attempt)
                case Some(cap) =>
                  && BackoffDelay(cfg, attempt) <= BackoffDelay(uncapped, attempt)
                  && (cap != 0 ==> BackoffDelay(cfg, attempt) <= cap)
                  && (BackoffDelay(cfg, attempt) == BackoffDelay(uncapped, attempt)
                      || (cap != 0 && BackoffDelay(cfg, attempt) == cap)))
            && BackoffDelay(uncapped, 1) == cfg.backoffMs
            && BackoffDelay(uncapped, attempt + 1) == BackoffDelay(uncapped, attempt) * if cfg.exponential then 2 else 1
  {
    assert Pow2(attempt) == 2 * Pow2(attempt - 1);
    Doubles(cfg.backoffMs, Pow2(attempt - 1));
  }

  lemma Doubles(b: int, p: int)
    ensures b * (2 * p) == (b * p) * 2
  {
  }

  /** No deadline is stamped on a pending step, and one on a failed step is past its backoff. */
  predicate Spaced(cfg: Config, s: State, now: int) {
    && Counted(cfg, s) && BackoffHonoured(cfg, s.sent)
    && s.failedAt <= now
    && (s.cp.Some? && s.cp.value.status.Pending? ==> s.cp.value.wakeAt.None?)
    && (s.cp.Some? && s.cp.value.status.Failed? && s.cp.value.wakeAt.Some? ==>
          s.cp.value.wakeAt.value >= s.failedAt + BackoffDelay(cfg, s.cp.value.attempts))
  }

  lemma StepKeepsSpacing(cfg: Config, s: State, now: int, e: Event)
    requires cfg.redispatchMs.None? && Spaced(cfg, s, now) && now <= e.now
    ensures Spaced(cfg, Next(cfg, s, e), e.now)
  {
    hide BackoffDelay;
    StepKeepsCount(cfg, s, e);
  }

  lemma {:induction false} RunKeepsSpacing(cfg: Config, s: State, now: int, events: seq<Event>)
    requires cfg.redispatchMs.None? && Spaced(cfg, s, now) && Clocked(now, events)
    ensures BackoffHonoured(cfg, Run(cfg, s, events).sent)
    decreases |events|
  {
    hide Next, BackoffDelay, Counted;
    if events != [] {
      StepKeepsSpacing(cfg, s, now, events[0]);
      RunKeepsSpacing(cfg, Next(cfg, s, events[0]), events[0].now, events[1..]);
    }
  }

  lemma {:induction false} NoRetryIfSingle(cfg: Config, s: State, events: seq<Event>)
    requires MaxAttempts(cfg) == 1 && (s.cp.Some? ==> s.cp.value.attempts >= 1)
    requires forall i | 0 <= i < |s.sent| :: !s.sent[i].cause.Retry?
    ensures forall i | 0 <= i < |Run(cfg, s, events).sent| :: !Run(cfg, s, events).sent[i].cause.Retry?
    decreases |events|
  {
    hide BackoffDelay, MaxDispatches;
    if events != [] {
      NoRetryIfSingle(cfg, Next(cfg, s, events[0]), events[1..]);
    }
  }

  lemma {:induction false} RetriesFollowFailures(cfg: Config, s: State, now: int, events: seq<Event>)
    requires s.failedAt <= now && Clocked(now, events)
    requires forall i | 0 <= i < |s.sent| && s.sent[i].cause.Retry? :: s.sent[i].at >= s.sent[i].cause.failedAt
    ensures forall i | 0 <= i < |Run(cfg, s, events).sent| && Run(cfg, s, events).sent[i].cause.Retry? ::
              Run(cfg, s, events).sent[i].at >= Run(cfg, s, events).sent[i].cause.failedAt
    decreases |events|
  {
    hide BackoffDelay, MaxDispatches, MaxAttempts;
    if events != [] {
      RetriesFollowFailures(cfg, Next(cfg, s, events[0]), events[0].now, events[1..]);
    }
  }

  /** A stamp made for a lost dispatch outlives the failure and stands in for its backoff. */
  lemma StaleDeadlineSkipsBackoff(cfg: Config) returns (events: seq<Event>)
    requires cfg.redispatchMs.Some? && MaxAttempts(cfg) > 1 && Delays(cfg)
    ensures Clocked(0, events) && !BackoffHonoured(cfg, Run(cfg, UNSENT, events).sent)
  {
    var late := if cfg.redispatchMs.value > 0 then cfg.redispatchMs.value else 0;
    var e0, e1 := Replay(0, true), Replay(0, true);
    var e2, e3 := Result(late, Failed(true), Live), Replay(late, true);
    events := [e0, e1, e2, e3];
    ClockedFour(0, events);
    var s1 := Next(cfg, UNSENT, e0);
    var s2 := Next(cfg, s1, e1);
    var s3 := Next(cfg, s2, e2);
    var s4 := Next(cfg, s3, e3);
    assert s4.sent[1] == Dispatch(2, late, Retry(late));
    FourSteps(cfg, UNSENT, events, s1, s2, s3, s4);
  }

  lemma ClockedFour(from: int, events: seq<Event>)
    requires |events| == 4
    requires from <= events[0].now <= events[1].now <= events[2].now <= events[3].now
    ensures Clocked(from, events)
  {
    assert events[3..][1..] == [] && Clocked(events[2].now, events[3..]);
    assert events[2..][1..] == events[3..] && Clocked(events[1].now, events[2..]);
    assert events[1..][1..] == events[2..] && Clocked(events[0].now, events[1..]);
  }

  lemma FourSteps(cfg: Config, s: State, events: seq<Event>, s1: State, s2: State, s3: State, s4: State)
    requires |events| == 4 && s1 == Next(cfg, s, events[0]) && s2 == Next(cfg, s1, events[1])
    requires s3 == Next(cfg, s2, events[2]) && s4 == Next(cfg, s3, events[3])
    ensures Run(cfg, s, events) == s4
  {
    hide Next;
    assert events[3..][1..] == [];
    assert Run(cfg, s3, events[3..]) == s4;
    assert events[2..][1..] == events[3..];
    assert Run(cfg, s2, events[2..]) == s4;
    assert events[1..][1..] == events[2..];
    assert Run(cfg, s1, events[1..]) == s4;
  }

  /**
   * Every run of a forward clock honours the backoff of every retry exactly when re-dispatch is off, or
   * the step is never retried, or its backoff is no delay at all.
   */
  lemma BackoffHonouredIff(cfg: Config)
    ensures (forall events | Clocked(0, events) :: BackoffHonoured(cfg, Run(cfg, UNSENT, events).sent))
            <==> (cfg.redispatchMs.None? || MaxAttempts(cfg) == 1 || !Delays(cfg))
  {
    if cfg.redispatchMs.None? || MaxAttempts(cfg) == 1 || !Delays(cfg) {
      forall events | Clocked(0, events) ensures BackoffHonoured(cfg, Run(cfg, UNSENT, events).sent) {
        if cfg.redispatchMs.None? {
          RunKeepsSpacing(cfg, UNSENT, 0, events);
        } else if MaxAttempts(cfg) == 1 {
          NoRetryIfSingle(cfg, UNSENT, events);
        } else {
          RetriesFollowFailures(cfg, UNSENT, 0, events);
          forall i: nat { DelaySign(cfg, i); }
        }
      }
    } else {
      var events := StaleDeadlineSkipsBackoff(cfg);
    }
  }

  // ----------------------------------------------------------------- lost dispatches

  /** Each re-dispatch of a presumed-lost job comes a full deadline after the dispatch it replaces. */
  predicate LostInTime(cfg: Config, sent: seq<Dispatch>)
    requires cfg.redispatchMs.Some?
  {
    forall i | 0 <= i < |sent| && sent[i].cause.Lost? :: i > 0 && sent[i].at >= sent[i - 1].at + cfg.redispatchMs.value
  }

  /** A deadline on a pending step counts from its last dispatch. */
  predicate Stamped(cfg: Config, s: State, now: int)
    requires cfg.redispatchMs.Some?
  {
    && LostInTime(cfg, s.sent) && (s.cp.Some? ==> |s.sent| > 0)
    && (|s.sent| > 0 ==> s.sent[|s.sent| - 1].at <= now)
    && (s.cp.Some? && s.cp.value.status.Pending? && s.cp.value.wakeAt.Some? ==>
          s.cp.value.wakeAt.value >= s.sent[|s.sent| - 1].at + cfg.redispatchMs.value)
  }

  lemma StepKeepsStamp(cfg: Config, s: State, now: int, e: Event)
    requires cfg.redispatchMs.Some? && Stamped(cfg, s, now) && now <= e.now
    ensures Stamped(cfg, Next(cfg, s, e), e.now)
  {
    hide BackoffDelay, MaxAttempts, MaxDispatches;
  }

  lemma {:induction false} RunKeepsStamp(cfg: Config, s: State, now: int, events: seq<Event>)
    requires cfg.redispatchMs.Some? && Stamped(cfg, s, now) && Clocked(now, events)
    ensures LostInTime(cfg, Run(cfg, s, events).sent)
    decreases |events|
  {
    if events != [] {
      StepKeepsStamp(cfg, s, now, events[0]);
      hide Next, LostInTime;
      RunKeepsStamp(cfg, Next(cfg, s, events[0]), events[0].now, events[1..]);
    }
  }

  /** In every run of a forward clock a job is presumed lost no sooner than the configured wait after its dispatch. */
  lemma LostAfterDeadline(cfg: Config, events: seq<Event>)
    requires cfg.redispatchMs.Some? && Clocked(0, events)
    ensures LostInTime(cfg, Run(cfg, UNSENT, events).sent)
  {
    RunKeepsStamp(cfg, UNSENT, 0, events);
  }

  // ------------------------------------------------------------- exponential spacing

  /** Each dispatch, its failure and the next dispatch follow one another in time. */
  predicate Ordered(cfg: Config, s: State, now: int) {
    && Spaced(cfg, s, now) && (s.cp.Some? ==> |s.sent| > 0)
    && (forall i | 0 <= i < |s.sent| :: s.sent[i].at <= now && (i > 0 ==> s.sent[i].cause.Retry?))
    && (forall i | 1 <= i < |s.sent| :: s.sent[i].cause.failedAt >= s.sent[i - 1].at)
    && (s.cp.Some? && s.cp.value.status.Failed? ==> s.failedAt >= s.sent[|s.sent| - 1].at)
  }

  lemma StepKeepsOrder(cfg: Config, s: State, now: int, e: Event)
    requires cfg.redispatchMs.None? && Ordered(cfg, s, now) && now <= e.now
    ensures Ordered(cfg, Next(cfg, s, e), e.now)
  {
    StepKeepsSpacing(cfg, s, now, e);
    hide BackoffDelay, BackoffHonoured, MaxAttempts, MaxDispatches, Spaced;
    assert Spaced(cfg, s, now) && (s.cp.Some? && s.cp.value.status.Pending? ==> s.cp.value.wakeAt.None?);
  }

  lemma {:induction false} RunKeepsOrder(cfg: Config, s: State, now: int, events: seq<Event>) returns (end: int)
    requires cfg.redispatchMs.None? && Ordered(cfg, s, now) && Clocked(now, events)
    ensures Ordered(cfg, Run(cfg, s, events), end)
    decreases |events|
  {
    hide Next, Ordered;
    end := now;
    if events != [] {
      StepKeepsOrder(cfg, s, now, events[0]);
      end := RunKeepsOrder(cfg, Next(cfg, s, events[0]), events[0].now, events[1..]);
    }
  }

  lemma {:induction false} SpacingAdds(cfg: Config, s: State, now: int, n: nat)
    requires Ordered(cfg, s, now) && n < |s.sent|
    requires cfg.exponential && cfg.backoffMs >= 0 && (cfg.backoffMaxMs.None? || cfg.backoffMaxMs.value == 0)
    ensures s.sent[n].at >= s.sent[0].at + cfg.backoffMs * (Pow2(n) - 1)
  {
    if n > 0 {
      SpacingAdds(cfg, s, now, n - 1);
      UncappedDelay(cfg, n);
      Telescopes(cfg.backoffMs, Pow2(n - 1));
      assert s.sent[n].at >= s.sent[n].cause.failedAt + BackoffDelay(cfg, n);
      assert s.sent[n].cause.failedAt >= s.sent[n - 1].at;
      assert Pow2(n) == 2 * Pow2(n - 1);
      hide *;
    }
  }

  lemma UncappedDelay(cfg: Config, attempt: nat)
    requires cfg.exponential && cfg.backoffMs >= 0 && (cfg.backoffMaxMs.None? || cfg.backoffMaxMs.value == 0)
    requires attempt >= 1
    ensures BackoffDelay(cfg, attempt) == cfg.backoffMs * Pow2(attempt - 1)
  {
  }

  lemma Telescopes(b: int, p: int)
    ensures b * (2 * p - 1) == b * (p - 1) + b * p
  {
  }

  /** With re-dispatch off and uncapped exponential backoff, dispatch n waits backoffMs * (2^(n-1) - 1). */
  lemma ExponentialSpacing(cfg: Config, events: seq<Event>, n: nat)
    requires cfg.redispatchMs.None? && cfg.exponential && cfg.backoffMs >= 0
    requires cfg.backoffMaxMs.None? || cfg.backoffMaxMs.value == 0
    requires Clocked(0, events) && 1 <= n <= |Run(cfg, UNSENT, events).sent|
    ensures var sent := Run(cfg, UNSENT, events).sent;
            sent[n - 1].at >= sent[0].at + cfg.backoffMs * (Pow2(n - 1) - 1)
  {
    var end := RunKeepsOrder(cfg, UNSENT, 0, events);
    SpacingAdds(cfg, Run(cfg, UNSENT, events), end, n - 1);
  }

  // ------------------------------------------------------------ what a replay answers

  /**
   * The step's own account of a run: how many attempts were sent, the verdict that landed on the last
   * one, when it failed, and the deadline a replay set for it.
   */
  datatype Ledger = Ledger(sent: nat, verdict: Option<Status>, failedAt: int, due: Option<int>)

  const BLANK := Ledger(0, None, 0, None)

  /** The last attempt has been sent and not answered. */
  predicate Outstanding(m: Ledger) {
    m.sent > 0 && m.verdict.None?
  }

  /** The last attempt failed and another may follow: at most `retries` are sent, and at least one. */
  predicate MayRetry(cfg: Config, m: Ledger) {
    && m.sent > 0 && m.verdict.Some? && m.verdict.value.Failed? && m.verdict.value.retryable
    && cfg.retries.Some? && m.sent < cfg.retries.value
  }

  /** As many attempts have been sent as a lost job is given: `redispatchMax`, 10 if that is not set. */
  predicate LostBudgetSpent(cfg: Config, m: Ledger) {
    match cfg.redispatchMax
    case Some(max) => m.sent >= max
    case None => m.sent >= 10
  }

  predicate Due(m: Ledger, now: int) {
    m.due.Some? && m.due.value <= now
  }

  /** Why a replay at `now` sends an attempt, if it does. */
  function Cue(cfg: Config, m: Ledger, now: int, admitted: bool): Option<Cause> {
    if m.sent == 0 && admitted then Some(First)
    else if Outstanding(m) && cfg.redispatchMs.Some? && Due(m, now) && !LostBudgetSpent(cfg, m) then Some(Lost)
    else if MayRetry(cfg, m) && Due(m, now) && admitted then Some(Retry(m.failedAt))
    else None
  }

  /** A verdict lands on an outstanding attempt of a live run, and a success also on a stranded one. */
  predicate Lands(m: Ledger, status: Status, run: RunStatus) {
    Outstanding(m) && !status.Pending? && (run.Live? || (run.Stranded? && status.Completed?))
  }

  function Enter(cfg: Config, m: Ledger, e: Event): Ledger {
    match e
    case Result(now, status, run) =>
      if !Lands(m, status, run) then m
      else m.(verdict := Some(status), failedAt := if status.Failed? then now else m.failedAt)
    case Replay(now, admitted) =>
      match Cue(cfg, m, now, admitted)
      case Some(Lost) => Ledger(m.sent + 1, None, m.failedAt, Some(now + cfg.redispatchMs.value))
      case Some(_) => Ledger(m.sent + 1, None, m.failedAt, None)
      case None =>
        if m.due.Some? then m
        else if Outstanding(m) && cfg.redispatchMs.Some? then m.(due := Some(now + cfg.redispatchMs.value))
        else if MayRetry(cfg, m) then m.(due := Some(now + BackoffDelay(cfg, m.sent)))
        else m
  }

  function Entered(cfg: Config, m: Ledger, events: seq<Event>): Ledger
    decreases |events|
  {
    if events == [] then m else Entered(cfg, Enter(cfg, m, events[0]), events[1..])
  }

  /** The checkpoint is what the account says. */
  predicate Accounts(cfg: Config, s: State, m: Ledger) {
    && |s.sent| == m.sent && s.failedAt == m.failedAt
    && (if m.sent == 0 then s.cp.None? && m.verdict.None? && m.due.None?
        else s.cp == Some(Checkpoint(m.verdict.GetOr(Pending), m.sent, m.due)))
    && m.verdict != Some(Pending) && (Outstanding(m) && cfg.redispatchMs.None? ==> m.due.None?)
  }

  lemma StepAccounts(cfg: Config, s: State, m: Ledger, e: Event)
    requires Accounts(cfg, s, m)
    ensures Accounts(cfg, Next(cfg, s, e), Enter(cfg, m, e))
  {
    hide BackoffDelay;
  }

  lemma {:induction false} RunAccounts(cfg: Config, s: State, m: Ledger, events: seq<Event>)
    requires Accounts(cfg, s, m)
    ensures Accounts(cfg, Run(cfg, s, events), Entered(cfg, m, events))
    decreases |events|
  {
    hide Accounts, Next, Enter;
    if events != [] {
      StepAccounts(cfg, s, m, events[0]);
      RunAccounts(cfg, Next(cfg, s, events[0]), Enter(cfg, m, events[0]), events[1..]);
    }
  }

  /**
   * Over every run a replay answers the output of the success that landed and nothing else; it fails
   * exactly when the last attempt failed for good or max(1, retries) were sent, is lost exactly when the
   * last attempt is outstanding past its deadline and max(1, redispatchMax) were sent, and sends another
   * attempt exactly when there is cause to.
   */
  lemma RepliesMatchAccount(cfg: Config, events: seq<Event>, now: int, admitted: bool)
    ensures var m := Entered(cfg, BLANK, events);
            var s := Run(cfg, UNSENT, events);
            var (s', answer) := Replayed(cfg, s, now, admitted);
            && (forall v :: answer == Output(v) <==> m.verdict == Some(Completed(v)))
            && (answer == StepFailed
                <==> m.verdict.Some? && m.verdict.value.Failed?
                     && (!m.verdict.value.retryable || cfg.retries.None? || m.sent >= cfg.retries.value))
            && (answer == StepLost
                <==> Outstanding(m) && cfg.redispatchMs.Some? && Due(m, now) && LostBudgetSpent(cfg, m))
            && s'.sent == s.sent + (match Cue(cfg, m, now, admitted)
                                    case Some(cause) => [Dispatch(m.sent + 1, now, cause)]
                                    case None => [])
            && (answer.Suspended? ==>
                  answer.wakeAt == if MayRetry(cfg, m) && Due(m, now) then None
                                   else Enter(cfg, m, Replay(now, admitted)).due)
  {
    RunAccounts(cfg, UNSENT, BLANK, events);
    hide BackoffDelay;
  }

  /** Once a success has landed, whatever else happens every later replay answers its output. */
  lemma CompletedForGood(cfg: Config, before: seq<Event>, now: int, v: Value, run: RunStatus, after: seq<Event>,
                         later: int, admitted: bool)
    requires Lands(Entered(cfg, BLANK, before), Completed(v), run)
    ensures Replayed(cfg, Run(cfg, UNSENT, before + [Result(now, Completed(v), run)] + after), later, admitted).1
            == Output(v)
  {
    var e := Result(now, Completed(v), run);
    RunAccounts(cfg, UNSENT, BLANK, before);
    var s := Run(cfg, UNSENT, before);
    StepAccounts(cfg, s, Entered(cfg, BLANK, before), e);
    OutputIsFinal(cfg, Next(cfg, s, e), after);
    RunAppend(cfg, UNSENT, before, [e] + after);
    assert before + [e] + after == before + ([e] + after);
    assert ([e] + after)[1..] == after;
  }

  lemma {:induction false} RunAppend(cfg: Config, s: State, a: seq<Event>, b: seq<Event>)
    ensures Run(cfg, s, a + b) == Run(cfg, Run(cfg, s, a), b)
    decreases |a|
  {
    hide Next;
    if a == [] {
      assert a + b == b;
    } else {
      assert (a + b)[1..] == a[1..] + b;
      RunAppend(cfg, Next(cfg, s, a[0]), a[1..], b);
    }
  }
}

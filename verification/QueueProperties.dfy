/**
 * What the in-process admission controller guarantees over every run of calls: caps, the sliding rate
 * bound, retry times, the choice among waiters, and per-key fairness.
 * Models `QueueController` in packages/adonis/src/queue.ts.
 */
module QueueProperties {
  import opened Admissions
  import opened Common
  import opened QueueGate

  const BARE := Item(None, None, None)

  // ------------------------------------------------------------------------ caps

  function CapOf(cfg: Config): nat
    requires cfg.concurrency.Some?
  {
    if cfg.concurrency.value < 0 then 0 else cfg.concurrency.value
  }

  lemma {:induction false} CapHolds(cfg: Config, g: Gate, calls: seq<Call>)
    requires cfg.concurrency.Some? && g.inFlight <= CapOf(cfg)
    ensures Run(cfg, g, calls).inFlight <= CapOf(cfg)
    decreases |calls|
  {
    if calls != [] {
      CapHolds(cfg, Do(cfg, g, calls[0]), calls[1..]);
    }
  }

  function Frees(calls: seq<Call>): nat {
    if calls == [] then 0 else (if calls[0].Free? then 1 else 0) + Frees(calls[1..])
  }

  /** No slot is released that was not taken. */
  predicate Paired(cfg: Config, g: Gate, calls: seq<Call>)
    decreases |calls|
  {
    calls != [] ==> (calls[0].Free? ==> g.inFlight > 0) && Paired(cfg, Do(cfg, g, calls[0]), calls[1..])
  }

  /** Over a run that releases only what it took, the work in flight is what was admitted and not released. */
  lemma {:induction false} InFlightConserved(cfg: Config, g: Gate, calls: seq<Call>)
    requires Paired(cfg, g, calls)
    ensures Run(cfg, g, calls).inFlight + Frees(calls) == g.inFlight + |AdmissionLog(cfg, g, calls)|
    decreases |calls|
  {
    if calls != [] {
      SlotsOfCall(cfg, g, calls[0]);
      hide Do, Admits;
      InFlightConserved(cfg, Do(cfg, g, calls[0]), calls[1..]);
    }
  }

  lemma SlotsOfCall(cfg: Config, g: Gate, call: Call)
    ensures call.Acquire? ==> Do(cfg, g, call).inFlight == g.inFlight + if Admits(cfg, g, call) then 1 else 0
    ensures call.Free? && g.inFlight > 0 ==> Do(cfg, g, call).inFlight == g.inFlight - 1 && !Admits(cfg, g, call)
  {
    hide NobodyBetter;
  }

  // ------------------------------------------------------------------- rate window

  function Count(log: seq<int>, lo: int, hi: int): nat {
    if log == [] then 0
    else Count(log[..|log| - 1], lo, hi) + if lo <= log[|log| - 1] < hi then 1 else 0
  }

  /** The admissions in the half-open interval of length `span` that starts at `t`. */
  function Within(log: seq<int>, t: int, span: int): nat {
    Count(log, t, t + span)
  }

  lemma {:induction false} CountSplits(log: seq<int>, lo: int, mid: int, hi: int)
    requires lo <= mid <= hi
    ensures Count(log, lo, hi) == Count(log, lo, mid) + Count(log, mid, hi)
  {
    if log != [] {
      CountSplits(log[..|log| - 1], lo, mid, hi);
    }
  }

  lemma {:induction false} CountGrows(log: seq<int>, lo: int, hi: int, lo': int, hi': int)
    requires lo' <= lo && hi <= hi'
    ensures Count(log, lo, hi) <= Count(log, lo', hi')
  {
    if log != [] {
      CountGrows(log[..|log| - 1], lo, hi, lo', hi');
    }
  }

  lemma {:induction false} CountEmpty(log: seq<int>, lo: int, hi: int)
    requires forall i | 0 <= i < |log| :: log[i] < lo || hi <= log[i]
    ensures Count(log, lo, hi) == 0
  {
    if log != [] {
      assert log[|log| - 1] < lo || hi <= log[|log| - 1];
      CountEmpty(log[..|log| - 1], lo, hi);
    }
  }

  lemma CountSnoc(log: seq<int>, x: int, lo: int, hi: int)
    ensures Count(log + [x], lo, hi) == Count(log, lo, hi) + if lo <= x < hi then 1 else 0
  {
    assert (log + [x])[..|log|] == log;
  }

  /** The current window holds `windowCount` admissions, the period before it at most the limit. */
  ghost predicate WindowFits(rate: Rate, g: Gate, past: seq<int>) {
    && g.windowCount <= rate.limit
    && (forall i | 0 <= i < |past| :: past[i] < g.windowStart + rate.periodMs)
    && Count(past, g.windowStart, g.windowStart + rate.periodMs) == g.windowCount
    && Count(past, g.windowStart - rate.periodMs, g.windowStart) <= rate.limit
    && (forall t :: Within(past, t, rate.periodMs) <= 2 * rate.limit)
  }

  lemma RollKeepsFit(cfg: Config, g: Gate, now: int, past: seq<int>)
    requires cfg.rate.Some? && cfg.rate.value.periodMs > 0 && WindowFits(cfg.rate.value, g, past)
    ensures WindowFits(cfg.rate.value, Rolled(cfg, g, now), past)
  {
    var rate := cfg.rate.value;
    if now - g.windowStart >= rate.periodMs {
      CountEmpty(past, now, now + rate.periodMs);
      CountEmpty(past, g.windowStart + rate.periodMs, now);
      CountGrows(past, now - rate.periodMs, now, g.windowStart, now);
      CountSplits(past, g.windowStart, g.windowStart + rate.periodMs, now);
    }
  }

  lemma AdmissionKeepsFit(rate: Rate, g: Gate, now: int, past: seq<int>)
    requires rate.periodMs > 0 && WindowFits(rate, g, past)
    requires g.windowStart <= now < g.windowStart + rate.periodMs && g.windowCount < rate.limit
    ensures WindowFits(rate, g.(windowCount := g.windowCount + 1), past + [now])
  {
    var P, ws := rate.periodMs, g.windowStart;
    CountSnoc(past, now, ws, ws + P);
    CountSnoc(past, now, ws - P, ws);
    forall t ensures Within(past + [now], t, P) <= 2 * rate.limit {
      assert Within(past, t, P) <= 2 * rate.limit;
      CountSnoc(past, now, t, t + P);
      if t <= now < t + P {
        CountGrows(past, t, t + P, ws - P, t + P);
        CountSplits(past, ws - P, ws, t + P);
        CountGrows(past, ws, t + P, ws, ws + P + P);
        CountSplits(past, ws, ws + P, ws + P + P);
        CountEmpty(past, ws + P, ws + P + P);
      }
    }
  }

  lemma RateOfAttempt(cfg: Config, g: Gate, now: int, item: Item)
    ensures var w, g' := Rolled(cfg, g, now), Attempt(cfg, g, now, item).0;
            && g'.windowStart == w.windowStart
            && g'.windowCount == w.windowCount +
                 (if Attempt(cfg, g, now, item).1.Admitted? && cfg.rate.Some? then 1 else 0)
    ensures Attempt(cfg, g, now, item).1.Admitted? ==> !RateSpent(cfg, Rolled(cfg, g, now))
  {
    hide NobodyBetter;
  }

  lemma {:induction false} LogFits(cfg: Config, g: Gate, from: int, calls: seq<Call>, past: seq<int>)
    requires cfg.rate.Some? && cfg.rate.value.periodMs > 0
    requires WindowFits(cfg.rate.value, g, past)
    requires Clocked(from, calls) && g.windowStart <= from
    ensures forall t :: Within(past + AdmissionLog(cfg, g, calls), t, cfg.rate.value.periodMs)
                        <= 2 * cfg.rate.value.limit
    decreases |calls|
  {
    hide Attempt, Rolled, Within, Count;
    if calls == [] {
      assert past + AdmissionLog(cfg, g, calls) == past;
    } else {
      var g' := Do(cfg, g, calls[0]);
      if calls[0].Acquire? {
        var now := calls[0].now;
        StepFits(cfg, g, now, calls[0].item, past);
        var past' := if Admits(cfg, g, calls[0]) then past + [now] else past;
        LogFits(cfg, g', now, calls[1..], past');
        assert past + AdmissionLog(cfg, g, calls) == past' + AdmissionLog(cfg, g', calls[1..]);
      } else {
        assert WindowFits(cfg.rate.value, g', past);
        LogFits(cfg, g', from, calls[1..], past);
        assert past + AdmissionLog(cfg, g, calls) == past + AdmissionLog(cfg, g', calls[1..]);
      }
    }
  }

  lemma StepFits(cfg: Config, g: Gate, now: int, item: Item, past: seq<int>)
    requires cfg.rate.Some? && cfg.rate.value.periodMs > 0
    requires WindowFits(cfg.rate.value, g, past) && g.windowStart <= now
    ensures var (g', answer) := Attempt(cfg, g, now, item);
            && WindowFits(cfg.rate.value, g', if answer.Admitted? then past + [now] else past)
            && g'.windowStart <= now
  {
    hide Count, Contend;
    RollKeepsFit(cfg, g, now, past);
    RateOfAttempt(cfg, g, now, item);
    var w := Rolled(cfg, g, now);
    hide Attempt;
    if Attempt(cfg, g, now, item).1.Admitted? {
      AdmissionKeepsFit(cfg.rate.value, w, now, past);
    }
  }

  /** Any half-open interval of one period holds at most twice the limit, in any run of a forward clock. */
  lemma RateBound(cfg: Config, calls: seq<Call>, t: int)
    requires cfg.rate.Some? && cfg.rate.value.limit >= 0 && Clocked(0, calls)
    ensures Within(AdmissionLog(cfg, IDLE, calls), t, cfg.rate.value.periodMs) <= 2 * cfg.rate.value.limit
  {
    var rate := cfg.rate.value;
    var log := AdmissionLog(cfg, IDLE, calls);
    if rate.periodMs > 0 {
      LogFits(cfg, IDLE, 0, calls, []);
      assert [] + log == log;
      assert Within([] + log, t, rate.periodMs) <= 2 * rate.limit;
    } else {
      CountEmpty(log, t, t + rate.periodMs);
    }
  }

  /** `n` callers one after another at one time, each leaving before the next comes. */
  function Rounds(now: int, n: nat): seq<Call> {
    if n == 0 then [] else [Acquire(now, BARE), Free] + Rounds(now, n - 1)
  }

  lemma {:induction false} RoundsAdmit(cfg: Config, g: Gate, now: int, n: nat)
    requires cfg.rate.Some? && cfg.concurrency == Some(1) && !cfg.fair && !cfg.lifo
    requires 0 < cfg.rate.value.periodMs && g.inFlight == 0
    requires Rolled(cfg, g, now).windowCount + n <= cfg.rate.value.limit
    ensures AdmissionLog(cfg, g, Rounds(now, n)) == seq(n, i => now)
    ensures n > 0 ==> var w := Rolled(cfg, g, now);
                      Run(cfg, g, Rounds(now, n)) == w.(windowCount := w.windowCount + n)
    decreases n
  {
    if n > 0 {
      var w := Rolled(cfg, g, now);
      var g' := w.(windowCount := w.windowCount + 1);
      RoundAdmits(cfg, g, now);
      RoundsAdmit(cfg, g', now, n - 1);
      hide Do, Admits, Rolled;
      LogAppends(cfg, g, [Acquire(now, BARE), Free], Rounds(now, n - 1));
      assert [now] + seq(n - 1, i => now) == seq(n, i => now);
    }
  }

  lemma RoundAdmits(cfg: Config, g: Gate, now: int)
    requires cfg.rate.Some? && cfg.concurrency == Some(1) && !cfg.fair && !cfg.lifo
    requires 0 < cfg.rate.value.periodMs && g.inFlight == 0
    requires Rolled(cfg, g, now).windowCount < cfg.rate.value.limit
    ensures var g' := Run(cfg, g, [Acquire(now, BARE), Free]);
            g' == Rolled(cfg, g, now).(windowCount := Rolled(cfg, g, now).windowCount + 1) && Rolled(cfg, g', now) == g'
    ensures AdmissionLog(cfg, g, [Acquire(now, BARE), Free]) == [now]
  {
    var a := Acquire(now, BARE);
    var g1 := Do(cfg, g, a);
    var g2 := Do(cfg, g1, Free);
    assert Admits(cfg, g, a) && !Admits(cfg, g1, Free);
    assert g2 == Rolled(cfg, g, now).(windowCount := Rolled(cfg, g, now).windowCount + 1);
    hide Do, Admits;
    assert [a, Free][1..] == [Free] && [Free][1..] == [];
    assert Run(cfg, g1, [Free]) == g2 && AdmissionLog(cfg, g1, [Free]) == [];
  }

  lemma FreesAdmitNobody(cfg: Config, g: Gate)
    ensures forall h :: !Admits(cfg, h, Free)
  {
  }

  lemma {:induction false} LogAppends(cfg: Config, g: Gate, a: seq<Call>, b: seq<Call>)
    ensures AdmissionLog(cfg, g, a + b) == AdmissionLog(cfg, g, a) + AdmissionLog(cfg, Run(cfg, g, a), b)
    ensures Run(cfg, g, a + b) == Run(cfg, Run(cfg, g, a), b)
    decreases |a|
  {
    hide Do, Admits;
    if a == [] {
      assert a + b == b;
    } else {
      assert (a + b)[1..] == a[1..] + b;
      LogAppends(cfg, Do(cfg, g, a[0]), a[1..], b);
    }
  }

  lemma {:induction false} CountAll(log: seq<int>, lo: int, hi: int)
    requires forall i | 0 <= i < |log| :: lo <= log[i] < hi
    ensures Count(log, lo, hi) == |log|
  {
    if log != [] {
      assert lo <= log[|log| - 1] < hi;
      CountAll(log[..|log| - 1], lo, hi);
    }
  }

  lemma RoundClocked(from: int, now: int, tail: seq<Call>)
    requires from <= now && Clocked(now, tail)
    ensures Clocked(from, [Acquire(now, BARE), Free] + tail)
  {
    var calls := [Acquire(now, BARE), Free] + tail;
    assert calls[1..] == [Free] + tail && ([Free] + tail)[1..] == tail;
    assert Clocked(now, [Free] + tail);
  }

  lemma {:induction false} RoundsClocked(from: int, now: int, n: nat, rest: seq<Call>)
    requires from <= now && Clocked(now, rest)
    ensures Clocked(from, Rounds(now, n) + rest)
    decreases n
  {
    if n == 0 {
      assert Rounds(now, n) + rest == rest;
      LaterClock(from, now, rest);
    } else {
      var tail := Rounds(now, n - 1) + rest;
      RoundsClocked(now, now, n - 1, rest);
      assert Rounds(now, n) + rest == [Acquire(now, BARE), Free] + tail;
      hide Rounds;
      RoundClocked(from, now, tail);
    }
  }

  lemma {:induction false} LaterClock(from: int, now: int, calls: seq<Call>)
    requires from <= now && Clocked(now, calls)
    ensures Clocked(from, calls)
    decreases |calls|
  {
    if calls != [] && calls[0].Free? {
      LaterClock(from, now, calls[1..]);
    }
  }

  /** A call takes the only slot, and a period later another is turned away and opens a window. */
  function Opening(start: int, periodMs: int): seq<Call> {
    [Acquire(start, BARE), Acquire(start + periodMs, BARE), Free]
  }

  lemma WindowOpened(cfg: Config, start: int, periodMs: int)
    requires cfg.rate.Some? && cfg == Config(Some(1), Some(Rate(cfg.rate.value.limit, periodMs)), 1000, false, false)
    requires cfg.rate.value.limit >= 1 && periodMs > 0 && start >= 0
    ensures var g := Run(cfg, IDLE, Opening(start, periodMs));
            g.inFlight == 0 && g.windowStart == start + periodMs && g.windowCount == 0
    ensures AdmissionLog(cfg, IDLE, Opening(start, periodMs)) == [start]
  {
    var calls := Opening(start, periodMs);
    var g1 := Do(cfg, IDLE, calls[0]);
    assert Admits(cfg, IDLE, calls[0]) && g1.inFlight == 1 && g1.windowStart <= start;
    var g2 := Do(cfg, g1, calls[1]);
    assert !Admits(cfg, g1, calls[1]) && g2.inFlight == 1;
    assert g2.windowStart == start + periodMs && g2.windowCount == 0;
    var g3 := Do(cfg, g2, calls[2]);
    hide Do, Admits;
    assert calls[1..] == [calls[1], Free] && calls[1..][1..] == [Free] && [Free][1..] == [];
    FreesAdmitNobody(cfg, g2);
    assert Run(cfg, g2, [Free]) == g3 && AdmissionLog(cfg, g2, [Free]) == [];
  }

  /** The bound is reached for every limit and every period of at least 2 ms, whenever the first call comes. */
  lemma RateBoundIsReached(limit: nat, periodMs: int, start: int) returns (cfg: Config, calls: seq<Call>, t: int)
    requires periodMs >= 2 && start >= 0
    ensures cfg.rate == Some(Rate(limit, periodMs)) && Clocked(start, calls)
    ensures calls != [] && calls[0] == Acquire(start, BARE)
    ensures Within(AdmissionLog(cfg, IDLE, calls), t, periodMs) == 2 * limit
  {
    cfg := Config(Some(1), Some(Rate(limit, periodMs)), 1000, false, false);
    t := start + 2 * periodMs - 1;
    if limit == 0 {
      calls := [Acquire(start, BARE)];
      assert calls[1..] == [] && AdmissionLog(cfg, IDLE, calls) == [];
    } else {
      var a, b := Rounds(t, limit), Rounds(t + 1, limit);
      calls := Opening(start, periodMs) + (a + b);
      TwoBursts(cfg, limit, periodMs, start);
      assert b + [] == b;
      RoundsClocked(t, t + 1, limit, []);
      RoundsClocked(start + periodMs, t, limit, b);
      OpeningClocked(start, periodMs, a + b);
    }
  }

  lemma OpeningClocked(start: int, periodMs: int, rest: seq<Call>)
    requires periodMs >= 0 && Clocked(start + periodMs, rest)
    ensures Clocked(start, Opening(start, periodMs) + rest)
  {
    var calls := Opening(start, periodMs) + rest;
    assert calls[1..] == [Acquire(start + periodMs, BARE), Free] + rest;
    assert calls[1..][1..] == [Free] + rest && ([Free] + rest)[1..] == rest;
    assert Clocked(start + periodMs, [Free] + rest);
  }

  /** The last millisecond of that window and the first after it take the whole limit each. */
  lemma TwoBursts(cfg: Config, limit: nat, periodMs: int, start: int)
    requires cfg == Config(Some(1), Some(Rate(limit, periodMs)), 1000, false, false)
    requires limit >= 1 && periodMs >= 2 && start >= 0
    ensures var t := start + 2 * periodMs - 1;
            var calls := Opening(start, periodMs) + (Rounds(t, limit) + Rounds(t + 1, limit));
            Within(AdmissionLog(cfg, IDLE, calls), t, periodMs) == 2 * limit
  {
    hide Do, Admits, Attempt, Count, AdmissionLog, Run, Rounds, Opening;
    var t := start + 2 * periodMs - 1;
    var a, b := Rounds(t, limit), Rounds(t + 1, limit);
    WindowOpened(cfg, start, periodMs);
    var g := Run(cfg, IDLE, Opening(start, periodMs));
    RoundsAdmit(cfg, g, t, limit);
    var g' := Run(cfg, g, a);
    RoundsAdmit(cfg, g', t + 1, limit);
    LogAppends(cfg, IDLE, Opening(start, periodMs), a + b);
    LogAppends(cfg, g, a, b);
    var burst := seq(limit, i => t) + seq(limit, i => t + 1);
    CountAll(burst, t, t + periodMs);
    CountAfterOne(start, burst, t, t + periodMs);
  }

  lemma {:induction false} CountAfterOne(x: int, log: seq<int>, lo: int, hi: int)
    requires x < lo
    ensures Count([x] + log, lo, hi) == Count(log, lo, hi)
  {
    if log == [] {
      assert [x] + log == [x] && [x][..0] == [];
      assert Count([x], lo, hi) == Count([], lo, hi);
    } else {
      assert ([x] + log)[..|log|] == [x] + log[..|log| - 1];
      CountAfterOne(x, log[..|log| - 1], lo, hi);
    }
  }

  // ------------------------------------------------------------------- retry times

  ghost predicate RetriesInFuture(cfg: Config, g: Gate, calls: seq<Call>)
    decreases |calls|
  {
    calls != [] ==>
      && (calls[0].Acquire? ==>
            var answer := Attempt(cfg, g, calls[0].now, calls[0].item).1;
            answer.Denied? ==> answer.retryAt > calls[0].now)
      && RetriesInFuture(cfg, Do(cfg, g, calls[0]), calls[1..])
  }

  /** A queue that never admits needs a positive period, one that can be contended a positive delay. */
  predicate Positive(cfg: Config) {
    if cfg.rate.Some? && cfg.rate.value.limit <= 0 then cfg.rate.value.periodMs > 0
    else cfg.concurrency.None? || cfg.retryMs > 0
  }

  lemma {:induction false} PositiveRetries(cfg: Config, g: Gate, calls: seq<Call>)
    requires Positive(cfg) && (cfg.concurrency.None? ==> g.waiters == map[])
    ensures RetriesInFuture(cfg, g, calls)
    decreases |calls|
  {
    if calls != [] {
      hide NobodyBetter;
      PositiveRetries(cfg, Do(cfg, g, calls[0]), calls[1..]);
    }
  }

  /** Fills a queue one bare call at a time, each in a fresh rate window. */
  lemma {:induction false} FillThenDeny(cfg: Config, g: Gate, from: int, room: nat) returns (calls: seq<Call>)
    requires cfg.concurrency.Some? && cfg.retryMs <= 0 && g.waiters == map[] && g.windowStart <= from
    requires cfg.rate.Some? ==> cfg.rate.value.limit > 0
    requires cfg.concurrency.value - g.inFlight <= room
    ensures Clocked(from, calls) && !RetriesInFuture(cfg, g, calls)
    decreases room
  {
    hide NobodyBetter;
    var now := from + if cfg.rate.Some? && cfg.rate.value.periodMs > 0 then cfg.rate.value.periodMs else 0;
    var call := Acquire(now, BARE);
    var g' := Do(cfg, g, call);
    var rest: seq<Call> := [];
    if Full(cfg, g) {
      assert Attempt(cfg, g, now, BARE).1 == Denied(now + cfg.retryMs);
      assert !(Attempt(cfg, g, now, BARE).1.retryAt > now);
    } else {
      rest := FillThenDeny(cfg, g', now, room - 1);
    }
    calls := [call] + rest;
    assert calls[1..] == rest && calls[0] == call;
  }

  lemma PastRetry(cfg: Config) returns (calls: seq<Call>)
    requires !Positive(cfg)
    ensures Clocked(0, calls) && !RetriesInFuture(cfg, IDLE, calls)
  {
    if cfg.rate.Some? && cfg.rate.value.limit <= 0 {
      calls := [Acquire(0, BARE)];
      assert calls[1..] == [] && calls[0] == Acquire(0, BARE);
      assert Attempt(cfg, IDLE, 0, BARE).1 == Denied(cfg.rate.value.periodMs);
    } else {
      calls := FillThenDeny(cfg, IDLE, 0, CapOf(cfg));
    }
  }

  /** Every denial of every run names a strictly later time exactly for the configurations `Positive`. */
  lemma RetryAtFutureIffPositive(cfg: Config)
    ensures (forall calls | Clocked(0, calls) :: RetriesInFuture(cfg, IDLE, calls)) <==> Positive(cfg)
  {
    if Positive(cfg) {
      forall calls | Clocked(0, calls) ensures RetriesInFuture(cfg, IDLE, calls) {
        PositiveRetries(cfg, IDLE, calls);
      }
    } else {
      var calls := PastRetry(cfg);
    }
  }

  /** The call is denied because the window it falls into has no budget left. */
  predicate OutOfBudget(cfg: Config, g: Gate, now: int) {
    match cfg.rate
    case None => false
    case Some(rate) => if now < g.windowStart + rate.periodMs then g.windowCount >= rate.limit else rate.limit <= 0
  }

  /**
   * A denial names its time. Without budget it is the end of the window: until then every call is denied
   * with the same time, and from then on, if the limit is positive, none is for the budget. For the cap or
   * the order it is the retry interval from now.
   */
  lemma DenialNamesItsTime(cfg: Config, g: Gate, now: int, item: Item, later: int, other: Item)
    requires Attempt(cfg, g, now, item).1.Denied? && now <= later
    ensures var (g', answer) := Attempt(cfg, g, now, item);
            if OutOfBudget(cfg, g, now) then
              && answer.retryAt == g'.windowStart + cfg.rate.value.periodMs
              && (later < answer.retryAt ==> Attempt(cfg, g', later, other) == (g', answer))
              && (later >= answer.retryAt && cfg.rate.value.limit > 0 ==> !OutOfBudget(cfg, g', later))
            else answer.retryAt == now + cfg.retryMs
  {
    hide NobodyBetter, Registered, Take, Self;
  }

  // ------------------------------------------------------------ the choice of a waiter

  /** The retry of a registered waiter with unchanged hints. */
  function Retry(g: Gate, id: Id): Item
    requires id in g.waiters
  {
    Item(Some(g.waiters[id].priority), g.waiters[id].key, Some(id))
  }

  predicate SlotAndBudget(cfg: Config, g: Gate, now: int) {
    !RateSpent(cfg, Rolled(cfg, g, now)) && !Full(cfg, g)
  }

  /** With a slot and rate budget free, an identified call gets in iff no other waiter is better. */
  lemma AdmittedIffBest(cfg: Config, g: Gate, now: int, item: Item)
    requires Valid(g) && item.waiterId.Some? && SlotAndBudget(cfg, g, now)
    ensures Attempt(cfg, g, now, item).1.Admitted? <==>
            forall id | id in g.waiters && id != item.waiterId.value ::
              !Better(cfg, g.served, g.waiters[id], Self(g, item))
  {
    var w, self := Rolled(cfg, g, now), Self(g, item);
    var r := Registered(w, item);
    var me := item.waiterId.value;
    assert r.waiters[me] == self && r.served == g.served && !Better(cfg, g.served, self, self);
    assert forall id | id in g.waiters && id != me :: id in r.waiters && r.waiters[id] == g.waiters[id];
    assert forall id | id in r.waiters && id != me :: id in g.waiters;
    hide Better, Take;
  }

  lemma {:induction false} BestExists(cfg: Config, g: Gate, ids: set<Id>) returns (best: Id)
    requires Valid(g) && ids <= g.waiters.Keys && ids != {}
    ensures best in ids
    ensures forall id | id in ids && id != best :: Better(cfg, g.served, g.waiters[best], g.waiters[id])
    decreases |ids|
  {
    var x :| x in ids;
    var rest := ids - {x};
    if rest == {} {
      assert ids == {x};
      best := x;
    } else {
      var y := BestExists(cfg, g, rest);
      BetterIsStrictTotal(cfg, g, x, y);
      best := if Better(cfg, g.served, g.waiters[x], g.waiters[y]) then x else y;
      forall id | id in ids && id != best
        ensures Better(cfg, g.served, g.waiters[best], g.waiters[id])
      {
        if best == x && id != y {
          BetterIsTransitive(cfg, g.served, g.waiters[x], g.waiters[y], g.waiters[id]);
        }
      }
    }
  }

  /** Among the waiters of any reachable state exactly one would be admitted if it retried now. */
  lemma ExactlyOneNext(cfg: Config, g: Gate, now: int)
    requires Valid(g) && g.waiters.Keys != {} && SlotAndBudget(cfg, g, now)
    ensures exists best :: best in g.waiters && Attempt(cfg, g, now, Retry(g, best)).1.Admitted?
              && forall id | id in g.waiters && id != best :: Attempt(cfg, g, now, Retry(g, id)).1.Denied?
  {
    var best := BestExists(cfg, g, g.waiters.Keys);
    forall id | id in g.waiters
      ensures Attempt(cfg, g, now, Retry(g, id)).1.Admitted? <==> id == best
    {
      AdmittedIffBest(cfg, g, now, Retry(g, id));
      assert Self(g, Retry(g, id)) == g.waiters[id];
      if id != best {
        BetterIsStrictTotal(cfg, g, best, id);
      } else {
        forall other | other in g.waiters && other != best
          ensures !Better(cfg, g.served, g.waiters[other], g.waiters[best])
        {
          BetterIsStrictTotal(cfg, g, other, best);
        }
      }
      hide Better, Attempt, Self;
    }
  }

  // ------------------------------------------------------- arrival order over a run

  predicate Identified(call: Call, id: Id) {
    call.Acquire? && call.item.waiterId == Some(id)
  }

  /** No call of the run by `id` is admitted. */
  predicate NeverAdmitted(cfg: Config, g: Gate, calls: seq<Call>, id: Id)
    decreases |calls|
  {
    calls != [] ==>
      && !(Identified(calls[0], id) && Admits(cfg, g, calls[0]))
      && NeverAdmitted(cfg, Do(cfg, g, calls[0]), calls[1..], id)
  }

  /** Every call of the run by `id` carries the priority `p`. */
  predicate KeepsPriority(calls: seq<Call>, id: Id, p: int) {
    forall i | 0 <= i < |calls| && Identified(calls[i], id) :: PriorityOf(calls[i].item) == p
  }

  /** The listing of `id` after a registration and after a slot is taken. */
  lemma ListingAfter(cfg: Config, g: Gate, item: Item, id: Id)
    ensures var r, mine := Registered(g, item), item.waiterId == Some(id);
            if mine then id in r.waiters && r.waiters[id] == Self(g, item)
            else (id in r.waiters <==> id in g.waiters) && (id in g.waiters ==> r.waiters[id] == g.waiters[id])
    ensures var t, mine := Take(cfg, g, item), item.waiterId == Some(id);
            (id in t.waiters <==> id in g.waiters && !mine) && (id in t.waiters ==> t.waiters[id] == g.waiters[id])
  {
  }

  /** What a call by anyone leaves of the waiter `id`. */
  lemma WaiterAfter(cfg: Config, g: Gate, call: Call, id: Id)
    requires Valid(g) && id in g.waiters
    ensures var g' := Do(cfg, g, call);
            if Identified(call, id) && Admits(cfg, g, call) then id !in g'.waiters
            else && id in g'.waiters && g'.waiters[id].arrival == g.waiters[id].arrival
                 && (if g'.waiters[id] == g.waiters[id] then true
                     else Identified(call, id) && g'.waiters[id] == Self(g, call.item))
  {
    hide NobodyBetter, Registered, Take;
    if call.Acquire? {
      var w := Rolled(cfg, g, call.now);
      ListingAfter(cfg, w, call.item, id);
      ListingAfter(cfg, Registered(w, call.item), call.item, id);
      assert Self(w, call.item) == Self(g, call.item);
    }
  }

  /** A newcomer that stays is stamped after everyone already waiting. */
  lemma NewcomerAfter(cfg: Config, g: Gate, call: Call, id: Id)
    requires Valid(g) && id !in g.waiters && id in Do(cfg, g, call).waiters
    ensures Do(cfg, g, call).waiters[id].arrival == Seq(g.waiterSeq)
  {
    hide NobodyBetter, Registered, Take;
    if call.Acquire? {
      var w := Rolled(cfg, g, call.now);
      ListingAfter(cfg, w, call.item, id);
      ListingAfter(cfg, Registered(w, call.item), call.item, id);
      assert Self(w, call.item) == Self(g, call.item);
    }
  }

  /**
   * First come, first served: in a queue without fairness or LIFO, a call that arrives while another of
   * at least its priority is waiting is not admitted, over the whole run, before that one is.
   */
  lemma {:induction false} NotOvertaken(cfg: Config, g: Gate, calls: seq<Call>, first: Id, second: Id, p: int, q: int)
    requires Valid(g) && !cfg.fair && !cfg.lifo && first != second && q <= p
    requires first in g.waiters && g.waiters[first].priority == p
    requires second in g.waiters ==> Earlier(g.waiters[first].arrival, g.waiters[second].arrival)
    requires KeepsPriority(calls, first, p) && KeepsPriority(calls, second, q)
    requires NeverAdmitted(cfg, g, calls, first)
    ensures NeverAdmitted(cfg, g, calls, second)
    decreases |calls|
  {
    hide Attempt;
    if calls != [] {
      var call, g' := calls[0], Do(cfg, g, calls[0]);
      DoKeepsValid(cfg, g, call);
      WaiterAfter(cfg, g, call, first);
      if second in g.waiters {
        WaiterAfter(cfg, g, call, second);
      } else if second in g'.waiters {
        NewcomerAfter(cfg, g, call, second);
      }
      assert g'.waiters[first].priority == p;
      assert KeepsPriority(calls[1..], first, p) && KeepsPriority(calls[1..], second, q) by {
        assert forall i | 0 <= i < |calls[1..]| :: calls[1..][i] == calls[i + 1];
      }
      if Identified(call, second) {
        Blocked(cfg, g, call, first);
      }
      NotOvertaken(cfg, g', calls[1..], first, second, p, q);
    }
  }

  /** A call with a better waiter registered is not admitted. */
  lemma Blocked(cfg: Config, g: Gate, call: Call, better: Id)
    requires Valid(g) && call.Acquire? && Ordered(cfg, call.item) && better in g.waiters
    requires !Identified(call, better)
    requires Better(cfg, g.served, g.waiters[better], Self(g, call.item))
    ensures !Admits(cfg, g, call)
  {
    var w := Rolled(cfg, g, call.now);
    var r := Registered(w, call.item);
    assert better in r.waiters && r.waiters[better] == g.waiters[better];
    assert Self(w, call.item) == Self(g, call.item);
    assert !NobodyBetter(cfg, r, Self(w, call.item));
    hide Better, Take;
  }

  /**
   * There is no expiry: a waiter that never calls again shuts out, for ever and whatever is released,
   * every ordered call of lower priority.
   */
  lemma {:induction false} AbandonedBlocksForever(cfg: Config, g: Gate, calls: seq<Call>, gone: Id)
    requires Valid(g) && gone in g.waiters
    requires forall i | 0 <= i < |calls| && calls[i].Acquire? ::
               && calls[i].item.waiterId != Some(gone) && Ordered(cfg, calls[i].item)
               && PriorityOf(calls[i].item) < g.waiters[gone].priority
    ensures AdmissionLog(cfg, g, calls) == []
    decreases |calls|
  {
    hide Attempt;
    if calls != [] {
      var call := calls[0];
      DoKeepsValid(cfg, g, call);
      WaiterAfter(cfg, g, call, gone);
      if call.Acquire? {
        Blocked(cfg, g, call, gone);
      }
      assert forall i | 0 <= i < |calls[1..]| :: calls[1..][i] == calls[i + 1];
      AbandonedBlocksForever(cfg, Do(cfg, g, call), calls[1..], gone);
    }
  }

  /** One call takes the only slot, `gone` waits with priority 1, and the slot is freed. */
  function Abandoned(gone: Id): seq<Call> {
    [Acquire(0, BARE), Acquire(0, Item(Some(1), None, Some(gone))), Free]
  }

  lemma AbandonedState(cfg: Config, gone: Id)
    requires cfg.concurrency == Some(1) && cfg.rate.None?
    ensures var g := Run(cfg, IDLE, Abandoned(gone));
            Valid(g) && g.inFlight == 0 && gone in g.waiters && g.waiters[gone].priority == 1
    ensures AdmissionLog(cfg, IDLE, Abandoned(gone)) == [0]
  {
    var calls := Abandoned(gone);
    var g1 := Do(cfg, IDLE, calls[0]);
    var g2 := Do(cfg, g1, calls[1]);
    var g3 := Do(cfg, g2, calls[2]);
    assert g1.inFlight == 1 && g1.waiters == map[] && g2 == Registered(g1, calls[1].item);
    assert calls[1..] == [calls[1], Free] && [calls[1], Free][1..] == [Free];
    hide Attempt, Registered;
    assert Run(cfg, g2, [Free]) == g3 && AdmissionLog(cfg, g2, [Free]) == [];
    assert Run(cfg, g1, [calls[1], Free]) == g3 && AdmissionLog(cfg, g1, [calls[1], Free]) == [];
  }

  /** So a run from the start leaves a gate of one slot idle, and shut to all lower calls for ever. */
  lemma AbandonedStarvesIdleGate(cfg: Config, gone: Id, calls: seq<Call>)
    requires cfg.concurrency == Some(1) && cfg.rate.None?
    requires forall i | 0 <= i < |calls| && calls[i].Acquire? ::
               calls[i].item.waiterId != Some(gone) && Ordered(cfg, calls[i].item) && PriorityOf(calls[i].item) < 1
    ensures Run(cfg, IDLE, Abandoned(gone)).inFlight == 0
    ensures AdmissionLog(cfg, IDLE, Abandoned(gone) + calls) == [0]
  {
    AbandonedState(cfg, gone);
    hide Do, Admits, Valid;
    LogAppends(cfg, IDLE, Abandoned(gone), calls);
    AbandonedBlocksForever(cfg, Run(cfg, IDLE, Abandoned(gone)), calls, gone);
  }

  // --------------------------------------------------------------------- fairness

  predicate Serves(cfg: Config, g: Gate, call: Call, key: FairKey) {
    Admits(cfg, g, call) && call.item.key == Some(key)
  }

  /** No call of the run is admitted under `key`. */
  predicate KeyUnserved(cfg: Config, g: Gate, calls: seq<Call>, key: Option<FairKey>)
    decreases |calls|
  {
    calls != [] ==>
      && (key.Some? ==> !Serves(cfg, g, calls[0], key.value))
      && KeyUnserved(cfg, Do(cfg, g, calls[0]), calls[1..], key)
  }

  lemma ServedAfter(cfg: Config, g: Gate, call: Call, key: FairKey)
    requires Valid(g)
    ensures var g' := Do(cfg, g, call);
            if Serves(cfg, g, call, key) then ServedOf(g'.served, Some(key)) == g.servedTick + 1
            else ServedOf(g'.served, Some(key)) == ServedOf(g.served, Some(key))
  {
    hide NobodyBetter;
  }

  lemma {:induction false} ServedStaysAhead(cfg: Config, g: Gate, calls: seq<Call>, busy: FairKey,
                                            other: Option<FairKey>)
    requires Valid(g) && KeyUnserved(cfg, g, calls, other)
    requires ServedOf(g.served, other) < ServedOf(g.served, Some(busy))
    ensures var g' := Run(cfg, g, calls); ServedOf(g'.served, other) < ServedOf(g'.served, Some(busy))
    decreases |calls|
  {
    hide Do, Admits;
    if calls != [] {
      DoKeepsValid(cfg, g, calls[0]);
      ServedAfter(cfg, g, calls[0], busy);
      if other.Some? { ServedAfter(cfg, g, calls[0], other.value); }
      assert ServedOf(g.served, Some(busy)) <= g.servedTick;
      ServedStaysAhead(cfg, Do(cfg, g, calls[0]), calls[1..], busy, other);
    }
  }

  /**
   * Round robin: once `busy` is served, it is not served again, at no higher priority, while a waiter
   * of another key is registered and that key has not been served since, however the run went.
   */
  lemma KeyNotServedTwice(cfg: Config, g: Gate, serving: Call, between: seq<Call>, again: Call,
                          busy: FairKey, waiting: Id)
    requires Valid(g) && cfg.fair && Serves(cfg, g, serving, busy)
    requires var g' := Run(cfg, Do(cfg, g, serving), between);
             && waiting in g'.waiters && !Identified(again, waiting)
             && g'.waiters[waiting].key != Some(busy)
             && KeyUnserved(cfg, Do(cfg, g, serving), between, g'.waiters[waiting].key)
             && again.Acquire? && again.item.key == Some(busy)
             && PriorityOf(again.item) <= g'.waiters[waiting].priority
    ensures !Admits(cfg, Run(cfg, Do(cfg, g, serving), between), again)
  {
    hide Do, Admits;
    var g0 := Do(cfg, g, serving);
    var g' := Run(cfg, g0, between);
    var other := g'.waiters[waiting].key;
    DoKeepsValid(cfg, g, serving);
    RunKeepsValid(cfg, g0, between);
    ServedAfter(cfg, g, serving, busy);
    if other.Some? { ServedAfter(cfg, g, serving, other.value); }
    assert ServedOf(g.served, other) <= g.servedTick;
    ServedStaysAhead(cfg, g0, between, busy, other);
    Blocked(cfg, g', again, waiting);
  }
}

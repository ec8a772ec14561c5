/**
 * Fixed-interval schedules: a tick starts the run of the current time bucket and, with backfill, of up
 * to `maxCatchup` buckets before it, under run ids made of the schedule's key and the bucket.
 * Models packages/adonis/src/scheduler.ts.
 */
module Schedules {
  import opened Common

  /** `maxCatchup` is 0 without backfill; `skip` is `overlap: 'skip'`. */
  datatype Schedule = Schedule(key: string, everyMs: nat, maxCatchup: nat, paused: bool, skip: bool)

  predicate WellFormed(s: Schedule) {
    s.everyMs > 0
  }

  const PREFIX := "sched:"

  function RunId(key: string, bucket: nat): string {
    PREFIX + key + ":" + Digits(bucket)
  }

  /** Distinct pairs have distinct ids, whatever the keys contain. */
  lemma RunIdsDistinct(k1: string, b1: nat, k2: string, b2: nat)
    requires RunId(k1, b1) == RunId(k2, b2)
    ensures k1 == k2 && b1 == b2
  {
    var d1, d2 := Digits(b1), Digits(b2);
    var id := RunId(k1, b1);
    hide RunId, Digits;
    assert id == (PREFIX + k1 + ":") + d1 == (PREFIX + k2 + ":") + d2 by { SplitId(k1, b1); SplitId(k2, b2); }
    TailsAgree(PREFIX + k1 + ":", d1, PREFIX + k2 + ":", d2);
    DigitsInjective(b1, b2);
    assert k1 == (PREFIX + k1 + ":")[|PREFIX|..|PREFIX| + |k1|];
    assert k2 == (PREFIX + k2 + ":")[|PREFIX|..|PREFIX| + |k2|];
  }

  lemma SplitId(k: string, b: nat)
    ensures RunId(k, b) == (PREFIX + k + ":") + Digits(b)
  {
  }

  /** What follows the last colon, when it is digits, is determined by the whole. */
  lemma TailsAgree(p1: string, d1: string, p2: string, d2: string)
    requires p1 + d1 == p2 + d2 && p1 != [] && p2 != []
    requires p1[|p1| - 1] == ':' && p2[|p2| - 1] == ':'
    requires ':' !in d1 && ':' !in d2
    ensures p1 == p2 && d1 == d2
  {
    var whole := p1 + d1;
    assert whole[|p1| - 1] == ':' && whole[|p2| - 1] == ':';
    forall i | |p1| <= i < |whole| ensures whole[i] != ':' {
      assert whole[i] == d1[i - |p1|];
    }
    forall i | |p2| <= i < |whole| ensures whole[i] != ':' {
      assert whole[i] == d2[i - |p2|];
    }
    assert |p1| == |p2|;
    assert whole[..|p1|] == p1 && whole[..|p2|] == p2;
    assert whole[|p1|..] == d1 && whole[|p2|..] == d2;
  }

  // ----------------------------------------------------------------- one tick

  /** `Math.floor(x / d)` of a non-negative time. */
  function Quotient(x: nat, d: nat): nat
    requires d > 0
  {
    x / d
  }

  function Bucket(s: Schedule, now: nat): nat
    requires WellFormed(s)
  {
    Quotient(now, s.everyMs)
  }

  function Oldest(s: Schedule, now: nat): nat
    requires WellFormed(s)
  {
    if Bucket(s, now) >= s.maxCatchup then Bucket(s, now) - s.maxCatchup else 0
  }

  /** One started run. */
  datatype Start = Start(key: string, bucket: nat)

  /** The buckets from `lo` to `hi` that have no run yet, oldest first. */
  function Missing(log: seq<Start>, key: string, lo: nat, hi: int): seq<nat>
    decreases hi - lo
  {
    if hi < lo then []
    else Missing(log, key, lo, hi - 1) + if Start(key, hi) in log then [] else [hi]
  }

  function Starts(key: string, buckets: seq<nat>): seq<Start> {
    seq(|buckets|, i requires 0 <= i < |buckets| => Start(key, buckets[i]))
  }

  datatype Tick = Tick(now: nat, inflight: set<string>)

  /** A schedule fires unless it is paused or its previous window is still in flight and it skips. */
  predicate Fires(s: Schedule, tick: Tick)
    requires WellFormed(s)
  {
    && !s.paused
    && !(s.skip && Bucket(s, tick.now) >= 1 && RunId(s.key, Bucket(s, tick.now) - 1) in tick.inflight)
  }

  function FireOne(log: seq<Start>, s: Schedule, tick: Tick): seq<Start>
    requires WellFormed(s)
  {
    if Fires(s, tick)
    then log + Starts(s.key, Missing(log, s.key, Oldest(s, tick.now), Bucket(s, tick.now)))
    else log
  }

  function FireAll(log: seq<Start>, schedules: seq<Schedule>, tick: Tick): seq<Start>
    requires forall s | s in schedules :: WellFormed(s)
    decreases |schedules|
  {
    if schedules == [] then log
    else FireOne(FireAll(log, schedules[..|schedules| - 1], tick), schedules[|schedules| - 1], tick)
  }

  /** The run ids of the log are the runs the engine has. */
  predicate SameRuns(log: seq<Start>, runs: set<string>) {
    runs == set e | e in log :: RunId(e.key, e.bucket)
  }

  class Scheduler {
    var runs: set<string>
    ghost var log: seq<Start>

    ghost predicate Valid()
      reads this
    {
      SameRuns(log, runs)
    }

    constructor ()
      ensures Valid() && log == []
    {
      runs, log := {}, [];
    }

    method RunIdsAt(s: Schedule, now: nat) returns (ids: seq<string>)
      requires WellFormed(s)
      ensures |ids| == Bucket(s, now) - Oldest(s, now) + 1
      ensures forall i | 0 <= i < |ids| :: ids[i] == RunId(s.key, Oldest(s, now) + i)
    {
      var bucket := now / s.everyMs;
      var current := RunId(s.key, bucket);
      if s.maxCatchup == 0 { return [current]; }
      ids := [];
      var oldest := if bucket >= s.maxCatchup then bucket - s.maxCatchup else 0;
      var b := oldest;
      while b < bucket
        invariant oldest <= b <= bucket && |ids| == b - oldest
        invariant forall i | 0 <= i < |ids| :: ids[i] == RunId(s.key, oldest + i)
      {
        ids := ids + [RunId(s.key, b)];
        b := b + 1;
      }
      ids := ids + [current];
    }

    /** Starts a run unless one of this id exists. */
    method StartIfNew(s: Schedule, ghost bucket: nat, id: string)
      requires Valid() && id == RunId(s.key, bucket)
      modifies this
      ensures Valid()
      ensures log == old(log) + if Start(s.key, bucket) in old(log) then [] else [Start(s.key, bucket)]
    {
      KnownIff(log, runs, s.key, bucket);
      if id in runs { return; }
      runs := runs + {id};
      log := log + [Start(s.key, bucket)];
    }

    method FireSchedule(s: Schedule, tick: Tick)
      requires Valid() && WellFormed(s)
      modifies this
      ensures Valid() && log == FireOne(old(log), s, tick)
    {
      if s.paused { return; }
      if s.skip {
        var bucket := tick.now / s.everyMs;
        if bucket >= 1 && RunId(s.key, bucket - 1) in tick.inflight { return; }
      }
      var ids := RunIdsAt(s, tick.now);
      ghost var lo := Oldest(s, tick.now);
      var i := 0;
      while i < |ids|
        invariant 0 <= i <= |ids| && Valid()
        invariant log == old(log) + Starts(s.key, Missing(old(log), s.key, lo, lo + i - 1))
      {
        MissingIsLower(old(log), s.key, lo, lo + i - 1, lo + i);
        StartIfNew(s, lo + i, ids[i]);
        i := i + 1;
      }
    }

    method RunSchedules(schedules: seq<Schedule>, tick: Tick)
      requires Valid() && forall s | s in schedules :: WellFormed(s)
      modifies this
      ensures Valid() && log == FireAll(old(log), schedules, tick)
    {
      var i := 0;
      while i < |schedules|
        invariant 0 <= i <= |schedules| && Valid()
        invariant log == FireAll(old(log), schedules[..i], tick)
      {
        assert schedules[..i + 1][..i] == schedules[..i];
        FireSchedule(schedules[i], tick);
        i := i + 1;
      }
      assert schedules[..i] == schedules;
    }
  }

  lemma KnownIff(log: seq<Start>, runs: set<string>, key: string, bucket: nat)
    requires SameRuns(log, runs)
    ensures RunId(key, bucket) in runs <==> Start(key, bucket) in log
  {
    if RunId(key, bucket) in runs {
      var e :| e in log && RunId(e.key, e.bucket) == RunId(key, bucket);
      RunIdsDistinct(e.key, e.bucket, key, bucket);
    }
  }

  lemma {:induction false} MissingIsLower(log: seq<Start>, key: string, lo: nat, hi: int, next: nat)
    requires hi < next
    ensures forall b | b in Missing(log, key, lo, hi) :: lo <= b <= hi
    ensures Start(key, next) in log + Starts(key, Missing(log, key, lo, hi)) <==> Start(key, next) in log
    decreases hi - lo
  {
    if lo <= hi {
      MissingIsLower(log, key, lo, hi - 1, next);
    }
    assert forall e | e in Starts(key, Missing(log, key, lo, hi)) :: e.bucket in Missing(log, key, lo, hi);
  }

  lemma {:induction false} MissingAre(log: seq<Start>, key: string, lo: nat, hi: int, b: nat)
    ensures b in Missing(log, key, lo, hi) <==> lo <= b <= hi && Start(key, b) !in log
    decreases hi - lo
  {
    if lo <= hi {
      MissingAre(log, key, lo, hi - 1, b);
    }
  }

  lemma StartsHas(key: string, buckets: seq<nat>, e: Start)
    ensures e in Starts(key, buckets) <==> e.key == key && e.bucket in buckets
  {
    if e.key == key && e.bucket in buckets {
      var i :| 0 <= i < |buckets| && buckets[i] == e.bucket;
      assert Starts(key, buckets)[i] == e;
    }
  }

  lemma WindowIsQuotient(now: nat, d: nat, w: nat)
    requires d > 0 && w * d <= now < (w + 1) * d
    ensures Quotient(now, d) == w
  {
    var q := now / d;
    assert now == q * d + now % d && q * d <= now < (q + 1) * d;
    MulMonotone(q + 1, w, d);
    MulMonotone(w + 1, q, d);
  }

  lemma MulMonotone(a: nat, b: nat, d: nat)
    ensures a <= b ==> a * d <= b * d
  {
  }

  /**
   * In a tick during window `w`, [w * everyMs, (w + 1) * everyMs), a schedule starts the windows from
   * `w - maxCatchup` to `w` that have no run, unless it is paused, or skips because the run of window
   * `w - 1` is in flight; and it starts nothing else.
   */
  lemma TickStartsExactly(log: seq<Start>, s: Schedule, tick: Tick, w: nat, e: Start)
    requires WellFormed(s) && w * s.everyMs <= tick.now < (w + 1) * s.everyMs
    ensures e in FireOne(log, s, tick)
            <==> e in log
                 || (e.key == s.key && w - s.maxCatchup <= e.bucket <= w && !s.paused
                     && !(s.skip && w >= 1 && "sched:" + s.key + ":" + Digits(w - 1) in tick.inflight))
  {
    WindowIsQuotient(tick.now, s.everyMs, w);
    hide Digits, Quotient;
    var lo := Oldest(s, tick.now);
    MissingAre(log, s.key, lo, w, e.bucket);
    StartsHas(s.key, Missing(log, s.key, lo, w), e);
    assert w >= 1 ==> RunId(s.key, w - 1) == "sched:" + s.key + ":" + Digits(w - 1);
    hide Missing, Starts, RunId;
  }

  // ------------------------------------------------------------------- runs of ticks

  /** The buckets started under one key, in order. */
  function Mine(log: seq<Start>, key: string): seq<nat> {
    if log == [] then []
    else Mine(log[..|log| - 1], key) + if log[|log| - 1].key == key then [log[|log| - 1].bucket] else []
  }

  lemma {:induction false} MineHas(log: seq<Start>, key: string, b: nat)
    ensures b in Mine(log, key) <==> Start(key, b) in log
  {
    if log != [] {
      MineHas(log[..|log| - 1], key, b);
      assert log == log[..|log| - 1] + [log[|log| - 1]];
    }
  }

  lemma {:induction false} MineAppends(a: seq<Start>, b: seq<Start>, key: string)
    ensures Mine(a + b, key) == Mine(a, key) + Mine(b, key)
    decreases |b|
  {
    if b == [] {
      assert a + b == a;
    } else {
      assert (a + b)[..|a + b| - 1] == a + b[..|b| - 1];
      MineAppends(a, b[..|b| - 1], key);
    }
  }

  lemma {:induction false} MineOfStarts(key: string, buckets: seq<nat>, other: string)
    ensures Mine(Starts(key, buckets), other) == if key == other then buckets else []
    decreases |buckets|
  {
    if buckets != [] {
      var n := |buckets| - 1;
      assert Starts(key, buckets)[..n] == Starts(key, buckets[..n]);
      MineOfStarts(key, buckets[..n], other);
      assert buckets == buckets[..n] + [buckets[n]];
    }
  }

  /** The integers from `lo` to `hi`. */
  function Range(lo: nat, hi: int): seq<nat>
    decreases hi - lo
  {
    if hi < lo then [] else Range(lo, hi - 1) + [hi]
  }

  lemma {:induction false} RangeIs(lo: nat, hi: int)
    ensures |Range(lo, hi)| == if hi < lo then 0 else hi - lo + 1
    ensures forall i | 0 <= i < |Range(lo, hi)| :: Range(lo, hi)[i] == lo + i
    decreases hi - lo
  {
    if lo <= hi {
      RangeIs(lo, hi - 1);
    }
  }

  /** What is missing above a bucket, when all at and below it are there and none above it. */
  lemma {:induction false} MissingIsRange(log: seq<Start>, key: string, lo: nat, hi: int, from: nat)
    requires lo <= from
    requires forall b: nat | lo <= b <= hi :: Start(key, b) in log <==> b < from
    ensures Missing(log, key, lo, hi) == Range(from, hi)
    decreases hi - lo
  {
    if lo <= hi {
      MissingIsRange(log, key, lo, hi - 1, from);
      assert Start(key, hi) in log <==> hi < from;
    }
  }

  /** `last` is the bucket of the last tick at which the schedule fired. */
  ghost predicate Caught(log: seq<Start>, s: Schedule, last: Option<nat>)
  {
    if last.None? then forall b: nat :: Start(s.key, b) !in log
    else
      && (forall b: nat | Start(s.key, b) in log :: b <= last.value)
      && (forall b: nat | last.value - s.maxCatchup <= b <= last.value :: Start(s.key, b) in log)
  }

  predicate Ascending(buckets: seq<nat>) {
    forall i, j | 0 <= i < j < |buckets| :: buckets[i] < buckets[j]
  }

  predicate GapFree(buckets: seq<nat>) {
    forall i | 0 < i < |buckets| :: buckets[i] == buckets[i - 1] + 1
  }

  /** The first bucket a firing tick starts, given the last one fired before it. */
  function FirstNew(s: Schedule, now: nat, last: Option<nat>): nat
    requires WellFormed(s)
  {
    if last.Some? && last.value + 1 > Oldest(s, now) then last.value + 1 else Oldest(s, now)
  }

  lemma FiringStarts(log: seq<Start>, s: Schedule, tick: Tick, last: Option<nat>)
    requires WellFormed(s) && Caught(log, s, last) && Fires(s, tick)
    requires last.Some? ==> last.value <= Bucket(s, tick.now)
    ensures Mine(FireOne(log, s, tick), s.key)
            == Mine(log, s.key) + Range(FirstNew(s, tick.now, last), Bucket(s, tick.now))
    ensures Caught(FireOne(log, s, tick), s, Some(Bucket(s, tick.now)))
  {
    hide RunId, Mine, Caught, Bucket, Oldest, FirstNew;
    FiringAdds(log, s, tick, last);
    var lo, hi, from := Oldest(s, tick.now), Bucket(s, tick.now), FirstNew(s, tick.now, last);
    MineAppends(log, Starts(s.key, Range(from, hi)), s.key);
    MineOfStarts(s.key, Range(from, hi), s.key);
    FiringCatchesUp(log, s, tick.now, last);
  }

  lemma FiringAdds(log: seq<Start>, s: Schedule, tick: Tick, last: Option<nat>)
    requires WellFormed(s) && Caught(log, s, last) && Fires(s, tick)
    requires last.Some? ==> last.value <= Bucket(s, tick.now)
    ensures FireOne(log, s, tick)
            == log + Starts(s.key, Range(FirstNew(s, tick.now, last), Bucket(s, tick.now)))
  {
    hide Quotient, RunId;
    var lo, hi, from := Oldest(s, tick.now), Bucket(s, tick.now), FirstNew(s, tick.now, last);
    forall b: nat | lo <= b <= hi ensures Start(s.key, b) in log <==> b < from {
    }
    MissingIsRange(log, s.key, lo, hi, from);
  }

  lemma FiringCatchesUp(log: seq<Start>, s: Schedule, now: nat, last: Option<nat>)
    requires WellFormed(s) && Caught(log, s, last)
    requires last.Some? ==> last.value <= Bucket(s, now)
    ensures Caught(log + Starts(s.key, Range(FirstNew(s, now, last), Bucket(s, now))), s, Some(Bucket(s, now)))
  {
    hide Quotient;
    var hi, from := Bucket(s, now), FirstNew(s, now, last);
    var added := Starts(s.key, Range(from, hi));
    RangeIs(from, hi);
    assert forall e | e in added :: e.key == s.key && e.bucket <= hi;
    forall b: nat | hi - s.maxCatchup <= b <= hi ensures Start(s.key, b) in log + added {
      if b >= from {
        assert added[b - from] == Start(s.key, b);
      }
    }
  }

  lemma OtherKeysUntouched(log: seq<Start>, s: Schedule, tick: Tick, other: Schedule, last: Option<nat>)
    requires WellFormed(s) && s.key != other.key
    ensures Mine(FireOne(log, s, tick), other.key) == Mine(log, other.key)
    ensures Caught(log, other, last) ==> Caught(FireOne(log, s, tick), other, last)
  {
    if Fires(s, tick) {
      var added := Starts(s.key, Missing(log, s.key, Oldest(s, tick.now), Bucket(s, tick.now)));
      MineAppends(log, added, other.key);
      MineOfStarts(s.key, Missing(log, s.key, Oldest(s, tick.now), Bucket(s, tick.now)), other.key);
      assert forall e | e in added :: e.key == s.key;
      assert forall b: nat :: Start(other.key, b) in log + added <==> Start(other.key, b) in log;
    }
  }

  predicate DistinctKeys(schedules: seq<Schedule>) {
    forall i, j | 0 <= i < j < |schedules| :: schedules[i].key != schedules[j].key
  }

  /** A whole tick does to the buckets of a key what its own schedule does, alone. */
  lemma {:induction false} TickOfMine(log: seq<Start>, schedules: seq<Schedule>, tick: Tick, at: nat, last: Option<nat>)
    requires (forall s | s in schedules :: WellFormed(s)) && DistinctKeys(schedules)
    requires at < |schedules| && Caught(log, schedules[at], last)
    requires last.Some? ==> last.value <= Bucket(schedules[at], tick.now)
    ensures var s, log' := schedules[at], FireAll(log, schedules, tick);
            if Fires(s, tick)
            then && Mine(log', s.key) == Mine(log, s.key) + Range(FirstNew(s, tick.now, last), Bucket(s, tick.now))
                 && Caught(log', s, Some(Bucket(s, tick.now)))
            else Mine(log', s.key) == Mine(log, s.key) && Caught(log', s, last)
    decreases |schedules|
  {
    var n := |schedules| - 1;
    var init, mid := schedules[..n], FireAll(log, schedules[..n], tick);
    hide Caught;
    if at == n {
      NotAmong(log, init, tick, schedules[n], last);
      if Fires(schedules[n], tick) { FiringStarts(mid, schedules[n], tick, last); }
    } else {
      TickOfMine(log, init, tick, at, last);
      OtherKeysUntouched(mid, schedules[n], tick, schedules[at], last);
      OtherKeysUntouched(mid, schedules[n], tick, schedules[at], Some(Bucket(schedules[at], tick.now)));
    }
  }

  lemma {:induction false} NotAmong(log: seq<Start>, schedules: seq<Schedule>, tick: Tick, other: Schedule,
                                    last: Option<nat>)
    requires forall s | s in schedules :: WellFormed(s) && s.key != other.key
    requires Caught(log, other, last)
    ensures Mine(FireAll(log, schedules, tick), other.key) == Mine(log, other.key)
    ensures Caught(FireAll(log, schedules, tick), other, last)
    decreases |schedules|
  {
    if schedules != [] {
      var n := |schedules| - 1;
      NotAmong(log, schedules[..n], tick, other, last);
      OtherKeysUntouched(FireAll(log, schedules[..n], tick), schedules[n], tick, other, last);
    }
  }

  function Ticked(log: seq<Start>, schedules: seq<Schedule>, ticks: seq<Tick>): seq<Start>
    requires forall s | s in schedules :: WellFormed(s)
    decreases |ticks|
  {
    if ticks == [] then log else Ticked(FireAll(log, schedules, ticks[0]), schedules, ticks[1..])
  }

  predicate Nondecreasing(ticks: seq<Tick>) {
    forall i, j | 0 <= i < j < |ticks| :: ticks[i].now <= ticks[j].now
  }

  /** At every tick at which the schedule fires, it reaches back to the last one before it. */
  predicate ReachesBack(s: Schedule, last: Option<nat>, ticks: seq<Tick>)
    requires WellFormed(s)
    decreases |ticks|
  {
    ticks != [] ==>
      if Fires(s, ticks[0])
      then && (last.Some? ==> Bucket(s, ticks[0].now) <= last.value + s.maxCatchup + 1)
           && ReachesBack(s, Some(Bucket(s, ticks[0].now)), ticks[1..])
      else ReachesBack(s, last, ticks[1..])
  }

  /** The last bucket started is the last one fired. */
  predicate EndsAt(buckets: seq<nat>, last: Option<nat>) {
    if last.None? then buckets == [] else buckets != [] && buckets[|buckets| - 1] == last.value
  }

  /** `all` is `buckets` followed by the integers from `lo` to `hi`. */
  predicate Joined(all: seq<nat>, buckets: seq<nat>, lo: nat, hi: nat) {
    && |all| == |buckets| + (if lo <= hi then hi - lo + 1 else 0)
    && (forall i | 0 <= i < |buckets| :: all[i] == buckets[i])
    && (forall i | |buckets| <= i < |all| :: all[i] == lo + (i - |buckets|))
  }

  lemma RangeIsJoined(buckets: seq<nat>, lo: nat, hi: nat)
    ensures Joined(buckets + Range(lo, hi), buckets, lo, hi)
  {
    RangeIs(lo, hi);
    hide Range;
  }

  lemma JoinedAscends(all: seq<nat>, buckets: seq<nat>, lo: nat, hi: nat, last: Option<nat>)
    requires Joined(all, buckets, lo, hi) && Ascending(buckets) && EndsAt(buckets, last)
    requires last.Some? ==> last.value < lo
    ensures Ascending(all)
    ensures lo <= hi ==> EndsAt(all, Some(hi))
    ensures lo > hi ==> all == buckets
  {
    forall i, j | 0 <= i < j < |all| ensures all[i] < all[j] {
      if i < |buckets| <= j {
        assert all[i] <= buckets[|buckets| - 1];
      }
    }
  }

  lemma JoinedGaps(all: seq<nat>, buckets: seq<nat>, lo: nat, hi: nat, last: Option<nat>)
    requires Joined(all, buckets, lo, hi) && EndsAt(buckets, last) && lo <= hi
    ensures GapFree(all) <==> GapFree(buckets) && (last.Some? ==> lo == last.value + 1)
  {
    if GapFree(all) {
      forall i | 0 < i < |buckets| ensures buckets[i] == buckets[i - 1] + 1 {
        assert all[i] == all[i - 1] + 1;
      }
      if last.Some? {
        assert all[|buckets|] == all[|buckets| - 1] + 1;
      }
    } else {
      var i :| 0 < i < |all| && all[i] != all[i - 1] + 1;
      if i < |buckets| {
        assert buckets[i] != buckets[i - 1] + 1;
      }
    }
  }

  lemma RangeJoins(buckets: seq<nat>, lo: nat, hi: nat, last: Option<nat>)
    requires Ascending(buckets) && EndsAt(buckets, last) && (last.Some? ==> last.value < lo)
    ensures var all := buckets + Range(lo, hi);
            && Ascending(all)
            && (if lo <= hi then
                  && EndsAt(all, Some(hi))
                  && (GapFree(all) <==> GapFree(buckets) && (last.Some? ==> lo == last.value + 1))
                else all == buckets)
  {
    hide Range, Ascending, GapFree, EndsAt, Joined;
    var all := buckets + Range(lo, hi);
    RangeIsJoined(buckets, lo, hi);
    JoinedAscends(all, buckets, lo, hi, last);
    if lo <= hi {
      JoinedGaps(all, buckets, lo, hi, last);
    }
  }

  lemma {:induction false} TicksKeepOrder(log: seq<Start>, schedules: seq<Schedule>, ticks: seq<Tick>, at: nat,
                                          last: Option<nat>)
    requires (forall s | s in schedules :: WellFormed(s)) && DistinctKeys(schedules) && Nondecreasing(ticks)
    requires at < |schedules| && Caught(log, schedules[at], last)
    requires Ascending(Mine(log, schedules[at].key)) && EndsAt(Mine(log, schedules[at].key), last)
    requires last.Some? ==> forall i | 0 <= i < |ticks| :: last.value <= Bucket(schedules[at], ticks[i].now)
    ensures Ascending(Mine(Ticked(log, schedules, ticks), schedules[at].key))
    ensures GapFree(Mine(Ticked(log, schedules, ticks), schedules[at].key))
            <==> GapFree(Mine(log, schedules[at].key)) && ReachesBack(schedules[at], last, ticks)
    decreases |ticks|
  {
    if ticks != [] {
      var s, tick := schedules[at], ticks[0];
      var log' := FireAll(log, schedules, tick);
      var hi := Bucket(s, tick.now);
      assert forall i | 0 <= i < |ticks[1..]| :: ticks[1..][i] == ticks[i + 1];
      TickOfMine(log, schedules, tick, at, last);
      hide Caught, FireAll, Mine, Ascending, GapFree, Quotient;
      if Fires(s, tick) {
        var lo := FirstNew(s, tick.now, last);
        RangeJoins(Mine(log, s.key), lo, hi, last);
        forall i | 0 <= i < |ticks[1..]| ensures hi <= Bucket(s, ticks[1..][i].now) {
          QuotientGrows(tick.now, ticks[i + 1].now, s.everyMs);
        }
        RangeIs(lo, hi);
        TicksKeepOrder(log', schedules, ticks[1..], at, Some(hi));
      } else {
        TicksKeepOrder(log', schedules, ticks[1..], at, last);
      }
    }
  }

  lemma QuotientIs(x: nat, d: nat)
    requires d > 0
    ensures Quotient(x, d) * d <= x < (Quotient(x, d) + 1) * d
  {
    assert x == d * (x / d) + x % d;
  }

  lemma MulGrows(a: nat, b: nat, d: nat)
    requires b <= a
    ensures b * d <= a * d
  {
    assert a * d == b * d + (a - b) * d;
  }

  lemma QuotientAtMost(x: nat, d: nat, q: nat)
    requires d > 0 && x < (q + 1) * d
    ensures Quotient(x, d) <= q
  {
    hide Quotient;
    QuotientIs(x, d);
    if Quotient(x, d) > q {
      MulGrows(Quotient(x, d), q + 1, d);
    }
  }

  lemma QuotientGrows(a: nat, b: nat, d: nat)
    requires a <= b && d > 0
    ensures Quotient(a, d) <= Quotient(b, d)
  {
    hide Quotient;
    QuotientIs(b, d);
    QuotientAtMost(a, d, Quotient(b, d));
  }

  /**
   * Over any nondecreasing ticks and whatever is in flight, each bucket of each key is started at most
   * once and in ascending order, and the started buckets have no gap exactly when every firing tick is
   * within `maxCatchup + 1` buckets of the one before it.
   */
  lemma BucketsOnceInOrder(schedules: seq<Schedule>, ticks: seq<Tick>, at: nat)
    requires (forall s | s in schedules :: WellFormed(s)) && DistinctKeys(schedules) && Nondecreasing(ticks)
    requires at < |schedules|
    ensures var mine := Mine(Ticked([], schedules, ticks), schedules[at].key);
            Ascending(mine) && (GapFree(mine) <==> ReachesBack(schedules[at], None, ticks))
  {
    TicksKeepOrder([], schedules, ticks, at, None);
  }

  /** Ticks at most (maxCatchup + 1) * everyMs apart reach back, if nothing is paused or skipped. */
  lemma {:induction false} CloseTicksReachBack(s: Schedule, last: Option<nat>, ticks: seq<Tick>)
    requires WellFormed(s) && !s.paused && !s.skip && Nondecreasing(ticks)
    requires forall i | 0 < i < |ticks| :: ticks[i].now <= ticks[i - 1].now + (s.maxCatchup + 1) * s.everyMs
    requires last.Some? && ticks != [] ==> Bucket(s, ticks[0].now) <= last.value + s.maxCatchup + 1
    ensures ReachesBack(s, last, ticks)
    decreases |ticks|
  {
    if ticks != [] {
      var rest := ticks[1..];
      assert forall i | 0 <= i < |rest| :: rest[i] == ticks[i + 1];
      if rest != [] {
        WithinBuckets(ticks[0].now, ticks[1].now, s.everyMs, s.maxCatchup + 1);
      }
      CloseTicksReachBack(s, Some(Bucket(s, ticks[0].now)), rest);
    }
  }

  lemma WithinBuckets(a: nat, b: nat, d: nat, n: nat)
    requires d > 0 && b <= a + n * d
    ensures Quotient(b, d) <= Quotient(a, d) + n
  {
    hide Quotient;
    QuotientIs(a, d);
    Distributes(Quotient(a, d) + 1, n, d);
    QuotientAtMost(b, d, Quotient(a, d) + n);
  }

  lemma Distributes(a: nat, b: nat, d: nat)
    ensures a * d + b * d == (a + b) * d
  {
  }
}

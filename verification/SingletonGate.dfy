/**
 * Per-key serialization of singleton workflows: a run may go on when it is among the `limit` oldest in
 * flight under its key, it is checked again on every resume, and a run that settles wakes the oldest
 * suspended ones.
 * Models packages/adonis/src/singleton-gate.ts.
 */
module SingletonGate {
  import opened Common

  datatype Run = Run(id: nat, createdAt: int)

  predicate Older(a: Run, b: Run) {
    a.createdAt < b.createdAt || (a.createdAt == b.createdAt && a.id < b.id)
  }

  predicate Sorted(s: seq<Run>) {
    forall i, j | 0 <= i < j < |s| :: Older(s[i], s[j])
  }

  predicate DistinctIds(s: seq<Run>) {
    forall i, j | 0 <= i < j < |s| :: s[i].id != s[j].id
  }

  /** How many of the listed runs are older than `r`; independent of the listing's order. */
  function Rank(r: Run, listing: seq<Run>): nat {
    if listing == [] then 0
    else Rank(r, listing[..|listing| - 1]) + if Older(listing[|listing| - 1], r) then 1 else 0
  }

  lemma {:induction false} RankAppend(r: Run, a: seq<Run>, b: seq<Run>)
    ensures Rank(r, a + b) == Rank(r, a) + Rank(r, b)
    decreases |b|
  {
    if b == [] {
      assert a + b == a;
    } else {
      assert (a + b)[..|a + b| - 1] == a + b[..|b| - 1];
      RankAppend(r, a, b[..|b| - 1]);
    }
  }

  lemma RankOne(r: Run, x: Run)
    ensures Rank(r, [x]) == if Older(x, r) then 1 else 0
  {
    assert [x][..0] == [];
  }

  lemma {:induction false} RankBound(r: Run, s: seq<Run>)
    ensures Rank(r, s) <= |s|
    ensures (forall i | 0 <= i < |s| :: Older(s[i], r)) ==> Rank(r, s) == |s|
    ensures (forall i | 0 <= i < |s| :: !Older(s[i], r)) ==> Rank(r, s) == 0
    decreases |s|
  {
    if s != [] {
      RankBound(r, s[..|s| - 1]);
    }
  }

  /** The listed runs created before `r`, by the smaller id if in the same millisecond. */
  function CreatedBefore(r: Run, listing: seq<Run>): set<Run> {
    set x | x in listing && (x.createdAt < r.createdAt || (x.createdAt == r.createdAt && x.id < r.id))
  }

  /** A run's rank is how many listed runs were created before it. */
  lemma {:induction false} RankCounts(r: Run, listing: seq<Run>)
    requires DistinctIds(listing)
    ensures Rank(r, listing) == |CreatedBefore(r, listing)|
    decreases |listing|
  {
    if listing == [] {
      assert CreatedBefore(r, listing) == {};
    } else {
      var init, last := listing[..|listing| - 1], listing[|listing| - 1];
      DistinctInit(listing);
      RankCounts(r, init);
      assert forall x :: x in listing <==> x in init || x == last by { assert listing == init + [last]; }
      assert last !in init;
      assert CreatedBefore(r, listing) == CreatedBefore(r, init) + if Older(last, r) then {last} else {};
    }
  }

  /** In a listing sorted by (createdAt, id) a run's rank is its index. */
  lemma RankIsIndex(s: seq<Run>, i: nat)
    requires Sorted(s) && i < |s|
    ensures Rank(s[i], s) == i
  {
    var r, a, b := s[i], s[..i], s[i..];
    assert s == a + b;
    forall j | 0 <= j < |a| ensures Older(a[j], r) {
      assert a[j] == s[j];
    }
    forall j | 0 <= j < |b| ensures !Older(b[j], r) {
      assert b[j] == s[i + j];
    }
    hide *;
    RankAppend(r, a, b);
    RankBound(r, a);
    RankBound(r, b);
  }

  function Insert(r: Run, s: seq<Run>): seq<Run> {
    if s == [] then [r]
    else if Older(s[|s| - 1], r) then s + [r]
    else Insert(r, s[..|s| - 1]) + [s[|s| - 1]]
  }

  /** The listing sorted by (createdAt, id). */
  function SortRuns(listing: seq<Run>): seq<Run> {
    if listing == [] then [] else Insert(listing[|listing| - 1], SortRuns(listing[..|listing| - 1]))
  }

  lemma {:induction false} InsertSorts(r: Run, s: seq<Run>)
    requires Sorted(s) && forall x | x in s :: x.id != r.id
    ensures Sorted(Insert(r, s)) && |Insert(r, s)| == |s| + 1
    ensures forall x :: x in Insert(r, s) <==> x == r || x in s
  {
    if s != [] && !Older(s[|s| - 1], r) {
      var init, last := s[..|s| - 1], s[|s| - 1];
      InsertSorts(r, init);
      forall x | x in init ensures Older(x, last) {
        var i :| 0 <= i < |init| && init[i] == x;
        assert s[i] == x;
      }
      assert s == init + [last];
      assert Insert(r, s) == Insert(r, init) + [last];
      assert Older(r, last) by {
        assert last in s && last.id != r.id;
      }
      hide Older, Insert;
      LastSorts(Insert(r, init), last);
    }
  }

  lemma LastSorts(s: seq<Run>, last: Run)
    requires Sorted(s) && forall x | x in s :: Older(x, last)
    ensures Sorted(s + [last])
  {
    hide Older;
  }

  lemma {:induction false} InsertRanks(q: Run, r: Run, s: seq<Run>)
    ensures Rank(q, Insert(r, s)) == Rank(q, s) + if Older(r, q) then 1 else 0
  {
    if s == [] {
      RankOne(q, r);
    } else if Older(s[|s| - 1], r) {
      RankAppend(q, s, [r]);
      RankOne(q, r);
    } else {
      var init, last := s[..|s| - 1], s[|s| - 1];
      InsertRanks(q, r, init);
      RankAppend(q, Insert(r, init), [last]);
      RankOne(q, last);
    }
  }

  /** Sorting keeps the runs and the rank of every run. */
  lemma {:induction false} SortKeepsRanks(listing: seq<Run>, q: Run)
    requires DistinctIds(listing)
    ensures var sorted := SortRuns(listing);
            Sorted(sorted) && |sorted| == |listing| && Rank(q, sorted) == Rank(q, listing)
    ensures forall x :: x in SortRuns(listing) <==> x in listing
  {
    hide Insert, Sorted, Older, DistinctIds;
    if listing == [] {
      NothingSorted();
    } else {
      var init, last := listing[..|listing| - 1], listing[|listing| - 1];
      DistinctInit(listing);
      SortKeepsRanks(init, q);
      InsertSorts(last, SortRuns(init));
      InsertRanks(q, last, SortRuns(init));
      assert forall x :: x in listing <==> x in init || x == last by { assert listing == init + [last]; }
    }
  }

  lemma NothingSorted()
    ensures Sorted([])
  {
  }

  lemma DistinctInit(listing: seq<Run>)
    requires DistinctIds(listing) && listing != []
    ensures var init, last := listing[..|listing| - 1], listing[|listing| - 1];
            DistinctIds(init) && forall x | x in init :: x.id != last.id
  {
    var init := listing[..|listing| - 1];
    forall x | x in init ensures x.id != listing[|listing| - 1].id {
      var i :| 0 <= i < |init| && init[i] == x;
      assert listing[i] == x;
    }
  }

  // ------------------------------------------------------------------------- the gate

  /** The scan stops at the run, whose index is its rank, or runs off a listing without it. */
  lemma FoundAtRank(listing: seq<Run>, inflight: seq<Run>, run: Run, idx: nat)
    requires Sorted(inflight) && (forall x :: x in inflight <==> x in listing)
    requires Rank(run, inflight) == Rank(run, listing)
    requires forall x | x in listing && x.id == run.id :: x == run
    requires idx <= |inflight| && forall i | 0 <= i < idx :: inflight[i].id != run.id
    requires idx < |inflight| ==> inflight[idx].id == run.id
    ensures run in listing <==> idx < |inflight|
    ensures run in listing ==> Rank(run, listing) == idx
  {
    if idx < |inflight| {
      assert inflight[idx] in listing;
      RankIsIndex(inflight, idx);
    } else {
      assert run !in inflight;
    }
  }

  /** Admission needs no particular row order: it is having fewer than `limit` runs in flight created before. */
  method Admit(listing: seq<Run>, run: Run, limit: int) returns (ok: bool)
    requires DistinctIds(listing)
    requires forall x | x in listing && x.id == run.id :: x == run
    ensures ok <==> run in listing && |CreatedBefore(run, listing)| < limit
  {
    hide *;
    var inflight := SortRuns(listing);
    SortKeepsRanks(listing, run);
    var idx := 0;
    while idx < |inflight| && inflight[idx].id != run.id
      invariant 0 <= idx <= |inflight|
      invariant forall i | 0 <= i < idx :: inflight[i].id != run.id
    {
      idx := idx + 1;
    }
    FoundAtRank(listing, inflight, run, idx);
    RankCounts(run, listing);
    ok := idx < |inflight| && idx < limit;
  }

  /** The id is that of the listed run with exactly `n` created before it. */
  ghost predicate NthCreated(listing: seq<Run>, n: nat, id: nat) {
    exists r :: r in listing && r.id == id && |CreatedBefore(r, listing)| == n
  }

  /** The ids woken when a run settles: the first `limit` suspended runs, oldest first. */
  method WakeNext(suspended: seq<Run>, limit: nat) returns (woken: seq<nat>)
    requires DistinctIds(suspended)
    ensures forall r | r in suspended :: r.id in woken <==> |CreatedBefore(r, suspended)| < limit
    ensures forall i | 0 <= i < |woken| :: NthCreated(suspended, i, woken[i])
  {
    hide CreatedBefore, Rank, SortRuns, Older, Sorted, DistinctIds;
    var gated := SortRuns(suspended);
    if suspended == [] { SortKeepsRanks(suspended, Run(0, 0)); } else { SortKeepsRanks(suspended, suspended[0]); }
    woken := [];
    var i := 0;
    while i < |gated| && i < limit
      invariant 0 <= i <= |gated| && (i <= limit || i == 0)
      invariant |woken| == i && forall j | 0 <= j < i :: woken[j] == gated[j].id
    {
      woken := woken + [gated[i].id];
      i := i + 1;
    }
    forall r | r in suspended
      ensures r.id in woken <==> |CreatedBefore(r, suspended)| < limit
    {
      SortKeepsRanks(suspended, r);
      var k :| 0 <= k < |gated| && gated[k] == r;
      RankIsIndex(gated, k);
      RankCounts(r, suspended);
      WokenIff(suspended, gated, woken, i, k, limit);
    }
    forall k | 0 <= k < |woken|
      ensures NthCreated(suspended, k, woken[k])
    {
      SortKeepsRanks(suspended, gated[k]);
      RankIsIndex(gated, k);
      RankCounts(gated[k], suspended);
      assert gated[k] in suspended && gated[k].id == woken[k];
    }
  }

  lemma WokenIff(suspended: seq<Run>, gated: seq<Run>, woken: seq<nat>, i: nat, k: nat, limit: int)
    requires DistinctIds(suspended) && (forall x | x in gated :: x in suspended)
    requires Sorted(gated) && k < |gated| && i <= |gated| && |woken| == i
    requires forall j | 0 <= j < i :: woken[j] == gated[j].id
    requires i == |gated| || i >= limit
    requires i <= limit || i == 0
    ensures gated[k].id in woken <==> k < limit
  {
    if k < limit {
      assert woken[k] == gated[k].id;
    } else {
      forall j | 0 <= j < i ensures woken[j] != gated[k].id {
        assert Older(gated[j], gated[k]);
        IdsTellApart(suspended, gated[j], gated[k]);
      }
    }
  }

  lemma IdsTellApart(s: seq<Run>, x: Run, y: Run)
    requires DistinctIds(s) && x in s && y in s && x != y
    ensures x.id != y.id
  {
    var a :| 0 <= a < |s| && s[a] == x;
    var b :| 0 <= b < |s| && s[b] == y;
    assert a != b;
  }

  // --------------------------------------------------------------------------- runs

  /** `flight` holds the running and suspended runs of one key in the order they entered. */
  datatype State = State(flight: seq<Run>, admitted: set<nat>, suspended: set<nat>)

  const IDLE := State([], {}, {})

  datatype Event = Enter(run: Run) | Check(at: nat) | Suspend(at: nat) | Finish(at: nat)

  function Ids(s: seq<Run>): set<nat> {
    set i | 0 <= i < |s| :: s[i].id
  }

  predicate Enabled(s: State, e: Event) {
    match e
    case Enter(run) => run.id !in Ids(s.flight)
    case Check(at) => at < |s.flight|
    case Suspend(at) => at < |s.flight| && s.flight[at].id in s.admitted
    case Finish(at) => at < |s.flight|
  }

  /** Whether the gate lets the run at `at` go on. */
  predicate Passes(s: State, at: nat, limit: int)
    requires at < |s.flight|
  {
    Rank(s.flight[at], s.flight) < limit
  }

  function Next(s: State, e: Event, limit: int): State
    requires Enabled(s, e)
  {
    match e
    case Enter(run) => s.(flight := s.flight + [run])
    case Check(at) =>
      var id := s.flight[at].id;
      if Passes(s, at, limit) then s.(admitted := s.admitted + {id}, suspended := s.suspended - {id})
      else s.(suspended := s.suspended + {id})
    case Suspend(at) => s.(suspended := s.suspended + {s.flight[at].id})
    case Finish(at) =>
      State(s.flight[..at] + s.flight[at + 1..], s.admitted - {s.flight[at].id}, s.suspended - {s.flight[at].id})
  }

  /** Runs enter flight in (createdAt, id) order. */
  predicate InOrder(s: State, e: Event) {
    e.Enter? ==> forall i | 0 <= i < |s.flight| :: Older(s.flight[i], e.run)
  }

  ghost predicate Runs(s: State, events: seq<Event>, limit: int)
    decreases |events|
  {
    events != [] ==>
      Enabled(s, events[0]) && InOrder(s, events[0]) && Runs(Next(s, events[0], limit), events[1..], limit)
  }

  ghost function End(s: State, events: seq<Event>, limit: int): State
    requires Runs(s, events, limit)
    decreases |events|
  {
    if events == [] then s else End(Next(s, events[0], limit), events[1..], limit)
  }

  /** Those admitted are among the `limit` oldest in flight. */
  ghost predicate Inv(s: State, limit: int) {
    && Sorted(s.flight) && DistinctIds(s.flight)
    && (forall id | id in s.admitted + s.suspended :: id in Ids(s.flight))
    && (forall i | 0 <= i < |s.flight| && s.flight[i].id in s.admitted :: i < limit)
  }

  lemma StepKeepsInv(s: State, e: Event, limit: int)
    requires Inv(s, limit) && Enabled(s, e) && InOrder(s, e)
    ensures Inv(Next(s, e, limit), limit)
  {
    hide Rank, Ids;
    match e {
      case Enter(run) => EnterIds(s.flight, run);
      case Check(at) => RankIsIndex(s.flight, at);
      case Suspend(at) =>
      case Finish(at) => FinishIds(s.flight, at);
    }
    var s' := Next(s, e, limit);
    forall i | 0 <= i < |s.flight| ensures s.flight[i].id in Ids(s.flight) {
      IdListed(s.flight, i);
    }
    if e.Enter? {
      assert s'.flight[..|s.flight|] == s.flight;
    }
  }

  lemma IdListed(flight: seq<Run>, i: nat)
    requires i < |flight|
    ensures flight[i].id in Ids(flight)
  {
  }

  lemma EnterIds(flight: seq<Run>, run: Run)
    ensures Ids(flight) <= Ids(flight + [run])
  {
    forall id | id in Ids(flight) ensures id in Ids(flight + [run]) {
      var i :| 0 <= i < |flight| && flight[i].id == id;
      assert (flight + [run])[i].id == id;
    }
  }

  lemma FinishIds(flight: seq<Run>, at: nat)
    requires at < |flight|
    ensures Ids(flight) - {flight[at].id} <= Ids(flight[..at] + flight[at + 1..])
  {
    var rest := flight[..at] + flight[at + 1..];
    forall id | id in Ids(flight) - {flight[at].id} ensures id in Ids(rest) {
      var i :| 0 <= i < |flight| && flight[i].id == id;
      assert rest[if i < at then i else i - 1].id == id;
    }
  }

  lemma {:induction false} RunKeepsInv(s: State, events: seq<Event>, limit: int)
    requires Inv(s, limit) && Runs(s, events, limit)
    ensures Inv(End(s, events, limit), limit)
    decreases |events|
  {
    hide Inv, Next, Enabled, InOrder;
    if events != [] {
      StepKeepsInv(s, events[0], limit);
      RunKeepsInv(Next(s, events[0], limit), events[1..], limit);
    }
  }

  lemma {:induction false} AtMostLimit(s: seq<Run>, ids: set<nat>, bound: nat)
    requires DistinctIds(s) && forall id | id in ids :: exists i :: 0 <= i < |s| && i < bound && s[i].id == id
    ensures |ids| <= bound
    decreases bound
  {
    if bound == 0 {
      assert ids == {};
    } else {
      var rest := if bound - 1 < |s| then ids - {s[bound - 1].id} else ids;
      AtMostLimit(s, rest, bound - 1);
    }
  }

  /**
   * If runs enter flight in order, at most `limit` unfinished runs are ever admitted, each of them has
   * fewer than `limit` in flight created before it, and none of them is gated when it is checked again.
   */
  lemma AdmittedAreOldest(events: seq<Event>, limit: nat, at: nat)
    requires Runs(IDLE, events, limit)
    ensures var s := End(IDLE, events, limit);
            && |s.admitted| <= limit
            && (at < |s.flight| && s.flight[at].id in s.admitted ==>
                  Passes(s, at, limit) && |CreatedBefore(s.flight[at], s.flight)| < limit)
  {
    RunKeepsInv(IDLE, events, limit);
    var s := End(IDLE, events, limit);
    forall id | id in s.admitted
      ensures exists i :: 0 <= i < |s.flight| && i < limit && s.flight[i].id == id
    {
      var i :| 0 <= i < |s.flight| && s.flight[i].id == id;
    }
    AtMostLimit(s.flight, s.admitted, limit);
    if at < |s.flight| {
      RankIsIndex(s.flight, at);
      RankCounts(s.flight[at], s.flight);
    }
  }

  // -------------------------------------------------------------------------- waking

  function Listed(s: seq<Run>, ids: set<nat>): seq<Run> {
    if s == [] then []
    else Listed(s[..|s| - 1], ids) + if s[|s| - 1].id in ids then [s[|s| - 1]] else []
  }

  lemma {:induction false} ListedRanksLower(s: seq<Run>, ids: set<nat>, r: Run)
    ensures Rank(r, Listed(s, ids)) <= Rank(r, s)
    ensures forall x :: x in Listed(s, ids) <==> x in s && x.id in ids
    ensures |Listed(s, ids)| <= |s|
  {
    if s != [] {
      var init, last := s[..|s| - 1], s[|s| - 1];
      ListedRanksLower(init, ids, r);
      assert s == init + [last];
      assert Listed(s, ids) == Listed(init, ids) + if last.id in ids then [last] else [];
      assert forall x :: x in s <==> x in init || x == last;
      if last.id in ids {
        RankAppend(r, Listed(init, ids), [last]);
        RankOne(r, last);
      } else {
        assert Listed(s, ids) == Listed(init, ids);
      }
    }
  }

  /**
   * In any state at all, whenever a run settles, every suspended run the gate would now let go on is
   * among those `wakeNext` wakes, even when admitted runs are suspended too.
   */
  lemma WakeReachesAdmissible(s: State, at: nat, limit: int)
    requires at < |s.flight| && s.flight[at].id in s.suspended && Passes(s, at, limit)
    ensures var suspended := Listed(s.flight, s.suspended);
            s.flight[at] in suspended && Rank(s.flight[at], suspended) < limit
  {
    ListedRanksLower(s.flight, s.suspended, s.flight[at]);
  }

  // ------------------------------------------------------------------- exact condition

  /** With every slot taken, a run that enters is let past the gate exactly when an admitted one is younger. */
  lemma OverflowIffOutOfOrder(s: State, run: Run, limit: nat)
    requires Inv(s, limit) && |s.admitted| == limit && run.id !in Ids(s.flight)
    ensures var s' := Next(s, Enter(run), limit);
            Passes(s', |s.flight|, limit)
            <==> exists i :: 0 <= i < |s.flight| && s.flight[i].id in s.admitted && Older(run, s.flight[i])
  {
    AllSlotsTaken(s, limit);
    FewOlderIffYounger(s.flight, run, limit);
    RankAppend(run, s.flight, [run]);
    RankOne(run, run);
    hide Rank, Older, Sorted, DistinctIds;
  }

  /** Fewer than `limit` of a sorted flight are older than a newcomer iff one of the first `limit` is younger. */
  lemma FewOlderIffYounger(flight: seq<Run>, run: Run, limit: nat)
    requires Sorted(flight) && run.id !in Ids(flight) && limit <= |flight|
    ensures Rank(run, flight) < limit <==> exists i :: 0 <= i < limit && Older(run, flight[i])
  {
    var oldest, others := flight[..limit], flight[limit..];
    assert flight == oldest + others;
    hide Rank, Sorted;
    forall i | 0 <= i < limit ensures Older(flight[i], run) <==> !Older(run, flight[i]) {
      assert flight[i].id in Ids(flight);
    }
    if i :| 0 <= i < limit && Older(run, flight[i]) {
      RankBelow(run, flight, i);
    } else {
      assert forall i | 0 <= i < limit :: oldest[i] == flight[i];
      RankAppend(run, oldest, others);
      RankBound(run, oldest);
    }
  }

  /** Someone younger than `run` in a sorted flight means at most that many are older. */
  lemma RankBelow(run: Run, s: seq<Run>, i: nat)
    requires Sorted(s) && i < |s| && Older(run, s[i])
    ensures Rank(run, s) <= i
  {
    var a, b := s[..i], s[i..];
    assert s == a + b;
    forall j | 0 <= j < |b| ensures !Older(b[j], run) {
      assert b[j] == s[i + j] && (j > 0 ==> Older(s[i], s[i + j]));
    }
    hide *;
    RankAppend(run, a, b);
    RankBound(run, a);
    RankBound(run, b);
  }

  lemma AllSlotsTaken(s: State, limit: nat)
    requires Inv(s, limit) && |s.admitted| == limit
    ensures limit <= |s.flight| && forall i | 0 <= i < limit :: s.flight[i].id in s.admitted
  {
    var bound := if |s.flight| < limit then |s.flight| else limit;
    forall id | id in s.admitted ensures exists i :: 0 <= i < |s.flight| && i < bound && s.flight[i].id == id {
      var i :| 0 <= i < |s.flight| && s.flight[i].id == id;
    }
    AtMostLimit(s.flight, s.admitted, bound);
    forall i | 0 <= i < limit ensures s.flight[i].id in s.admitted {
      if s.flight[i].id !in s.admitted {
        var more := s.admitted + {s.flight[i].id};
        forall id | id in more ensures exists k :: 0 <= k < |s.flight| && k < bound && s.flight[k].id == id {
          if id != s.flight[i].id {
            var k :| 0 <= k < |s.flight| && s.flight[k].id == id;
          }
        }
        AtMostLimit(s.flight, more, bound);
      }
    }
  }

  // ------------------------------------------------------------- a run that overflows

  /** `n` runs that entered one after another, all let on. */
  function Taken(n: nat): State {
    var flight := seq(n, (i: nat) => Run(i, i));
    State(flight, Ids(flight), {})
  }

  lemma {:induction false} RunsAppend(s: State, a: seq<Event>, b: seq<Event>, limit: int)
    requires Runs(s, a, limit) && Runs(End(s, a, limit), b, limit)
    ensures Runs(s, a + b, limit) && End(s, a + b, limit) == End(End(s, a, limit), b, limit)
    decreases |a|
  {
    hide Enabled, Next, InOrder;
    if a == [] {
      assert a + b == b;
    } else {
      assert (a + b)[0] == a[0] && (a + b)[1..] == a[1..] + b;
      RunsAppend(Next(s, a[0], limit), a[1..], b, limit);
    }
  }

  lemma AppendedIds(flight: seq<Run>, run: Run)
    ensures Ids(flight + [run]) == Ids(flight) + {run.id}
  {
    var all := flight + [run];
    EnterIds(flight, run);
    assert all[|flight|].id in Ids(all);
    forall id | id in Ids(all) ensures id in Ids(flight) + {run.id} {
      var i :| 0 <= i < |all| && all[i].id == id;
      assert i < |flight| ==> flight[i].id in Ids(flight);
    }
  }

  lemma OneMoreTaken(n: nat, limit: nat)
    requires n < limit
    ensures var s, e := Taken(n), Enter(Run(n, n));
            && Enabled(s, e) && InOrder(s, e) && Enabled(Next(s, e, limit), Check(n))
            && Next(Next(s, e, limit), Check(n), limit) == Taken(n + 1)
  {
    var s, e := Taken(n), Enter(Run(n, n));
    var s1 := Next(s, e, limit);
    assert s1.flight == Taken(n + 1).flight;
    RankIsIndex(s1.flight, n);
    hide Rank;
    AppendedIds(s.flight, Run(n, n));
  }

  lemma {:induction false} FillGate(n: nat, limit: nat) returns (events: seq<Event>)
    requires n <= limit
    ensures Runs(IDLE, events, limit) && End(IDLE, events, limit) == Taken(n)
  {
    if n == 0 {
      events := [];
      assert Taken(0).flight == [] && Taken(0).admitted == {};
    } else {
      var before := FillGate(n - 1, limit);
      OneMoreTaken(n - 1, limit);
      hide Taken, Next, Enabled, InOrder;
      var e, c := Enter(Run(n - 1, n - 1)), Check(n - 1);
      var s1 := Next(Taken(n - 1), e, limit);
      assert InOrder(s1, c) by { ChecksKeepOrder(s1, c); }
      assert [e, c][1..] == [c] && [c][1..] == [];
      assert Runs(Taken(n), [], limit) && End(Taken(n), [], limit) == Taken(n);
      assert Runs(s1, [c], limit) && End(s1, [c], limit) == Taken(n);
      RunsAppend(IDLE, before, [e, c], limit);
      events := before + [e, c];
    }
  }

  lemma ChecksKeepOrder(s: State, e: Event)
    requires e.Check?
    ensures InOrder(s, e)
  {
  }

  lemma {:induction false} TakenCount(n: nat)
    ensures |Taken(n).admitted| == n && forall id | id in Taken(n).admitted :: id < n
  {
    if n > 0 {
      TakenCount(n - 1);
      AppendedIds(Taken(n - 1).flight, Run(n - 1, n - 1));
      assert Taken(n).flight == Taken(n - 1).flight + [Run(n - 1, n - 1)];
    } else {
      assert Taken(0).admitted == {};
    }
  }

  /**
   * For every limit some run fills the gate in order and then an older run enters late and is let on,
   * so that more than `limit` are.
   */
  lemma LateEntryOverflows(limit: nat) returns (events: seq<Event>, late: Run)
    requires limit >= 1
    ensures Runs(IDLE, events, limit)
    ensures var s := End(IDLE, events, limit);
            && |s.admitted| == limit && Enabled(s, Enter(late)) && !InOrder(s, Enter(late))
            && var s1 := Next(s, Enter(late), limit);
               Enabled(s1, Check(limit)) && |Next(s1, Check(limit), limit).admitted| == limit + 1
  {
    events := FillGate(limit, limit);
    late := Run(limit, -1);
    RunKeepsInv(IDLE, events, limit);
    TakenCount(limit);
    hide Inv, Rank, Sorted, DistinctIds;
    var s := Taken(limit);
    assert s.flight[0] == Run(0, 0) && 0 in s.admitted && Older(late, s.flight[0]);
    OverflowIffOutOfOrder(s, late, limit);
    assert !InOrder(s, Enter(late));
    assert limit !in s.admitted;
  }
}

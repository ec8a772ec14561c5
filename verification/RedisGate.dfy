/**
 * The shared admission gate whose state lives in Redis. One acquire is one atomic script: it reclaims
 * the slots of dead instances, prunes waiters that stopped retrying, checks the rate window and the
 * cap, and picks the rightful next waiter. The environment lets instances lapse and beat again.
 * Models `ACQUIRE_LUA`, `tryAdmit` and `release` in
 * packages/adonis/src/admission-redis/redis-admission-backend.ts.
 */
module RedisGate {
  import opened Admissions
  import opened Common

  type Instance = nat

  /** The slot and waiter names: the caller's id, or the script's stand-in for a call without one. */
  datatype Name = Named(id: Id) | Anonymous(now: int)

  datatype Meta = Meta(stamp: nat, key: FairKey)

  datatype Options = Options(retryMs: int, waiterTtlMs: int)

  /** The counter of a rate window, and the moment up to which the server keeps it. */
  datatype Counter = Counter(count: int, expiresAt: int)

  /**
   * `scores` holds the negated priority of each waiter, `counts` the counters of the rate windows, lapsed
   * ones included, and `time` is the clock of the server, which no caller's clock need agree with.
   */
  datatype Store = Store(
    slots: map<Name, Instance>, scores: map<Name, int>, metas: map<Name, Meta>, expiries: map<Name, int>,
    served: map<FairKey, nat>, counts: map<int, Counter>, stamps: nat, tick: nat,
    time: int)

  // ------------------------------------------------------------ caller's parameters

  function NameOf(now: int, item: Item): Name {
    if item.waiterId.Some? then Named(item.waiterId.value) else Anonymous(now)
  }

  function FairKeyOf(cfg: Config, item: Item): FairKey {
    if cfg.fair && item.key.Some? then item.key.value else ""
  }

  function CapOf(cfg: Config): int {
    if cfg.concurrency.Some? then cfg.concurrency.value else 0
  }

  function LimitOf(cfg: Config): int {
    if cfg.rate.Some? then cfg.rate.value.limit else 0
  }

  function WindowOf(cfg: Config, now: int): int {
    if cfg.rate.Some? && cfg.rate.value.periodMs > 0 then now / cfg.rate.value.periodMs else 0
  }

  // -------------------------------------------------------------------- the script

  function PeriodOf(cfg: Config): int {
    if cfg.rate.Some? then cfg.rate.value.periodMs else 0
  }

  /** The counter of the window is past its expiry, so that the server no longer shows it. */
  predicate Lapsed(s: Store, window: int) {
    window in s.counts && s.time > s.counts[window].expiresAt
  }

  function CountIn(s: Store, window: int): int {
    if window in s.counts && !Lapsed(s, window) then s.counts[window].count else 0
  }

  /** One more in the window, kept for a period from now; an expiry of no positive length deletes at once. */
  function Counted(cfg: Config, s: Store, window: int): map<int, Counter> {
    if PeriodOf(cfg) > 0 then s.counts[window := Counter(CountIn(s, window) + 1, s.time + PeriodOf(cfg))]
    else s.counts - {window}
  }

  function Reclaimed(s: Store, alive: set<Instance>): Store {
    s.(slots := map n | n in s.slots && s.slots[n] in alive :: s.slots[n])
  }

  function Stale(s: Store, now: int): set<Name> {
    set n | n in s.expiries && s.expiries[n] <= now
  }

  function Pruned(s: Store, now: int): Store {
    s.(scores := s.scores - Stale(s, now), metas := s.metas - Stale(s, now), expiries := s.expiries - Stale(s, now))
  }

  function Registered(cfg: Config, opts: Options, s: Store, now: int, item: Item): Store {
    var n := NameOf(now, item);
    s.(stamps := if n in s.scores then s.stamps else s.stamps + 1,
       metas := if n in s.scores then s.metas else s.metas[n := Meta(s.stamps + 1, FairKeyOf(cfg, item))],
       scores := s.scores[n := -PriorityOf(item)],
       expiries := s.expiries[n := now + opts.waiterTtlMs])
  }

  /** Every waiter has its row in all three tables; stamps are distinct and none is above the counter. */
  predicate Valid(s: Store) {
    && s.metas.Keys == s.scores.Keys && s.expiries.Keys == s.scores.Keys
    && (forall n | n in s.metas :: s.metas[n].stamp <= s.stamps)
    && (forall a, b | a in s.metas && b in s.metas && a != b :: s.metas[a].stamp != s.metas[b].stamp)
  }

  function Empty(): (s: Store)
    ensures Valid(s)
  {
    var s := Store(map[], map[], map[], map[], map[], map[], 0, 0, 0);
    assert s.metas.Keys == s.scores.Keys == s.expiries.Keys == {};
    s
  }

  function ServedFor(cfg: Config, s: Store, n: Name): nat
    requires n in s.metas
  {
    var k := s.metas[n].key;
    if cfg.fair && k != "" && k in s.served then s.served[k] else 0
  }

  predicate Precedes(cfg: Config, s: Store, a: Name, b: Name)
    requires a in s.metas && a in s.scores && b in s.metas && b in s.scores
  {
    if s.scores[a] != s.scores[b] then s.scores[a] < s.scores[b]
    else if ServedFor(cfg, s, a) != ServedFor(cfg, s, b) then ServedFor(cfg, s, a) < ServedFor(cfg, s, b)
    else if cfg.lifo then s.metas[a].stamp > s.metas[b].stamp
    else s.metas[a].stamp < s.metas[b].stamp
  }

  predicate RightfulNext(cfg: Config, s: Store, n: Name)
  {
    && Valid(s) && n in s.scores
    && forall other | other in s.scores && other != n :: !Precedes(cfg, s, other, n)
  }

  function Admit(cfg: Config, s: Store, inst: Instance, now: int, item: Item): Store {
    var n, key, w := NameOf(now, item), FairKeyOf(cfg, item), WindowOf(cfg, now);
    Store(s.slots[n := inst], s.scores - {n}, s.metas - {n}, s.expiries - {n},
          if key != "" then s.served[key := s.tick + 1] else s.served,
          if LimitOf(cfg) > 0 then Counted(cfg, s, w) else s.counts,
          s.stamps, if key != "" then s.tick + 1 else s.tick, s.time)
  }

  /** The slots and waiters the script works on: only live owners, only fresh waiters. */
  function Swept(s: Store, alive: set<Instance>, now: int): Store {
    Pruned(Reclaimed(s, alive), now)
  }

  predicate RateSpent(cfg: Config, s: Store, now: int) {
    LimitOf(cfg) > 0 && CountIn(s, WindowOf(cfg, now)) >= LimitOf(cfg)
  }

  predicate Full(cfg: Config, s: Store) {
    CapOf(cfg) > 0 && |s.slots| >= CapOf(cfg)
  }

  /** The specification of one acquire; `alive` includes the caller, which beats first. */
  function Acquire(cfg: Config, opts: Options, s: Store, alive: set<Instance>, inst: Instance, now: int, item: Item)
    : (r: (Store, Admission))
    requires Valid(s)
  {
    var t := Swept(s, alive, now);
    if RateSpent(cfg, t, now) then (t, Denied(now + opts.retryMs))
    else
      var ordered := Ordered(cfg, item);
      var u := if ordered then Registered(cfg, opts, t, now, item) else t;
      if Full(cfg, t) then (u, Denied(now + opts.retryMs))
      else if ordered && !RightfulNext(cfg, u, NameOf(now, item))
      then (u, Denied(now + opts.retryMs))
      else (Admit(cfg, u, inst, now, item), Admitted)
  }

  // ----------------------------------------------------------- validity is kept

  lemma SweptKeepsValid(s: Store, alive: set<Instance>, now: int)
    requires Valid(s)
    ensures Valid(Swept(s, alive, now))
  {
  }

  lemma RegisteredKeepsValid(cfg: Config, opts: Options, s: Store, now: int, item: Item)
    requires Valid(s)
    ensures Valid(Registered(cfg, opts, s, now, item))
  {
  }

  lemma AdmitKeepsValid(cfg: Config, s: Store, inst: Instance, now: int, item: Item)
    requires Valid(s)
    ensures Valid(Admit(cfg, s, inst, now, item))
  {
  }

  lemma AcquireKeepsValid(cfg: Config, opts: Options, s: Store, alive: set<Instance>, inst: Instance, now: int,
                          item: Item)
    requires Valid(s)
    ensures Valid(Acquire(cfg, opts, s, alive, inst, now, item).0)
  {
    hide Valid, Swept, Registered, Admit, RightfulNext;
    var t := Swept(s, alive, now);
    SweptKeepsValid(s, alive, now);
    RegisteredKeepsValid(cfg, opts, t, now, item);
    AdmitKeepsValid(cfg, t, inst, now, item);
    AdmitKeepsValid(cfg, Registered(cfg, opts, t, now, item), inst, now, item);
  }

  lemma PrecedesIsTransitive(cfg: Config, s: Store, a: Name, b: Name, c: Name)
    requires Valid(s) && a in s.scores && b in s.scores && c in s.scores
    requires Precedes(cfg, s, a, b) && Precedes(cfg, s, b, c)
    ensures Precedes(cfg, s, a, c)
  {
  }

  lemma PrecedesIsTotal(cfg: Config, s: Store, a: Name, b: Name)
    requires Valid(s) && a in s.scores && b in s.scores && a != b
    ensures Precedes(cfg, s, a, b) <==> !Precedes(cfg, s, b, a)
  {
  }

  // ----------------------------------------------------------------------- the gate

  class RedisAdmissionBackend {
    const config: Config
    const options: Options
    var store: Store
    var alive: set<Instance>

    constructor (config: Config, options: Options)
      ensures store == Empty() && Valid(store) && alive == {} && this.config == config && this.options == options
    {
      this.config, this.options := config, options;
      store, alive := Empty(), {};
    }

    /** Drops the slots of dead owners and counts the others. */
    method ReclaimSlots() returns (inflight: nat)
      modifies this`store
      ensures store == Reclaimed(old(store), alive)
      ensures inflight == |store.slots|
    {
      var slots := store.slots;
      var slotIds := slots.Keys;
      inflight := 0;
      while slotIds != {}
        invariant slotIds <= slots.Keys <= store.slots.Keys
        invariant forall n | n in store.slots :: n in slots <==> n in slotIds || store.slots[n] in alive
        invariant forall n | n in slots :: slots[n] == store.slots[n]
        invariant inflight + |slotIds| == |slots.Keys|
        decreases |slotIds|
      {
        var n :| n in slotIds;
        slotIds := slotIds - {n};
        if slots[n] in alive {
          inflight := inflight + 1;
        } else {
          assert (slots - {n}).Keys == slots.Keys - {n};
          slots := slots - {n};
        }
      }
      assert slots == Reclaimed(store, alive).slots;
      store := store.(slots := slots);
    }

    /** Forgets the waiters whose place has expired. */
    method PruneWaiters(now: int)
      modifies this`store
      ensures store == Pruned(old(store), now)
    {
      ghost var before := store;
      var stale := set n | n in store.expiries && store.expiries[n] <= now;
      ghost var all := stale;
      while stale != {}
        invariant stale <= all
        invariant store == before.(scores := before.scores - (all - stale), metas := before.metas - (all - stale),
                                   expiries := before.expiries - (all - stale))
        decreases |stale|
      {
        var n :| n in stale;
        store := store.(scores := store.scores - {n}, metas := store.metas - {n}, expiries := store.expiries - {n});
        assert all - (stale - {n}) == (all - stale) + {n};
        stale := stale - {n};
      }
      assert all - {} == all == Stale(before, now);
    }

    method Register(now: int, item: Item)
      modifies this`store
      ensures store == Registered(config, options, old(store), now, item)
    {
      var n := NameOf(now, item);
      if n !in store.scores {
        store := store.(stamps := store.stamps + 1);
        store := store.(metas := store.metas[n := Meta(store.stamps, FairKeyOf(config, item))]);
      }
      store := store.(scores := store.scores[n := -PriorityOf(item)]);
      store := store.(expiries := store.expiries[n := now + options.waiterTtlMs]);
    }

    /** The score of the first waiter of the sorted set. */
    method TopScore() returns (top: int)
      requires store.scores.Keys != {}
      ensures forall n | n in store.scores :: top <= store.scores[n]
      ensures exists n :: n in store.scores && store.scores[n] == top
    {
      var first :| first in store.scores;
      top := store.scores[first];
      var todo := store.scores.Keys;
      while todo != {}
        invariant todo <= store.scores.Keys
        invariant forall n | n in store.scores.Keys - todo :: top <= store.scores[n]
        invariant exists n :: n in store.scores && store.scores[n] == top
        decreases |todo|
      {
        var n :| n in todo;
        if store.scores[n] < top { top := store.scores[n]; }
        todo := todo - {n};
      }
    }

    /** The scan of the top tier for the least served key and then the arrival order. */
    method Best() returns (best: Name)
      requires Valid(store) && store.scores.Keys != {}
      ensures best in store.scores
      ensures forall n | n in store.scores && n != best :: Precedes(config, store, best, n)
    {
      hide Precedes, ServedFor;
      var top := TopScore();
      var tier := set n | n in store.scores && store.scores[n] == top;
      assert tier != {} by {
        var n :| n in store.scores && store.scores[n] == top;
        assert n in tier;
      }
      var todo := tier;
      var bestId: Option<Name>, bestServed, bestStamp := None, 0, 0;
      while todo != {}
        invariant todo <= tier
        invariant bestId.None? ==> todo == tier
        invariant bestId.Some? ==>
          && bestId.value in tier - todo
          && bestServed == ServedFor(config, store, bestId.value) && bestStamp == store.metas[bestId.value].stamp
          && forall n | n in tier - todo && n != bestId.value :: Precedes(config, store, bestId.value, n)
        decreases |todo|
      {
        var wid :| wid in todo;
        var meta := store.metas[wid];
        var served := ServedFor(config, store, wid);
        var better :=
          if bestId.None? then true
          else if served < bestServed then true
          else if served == bestServed then (if config.lifo then meta.stamp > bestStamp else meta.stamp < bestStamp)
          else false;
        if bestId.Some? { Dethrone(config, store, tier - todo, bestId.value, wid, better); }
        if better { bestId, bestServed, bestStamp := Some(wid), served, meta.stamp; }
        todo := todo - {wid};
      }
      best := bestId.value;
      TopTierFirst(config, store, tier, best);
    }

    method TryAdmit(inst: Instance, now: int, item: Item) returns (answer: Admission)
      requires Valid(store)
      modifies this
      ensures alive == old(alive) + {inst}
      ensures (store, answer) == Acquire(config, options, old(store), alive, inst, now, item)
      ensures Valid(store)
    {
      hide Valid, Reclaimed, Pruned, Registered, RightfulNext, Admit;
      AcquireKeepsValid(config, options, store, alive + {inst}, inst, now, item);
      SweptKeepsValid(store, alive + {inst}, now);
      alive := alive + {inst};
      var inflight := ReclaimSlots();
      PruneWaiters(now);
      ghost var t := store;
      assert Valid(t) && |t.slots| == inflight by { KeepsSlots(Reclaimed(old(store), alive), now); }
      RegisteredKeepsValid(config, options, t, now, item);
      if LimitOf(config) > 0 {
        if CountIn(store, WindowOf(config, now)) >= LimitOf(config) { return Denied(now + options.retryMs); }
      }
      if CapOf(config) > 0 && inflight >= CapOf(config) {
        if Ordered(config, item) { Register(now, item); }
        return Denied(now + options.retryMs);
      }
      if Ordered(config, item) {
        Register(now, item);
        assert NameOf(now, item) in store.scores by { RegisteredIsListed(config, options, t, now, item); }
        var best := Best();
        BestIsRightful(config, store, best, NameOf(now, item));
        if best != NameOf(now, item) { return Denied(now + options.retryMs); }
      }
      Commit(inst, now, item);
      answer := Admitted;
    }

    /** The last block of the script: take the slot, forget the waiter, serve the key, count the rate. */
    method Commit(inst: Instance, now: int, item: Item)
      modifies this`store
      ensures store == Admit(config, old(store), inst, now, item)
    {
      var n, key, w := NameOf(now, item), FairKeyOf(config, item), WindowOf(config, now);
      store := store.(slots := store.slots[n := inst]);
      store := store.(scores := store.scores - {n}, metas := store.metas - {n}, expiries := store.expiries - {n});
      if config.fair && key != "" {
        store := store.(tick := store.tick + 1);
        store := store.(served := store.served[key := store.tick]);
      }
      if LimitOf(config) > 0 {
        store := store.(counts := Counted(config, store, w));
      }
    }

    method Release(slot: Name)
      modifies this`store
      ensures store == old(store).(slots := old(store).slots - {slot})
    {
      store := store.(slots := store.slots - {slot});
    }
  }

  lemma KeepsSlots(s: Store, now: int)
    ensures Pruned(s, now).slots == s.slots && Pruned(s, now).counts == s.counts && Pruned(s, now).time == s.time
  {
  }

  lemma RegisteredKeepsSlots(cfg: Config, opts: Options, s: Store, now: int, item: Item)
    ensures Registered(cfg, opts, s, now, item).slots == s.slots
    ensures Registered(cfg, opts, s, now, item).counts == s.counts
    ensures Registered(cfg, opts, s, now, item).time == s.time
  {
  }

  lemma AdmitSlots(cfg: Config, s: Store, inst: Instance, now: int, item: Item)
    ensures Admit(cfg, s, inst, now, item).slots == s.slots[NameOf(now, item) := inst]
  {
  }

  lemma RegisteredIsListed(cfg: Config, opts: Options, s: Store, now: int, item: Item)
    ensures NameOf(now, item) in Registered(cfg, opts, s, now, item).scores
  {
  }

  lemma BestIsRightful(cfg: Config, s: Store, best: Name, n: Name)
    requires Valid(s) && best in s.scores && n in s.scores
    requires forall other | other in s.scores && other != best :: Precedes(cfg, s, best, other)
    ensures RightfulNext(cfg, s, n) <==> best == n
  {
    if best == n {
      forall other | other in s.scores && other != n ensures !Precedes(cfg, s, other, n) {
        PrecedesIsTotal(cfg, s, n, other);
      }
    }
  }

  /** Who is first in the tier of the lowest score is first of all. */
  lemma TopTierFirst(cfg: Config, s: Store, tier: set<Name>, best: Name)
    requires Valid(s) && best in tier && tier <= s.scores.Keys
    requires forall n | n in s.scores :: n in tier || s.scores[best] < s.scores[n]
    requires forall n | n in tier && n != best :: Precedes(cfg, s, best, n)
    ensures forall n | n in s.scores && n != best :: Precedes(cfg, s, best, n)
  {
  }

  lemma Dethrone(cfg: Config, s: Store, seen: set<Name>, best: Name, wid: Name, better: bool)
    requires Valid(s) && seen <= s.scores.Keys && best in seen && wid in s.scores && wid !in seen
    requires s.scores[best] == s.scores[wid]
    requires better <==> if ServedFor(cfg, s, wid) != ServedFor(cfg, s, best)
                         then ServedFor(cfg, s, wid) < ServedFor(cfg, s, best)
                         else if cfg.lifo then s.metas[wid].stamp > s.metas[best].stamp
                         else s.metas[wid].stamp < s.metas[best].stamp
    requires forall n | n in seen && n != best :: Precedes(cfg, s, best, n)
    ensures better <==> Precedes(cfg, s, wid, best)
    ensures !better ==> Precedes(cfg, s, best, wid)
    ensures better ==> forall n | n in seen :: Precedes(cfg, s, wid, n)
  {
    PrecedesIsTotal(cfg, s, wid, best);
    if better {
      forall n | n in seen && n != best ensures Precedes(cfg, s, wid, n) {
        PrecedesIsTransitive(cfg, s, wid, best, n);
      }
    }
  }
}

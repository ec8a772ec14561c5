/**
 * The shared gate refines the in-process one: on every sequence of acquires and releases the two give
 * the same answers. Redis stamps more arrivals than the controller does, so the simulation relates the
 * waiters of the two by the order of their stamps and not by the stamps themselves.
 * Models packages/adonis/src/queue.ts and packages/adonis/src/admission-redis/redis-admission-backend.ts.
 */
module GateRefinement {
  import opened Admissions
  import opened Common
  import Q = QueueGate
  import R = RedisGate

  datatype Op =
    | Ask(inst: R.Instance, now: int, id: Id, priority: Option<int>, key: Option<FairKey>)
    | Give(id: Id)

  function ItemOf(op: Op): Item
    requires op.Ask?
  {
    Item(op.priority, op.key, Some(op.id))
  }

  function KeyText(key: Option<FairKey>): FairKey {
    if key.Some? then key.value else ""
  }

  /** A queue both gates serve alike: no rate limit, and no cap or a positive one. */
  predicate Plain(cfg: Config) {
    cfg.rate.None? && (cfg.concurrency.None? || cfg.concurrency.value >= 1)
  }

  // ------------------------------------------------------------------ the simulation

  /** The same callers wait with the same priorities, and for fairness under the same keys. */
  ghost predicate SameWaiters(cfg: Config, waiters: map<Id, Q.Waiter>,
                              scores: map<R.Name, int>, metas: map<R.Name, R.Meta>)
  {
    && (forall n :: n in scores <==> n.Named? && n.id in waiters)
    && (forall id | id in waiters :: R.Named(id) in scores && scores[R.Named(id)] == -waiters[id].priority)
    && (cfg.fair ==> forall id | id in waiters ::
          && R.Named(id) in metas && metas[R.Named(id)].key == KeyText(waiters[id].key)
          && waiters[id].key != Some(""))
  }

  /** The stamps of the two gates order the waiters alike. */
  ghost predicate SameOrder(waiters: map<Id, Q.Waiter>, metas: map<R.Name, R.Meta>) {
    forall a, b | a in waiters && b in waiters && R.Named(a) in metas && R.Named(b) in metas ::
      Q.Earlier(waiters[a].arrival, waiters[b].arrival) <==> metas[R.Named(a)].stamp < metas[R.Named(b)].stamp
  }

  /** Every key has the same last-served tick in both gates. */
  ghost predicate SameServed(servedQ: map<FairKey, nat>, servedR: map<FairKey, nat>) {
    forall k: FairKey | k != "" :: Q.ServedOf(servedQ, Some(k)) == Q.ServedOf(servedR, Some(k))
  }

  ghost predicate Related(cfg: Config, g: Q.Gate, s: R.Store) {
    && Q.Valid(g) && R.Valid(s) && g.inFlight == |s.slots|
    && SameWaiters(cfg, g.waiters, s.scores, s.metas) && SameOrder(g.waiters, s.metas)
    && (cfg.fair ==> g.servedTick == s.tick && SameServed(g.served, s.served))
  }

  // ----------------------------------------------------------------- runs in scope

  /**
   * A step both gates are specified for: every slot owner is alive and no waiter's place has expired,
   * a caller does not already hold a slot and, for fairness, keeps its non-empty key, and only a held
   * slot is released.
   */
  predicate InScope(cfg: Config, g: Q.Gate, s: R.Store, alive: set<R.Instance>, op: Op) {
    match op
    case Ask(inst, now, id, _, key) =>
      && (forall n | n in s.slots :: s.slots[n] in alive + {inst})
      && (forall n | n in s.expiries :: s.expiries[n] > now)
      && R.Named(id) !in s.slots
      && KeepsKey(cfg, g, ItemOf(op))
    case Give(id) => R.Named(id) in s.slots
  }

  function StepQ(cfg: Config, g: Q.Gate, op: Op): Q.Gate {
    match op
    case Ask(_, now, _, _, _) => Q.Attempt(cfg, g, now, ItemOf(op)).0
    case Give(_) => Q.Released(g)
  }

  function StepR(cfg: Config, opts: R.Options, s: R.Store, alive: set<R.Instance>, op: Op): (s': R.Store)
    requires R.Valid(s)
    ensures R.Valid(s')
  {
    match op
    case Ask(inst, now, _, _, _) =>
      R.AcquireKeepsValid(cfg, opts, s, alive + {inst}, inst, now, ItemOf(op));
      R.Acquire(cfg, opts, s, alive + {inst}, inst, now, ItemOf(op)).0
    case Give(id) => s.(slots := s.slots - {R.Named(id)})
  }

  function AdmitsQ(cfg: Config, g: Q.Gate, op: Op): bool {
    op.Ask? && Q.Attempt(cfg, g, op.now, ItemOf(op)).1.Admitted?
  }

  function AdmitsR(cfg: Config, opts: R.Options, s: R.Store, alive: set<R.Instance>, op: Op): bool
    requires R.Valid(s)
  {
    op.Ask? && R.Acquire(cfg, opts, s, alive + {op.inst}, op.inst, op.now, ItemOf(op)).1.Admitted?
  }

  function Alive(alive: set<R.Instance>, op: Op): set<R.Instance> {
    if op.Ask? then alive + {op.inst} else alive
  }

  // --------------------------------------------------------------- the choice agrees

  /** On related waiters the controller's order is the script's order. */
  lemma OrdersAgree(cfg: Config, g: Q.Gate, s: R.Store, a: Id, b: Id)
    requires Related(cfg, g, s) && a in g.waiters && b in g.waiters && a != b
    ensures R.Named(a) in s.metas && R.Named(a) in s.scores && R.Named(b) in s.metas && R.Named(b) in s.scores
    ensures Q.Better(cfg, g.served, g.waiters[a], g.waiters[b]) <==> R.Precedes(cfg, s, R.Named(a), R.Named(b))
  {
    ServedAgree(cfg, g, s, a);
    ServedAgree(cfg, g, s, b);
  }

  lemma ServedAgree(cfg: Config, g: Q.Gate, s: R.Store, a: Id)
    requires Related(cfg, g, s) && a in g.waiters
    ensures R.Named(a) in s.metas
    ensures cfg.fair ==> Q.ServedOf(g.served, g.waiters[a].key) == R.ServedFor(cfg, s, R.Named(a))
  {
    if cfg.fair && g.waiters[a].key.Some? {
      var k := g.waiters[a].key.value;
      assert Q.ServedOf(g.served, Some(k)) == Q.ServedOf(s.served, Some(k));
    }
  }

  lemma NextAgrees(cfg: Config, g: Q.Gate, s: R.Store, me: Id)
    requires Related(cfg, g, s) && me in g.waiters
    ensures Q.NobodyBetter(cfg, g, g.waiters[me]) <==> R.RightfulNext(cfg, s, R.Named(me))
  {
    hide Q.Better, R.Precedes, SameOrder, SameServed;
    forall id | id in g.waiters && id != me {
      OrdersAgree(cfg, g, s, id, me);
    }
    NotBetterThanOneself(cfg, g, me);
    forall n | n in s.scores ensures n == R.Named(n.id) && n.id in g.waiters {
    }
  }

  lemma NotBetterThanOneself(cfg: Config, g: Q.Gate, me: Id)
    requires me in g.waiters
    ensures !Q.Better(cfg, g.served, g.waiters[me], g.waiters[me])
  {
  }

  // ---------------------------------------------------------- each part keeps the relation

  lemma SweepIsNothing(s: R.Store, alive: set<R.Instance>, now: int)
    requires forall n | n in s.slots :: s.slots[n] in alive
    requires forall n | n in s.expiries :: s.expiries[n] > now
    ensures R.Swept(s, alive, now) == s
  {
    assert R.Reclaimed(s, alive).slots == s.slots;
    assert R.Stale(s, now) == {};
    assert R.Pruned(s, now) == s;
  }

  lemma RegisteredRelated(cfg: Config, opts: R.Options, g: Q.Gate, s: R.Store, now: int, item: Item)
    requires Related(cfg, g, s) && item.waiterId.Some? && KeepsKey(cfg, g, item)
    ensures Related(cfg, Q.Registered(g, item), R.Registered(cfg, opts, s, now, item))
  {
    hide SameWaiters, SameOrder, SameServed;
    Q.RegisteredKeepsValid(g, item);
    R.RegisteredKeepsValid(cfg, opts, s, now, item);
    WaitersAfterRegistering(cfg, opts, g, s, now, item);
    OrderAfterRegistering(cfg, opts, g, s, now, item);
    hide Q.Valid, R.Valid;
  }

  /** For fairness, the caller's key is not the empty text and is the one it first registered. */
  predicate KeepsKey(cfg: Config, g: Q.Gate, item: Item) {
    cfg.fair ==>
      && item.key != Some("")
      && (item.waiterId.Some? && item.waiterId.value in g.waiters ==> g.waiters[item.waiterId.value].key == item.key)
  }

  lemma WaitersAfterRegistering(cfg: Config, opts: R.Options, g: Q.Gate, s: R.Store, now: int, item: Item)
    requires SameWaiters(cfg, g.waiters, s.scores, s.metas) && s.metas.Keys == s.scores.Keys
    requires item.waiterId.Some? && KeepsKey(cfg, g, item)
    ensures var g', s' := Q.Registered(g, item), R.Registered(cfg, opts, s, now, item);
            SameWaiters(cfg, g'.waiters, s'.scores, s'.metas)
  {
    var g', s' := Q.Registered(g, item), R.Registered(cfg, opts, s, now, item);
    var me := item.waiterId.value;
    forall id | id in g'.waiters
      ensures R.Named(id) in s'.scores && s'.scores[R.Named(id)] == -g'.waiters[id].priority
      ensures cfg.fair ==> R.Named(id) in s'.metas && s'.metas[R.Named(id)].key == KeyText(g'.waiters[id].key)
                           && g'.waiters[id].key != Some("")
    {
      if id != me {
        assert id in g.waiters && g'.waiters[id] == g.waiters[id];
      }
    }
  }

  lemma OrderAfterRegistering(cfg: Config, opts: R.Options, g: Q.Gate, s: R.Store, now: int, item: Item)
    requires Q.Valid(g) && R.Valid(s) && item.waiterId.Some?
    requires SameWaiters(cfg, g.waiters, s.scores, s.metas) && SameOrder(g.waiters, s.metas)
    ensures var g', s' := Q.Registered(g, item), R.Registered(cfg, opts, s, now, item);
            SameOrder(g'.waiters, s'.metas)
  {
    hide SameOrder, Q.Earlier;
    var g', s' := Q.Registered(g, item), R.Registered(cfg, opts, s, now, item);
    forall a | a in g'.waiters && R.Named(a) in s'.metas
      ensures StampKept(g, s, g', s', a, item.waiterId.value)
    {
    }
    OrderByStamps(g, s, g', s', item.waiterId.value);
    hide *;
  }

  lemma OrderByStamps(g: Q.Gate, s: R.Store, g': Q.Gate, s': R.Store, me: Id)
    requires SameOrder(g.waiters, s.metas)
    requires forall a | a in g'.waiters && R.Named(a) in s'.metas :: StampKept(g, s, g', s', a, me)
    ensures SameOrder(g'.waiters, s'.metas)
  {
  }

  /** Registering `me` leaves every stamp alone but gives a newcomer one above all the others. */
  ghost predicate StampKept(g: Q.Gate, s: R.Store, g': Q.Gate, s': R.Store, a: Id, me: Id)
    requires a in g'.waiters && R.Named(a) in s'.metas
  {
    if a in g.waiters
    then && R.Named(a) in s.metas && g'.waiters[a].arrival == g.waiters[a].arrival
         && s'.metas[R.Named(a)].stamp == s.metas[R.Named(a)].stamp
         && g.waiters[a].arrival.Seq? && g.waiters[a].arrival.n < g.waiterSeq && s.metas[R.Named(a)].stamp <= s.stamps
    else a == me && g'.waiters[a].arrival == Q.Seq(g.waiterSeq) && s'.metas[R.Named(a)].stamp == s.stamps + 1
  }

  /** Taking the slot keeps the relation, whether or not the script listed the caller first. */
  lemma TakenRelated(cfg: Config, g: Q.Gate, s: R.Store, inst: R.Instance, now: int, item: Item)
    requires Related(cfg, g, s) && item.waiterId.Some? && cfg.rate.None?
    requires R.Named(item.waiterId.value) !in s.slots && KeepsKey(cfg, g, item)
    ensures Related(cfg, Q.Take(cfg, g, item), R.Admit(cfg, s, inst, now, item))
  {
    hide Q.Valid, R.Valid, SameWaiters, SameOrder, SameServed, Q.Take, R.Admit;
    Q.TakeKeepsValid(cfg, g, item);
    R.AdmitKeepsValid(cfg, s, inst, now, item);
    OneMoreSlot(cfg, g, s, inst, now, item);
    TakenWaiters(cfg, g, s, inst, now, item);
    TakenServed(cfg, g, s, inst, now, item);
  }

  lemma TakenWaiters(cfg: Config, g: Q.Gate, s: R.Store, inst: R.Instance, now: int, item: Item)
    requires SameWaiters(cfg, g.waiters, s.scores, s.metas) && SameOrder(g.waiters, s.metas)
    requires item.waiterId.Some? && KeepsKey(cfg, g, item)
    ensures var g', s' := Q.Take(cfg, g, item), R.Admit(cfg, s, inst, now, item);
            SameWaiters(cfg, g'.waiters, s'.scores, s'.metas) && SameOrder(g'.waiters, s'.metas)
  {
    hide SameWaiters, SameOrder;
    TakenParts(cfg, g, s, inst, now, item);
    WaitersAfterTaking(cfg, g.waiters, s.scores, s.metas, item.waiterId.value);
    hide Q.Take, R.Admit;
  }

  lemma TakenServed(cfg: Config, g: Q.Gate, s: R.Store, inst: R.Instance, now: int, item: Item)
    requires cfg.fair ==> g.servedTick == s.tick && SameServed(g.served, s.served)
    requires item.waiterId.Some? && KeepsKey(cfg, g, item)
    ensures var g', s' := Q.Take(cfg, g, item), R.Admit(cfg, s, inst, now, item);
            cfg.fair ==> g'.servedTick == s'.tick && SameServed(g'.served, s'.served)
  {
    hide SameServed;
    TakenParts(cfg, g, s, inst, now, item);
    hide Q.Take, R.Admit;
    if cfg.fair && item.key.Some? {
      ServedAfterTaking(g.served, s.served, item.key.value, s.tick + 1);
    }
  }

  lemma TakenParts(cfg: Config, g: Q.Gate, s: R.Store, inst: R.Instance, now: int, item: Item)
    requires item.waiterId.Some? && KeepsKey(cfg, g, item)
    ensures var g', s', me := Q.Take(cfg, g, item), R.Admit(cfg, s, inst, now, item), item.waiterId.value;
            && g'.waiters == g.waiters - {me} && g'.inFlight == g.inFlight + 1
            && s'.scores == s.scores - {R.Named(me)} && s'.metas == s.metas - {R.Named(me)}
            && (cfg.fair ==>
                  if item.key.Some?
                  then && g'.servedTick == g.servedTick + 1 && g'.served == g.served[item.key.value := g.servedTick + 1]
                       && s'.tick == s.tick + 1 && s'.served == s.served[item.key.value := s.tick + 1]
                  else && g'.servedTick == g.servedTick && g'.served == g.served
                       && s'.tick == s.tick && s'.served == s.served)
  {
  }

  lemma OneMoreSlot(cfg: Config, g: Q.Gate, s: R.Store, inst: R.Instance, now: int, item: Item)
    requires item.waiterId.Some? && R.Named(item.waiterId.value) !in s.slots && g.inFlight == |s.slots|
    ensures Q.Take(cfg, g, item).inFlight == |R.Admit(cfg, s, inst, now, item).slots|
  {
    hide Q.Take, R.Admit;
    R.AdmitSlots(cfg, s, inst, now, item);
    TakeCounts(cfg, g, item);
    MapGrows(s.slots, R.Named(item.waiterId.value), inst);
  }

  lemma TakeCounts(cfg: Config, g: Q.Gate, item: Item)
    ensures Q.Take(cfg, g, item).inFlight == g.inFlight + 1
  {
  }

  lemma WaitersAfterTaking(cfg: Config, waiters: map<Id, Q.Waiter>,
                           scores: map<R.Name, int>, metas: map<R.Name, R.Meta>, me: Id)
    requires SameWaiters(cfg, waiters, scores, metas) && SameOrder(waiters, metas)
    ensures SameWaiters(cfg, waiters - {me}, scores - {R.Named(me)}, metas - {R.Named(me)})
    ensures SameOrder(waiters - {me}, metas - {R.Named(me)})
  {
    forall id | id in waiters - {me} ensures id in waiters && id != me && (waiters - {me})[id] == waiters[id] {
    }
  }

  lemma ServedAfterTaking(servedQ: map<FairKey, nat>, servedR: map<FairKey, nat>, key: FairKey, tick: nat)
    requires SameServed(servedQ, servedR)
    ensures SameServed(servedQ[key := tick], servedR[key := tick])
  {
    forall k: FairKey | k != ""
      ensures Q.ServedOf(servedQ[key := tick], Some(k)) == Q.ServedOf(servedR[key := tick], Some(k))
    {
      assert Q.ServedOf(servedQ, Some(k)) == Q.ServedOf(servedR, Some(k));
    }
  }

  /** With nobody waiting the script lists the caller, finds it alone, and takes it off the list again. */
  lemma AloneIsRightful(cfg: Config, opts: R.Options, g: Q.Gate, s: R.Store, now: int, item: Item)
    requires Related(cfg, g, s) && item.waiterId.Some? && |g.waiters| == 0
    ensures var u := R.Registered(cfg, opts, s, now, item);
            R.RightfulNext(cfg, u, R.Named(item.waiterId.value))
  {
    NobodyListed(cfg, g, s);
    R.RegisteredKeepsValid(cfg, opts, s, now, item);
    hide R.Valid, R.Precedes;
  }

  lemma NobodyListed(cfg: Config, g: Q.Gate, s: R.Store)
    requires Related(cfg, g, s) && |g.waiters| == 0
    ensures s.scores == map[] && s.metas == map[]
  {
    assert forall id :: id !in g.waiters;
    assert forall n :: n !in s.scores;
    assert s.metas.Keys == s.scores.Keys;
  }

  lemma ListedThenTaken(cfg: Config, opts: R.Options, g: Q.Gate, s: R.Store, inst: R.Instance, now: int, item: Item)
    requires Related(cfg, g, s) && item.waiterId.Some? && cfg.rate.None?
    requires R.Named(item.waiterId.value) !in s.slots && KeepsKey(cfg, g, item)
    ensures Related(cfg, Q.Take(cfg, g, item), R.Admit(cfg, R.Registered(cfg, opts, s, now, item), inst, now, item))
  {
    hide Related, Q.Valid, R.Valid, Q.Take, R.Admit, R.Registered;
    var u := R.Registered(cfg, opts, s, now, item);
    TakenRelated(cfg, g, s, inst, now, item);
    assert R.Valid(s) by { RelatedParts(cfg, g, s); }
    R.RegisteredKeepsValid(cfg, opts, s, now, item);
    R.AdmitKeepsValid(cfg, u, inst, now, item);
    AdmitsAlike(cfg, opts, s, inst, now, item);
    RelatedByParts(cfg, Q.Take(cfg, g, item), R.Admit(cfg, s, inst, now, item), R.Admit(cfg, u, inst, now, item));
  }

  predicate SameParts(cfg: Config, a: R.Store, b: R.Store) {
    && a.slots == b.slots && a.scores == b.scores && a.metas == b.metas
    && (cfg.fair ==> a.served == b.served && a.tick == b.tick)
  }

  lemma RelatedByParts(cfg: Config, g: Q.Gate, a: R.Store, b: R.Store)
    requires Related(cfg, g, a) && R.Valid(b) && SameParts(cfg, a, b)
    ensures Related(cfg, g, b)
  {
    hide R.Valid, Q.Valid, SameWaiters, SameOrder, SameServed;
  }

  /** Listing the caller just before admitting it changes nothing but the stamp counter. */
  lemma AdmitsAlike(cfg: Config, opts: R.Options, s: R.Store, inst: R.Instance, now: int, item: Item)
    requires item.waiterId.Some?
    ensures SameParts(cfg, R.Admit(cfg, s, inst, now, item),
                      R.Admit(cfg, R.Registered(cfg, opts, s, now, item), inst, now, item))
  {
    ListedParts(cfg, opts, s, now, item);
    hide R.Registered;
  }

  lemma ListedParts(cfg: Config, opts: R.Options, s: R.Store, now: int, item: Item)
    requires item.waiterId.Some?
    ensures var u, n := R.Registered(cfg, opts, s, now, item), R.Named(item.waiterId.value);
            && u.scores - {n} == s.scores - {n} && u.metas - {n} == s.metas - {n}
            && u.slots == s.slots && u.served == s.served && u.tick == s.tick
  {
  }

  // -------------------------------------------------------------------- one step

  ghost predicate Simulates(cfg: Config, opts: R.Options, g: Q.Gate, s: R.Store, alive: set<R.Instance>, op: Op)
    requires R.Valid(s)
  {
    && AdmitsQ(cfg, g, op) == AdmitsR(cfg, opts, s, alive, op)
    && Related(cfg, StepQ(cfg, g, op), StepR(cfg, opts, s, alive, op))
  }

  lemma AskSimulates(cfg: Config, opts: R.Options, g: Q.Gate, s: R.Store, alive: set<R.Instance>, op: Op)
    requires Plain(cfg) && Related(cfg, g, s) && op.Ask? && InScope(cfg, g, s, alive, op)
    ensures Simulates(cfg, opts, g, s, alive, op)
  {
    hide Q.Valid, R.Valid, Related, R.Registered, Q.Take, R.Admit, R.RightfulNext, Q.NobodyBetter, R.Swept;
    var item, me := ItemOf(op), op.id;
    assert R.Valid(s) && Q.Valid(g) && g.inFlight == |s.slots| by { RelatedParts(cfg, g, s); }
    SweepIsNothing(s, alive + {op.inst}, op.now);
    var r, u := Q.Registered(g, item), R.Registered(cfg, opts, s, op.now, item);
    RegisteredRelated(cfg, opts, g, s, op.now, item);
    R.RegisteredKeepsSlots(cfg, opts, s, op.now, item);
    if Q.Full(cfg, g) {
    } else if |g.waiters| > 0 {
      NextAgrees(cfg, r, u, me);
      TakenRelated(cfg, r, u, op.inst, op.now, item);
    } else {
      AloneIsRightful(cfg, opts, g, s, op.now, item);
      ListedThenTaken(cfg, opts, g, s, op.inst, op.now, item);
    }
  }

  lemma RelatedParts(cfg: Config, g: Q.Gate, s: R.Store)
    requires Related(cfg, g, s)
    ensures R.Valid(s) && Q.Valid(g) && g.inFlight == |s.slots|
  {
  }

  lemma GiveSimulates(cfg: Config, opts: R.Options, g: Q.Gate, s: R.Store, alive: set<R.Instance>, op: Op)
    requires Related(cfg, g, s) && op.Give? && InScope(cfg, g, s, alive, op)
    ensures Simulates(cfg, opts, g, s, alive, op)
  {
    hide SameWaiters, SameOrder, SameServed;
    MapShrinks(s.slots, R.Named(op.id));
    assert Q.Valid(Q.Released(g));
    hide Q.Valid, R.Valid;
  }

  // ---------------------------------------------------------------------- all runs

  predicate RunInScope(cfg: Config, opts: R.Options, g: Q.Gate, s: R.Store, alive: set<R.Instance>, ops: seq<Op>)
    requires R.Valid(s)
    decreases |ops|
  {
    ops != [] ==>
      && InScope(cfg, g, s, alive, ops[0])
      && RunInScope(cfg, opts, StepQ(cfg, g, ops[0]), StepR(cfg, opts, s, alive, ops[0]),
                    Alive(alive, ops[0]), ops[1..])
  }

  /** The answers of the controller to the acquires of a run, in order. */
  function AnswersQ(cfg: Config, g: Q.Gate, ops: seq<Op>): seq<bool>
    decreases |ops|
  {
    if ops == [] then []
    else (if ops[0].Ask? then [AdmitsQ(cfg, g, ops[0])] else []) + AnswersQ(cfg, StepQ(cfg, g, ops[0]), ops[1..])
  }

  /** The answers of the script to the acquires of a run, in order. */
  function AnswersR(cfg: Config, opts: R.Options, s: R.Store, alive: set<R.Instance>, ops: seq<Op>): seq<bool>
    requires R.Valid(s)
    decreases |ops|
  {
    if ops == [] then []
    else
      (if ops[0].Ask? then [AdmitsR(cfg, opts, s, alive, ops[0])] else [])
      + AnswersR(cfg, opts, StepR(cfg, opts, s, alive, ops[0]), Alive(alive, ops[0]), ops[1..])
  }

  lemma {:induction false} RelatedAnswerAlike(cfg: Config, opts: R.Options, g: Q.Gate, s: R.Store,
                                              alive: set<R.Instance>, ops: seq<Op>)
    requires Plain(cfg) && Related(cfg, g, s)
    requires RunInScope(cfg, opts, g, s, alive, ops)
    ensures AnswersQ(cfg, g, ops) == AnswersR(cfg, opts, s, alive, ops)
    decreases |ops|
  {
    if ops != [] {
      var op := ops[0];
      if op.Ask? { AskSimulates(cfg, opts, g, s, alive, op); } else { GiveSimulates(cfg, opts, g, s, alive, op); }
      hide StepQ, StepR, AdmitsQ, AdmitsR, InScope;
      assert Related(cfg, StepQ(cfg, g, op), StepR(cfg, opts, s, alive, op));
      RelatedParts(cfg, StepQ(cfg, g, op), StepR(cfg, opts, s, alive, op));
      hide Related, Q.Valid, R.Valid;
      RelatedAnswerAlike(cfg, opts, StepQ(cfg, g, op), StepR(cfg, opts, s, alive, op), Alive(alive, op), ops[1..]);
    }
  }

  lemma EmptyRelated(cfg: Config)
    ensures Related(cfg, Q.IDLE, R.Empty())
  {
    assert SameWaiters(cfg, map[], map[], map[]);
  }

  /** From empty, the two gates give the same answer to every acquire of every run in scope. */
  lemma GatesAgree(cfg: Config, opts: R.Options, ops: seq<Op>)
    requires Plain(cfg)
    requires RunInScope(cfg, opts, Q.IDLE, R.Empty(), {}, ops)
    ensures AnswersQ(cfg, Q.IDLE, ops) == AnswersR(cfg, opts, R.Empty(), {}, ops)
  {
    EmptyRelated(cfg);
    RelatedAnswerAlike(cfg, opts, Q.IDLE, R.Empty(), {}, ops);
  }

  lemma FirstCallTakesSlot(cfg: Config, opts: R.Options, ask: Op)
    requires Plain(cfg) && ask.Ask? && ask.key != Some("")
    ensures R.Named(ask.id) in StepR(cfg, opts, R.Empty(), {}, ask).slots
  {
    var g, s, item := Q.IDLE, R.Empty(), ItemOf(ask);
    EmptyRelated(cfg);
    hide R.Registered, R.RightfulNext, R.Admit, R.Swept, R.Valid, Related;
    SweepIsNothing(s, {} + {ask.inst}, ask.now);
    AloneIsRightful(cfg, opts, g, s, ask.now, item);
    R.RegisteredKeepsSlots(cfg, opts, s, ask.now, item);
    R.AdmitSlots(cfg, R.Registered(cfg, opts, s, ask.now, item), ask.inst, ask.now, item);
  }

  /** The scope is not empty: any first call, and its release, are in it. */
  lemma FirstCallInScope(cfg: Config, opts: R.Options, ask: Op)
    requires Plain(cfg) && ask.Ask? && ask.key != Some("")
    ensures RunInScope(cfg, opts, Q.IDLE, R.Empty(), {}, [ask, Give(ask.id)])
  {
    FirstCallTakesSlot(cfg, opts, ask);
    assert InScope(cfg, Q.IDLE, R.Empty(), {}, ask);
    hide StepR, StepQ;
    var s1, rest := StepR(cfg, opts, R.Empty(), {}, ask), [Give(ask.id)];
    assert [ask, Give(ask.id)][1..] == rest && rest[1..] == [];
    assert RunInScope(cfg, opts, StepQ(cfg, Q.IDLE, ask), s1, Alive({}, ask), rest);
  }
}

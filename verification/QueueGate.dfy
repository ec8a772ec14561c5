/**
 * The in-process admission controller of one queue: a fixed-window rate limit, a concurrency cap, and
 * an order among blocked calls by priority, per-key fairness and arrival.
 * Models `QueueController` in packages/adonis/src/queue.ts.
 */
module QueueGate {
  import opened Admissions
  import opened Common

  /** Registration order; a call without an id compares as infinitely late. */
  datatype Arrival = Seq(n: nat) | Unregistered

  datatype Waiter = Waiter(priority: int, key: Option<FairKey>, arrival: Arrival)

  datatype Gate = Gate(
    inFlight: nat, windowStart: int, windowCount: nat,
    waiters: map<Id, Waiter>, waiterSeq: nat, served: map<FairKey, nat>, servedTick: nat)

  const IDLE := Gate(0, 0, 0, map[], 0, map[], 0)

  // ------------------------------------------------------------------ the order

  predicate Earlier(a: Arrival, b: Arrival) {
    a.Seq? && (b.Unregistered? || a.n < b.n)
  }

  function ServedOf(served: map<FairKey, nat>, key: Option<FairKey>): nat {
    if key.Some? && key.value in served then served[key.value] else 0
  }

  predicate Better(cfg: Config, served: map<FairKey, nat>, a: Waiter, b: Waiter) {
    if a.priority != b.priority then a.priority > b.priority
    else if cfg.fair && ServedOf(served, a.key) != ServedOf(served, b.key)
    then ServedOf(served, a.key) < ServedOf(served, b.key)
    else if cfg.lifo then Earlier(b.arrival, a.arrival)
    else Earlier(a.arrival, b.arrival)
  }

  lemma BetterIsTransitive(cfg: Config, served: map<FairKey, nat>, a: Waiter, b: Waiter, c: Waiter)
    requires Better(cfg, served, a, b) && Better(cfg, served, b, c)
    ensures Better(cfg, served, a, c) && a != c
  {
  }

  /** No two registered waiters share an arrival stamp, and stamps are below the counter. */
  predicate Stamped(g: Gate) {
    && (forall id | id in g.waiters :: g.waiters[id].arrival.Seq? && g.waiters[id].arrival.n < g.waiterSeq)
    && (forall a, b | a in g.waiters && b in g.waiters && a != b :: g.waiters[a].arrival != g.waiters[b].arrival)
  }

  predicate TicksBounded(g: Gate) {
    forall k | k in g.served :: g.served[k] <= g.servedTick
  }

  /** What holds in every state a controller can reach. */
  predicate Valid(g: Gate) {
    Stamped(g) && TicksBounded(g)
  }

  /** The order on registered waiters is a strict total order. */
  lemma BetterIsStrictTotal(cfg: Config, g: Gate, a: Id, b: Id)
    requires Valid(g) && a in g.waiters && b in g.waiters && a != b
    ensures Better(cfg, g.served, g.waiters[a], g.waiters[b]) <==> !Better(cfg, g.served, g.waiters[b], g.waiters[a])
    ensures forall c | c in g.waiters && Better(cfg, g.served, g.waiters[a], g.waiters[b])
                       && Better(cfg, g.served, g.waiters[b], g.waiters[c]) ::
              c != a && Better(cfg, g.served, g.waiters[a], g.waiters[c])
  {
    forall c | c in g.waiters && Better(cfg, g.served, g.waiters[a], g.waiters[b])
               && Better(cfg, g.served, g.waiters[b], g.waiters[c])
      ensures c != a && Better(cfg, g.served, g.waiters[a], g.waiters[c])
    {
      BetterIsTransitive(cfg, g.served, g.waiters[a], g.waiters[b], g.waiters[c]);
    }
  }

  // ------------------------------------------------------------- what a call does

  /** The caller as the order sees it: its hints now, and its first registration. */
  function Self(g: Gate, item: Item): Waiter {
    Waiter(PriorityOf(item), item.key,
           if item.waiterId.None? then Unregistered
           else if item.waiterId.value in g.waiters then g.waiters[item.waiterId.value].arrival
           else Seq(g.waiterSeq))
  }

  function Registered(g: Gate, item: Item): Gate {
    if item.waiterId.None? then g
    else g.(waiters := g.waiters[item.waiterId.value := Self(g, item)],
            waiterSeq := g.waiterSeq + if item.waiterId.value in g.waiters then 0 else 1)
  }

  predicate NobodyBetter(cfg: Config, g: Gate, self: Waiter) {
    forall id | id in g.waiters :: !Better(cfg, g.served, g.waiters[id], self)
  }

  /** The rate window as of `now`. */
  function Rolled(cfg: Config, g: Gate, now: int): Gate {
    if cfg.rate.Some? && now - g.windowStart >= cfg.rate.value.periodMs
    then g.(windowStart := now, windowCount := 0) else g
  }

  predicate RateSpent(cfg: Config, g: Gate) {
    cfg.rate.Some? && g.windowCount >= cfg.rate.value.limit
  }

  predicate Full(cfg: Config, g: Gate) {
    cfg.concurrency.Some? && g.inFlight >= cfg.concurrency.value
  }

  function Take(cfg: Config, g: Gate, item: Item): Gate {
    Gate(g.inFlight + 1, g.windowStart, g.windowCount + if cfg.rate.Some? then 1 else 0,
         if item.waiterId.Some? then g.waiters - {item.waiterId.value} else g.waiters, g.waiterSeq,
         if item.key.Some? then g.served[item.key.value := g.servedTick + 1] else g.served,
         g.servedTick + if item.key.Some? then 1 else 0)
  }

  /** The part of an attempt after the rate check, with the choice among waiters as a universal claim. */
  function Contend(cfg: Config, w: Gate, now: int, item: Item): (Gate, Admission) {
    if Full(cfg, w) then
      (if Ordered(cfg, item) then Registered(w, item) else w, Denied(now + cfg.retryMs))
    else if Ordered(cfg, item) && |w.waiters| > 0 then
      var r := Registered(w, item);
      if NobodyBetter(cfg, r, Self(w, item)) then (Take(cfg, r, item), Admitted)
      else (r, Denied(now + cfg.retryMs))
    else (Take(cfg, w, item), Admitted)
  }

  /** The specification of one admission attempt. */
  function Attempt(cfg: Config, g: Gate, now: int, item: Item): (Gate, Admission) {
    var w := Rolled(cfg, g, now);
    if RateSpent(cfg, w) then (w, Denied(w.windowStart + cfg.rate.value.periodMs))
    else Contend(cfg, w, now, item)
  }

  function Released(g: Gate): Gate {
    if g.inFlight > 0 then g.(inFlight := g.inFlight - 1) else g
  }

  // ------------------------------------------------------------- the controller

  class QueueController {
    const config: Config
    var inFlight: nat
    var windowStart: int
    var windowCount: nat
    var waiters: map<Id, Waiter>
    var waiterSeq: nat
    var keyServed: map<FairKey, nat>
    var servedTick: nat

    function Abs(): Gate
      reads this
    {
      Gate(inFlight, windowStart, windowCount, waiters, waiterSeq, keyServed, servedTick)
    }

    constructor (config: Config)
      ensures Abs() == IDLE && this.config == config
    {
      this.config := config;
      inFlight, windowStart, windowCount := 0, 0, 0;
      waiters, waiterSeq := map[], 0;
      keyServed, servedTick := map[], 0;
    }

    method Register(waiterId: Id, item: Item)
      requires item.waiterId == Some(waiterId)
      modifies this`waiters, this`waiterSeq
      ensures Abs() == Registered(old(Abs()), item)
    {
      if waiterId in waiters {
        waiters := waiters[waiterId := waiters[waiterId].(priority := PriorityOf(item), key := item.key)];
        return;
      }
      waiters := waiters[waiterId := Waiter(PriorityOf(item), item.key, Seq(waiterSeq))];
      waiterSeq := waiterSeq + 1;
    }

    /** The loop keeps the best candidate seen; the caller is next when it is never displaced. */
    method IsNext(item: Item) returns (next: bool)
      requires item.waiterId.Some? ==> item.waiterId.value in waiters
      ensures var self := if item.waiterId.Some? then waiters[item.waiterId.value]
                          else Waiter(PriorityOf(item), item.key, Unregistered);
              next <==> NobodyBetter(config, Abs(), self)
    {
      var self := if item.waiterId.Some? then waiters[item.waiterId.value]
                  else Waiter(PriorityOf(item), item.key, Unregistered);
      var best, bestIsSelf, todo := self, true, waiters.Keys;
      while todo != {}
        invariant todo <= waiters.Keys
        invariant bestIsSelf ==> best == self
        invariant bestIsSelf ==> forall id | id in waiters.Keys - todo :: !Better(config, keyServed, waiters[id], self)
        invariant !bestIsSelf ==> Better(config, keyServed, best, self)
                                  && exists id :: id in waiters && waiters[id] == best
        decreases |todo|
      {
        var id :| id in todo;
        if Better(config, keyServed, waiters[id], best) {
          if !bestIsSelf { BetterIsTransitive(config, keyServed, waiters[id], best, self); }
          best := waiters[id];
          bestIsSelf := item.waiterId == Some(id);
        }
        todo := todo - {id};
      }
      next := bestIsSelf;
    }

    /** The last block of an attempt: take the slot and the rate tick, forget the waiter, serve the key. */
    method Commit(item: Item)
      modifies this
      ensures Abs() == Take(config, old(Abs()), item)
    {
      if config.rate.Some? { windowCount := windowCount + 1; }
      inFlight := inFlight + 1;
      if item.waiterId.Some? { waiters := waiters - {item.waiterId.value}; }
      if item.key.Some? {
        servedTick := servedTick + 1;
        keyServed := keyServed[item.key.value := servedTick];
      }
    }

    method TryAdmit(now: int, item: Item) returns (answer: Admission)
      modifies this
      ensures (Abs(), answer) == Attempt(config, old(Abs()), now, item)
    {
      hide Better, NobodyBetter;
      if config.rate.Some? {
        if now - windowStart >= config.rate.value.periodMs {
          windowStart := now;
          windowCount := 0;
        }
        if windowCount >= config.rate.value.limit {
          return Denied(windowStart + config.rate.value.periodMs);
        }
      }
      ghost var rolled := Abs();
      assert rolled == Rolled(config, old(Abs()), now) && !RateSpent(config, rolled);
      assert Attempt(config, old(Abs()), now, item) == Contend(config, rolled, now, item);
      hide Attempt, Rolled, RateSpent;
      var usingOrder := config.fair || config.lifo || item.priority.Some? || item.waiterId.Some?;
      var full := config.concurrency.Some? && inFlight >= config.concurrency.value;
      if full {
        if usingOrder && item.waiterId.Some? { Register(item.waiterId.value, item); }
        return Denied(now + config.retryMs);
      }
      if usingOrder && |waiters| > 0 {
        if item.waiterId.Some? { Register(item.waiterId.value, item); }
        assert Abs() == Registered(rolled, item);
        var next := IsNext(item);
        assert next <==> NobodyBetter(config, Registered(rolled, item), Self(rolled, item));
        hide Registered, Self;
        if !next { return Denied(now + config.retryMs); }
      }
      ghost var ready := Abs();
      assert Contend(config, rolled, now, item) == (Take(config, ready, item), Admitted);
      hide Contend;
      Commit(item);
      answer := Admitted;
    }

    method Release()
      modifies this`inFlight
      ensures Abs() == Released(old(Abs()))
    {
      if inFlight > 0 { inFlight := inFlight - 1; }
    }
  }

  // ------------------------------------------------------------------- traces

  datatype Call = Acquire(now: int, item: Item) | Free

  function Do(cfg: Config, g: Gate, call: Call): Gate {
    match call
    case Acquire(now, item) => Attempt(cfg, g, now, item).0
    case Free => Released(g)
  }

  predicate Admits(cfg: Config, g: Gate, call: Call) {
    call.Acquire? && Attempt(cfg, g, call.now, call.item).1.Admitted?
  }

  function Run(cfg: Config, g: Gate, calls: seq<Call>): Gate
    decreases |calls|
  {
    if calls == [] then g else Run(cfg, Do(cfg, g, calls[0]), calls[1..])
  }

  /** The times of the admissions of a run. */
  function AdmissionLog(cfg: Config, g: Gate, calls: seq<Call>): seq<int>
    decreases |calls|
  {
    if calls == [] then []
    else (if Admits(cfg, g, calls[0]) then [calls[0].now] else [])
         + AdmissionLog(cfg, Do(cfg, g, calls[0]), calls[1..])
  }

  /** The clock never runs backwards and starts no earlier than `from`. */
  predicate Clocked(from: int, calls: seq<Call>)
    decreases |calls|
  {
    calls != [] ==>
      if calls[0].Acquire? then from <= calls[0].now && Clocked(calls[0].now, calls[1..])
      else Clocked(from, calls[1..])
  }

  lemma RegisteredKeepsValid(g: Gate, item: Item)
    requires Valid(g)
    ensures Valid(Registered(g, item))
  {
  }

  lemma TakeKeepsValid(cfg: Config, g: Gate, item: Item)
    requires Valid(g)
    ensures Valid(Take(cfg, g, item))
  {
  }

  lemma DoKeepsValid(cfg: Config, g: Gate, call: Call)
    requires Valid(g)
    ensures Valid(Do(cfg, g, call))
  {
    if call.Acquire? {
      var w := Rolled(cfg, g, call.now);
      assert Valid(w);
      hide Valid, NobodyBetter, Take, Registered, Rolled;
      RegisteredKeepsValid(w, call.item);
      TakeKeepsValid(cfg, w, call.item);
      TakeKeepsValid(cfg, Registered(w, call.item), call.item);
    }
  }

  lemma {:induction false} RunKeepsValid(cfg: Config, g: Gate, calls: seq<Call>)
    requires Valid(g)
    ensures Valid(Run(cfg, g, calls))
    decreases |calls|
  {
    if calls != [] {
      DoKeepsValid(cfg, g, calls[0]);
      RunKeepsValid(cfg, Do(cfg, g, calls[0]), calls[1..]);
    }
  }
}

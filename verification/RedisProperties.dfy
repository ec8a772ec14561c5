/**
 * The shared gate under crashes: over any sequence of acquires, releases, heartbeats and lapses the
 * slots stay within the cap, dead owners lose theirs before the count, rate windows hold exactly for
 * clocks that agree, and an abandoned waiter stops blocking once its place expires.
 * Models packages/adonis/src/admission-redis/redis-admission-backend.ts.
 */
module RedisProperties {
  import opened Admissions
  import opened Common
  import opened RedisGate
  import QueueGate

  datatype World = World(store: Store, alive: set<Instance>)

  datatype Event =
    | Ask(inst: Instance, now: int, item: Item)
    | Give(slot: Name)
    | Beat(inst: Instance)
    | Lapse(inst: Instance)
    // the server's clock goes on
    | Pass(ms: nat)

  function Answer(cfg: Config, opts: Options, w: World, e: Event): Admission
    requires Valid(w.store) && e.Ask?
  {
    Acquire(cfg, opts, w.store, w.alive + {e.inst}, e.inst, e.now, e.item).1
  }

  function Next(cfg: Config, opts: Options, w: World, e: Event): (w': World)
    requires Valid(w.store)
    ensures Valid(w'.store)
  {
    match e
    case Ask(inst, now, item) =>
      AcquireKeepsValid(cfg, opts, w.store, w.alive + {inst}, inst, now, item);
      World(Acquire(cfg, opts, w.store, w.alive + {inst}, inst, now, item).0, w.alive + {inst})
    case Give(slot) => w.(store := w.store.(slots := w.store.slots - {slot}))
    case Beat(inst) => w.(alive := w.alive + {inst})
    case Lapse(inst) => w.(alive := w.alive - {inst})
    case Pass(ms) => w.(store := w.store.(time := w.store.time + ms))
  }

  function Run(cfg: Config, opts: Options, w: World, events: seq<Event>): (w': World)
    requires Valid(w.store)
    ensures Valid(w'.store)
    decreases |events|
  {
    if events == [] then w else Run(cfg, opts, Next(cfg, opts, w, events[0]), events[1..])
  }

  // ------------------------------------------------------------------ cap and reclaim

  /** What an acquire does to the slots: it drops the dead and then adds at most its own, under the cap. */
  lemma SlotsAfterAsk(cfg: Config, opts: Options, w: World, e: Event)
    requires Valid(w.store) && e.Ask?
    ensures var live := Reclaimed(w.store, w.alive + {e.inst}).slots;
            var after := Next(cfg, opts, w, e).store.slots;
            if Answer(cfg, opts, w, e).Admitted?
            then after == live[NameOf(e.now, e.item) := e.inst] && (CapOf(cfg) > 0 ==> |live| < CapOf(cfg))
            else after == live
  {
    hide Valid, RightfulNext, RateSpent, Pruned, Reclaimed, Registered, Admit;
    var alive := w.alive + {e.inst};
    var t := Swept(w.store, alive, e.now);
    KeepsSlots(Reclaimed(w.store, alive), e.now);
    RegisteredKeepsSlots(cfg, opts, t, e.now, e.item);
    AdmitSlots(cfg, t, e.inst, e.now, e.item);
    AdmitSlots(cfg, Registered(cfg, opts, t, e.now, e.item), e.inst, e.now, e.item);
  }

  /**
   * An admitted acquire takes one more slot exactly when its name holds no live slot already; calls
   * without an id in the same millisecond, or a second acquire of one id, share theirs.
   */
  lemma SlotAddedIffNameFree(cfg: Config, opts: Options, w: World, e: Event)
    requires Valid(w.store) && e.Ask? && Answer(cfg, opts, w, e).Admitted?
    ensures var live := Reclaimed(w.store, w.alive + {e.inst}).slots;
            |Next(cfg, opts, w, e).store.slots| == |live| + 1 <==> NameOf(e.now, e.item) !in live
    ensures forall now, item: Item :: NameOf(now, item) == NameOf(e.now, e.item)
              <==> item.waiterId == e.item.waiterId && (item.waiterId.None? ==> now == e.now)
  {
    SlotsAfterAsk(cfg, opts, w, e);
    var live := Reclaimed(w.store, w.alive + {e.inst}).slots;
    var n := NameOf(e.now, e.item);
    assert live[n := e.inst].Keys == live.Keys + {n};
    hide *;
  }

  lemma SubmapSize(a: map<Name, Instance>, b: map<Name, Instance>)
    requires a.Keys <= b.Keys
    ensures |a| <= |b|
  {
    var rest := b.Keys - a.Keys;
    assert b.Keys == a.Keys + rest;
    assert |a.Keys| + |rest| == |b.Keys|;
  }

  lemma {:induction false} SlotsWithinCap(cfg: Config, opts: Options, w: World, events: seq<Event>)
    requires Valid(w.store) && CapOf(cfg) > 0 && |w.store.slots| <= CapOf(cfg)
    ensures |Run(cfg, opts, w, events).store.slots| <= CapOf(cfg)
    decreases |events|
  {
    hide Valid, Next, CapOf;
    if events != [] {
      SlotsStayWithin(cfg, opts, w, events[0]);
      SlotsWithinCap(cfg, opts, Next(cfg, opts, w, events[0]), events[1..]);
    }
  }

  lemma SlotsStayWithin(cfg: Config, opts: Options, w: World, e: Event)
    requires Valid(w.store) && CapOf(cfg) > 0 && |w.store.slots| <= CapOf(cfg)
    ensures |Next(cfg, opts, w, e).store.slots| <= CapOf(cfg)
  {
    hide Valid, Acquire, Answer, CapOf;
    var w' := Next(cfg, opts, w, e);
    match e {
      case Ask(inst, now, item) =>
        SlotsAfterAsk(cfg, opts, w, e);
        SubmapSize(Reclaimed(w.store, w.alive + {inst}).slots, w.store.slots);
      case Give(slot) => SubmapSize(w'.store.slots, w.store.slots);
      case _ =>
    }
  }

  /** After any acquire, in any state, every slot left belongs to a live instance. */
  lemma DeadSlotsDropped(cfg: Config, opts: Options, w: World, e: Event)
    requires Valid(w.store) && e.Ask?
    ensures var after := Next(cfg, opts, w, e).store;
            forall n | n in after.slots :: after.slots[n] in w.alive + {e.inst}
  {
    SlotsAfterAsk(cfg, opts, w, e);
    hide Acquire;
  }

  // --------------------------------------------------------------------- rate windows

  /** How many acquires of the run were admitted in the rate window `window`. */
  function AdmittedIn(cfg: Config, opts: Options, w: World, events: seq<Event>, window: int): nat
    requires Valid(w.store)
    decreases |events|
  {
    if events == [] then 0
    else
      var e := events[0];
      (if e.Ask? && WindowOf(cfg, e.now) == window && Answer(cfg, opts, w, e).Admitted? then 1 else 0)
      + AdmittedIn(cfg, opts, Next(cfg, opts, w, events[0]), events[1..], window)
  }

  /** The last count written for the window, lapsed or not. */
  function Last(s: Store, window: int): int {
    if window in s.counts then s.counts[window].count else 0
  }

  predicate AdmitsIn(cfg: Config, opts: Options, w: World, e: Event, window: int)
    requires Valid(w.store)
  {
    e.Ask? && WindowOf(cfg, e.now) == window && Answer(cfg, opts, w, e).Admitted?
  }

  /** What one event does to the counters: an admission counts one up, from none if the counter had lapsed. */
  lemma CountAfter(cfg: Config, opts: Options, w: World, e: Event, window: int)
    requires Valid(w.store) && LimitOf(cfg) > 0 && PeriodOf(cfg) > 0
    ensures var s, s' := w.store, Next(cfg, opts, w, e).store;
            if AdmitsIn(cfg, opts, w, e, window)
            then && CountIn(s, window) < LimitOf(cfg) && window in s'.counts && s'.time == s.time
                 && s'.counts[window] == Counter(CountIn(s, window) + 1, s.time + PeriodOf(cfg))
            else (window in s'.counts <==> window in s.counts)
                 && (window in s.counts ==> s'.counts[window] == s.counts[window])
  {
    hide Valid, RightfulNext, Full, Pruned, Registered;
    if e.Ask? {
      var alive := w.alive + {e.inst};
      KeepsSlots(Reclaimed(w.store, alive), e.now);
      RegisteredKeepsSlots(cfg, opts, Swept(w.store, alive, e.now), e.now, e.item);
    }
  }

  /** How often an admission to the window started over because the window's counter had lapsed. */
  function Restarts(cfg: Config, opts: Options, w: World, events: seq<Event>, window: int): nat
    requires Valid(w.store)
    decreases |events|
  {
    if events == [] then 0
    else
      (if AdmitsIn(cfg, opts, w, events[0], window) && Lapsed(w.store, window) then 1 else 0)
      + Restarts(cfg, opts, Next(cfg, opts, w, events[0]), events[1..], window)
  }

  /** Over every run, a window admits at most the limit once, and once more for each restart of its counter. */
  lemma {:induction false} AdmittedPerRestart(cfg: Config, opts: Options, w: World, events: seq<Event>, window: int)
    requires Valid(w.store) && LimitOf(cfg) > 0 && PeriodOf(cfg) > 0 && 0 <= Last(w.store, window) <= LimitOf(cfg)
    ensures Last(w.store, window) + AdmittedIn(cfg, opts, w, events, window)
            <= LimitOf(cfg) * (1 + Restarts(cfg, opts, w, events, window))
    decreases |events|
  {
    hide Valid, Next, Answer, WindowOf;
    if events != [] {
      var w' := Next(cfg, opts, w, events[0]);
      CountAfter(cfg, opts, w, events[0], window);
      AdmittedPerRestart(cfg, opts, w', events[1..], window);
      var rest := Restarts(cfg, opts, w', events[1..], window);
      assert LimitOf(cfg) * (1 + (rest + 1)) == LimitOf(cfg) * (1 + rest) + LimitOf(cfg);
    }
  }

  /** No caller asks for a window whose counter has lapsed. */
  predicate Punctual(cfg: Config, opts: Options, w: World, events: seq<Event>)
    requires Valid(w.store)
    decreases |events|
  {
    events != [] ==>
      && (events[0].Ask? ==> !Lapsed(w.store, WindowOf(cfg, events[0].now)))
      && Punctual(cfg, opts, Next(cfg, opts, w, events[0]), events[1..])
  }

  lemma {:induction false} PunctualNeverRestarts(cfg: Config, opts: Options, w: World, events: seq<Event>, window: int)
    requires Valid(w.store) && Punctual(cfg, opts, w, events)
    ensures Restarts(cfg, opts, w, events, window) == 0
    decreases |events|
  {
    hide Valid, Next, Answer, WindowOf, Lapsed;
    if events != [] {
      PunctualNeverRestarts(cfg, opts, Next(cfg, opts, w, events[0]), events[1..], window);
    }
  }

  /** A server at some time of day, with nothing stored. */
  function Started(time: int): (w: World)
    ensures Valid(w.store) && w.store.counts == map[]
  {
    World(Empty().(time := time), {})
  }

  /** From empty, no rate window admits more than the limit unless a caller asks for one that has lapsed. */
  lemma WindowCap(cfg: Config, opts: Options, time: int, events: seq<Event>, window: int)
    requires LimitOf(cfg) > 0 && PeriodOf(cfg) > 0 && Punctual(cfg, opts, Started(time), events)
    ensures AdmittedIn(cfg, opts, Started(time), events, window) <= LimitOf(cfg)
  {
    AdmittedPerRestart(cfg, opts, Started(time), events, window);
    PunctualNeverRestarts(cfg, opts, Started(time), events, window);
  }

  // How far the callers' clocks may be from the server's, and so from each other's.

  /** Every caller's clock is ahead of the server's by at least `lo` and at most `hi` as it asks. */
  predicate ClocksWithin(cfg: Config, opts: Options, w: World, events: seq<Event>, lo: int, hi: int)
    requires Valid(w.store)
    decreases |events|
  {
    events != [] ==>
      && (events[0].Ask? ==> lo <= events[0].now - w.store.time <= hi)
      && ClocksWithin(cfg, opts, Next(cfg, opts, w, events[0]), events[1..], lo, hi)
  }

  lemma WindowBounds(cfg: Config, now: int)
    requires PeriodOf(cfg) > 0
    ensures var k, p := WindowOf(cfg, now), PeriodOf(cfg); k * p <= now < k * p + p
  {
  }

  /** A counter outlives its window, read on the fastest clock. */
  predicate Lasting(cfg: Config, s: Store, hi: int) {
    forall k | k in s.counts :: s.counts[k].expiresAt >= k * PeriodOf(cfg) + PeriodOf(cfg) - hi
  }

  lemma StepKeepsLasting(cfg: Config, opts: Options, w: World, e: Event, hi: int)
    requires Valid(w.store) && LimitOf(cfg) > 0 && PeriodOf(cfg) > 0 && Lasting(cfg, w.store, hi)
    requires e.Ask? ==> e.now - w.store.time <= hi
    ensures Lasting(cfg, Next(cfg, opts, w, e).store, hi)
  {
    var s' := Next(cfg, opts, w, e).store;
    hide Valid, Next, Answer;
    forall k | k in s'.counts
      ensures s'.counts[k].expiresAt >= k * PeriodOf(cfg) + PeriodOf(cfg) - hi
    {
      CountAfter(cfg, opts, w, e, k);
      if AdmitsIn(cfg, opts, w, e, k) {
        WindowBounds(cfg, e.now);
        assert s'.counts[k].expiresAt == w.store.time + PeriodOf(cfg);
      }
    }
  }

  lemma {:induction false} CloseClocksArePunctual(cfg: Config, opts: Options, w: World, events: seq<Event>,
                                                  lo: int, hi: int)
    requires Valid(w.store) && LimitOf(cfg) > 0 && PeriodOf(cfg) > 0 && hi - lo <= 1
    requires Lasting(cfg, w.store, hi) && ClocksWithin(cfg, opts, w, events, lo, hi)
    ensures Punctual(cfg, opts, w, events)
    decreases |events|
  {
    if events != [] {
      var e := events[0];
      StepKeepsLasting(cfg, opts, w, e, hi);
      if e.Ask? {
        WindowBounds(cfg, e.now);
        var k := WindowOf(cfg, e.now);
        hide Valid, Next, WindowOf;
        assert k in w.store.counts ==> w.store.counts[k].expiresAt >= k * PeriodOf(cfg) + PeriodOf(cfg) - hi;
      }
      hide *;
      CloseClocksArePunctual(cfg, opts, Next(cfg, opts, w, e), events[1..], lo, hi);
    }
  }

  // Two callers 2 ms apart: the first fills a window, and as its counter has lapsed the second, whose
  // clock still reads the last millisecond of the window, is admitted too.

  const PLAIN := Item(None, None, None)

  /** The first millisecond of a rate window. */
  function Opening(cfg: Config, k: nat): int {
    k * PeriodOf(cfg)
  }

  lemma OpeningIsIn(cfg: Config, k: nat)
    requires PeriodOf(cfg) > 0
    ensures WindowOf(cfg, Opening(cfg, k)) == k && WindowOf(cfg, Opening(cfg, k) + PeriodOf(cfg) - 1) == k
    ensures Opening(cfg, k) >= k
  {
    var p := PeriodOf(cfg);
    QuotientIs(k * p, k, p, 0);
    QuotientIs(k * p + p - 1, k, p, p - 1);
  }

  lemma QuotientIs(x: int, k: nat, p: int, r: int)
    requires p > 0 && x == k * p + r && 0 <= r < p
    ensures x / p == k && x >= k
  {
    var q := x / p;
    assert x == q * p + x % p;
    assert (k - q) * p == x % p - r;
    AtLeastOne(k - q, p);
    AtLeastOne(q - k, p);
    AtLeastK(k, p);
  }

  lemma AtLeastOne(d: int, p: int)
    requires p > 0
    ensures d >= 1 ==> d * p >= p
    ensures d * p == -((-d) * p)
  {
  }

  lemma AtLeastK(k: nat, p: int)
    requires p > 0
    ensures k * p >= k
  {
  }

  /** `n` callers fill window `k` and leave; a period and a millisecond later another asks for it. */
  function LateCall(cfg: Config, k: nat, n: nat): seq<Event> {
    if n == 0 then
      [Pass(if PeriodOf(cfg) > 0 then PeriodOf(cfg) + 1 else 0), Ask(1, Opening(cfg, k) + PeriodOf(cfg) - 1, PLAIN)]
    else [Ask(0, Opening(cfg, k), PLAIN), Give(Anonymous(Opening(cfg, k)))] + LateCall(cfg, k, n - 1)
  }

  /** Nobody holds a slot or waits, and window `k` has admitted `n`. */
  predicate Idle(cfg: Config, w: World, k: nat, time: int, n: nat) {
    && Valid(w.store) && w.store.slots == map[] && w.store.scores == map[] && w.store.time == time
    && if n == 0 then k !in w.store.counts
       else k in w.store.counts && w.store.counts[k] == Counter(n, time + PeriodOf(cfg))
  }

  /** With nobody holding a slot or waiting, and the window not spent, a caller is admitted at once. */
  lemma IdleAdmits(cfg: Config, opts: Options, w: World, e: Event)
    requires Valid(w.store) && w.store.slots == map[] && w.store.scores == map[]
    requires e.Ask? && !RateSpent(cfg, w.store, e.now)
    ensures Answer(cfg, opts, w, e).Admitted?
    ensures var s' := Next(cfg, opts, w, e).store;
            s'.slots == map[NameOf(e.now, e.item) := e.inst] && s'.scores == map[] && s'.time == w.store.time
  {
    var alive := w.alive + {e.inst};
    var t := Swept(w.store, alive, e.now);
    assert t.slots == map[] && t.scores == map[] && t.counts == w.store.counts && t.time == w.store.time;
    var u := Registered(cfg, opts, t, e.now, e.item);
    SweptKeepsValid(w.store, alive, e.now);
    RegisteredKeepsValid(cfg, opts, t, e.now, e.item);
    assert u.scores.Keys == {NameOf(e.now, e.item)};
    hide Valid, Precedes, Swept;
  }

  /** The state after one caller of window `k` has come and gone. */
  function AfterRound(cfg: Config, opts: Options, w: World, k: nat): (w': World)
    requires Valid(w.store)
    ensures Valid(w'.store)
  {
    Next(cfg, opts, Next(cfg, opts, w, Ask(0, Opening(cfg, k), PLAIN)), Give(Anonymous(Opening(cfg, k))))
  }

  lemma OneRound(cfg: Config, opts: Options, w: World, k: nat, time: int, n: nat)
    requires Idle(cfg, w, k, time, n) && n < LimitOf(cfg) && PeriodOf(cfg) > 0
    ensures AdmitsIn(cfg, opts, w, Ask(0, Opening(cfg, k), PLAIN), k)
    ensures Idle(cfg, AfterRound(cfg, opts, w, k), k, time, n + 1)
  {
    var e := Ask(0, Opening(cfg, k), PLAIN);
    OpeningIsIn(cfg, k);
    IdleAdmits(cfg, opts, w, e);
    CountAfter(cfg, opts, w, e, k);
    var w1 := Next(cfg, opts, w, e);
    hide Valid, Acquire, Answer;
    assert w1.store.slots - {Anonymous(Opening(cfg, k))} == map[];
  }

  /** One event ahead of a run whose caller, if it is a call, reads an admissible clock. */
  lemma Ahead(cfg: Config, opts: Options, w: World, k: int, e: Event, tail: seq<Event>, lo: int, hi: int)
    requires Valid(w.store) && (e.Ask? ==> lo <= e.now - w.store.time <= hi)
    ensures ClocksWithin(cfg, opts, w, [e] + tail, lo, hi)
            <==> ClocksWithin(cfg, opts, Next(cfg, opts, w, e), tail, lo, hi)
    ensures AdmittedIn(cfg, opts, w, [e] + tail, k)
            == (if AdmitsIn(cfg, opts, w, e, k) then 1 else 0) + AdmittedIn(cfg, opts, Next(cfg, opts, w, e), tail, k)
  {
    hide Valid, Next, Answer, WindowOf;
    assert ([e] + tail)[1..] == tail;
  }

  /** A period and a millisecond after window `k` was last counted in, it is open to a slower caller. */
  lemma LastAdmitted(cfg: Config, opts: Options, w: World, k: nat, time: int, n: nat)
    requires Idle(cfg, w, k, time, n) && LimitOf(cfg) > 0 && PeriodOf(cfg) > 0
    ensures var w1 := Next(cfg, opts, w, Pass(PeriodOf(cfg) + 1));
            && w1.store.time == time + PeriodOf(cfg) + 1
            && AdmitsIn(cfg, opts, w1, Ask(1, Opening(cfg, k) + PeriodOf(cfg) - 1, PLAIN), k)
  {
    var w1 := Next(cfg, opts, w, Pass(PeriodOf(cfg) + 1));
    var e := Ask(1, Opening(cfg, k) + PeriodOf(cfg) - 1, PLAIN);
    assert WindowOf(cfg, e.now) == k by { OpeningIsIn(cfg, k); }
    assert CountIn(w1.store, k) == 0;
    hide Valid, WindowOf;
    IdleAdmits(cfg, opts, w1, e);
  }

  lemma LastCall(cfg: Config, opts: Options, w: World, k: nat, time: int, n: nat, lo: int, hi: int)
    requires Idle(cfg, w, k, time, n) && LimitOf(cfg) > 0 && PeriodOf(cfg) > 0
    requires time == Opening(cfg, k) - (lo + 2) && lo + 2 <= hi
    ensures ClocksWithin(cfg, opts, w, LateCall(cfg, k, 0), lo, hi)
    ensures AdmittedIn(cfg, opts, w, LateCall(cfg, k, 0), k) == 1
  {
    var pass, e := Pass(PeriodOf(cfg) + 1), Ask(1, Opening(cfg, k) + PeriodOf(cfg) - 1, PLAIN);
    var w1 := Next(cfg, opts, w, pass);
    LastAdmitted(cfg, opts, w, k, time, n);
    NotACall(cfg, opts, w, k, pass);
    assert Valid(w.store);
    assert LateCall(cfg, k, 0) == [pass, e];
    assert w.store.time == time;
    hide *;
    assert [pass, e] == [pass] + ([e] + []);
    NoneAhead(cfg, opts, Next(cfg, opts, w1, e), k, lo, hi);
    Ahead(cfg, opts, w1, k, e, [], lo, hi);
    Ahead(cfg, opts, w, k, pass, [e] + [], lo, hi);
  }

  lemma NoneAhead(cfg: Config, opts: Options, w: World, k: int, lo: int, hi: int)
    requires Valid(w.store)
    ensures ClocksWithin(cfg, opts, w, [], lo, hi) && AdmittedIn(cfg, opts, w, [], k) == 0
  {
  }

  lemma NotACall(cfg: Config, opts: Options, w: World, k: int, e: Event)
    requires Valid(w.store) && !e.Ask?
    ensures !AdmitsIn(cfg, opts, w, e, k)
  {
  }

  lemma RoundAhead(cfg: Config, opts: Options, w: World, k: nat, time: int, n: nat, rest: seq<Event>, lo: int,
                   hi: int)
    requires Idle(cfg, w, k, time, n) && n < LimitOf(cfg) && PeriodOf(cfg) > 0
    requires time == Opening(cfg, k) - (lo + 2) && lo + 2 <= hi
    ensures Valid(w.store) && Idle(cfg, AfterRound(cfg, opts, w, k), k, time, n + 1)
    ensures var all := [Ask(0, Opening(cfg, k), PLAIN), Give(Anonymous(Opening(cfg, k)))] + rest;
            var w' := AfterRound(cfg, opts, w, k);
            && (ClocksWithin(cfg, opts, w, all, lo, hi) <==> ClocksWithin(cfg, opts, w', rest, lo, hi))
            && AdmittedIn(cfg, opts, w, all, k) == 1 + AdmittedIn(cfg, opts, w', rest, k)
  {
    var e, g := Ask(0, Opening(cfg, k), PLAIN), Give(Anonymous(Opening(cfg, k)));
    var w1 := Next(cfg, opts, w, e);
    OneRound(cfg, opts, w, k, time, n);
    NotACall(cfg, opts, w1, k, g);
    assert w.store.time == time;
    hide Answer, Next, Valid, AdmitsIn, Idle, ClocksWithin, AdmittedIn;
    assert [e, g] + rest == [e] + ([g] + rest);
    Ahead(cfg, opts, w1, k, g, rest, lo, hi);
    Ahead(cfg, opts, w, k, e, [g] + rest, lo, hi);
  }

  lemma LateCallUnfolds(cfg: Config, k: nat, n: nat)
    requires n > 0
    ensures LateCall(cfg, k, n)
            == [Ask(0, Opening(cfg, k), PLAIN), Give(Anonymous(Opening(cfg, k)))] + LateCall(cfg, k, n - 1)
  {
  }

  lemma {:induction false} LateCallOverAdmits(cfg: Config, opts: Options, w: World, k: nat, time: int, n: nat,
                                              lo: int, hi: int)
    requires n <= LimitOf(cfg) && Idle(cfg, w, k, time, LimitOf(cfg) - n) && LimitOf(cfg) > 0 && PeriodOf(cfg) > 0
    requires time == Opening(cfg, k) - (lo + 2) && lo + 2 <= hi
    ensures ClocksWithin(cfg, opts, w, LateCall(cfg, k, n), lo, hi)
    ensures AdmittedIn(cfg, opts, w, LateCall(cfg, k, n), k) == n + 1
    decreases n
  {
    hide *;
    if n == 0 {
      LastCall(cfg, opts, w, k, time, LimitOf(cfg), lo, hi);
    } else {
      LateCallUnfolds(cfg, k, n);
      RoundAhead(cfg, opts, w, k, time, LimitOf(cfg) - n, LateCall(cfg, k, n - 1), lo, hi);
      LateCallOverAdmits(cfg, opts, AfterRound(cfg, opts, w, k), k, time, n - 1, lo, hi);
    }
  }

  /** Every run from empty, on a server started no earlier than `from`, keeps every window within the limit. */
  ghost predicate CapHolds(cfg: Config, opts: Options, from: int, lo: int, hi: int) {
    forall time: int, events: seq<Event>, window: int ::
      from <= time && ClocksWithin(cfg, opts, Started(time), events, lo, hi)
      ==> AdmittedIn(cfg, opts, Started(time), events, window) <= LimitOf(cfg)
  }

  /**
   * The rate limit per window, exactly: for callers whose clocks are ahead of the server's by anything
   * from `lo` to `hi`, no run admits more than the limit to any window if and only if that is at most a
   * millisecond of difference, however late the server is started. Otherwise a window is reopened once its
   * counter has lapsed.
   */
  lemma WindowCapIffClocksAgree(cfg: Config, opts: Options, from: int, lo: int, hi: int)
    requires LimitOf(cfg) > 0 && PeriodOf(cfg) > 0 && lo <= hi
    ensures CapHolds(cfg, opts, from, lo, hi) <==> hi - lo <= 1
  {
    hide Valid, AdmittedIn, ClocksWithin, Punctual, Opening, LateCall;
    if hi - lo <= 1 {
      forall time: int, events: seq<Event>, window: int | ClocksWithin(cfg, opts, Started(time), events, lo, hi)
        ensures AdmittedIn(cfg, opts, Started(time), events, window) <= LimitOf(cfg)
      {
        CloseClocksArePunctual(cfg, opts, Started(time), events, lo, hi);
        WindowCap(cfg, opts, time, events, window);
      }
    } else {
      var k: nat := (if from > 0 then from else 0) + (if lo > 0 then lo else 0) + 2;
      OpeningIsIn(cfg, k);
      var time := Opening(cfg, k) - (lo + 2);
      LateCallOverAdmits(cfg, opts, Started(time), k, time, LimitOf(cfg), lo, hi);
    }
  }

  // ------------------------------------------------------------ settings of zero and less

  /** A concurrency and a rate limit that let something through. */
  predicate Opens(cfg: Config) {
    && (cfg.concurrency.None? || cfg.concurrency.value >= 1)
    && (cfg.rate.None? || cfg.rate.value.limit >= 1)
  }

  predicate FirstCallAgrees(cfg: Config, opts: Options, inst: Instance, now: int, item: Item) {
    QueueGate.Attempt(cfg, QueueGate.IDLE, now, item).1.Admitted?
    <==> Answer(cfg, opts, Started(0), Ask(inst, now, item)).Admitted?
  }

  lemma FirstCallAdmitted(cfg: Config, opts: Options, inst: Instance, now: int, item: Item)
    ensures Answer(cfg, opts, Started(0), Ask(inst, now, item)).Admitted?
    ensures Opens(cfg) ==> QueueGate.Attempt(cfg, QueueGate.IDLE, now, item).1.Admitted?
  {
    IdleAdmits(cfg, opts, Started(0), Ask(inst, now, item));
    hide Acquire, Valid;
  }

  /**
   * The two gates answer every first call alike exactly when the concurrency and the rate limit are
   * absent or at least 1: otherwise the controller never admits anyone and the script takes no notice.
   */
  lemma SettingsAgreeIff(cfg: Config, opts: Options)
    ensures (forall inst: Instance, now: int, item: Item :: FirstCallAgrees(cfg, opts, inst, now, item)) <==> Opens(cfg)
    ensures !Opens(cfg) ==> forall g: QueueGate.Gate, now: int, item: Item ::
                              QueueGate.Attempt(cfg, g, now, item).1.Denied?
  {
    forall inst: Instance, now: int, item: Item
      ensures Opens(cfg) <==> FirstCallAgrees(cfg, opts, inst, now, item)
    {
      FirstCallAdmitted(cfg, opts, inst, now, item);
    }
    hide Answer, Valid;
    assert FirstCallAgrees(cfg, opts, 0, 0, PLAIN) <==> Opens(cfg);
  }

  // ------------------------------------------------------------------ abandoned waiters

  /** A waiter whose place has not expired and who comes before the caller, as the caller registers. */
  predicate FreshAndBefore(cfg: Config, opts: Options, w: World, e: Event, n: Name)
    requires Valid(w.store) && e.Ask?
  {
    var u := AfterRegistering(cfg, opts, w, e);
    var me := NameOf(e.now, e.item);
    && n in w.store.expiries && w.store.expiries[n] > e.now && n != me
    && n in u.metas && n in u.scores && me in u.metas && me in u.scores && Precedes(cfg, u, n, me)
  }

  /** The table the choice is made on: swept, with the caller listed. */
  function AfterRegistering(cfg: Config, opts: Options, w: World, e: Event): Store
    requires e.Ask?
  {
    Registered(cfg, opts, Swept(w.store, w.alive + {e.inst}, e.now), e.now, e.item)
  }

  /** With a slot and budget free, an ordered call gets in iff no waiter still in its TTL comes before it. */
  lemma AdmittedIffNoFreshBefore(cfg: Config, opts: Options, w: World, e: Event)
    requires Valid(w.store) && e.Ask? && Ordered(cfg, e.item)
    requires var t := Swept(w.store, w.alive + {e.inst}, e.now); !RateSpent(cfg, t, e.now) && !Full(cfg, t)
    ensures Answer(cfg, opts, w, e).Admitted? <==>
            forall n | n in w.store.scores :: !FreshAndBefore(cfg, opts, w, e, n)
  {
    var alive := w.alive + {e.inst};
    var t := Swept(w.store, alive, e.now);
    var u := Registered(cfg, opts, t, e.now, e.item);
    var me := NameOf(e.now, e.item);
    hide Valid, Precedes, Registered, Swept, FreshAndBefore, Admit, RateSpent, Full;
    SweptKeepsValid(w.store, alive, e.now);
    RegisteredKeepsValid(cfg, opts, t, e.now, e.item);
    RegisteredIsListed(cfg, opts, t, e.now, e.item);
    forall n {
      FreshMeansListed(cfg, opts, w, e, n);
    }
  }

  lemma FreshMeansListed(cfg: Config, opts: Options, w: World, e: Event, n: Name)
    requires Valid(w.store) && e.Ask?
    ensures var u := AfterRegistering(cfg, opts, w, e);
            var me := NameOf(e.now, e.item);
            && u.scores.Keys == u.metas.Keys && me in u.scores
            && ((n in w.store.scores && FreshAndBefore(cfg, opts, w, e, n))
                <==> (n in u.scores && n != me && Precedes(cfg, u, n, me)))
  {
    var t := Swept(w.store, w.alive + {e.inst}, e.now);
    var u, me := AfterRegistering(cfg, opts, w, e), NameOf(e.now, e.item);
    assert n in t.scores <==> n in w.store.scores && w.store.expiries[n] > e.now;
    assert u.scores.Keys == t.scores.Keys + {me} && u.metas.Keys == t.metas.Keys + {me};
    assert t.metas.Keys == t.scores.Keys;
    hide Registered, Swept, Pruned, Precedes, AfterRegistering;
  }

  /**
   * What a denied ordered call keeps of its place: denied for concurrency or order it is listed for a full
   * TTL, but denied for rate it is not refreshed, so a waiter that keeps calling can still be pruned.
   */
  lemma PlaceAfterDenial(cfg: Config, opts: Options, w: World, e: Event)
    requires Valid(w.store) && e.Ask? && Ordered(cfg, e.item) && Answer(cfg, opts, w, e).Denied?
    ensures var t, after := Swept(w.store, w.alive + {e.inst}, e.now), Next(cfg, opts, w, e).store;
            var me := NameOf(e.now, e.item);
            if RateSpent(cfg, t, e.now)
            then (me in after.expiries <==> me in w.store.expiries && w.store.expiries[me] > e.now)
                 && (me in after.expiries ==> after.expiries[me] == w.store.expiries[me])
            else me in after.expiries && after.expiries[me] == e.now + opts.waiterTtlMs
  {
    hide RightfulNext, RateSpent, Full;
  }

  /**
   * A denied call takes nothing: it is told to come back after the retry interval, every slot of a live
   * owner, every counter and every served key stays, and of the other waiters exactly the expired ones go.
   */
  lemma DenialTakesNothing(cfg: Config, opts: Options, w: World, e: Event)
    requires Valid(w.store) && e.Ask? && Answer(cfg, opts, w, e).Denied?
    ensures var before, after := w.store, Next(cfg, opts, w, e).store;
            && Answer(cfg, opts, w, e).retryAt == e.now + opts.retryMs
            && (forall n :: n in after.slots <==> n in before.slots && before.slots[n] in w.alive + {e.inst})
            && (forall n | n in after.slots :: after.slots[n] == before.slots[n])
            && after.counts == before.counts && after.served == before.served
            && forall n | n != NameOf(e.now, e.item) ::
                 n in after.scores <==> n in before.scores && before.expiries[n] > e.now
  {
    hide RightfulNext, RateSpent, Full;
  }

  /** A waiter that does not call keeps the expiry it had, for as long as it is listed. */
  lemma ExpiryAfter(cfg: Config, opts: Options, w: World, e: Event, gone: Name)
    requires Valid(w.store) && (e.Ask? ==> NameOf(e.now, e.item) != gone)
    ensures var after := Next(cfg, opts, w, e).store;
            gone in after.expiries ==> gone in w.store.expiries && after.expiries[gone] == w.store.expiries[gone]
  {
    hide Valid, RightfulNext, RateSpent, Full;
  }

  predicate Silent(events: seq<Event>, gone: Name) {
    forall i | 0 <= i < |events| && events[i].Ask? :: NameOf(events[i].now, events[i].item) != gone
  }

  lemma {:induction false} ExpiryStays(cfg: Config, opts: Options, w: World, events: seq<Event>, gone: Name)
    requires Valid(w.store) && Silent(events, gone)
    ensures var after := Run(cfg, opts, w, events).store;
            gone in after.expiries ==> gone in w.store.expiries && after.expiries[gone] == w.store.expiries[gone]
    decreases |events|
  {
    hide Valid, Next;
    if events != [] {
      ExpiryAfter(cfg, opts, w, events[0], gone);
      assert forall i | 0 <= i < |events[1..]| :: events[1..][i] == events[i + 1];
      ExpiryStays(cfg, opts, Next(cfg, opts, w, events[0]), events[1..], gone);
    }
  }

  /**
   * However the run went since `gone` last called, once its TTL is over the best of the others is
   * admitted on its next call, if a slot and rate budget are free.
   */
  lemma BestRemainingAdmitted(cfg: Config, opts: Options, w: World, events: seq<Event>, gone: Name, e: Event)
    requires Valid(w.store) && Silent(events, gone)
    requires gone in w.store.expiries && e.Ask? && w.store.expiries[gone] <= e.now
    requires Ordered(cfg, e.item) && NameOf(e.now, e.item) != gone
    requires var w' := Run(cfg, opts, w, events);
             var t := Swept(w'.store, w'.alive + {e.inst}, e.now);
             && !RateSpent(cfg, t, e.now) && !Full(cfg, t)
             && forall n | n in w'.store.scores && n != gone :: !FreshAndBefore(cfg, opts, w', e, n)
    ensures Answer(cfg, opts, Run(cfg, opts, w, events), e).Admitted?
  {
    var w' := Run(cfg, opts, w, events);
    ExpiryStays(cfg, opts, w, events, gone);
    assert gone in w'.store.scores ==> !FreshAndBefore(cfg, opts, w', e, gone);
    AdmittedIffNoFreshBefore(cfg, opts, w', e);
    hide FreshAndBefore, Acquire, Run, Swept;
  }
}

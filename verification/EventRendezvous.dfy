/**
 * Named events: publishers fan out to registered waiters whose criteria accept the payload, and an
 * event nobody received is buffered for a later waiter. One event name; every store call is one
 * atomic step of one process, and processes are unbounded in number.
 * Models `publishEvent` in packages/adonis/src/engine.ts and `waitForEvent` and
 * `consumeBufferedEvent` in packages/adonis/src/workflow-ctx.ts.
 */
module EventRendezvous {
  import opened Common

  /** One `waitForEvent` call; its token is never shared with another call. */
  datatype Key = Key(run: nat, position: nat)

  /** One publication, naming its payload and its buffered copy. */
  type Event = nat
  type Pid = nat

  /** Which payloads satisfy the criteria of which waiter. */
  type Accepts = (Key, Event) -> bool

  /** How many buffered events one scan considers. */
  const SCAN_LIMIT: nat := 50

  datatype Proc =
    // engine.publishEvent; `keep` is false when a subscriber took the event or buffering is off
    | PubList(e: Event, keep: bool)
    | PubFan(e: Event, todo: seq<Key>, keep: bool)
    | PubBuffer(e: Event)
    | PubRelist(e: Event)
    | PubClaim(e: Event, key: Key)
    | PubTakeRow(e: Event, key: Key)
    | PubDeliver(e: Event, key: Key)
    // engine.signal on the token of a listed waiter
    | SigTake(e: Event, key: Key, todo: seq<Key>)
    | SigBuffer(e: Event, key: Key, todo: seq<Key>)
    | SigRetake(e: Event, key: Key, todo: seq<Key>)
    | SigReclaim(e: Event, key: Key, todo: seq<Key>)
    | SigDeliver(e: Event, key: Key, todo: seq<Key>, from: Event)
    // ctx.waitForEvent
    | EvRead(key: Key)
    | EvPut(key: Key)
    | EvScan(key: Key)
    | EvTry(key: Key, candidates: seq<Event>)
    | EvUnregister(key: Key, e: Event)
    | EvWrite(key: Key, e: Event)
    // a bounded wait past its deadline
    | Expire(key: Key)
    // at rest
    | Parked(key: Key)
    | Finished

  predicate Publishing(proc: Proc) {
    || proc.PubList? || proc.PubFan? || proc.PubBuffer? || proc.PubRelist?
    || proc.PubClaim? || proc.PubTakeRow? || proc.PubDeliver?
  }

  predicate Signalling(proc: Proc) {
    proc.SigTake? || proc.SigBuffer? || proc.SigRetake? || proc.SigReclaim? || proc.SigDeliver?
  }

  predicate Waiting(proc: Proc) {
    || proc.EvRead? || proc.EvPut? || proc.EvScan? || proc.EvTry?
    || proc.EvUnregister? || proc.EvWrite? || proc.Expire?
  }

  predicate AtRest(proc: Proc) {
    proc.Parked? || proc.Finished?
  }

  /** An event paired with a listed waiter, as its publisher signals it. */
  type Hit = (Key, Event)

  /** One write of a wait's checkpoint: of a payload signalled live, or of a claimed buffered copy. */
  datatype Write = Write(key: Key, e: Event, live: bool)

  /**
   * `rows` are the registered waiters, `buffer` the buffered events oldest first, `stray` the payloads
   * left in the signal buffer of a waiter's token, and `cps` the checkpoints of the waits. The rest
   * logs the run: `published` and `offered` the events published and those of them to be kept for
   * later, `seen` the waiters each publisher listed, `hits` what publishers counted as received and
   * `missed` the hits whose take found no row, `claims` the buffered copies taken and `dropped` those
   * of them whose waiter was gone, `writes` the checkpoint writes in order, and `driven` the waits begun.
   */
  datatype State = State(
    rows: set<Key>, buffer: seq<Event>, stray: seq<Hit>, cps: map<Key, Event>,
    procs: map<Pid, Proc>, published: set<Event>, offered: set<Event>, seen: set<Hit>,
    hits: set<Hit>, missed: set<Hit>, claims: seq<Event>, dropped: seq<Hit>,
    writes: seq<Write>, driven: set<Key>)

  const EMPTY := State({}, [], [], map[], map[], {}, {}, {}, {}, {}, [], [], [], {})

  /** The payload signalled to the waiter has been recorded. */
  predicate Recorded(s: State, hit: Hit) {
    Write(hit.0, hit.1, true) in s.writes
  }

  /** The store writes the checkpoint of the wait. */
  function Record(s: State, key: Key, e: Event, live: bool): State {
    s.(cps := s.cps[key := e], writes := s.writes + [Write(key, e, live)])
  }

  function Without(buffer: seq<Event>, e: Event): (r: seq<Event>)
    ensures forall x :: x in r <==> x in buffer && x != e
  {
    if buffer == [] then []
    else if buffer[0] == e then Without(buffer[1..], e)
    else [buffer[0]] + Without(buffer[1..], e)
  }

  function Scan(buffer: seq<Event>): seq<Event> {
    if |buffer| <= SCAN_LIMIT then buffer else buffer[..SCAN_LIMIT]
  }

  function FirstAccepting(accepts: Accepts, listed: seq<Key>, e: Event): (r: Option<Key>)
    ensures r.Some? ==> r.value in listed && accepts(r.value, e)
    ensures r.None? ==> forall k | k in listed :: !accepts(k, e)
  {
    if listed == [] then None
    else if accepts(listed[0], e) then Some(listed[0])
    else FirstAccepting(accepts, listed[1..], e)
  }

  function TakeStray(stray: seq<Hit>, key: Key): (Option<Event>, seq<Hit>) {
    if stray == [] then (None, [])
    else if stray[0].0 == key then (Some(stray[0].1), stray[1..])
    else
      var (found, rest) := TakeStray(stray[1..], key);
      (found, [stray[0]] + rest)
  }

  // ------------------------------------------------------------------- steps

  /** `listed` is the order in which the store lists the rows, for the steps that list them. */
  datatype Step = Spawn(pid: Pid, proc: Proc) | Move(pid: Pid, listed: seq<Key>)

  predicate Startable(s: State, proc: Proc) {
    match proc
    case PubList(e, _) => e !in s.published
    case EvRead(_) => true
    case Expire(_) => true
    case _ => false
  }

  predicate NoRepeats(listed: seq<Key>) {
    forall i, j | 0 <= i < j < |listed| :: listed[i] != listed[j]
  }

  /** The store lists exactly the registered rows, once each, in some order. */
  predicate Lists(listed: seq<Key>, rows: set<Key>) {
    NoRepeats(listed) && (forall k | k in listed :: k in rows) && (forall k | k in rows :: k in listed)
  }

  predicate Enabled(s: State, step: Step) {
    match step
    case Spawn(pid, proc) => pid !in s.procs && Startable(s, proc)
    case Move(pid, listed) =>
      pid in s.procs && !AtRest(s.procs[pid]) && Lists(listed, s.rows)
  }

  function Become(s: State, pid: Pid, proc: Proc): State {
    s.(procs := s.procs[pid := proc])
  }

  /** A step of `publishEvent` itself. */
  function PublishMove(accepts: Accepts, s: State, pid: Pid, listed: seq<Key>): (t: State)
    requires pid in s.procs && Publishing(s.procs[pid])
    ensures pid in t.procs && t.procs == s.procs[pid := t.procs[pid]]
  {
    match s.procs[pid]
    case PubList(e, keep) =>
      Become(s.(seen := s.seen + set k | k in s.rows :: (k, e)), pid, PubFan(e, listed, keep))
    case PubFan(e, todo, keep) =>
      if todo == [] then Become(s, pid, if keep then PubBuffer(e) else Finished)
      else if accepts(todo[0], e)
      then Become(s.(hits := s.hits + {(todo[0], e)}), pid, SigTake(e, todo[0], todo[1..]))
      else Become(s, pid, PubFan(e, todo[1..], keep))
    case PubBuffer(e) => Become(s.(buffer := s.buffer + [e]), pid, PubRelist(e))
    case PubRelist(e) =>
      var late := FirstAccepting(accepts, listed, e);
      Become(s, pid, if late.Some? then PubClaim(e, late.value) else Finished)
    case PubClaim(e, key) =>
      if e in s.buffer
      then Become(s.(buffer := Without(s.buffer, e), claims := s.claims + [e]), pid, PubTakeRow(e, key))
      else Become(s, pid, Finished)
    case PubTakeRow(e, key) =>
      if key in s.rows then Become(s.(rows := s.rows - {key}), pid, PubDeliver(e, key))
      else Become(s.(dropped := s.dropped + [(key, e)]), pid, Finished)
    case PubDeliver(e, key) => Become(Record(s, key, e, false), pid, Finished)
  }

  /** A step of `signal`, called by a publisher on the token of a listed waiter. */
  function SignalMove(s: State, pid: Pid): (t: State)
    requires pid in s.procs && Signalling(s.procs[pid])
    ensures pid in t.procs && t.procs == s.procs[pid := t.procs[pid]]
  {
    match s.procs[pid]
    case SigTake(e, key, todo) =>
      if key in s.rows then Become(s.(rows := s.rows - {key}), pid, SigDeliver(e, key, todo, e))
      else Become(s.(missed := s.missed + {(key, e)}), pid, SigBuffer(e, key, todo))
    case SigBuffer(e, key, todo) => Become(s.(stray := s.stray + [(key, e)]), pid, SigRetake(e, key, todo))
    case SigRetake(e, key, todo) =>
      if key in s.rows then Become(s.(rows := s.rows - {key}), pid, SigReclaim(e, key, todo))
      else Become(s, pid, PubFan(e, todo, false))
    case SigReclaim(e, key, todo) =>
      var (found, rest) := TakeStray(s.stray, key);
      if found.Some? then Become(s.(stray := rest), pid, SigDeliver(e, key, todo, found.value))
      else Become(s, pid, PubFan(e, todo, false))
    case SigDeliver(e, key, todo, from) =>
      Become(Record(s, key, from, true), pid, PubFan(e, todo, false))
  }

  /** A step of a wait, or of its deadline. */
  function WaitMove(accepts: Accepts, s: State, pid: Pid): (t: State)
    requires pid in s.procs && Waiting(s.procs[pid])
    ensures pid in t.procs && t.procs == s.procs[pid := t.procs[pid]]
  {
    match s.procs[pid]
    case EvRead(key) => Become(s, pid, if key in s.cps then Finished else EvPut(key))
    case EvPut(key) => Become(s.(rows := s.rows + {key}), pid, EvScan(key))
    case EvScan(key) => Become(s, pid, EvTry(key, Scan(s.buffer)))
    case EvTry(key, candidates) =>
      if candidates == [] then Become(s, pid, Parked(key))
      else
        var e := candidates[0];
        if accepts(key, e) && e in s.buffer
        then Become(s.(buffer := Without(s.buffer, e), claims := s.claims + [e]), pid, EvUnregister(key, e))
        else Become(s, pid, EvTry(key, candidates[1..]))
    case EvUnregister(key, e) => Become(s.(rows := s.rows - {key}), pid, EvWrite(key, e))
    case EvWrite(key, e) => Become(Record(s, key, e, false), pid, Finished)
    case Expire(key) => Become(s.(rows := s.rows - {key}), pid, Finished)
  }

  function MoveOf(accepts: Accepts, s: State, pid: Pid, listed: seq<Key>): State
    requires pid in s.procs && !AtRest(s.procs[pid])
  {
    if Signalling(s.procs[pid]) then SignalMove(s, pid)
    else if Waiting(s.procs[pid]) then WaitMove(accepts, s, pid)
    else PublishMove(accepts, s, pid, listed)
  }

  function Next(accepts: Accepts, s: State, step: Step): State
    requires Enabled(s, step)
  {
    match step
    case Spawn(pid, proc) =>
      Become(if proc.PubList? then
               s.(published := s.published + {proc.e}, offered := s.offered + if proc.keep then {proc.e} else {})
             else if proc.EvRead? then s.(driven := s.driven + {proc.key}) else s, pid, proc)
    case Move(pid, listed) => MoveOf(accepts, s, pid, listed)
  }

  ghost predicate Runs(accepts: Accepts, s: State, steps: seq<Step>)
    decreases |steps|
  {
    steps != [] ==> Enabled(s, steps[0]) && Runs(accepts, Next(accepts, s, steps[0]), steps[1..])
  }

  ghost function After(accepts: Accepts, s: State, steps: seq<Step>): State
    requires Runs(accepts, s, steps)
    decreases |steps|
  {
    if steps == [] then s else After(accepts, Next(accepts, s, steps[0]), steps[1..])
  }

  /** The backlog of the name never exceeds `n` events, in any state of the run. */
  ghost predicate BacklogWithin(accepts: Accepts, s: State, steps: seq<Step>, n: nat)
    requires Runs(accepts, s, steps)
    decreases |steps|
  {
    |s.buffer| <= n && (steps != [] ==> BacklogWithin(accepts, Next(accepts, s, steps[0]), steps[1..], n))
  }

  predicate Quiescent(s: State) {
    forall pid | pid in s.procs :: AtRest(s.procs[pid])
  }

  // ---------------------------------- no accepted event rests beside its waiter

  /** The process is bound to pair `key` with `e`, to withdraw `key`, or to claim `e`. */
  predicate Watches(proc: Proc, key: Key, e: Event) {
    match proc
    case PubRelist(x) => x == e
    case PubClaim(x, _) => x == e
    case EvScan(k) => k == key
    case EvTry(k, candidates) => k == key && e in candidates
    case EvUnregister(k, _) => k == key
    case _ => false
  }

  ghost predicate Watched(s: State, key: Key, e: Event) {
    exists pid :: pid in s.procs && Watches(s.procs[pid], key, e)
  }

  ghost predicate Matched(accepts: Accepts, s: State) {
    forall key, e | key in s.rows && e in s.buffer && accepts(key, e) :: Watched(s, key, e)
  }

  lemma MoverWatches(accepts: Accepts, s: State, step: Step, key: Key, e: Event)
    requires Enabled(s, step) && step.Move? && |s.buffer| <= SCAN_LIMIT
    requires var s' := Next(accepts, s, step);
             key in s'.rows && e in s'.buffer && accepts(key, e)
    ensures var s' := Next(accepts, s, step);
            var before, after := s.procs[step.pid], s'.procs[step.pid];
            || Watches(after, key, e)
            || (key in s.rows && e in s.buffer && !Watches(before, key, e))
  {
    hide PublishMove, SignalMove, WaitMove, Lists, Watches, Scan, Without, FirstAccepting, TakeStray;
    if Signalling(s.procs[step.pid]) {
      SignalWatches(s, step.pid, key, e);
    } else if Waiting(s.procs[step.pid]) {
      WaitWatches(accepts, s, step.pid, key, e);
    } else {
      PublishWatches(accepts, s, step.pid, step.listed, key, e);
    }
  }

  lemma SignalWatches(s: State, pid: Pid, key: Key, e: Event)
    requires pid in s.procs && Signalling(s.procs[pid])
    requires var t := SignalMove(s, pid); key in t.rows && e in t.buffer
    ensures key in s.rows && e in s.buffer && !Watches(s.procs[pid], key, e)
  {
    hide TakeStray;
  }

  lemma WaitWatches(accepts: Accepts, s: State, pid: Pid, key: Key, e: Event)
    requires pid in s.procs && Waiting(s.procs[pid]) && |s.buffer| <= SCAN_LIMIT
    requires var t := WaitMove(accepts, s, pid); key in t.rows && e in t.buffer && accepts(key, e)
    ensures var t := WaitMove(accepts, s, pid);
            || Watches(t.procs[pid], key, e)
            || (key in s.rows && e in s.buffer && !Watches(s.procs[pid], key, e))
  {
  }

  lemma PublishWatches(accepts: Accepts, s: State, pid: Pid, listed: seq<Key>, key: Key, e: Event)
    requires pid in s.procs && Publishing(s.procs[pid]) && Lists(listed, s.rows)
    requires var t := PublishMove(accepts, s, pid, listed); key in t.rows && e in t.buffer && accepts(key, e)
    ensures var t := PublishMove(accepts, s, pid, listed);
            || Watches(t.procs[pid], key, e)
            || (key in s.rows && e in s.buffer && !Watches(s.procs[pid], key, e))
  {
    hide NoRepeats;
  }

  lemma StepKeepsMatched(accepts: Accepts, s: State, step: Step)
    requires Matched(accepts, s) && Enabled(s, step) && |s.buffer| <= SCAN_LIMIT
    ensures Matched(accepts, Next(accepts, s, step))
  {
    var s' := Next(accepts, s, step);
    forall key, e | key in s'.rows && e in s'.buffer && accepts(key, e)
      ensures Watched(s', key, e)
    {
      if step.Move? {
        MoverWatches(accepts, s, step, key, e);
        assert step.pid in s'.procs;
      }
      if !Watches(s'.procs[step.pid], key, e) {
        assert Watched(s, key, e);
        var q :| q in s.procs && Watches(s.procs[q], key, e);
        OthersStay(accepts, s, step, q);
      }
    }
  }

  lemma OthersStay(accepts: Accepts, s: State, step: Step, q: Pid)
    requires Enabled(s, step) && q in s.procs && q != step.pid
    ensures q in Next(accepts, s, step).procs && Next(accepts, s, step).procs[q] == s.procs[q]
  {
    hide PublishMove, SignalMove, WaitMove;
  }

  lemma {:induction false} RunKeepsMatched(accepts: Accepts, s: State, steps: seq<Step>)
    requires Matched(accepts, s) && Runs(accepts, s, steps) && BacklogWithin(accepts, s, steps, SCAN_LIMIT)
    ensures Matched(accepts, After(accepts, s, steps))
    decreases |steps|
  {
    if steps != [] {
      StepKeepsMatched(accepts, s, steps[0]);
      RunKeepsMatched(accepts, Next(accepts, s, steps[0]), steps[1..]);
    }
  }

  /**
   * With any number of publishers, filtered waiters, re-drives and expiries, once every call has
   * returned no registered waiter accepts a buffered event.
   */
  lemma NoMissedMatch(accepts: Accepts, steps: seq<Step>, key: Key, e: Event)
    requires Runs(accepts, EMPTY, steps) && BacklogWithin(accepts, EMPTY, steps, SCAN_LIMIT)
    requires Quiescent(After(accepts, EMPTY, steps))
    requires key in After(accepts, EMPTY, steps).rows && e in After(accepts, EMPTY, steps).buffer
    ensures !accepts(key, e)
  {
    RunKeepsMatched(accepts, EMPTY, steps);
    assert !Watched(After(accepts, EMPTY, steps), key, e);
  }

  // ------------------------------------------------- a buffered copy is claimed once

  /** The event a publisher holds before buffering it. */
  function Carries(proc: Proc): Option<Event> {
    match proc
    case PubList(e, _) => Some(e)
    case PubFan(e, _, _) => Some(e)
    case PubBuffer(e) => Some(e)
    case SigTake(e, _, _) => Some(e)
    case SigBuffer(e, _, _) => Some(e)
    case SigRetake(e, _, _) => Some(e)
    case SigReclaim(e, _, _) => Some(e)
    case SigDeliver(e, _, _, _) => Some(e)
    case _ => None
  }

  predicate Distinct(s: seq<Event>) {
    forall i, j | 0 <= i < j < |s| :: s[i] != s[j]
  }

  predicate SingleCopies(s: State) {
    && Distinct(s.buffer) && Distinct(s.claims)
    && (forall e | e in s.buffer :: e in s.published && e !in s.claims)
    && (forall e | e in s.claims :: e in s.published)
    && (forall pid | pid in s.procs :: HoldsFresh(s, s.procs[pid]))
    && (forall p, q | p in s.procs && q in s.procs && p != q :: NoShare(s.procs[p], s.procs[q]))
  }

  predicate HoldsFresh(s: State, proc: Proc) {
    Carries(proc).Some? ==>
      Carries(proc).value in s.published && Carries(proc).value !in s.buffer && Carries(proc).value !in s.claims
  }

  predicate NoShare(a: Proc, b: Proc) {
    Carries(a).Some? ==> Carries(a) != Carries(b)
  }

  lemma {:induction false} WithoutDistinct(buffer: seq<Event>, e: Event)
    requires Distinct(buffer)
    ensures Distinct(Without(buffer, e))
  {
    if buffer != [] {
      assert forall i | 0 <= i < |buffer[1..]| :: buffer[1..][i] == buffer[i + 1];
      WithoutDistinct(buffer[1..], e);
      if buffer[0] != e {
        var tail := Without(buffer[1..], e);
        assert buffer[0] !in tail;
      }
    }
  }

  /** What one store call does to the copies: nothing, a first copy, or one claim. */
  ghost predicate CopyEffect(s: State, t: State, before: Proc, after: Proc) {
    && t.published == s.published
    && (|| (t.buffer == s.buffer && t.claims == s.claims && (Carries(after).None? || Carries(after) == Carries(before)))
        || (Carries(before).Some? && Carries(after).None? && t.claims == s.claims
            && t.buffer == s.buffer + [Carries(before).value])
        || (Carries(after).None?
            && exists e :: e in s.buffer && t.buffer == Without(s.buffer, e) && t.claims == s.claims + [e]))
  }

  lemma PublishEffect(accepts: Accepts, s: State, pid: Pid, listed: seq<Key>)
    requires pid in s.procs && Publishing(s.procs[pid])
    ensures var t := PublishMove(accepts, s, pid, listed); CopyEffect(s, t, s.procs[pid], t.procs[pid])
  {
    hide Without, FirstAccepting;
  }

  lemma SignalEffect(s: State, pid: Pid)
    requires pid in s.procs && Signalling(s.procs[pid])
    ensures var t := SignalMove(s, pid); CopyEffect(s, t, s.procs[pid], t.procs[pid])
  {
    hide TakeStray, Without;
  }

  lemma WaitEffect(accepts: Accepts, s: State, pid: Pid)
    requires pid in s.procs && Waiting(s.procs[pid])
    ensures var t := WaitMove(accepts, s, pid); CopyEffect(s, t, s.procs[pid], t.procs[pid])
  {
    hide Without, Scan;
  }

  lemma MoverEffect(accepts: Accepts, s: State, step: Step)
    requires Enabled(s, step) && step.Move?
    ensures var t := Next(accepts, s, step);
            CopyEffect(s, t, s.procs[step.pid], t.procs[step.pid])
            && t.procs.Keys == s.procs.Keys
  {
    hide PublishMove, SignalMove, WaitMove, CopyEffect, Lists;
    if Signalling(s.procs[step.pid]) {
      SignalEffect(s, step.pid);
    } else if Waiting(s.procs[step.pid]) {
      WaitEffect(accepts, s, step.pid);
    } else {
      PublishEffect(accepts, s, step.pid, step.listed);
    }
  }

  lemma StepKeepsCopies(accepts: Accepts, s: State, step: Step)
    requires SingleCopies(s) && Enabled(s, step)
    ensures SingleCopies(Next(accepts, s, step))
  {
    var t := Next(accepts, s, step);
    forall q | q in s.procs && q != step.pid
      ensures q in t.procs && t.procs[q] == s.procs[q]
    {
      OthersStay(accepts, s, step, q);
    }
    if step.Move? {
      MoverEffect(accepts, s, step);
      EffectKeepsCopies(s, t, step.pid);
    }
  }

  lemma EffectKeepsCopies(s: State, t: State, pid: Pid)
    requires SingleCopies(s) && pid in s.procs && t.procs.Keys == s.procs.Keys
    requires CopyEffect(s, t, s.procs[pid], t.procs[pid])
    requires forall q | q in s.procs && q != pid :: t.procs[q] == s.procs[q]
    ensures SingleCopies(t)
  {
    hide Carries, Without;
    forall e | e in s.buffer ensures Distinct(Without(s.buffer, e)) {
      WithoutDistinct(s.buffer, e);
    }
    forall q | q in s.procs && q != pid
      ensures NoShare(t.procs[pid], t.procs[q]) && NoShare(t.procs[q], t.procs[pid]) && HoldsFresh(t, t.procs[q])
    {
      assert NoShare(s.procs[pid], s.procs[q]) && NoShare(s.procs[q], s.procs[pid]) && HoldsFresh(s, s.procs[q]);
    }
    assert HoldsFresh(s, s.procs[pid]);
  }

  lemma {:induction false} RunKeepsCopies(accepts: Accepts, s: State, steps: seq<Step>)
    requires SingleCopies(s) && Runs(accepts, s, steps)
    ensures SingleCopies(After(accepts, s, steps))
    decreases |steps|
  {
    if steps != [] {
      StepKeepsCopies(accepts, s, steps[0]);
      RunKeepsCopies(accepts, Next(accepts, s, steps[0]), steps[1..]);
    }
  }

  /** No buffered copy is ever claimed twice, by waiters, publishers or one of each. */
  lemma ClaimedAtMostOnce(accepts: Accepts, steps: seq<Step>, i: nat, j: nat)
    requires Runs(accepts, EMPTY, steps)
    requires i < j < |After(accepts, EMPTY, steps).claims|
    ensures After(accepts, EMPTY, steps).claims[i] != After(accepts, EMPTY, steps).claims[j]
  {
    RunKeepsCopies(accepts, EMPTY, steps);
  }

  // -------------------------------------------------------------- the limit is exact

  /**
   * Every run whose backlog never exceeds `n` comes to rest with no accepted buffered event beside a
   * registered waiter.
   */
  ghost predicate MatchHolds(n: nat) {
    forall accepts: Accepts, steps, key, e :: !MissesMatch(n, accepts, steps, key, e)
  }

  /** The run ends at rest with an accepted buffered event beside its waiter. */
  ghost predicate MissesMatch(n: nat, accepts: Accepts, steps: seq<Step>, key: Key, e: Event) {
    && Runs(accepts, EMPTY, steps) && BacklogWithin(accepts, EMPTY, steps, n)
    && Quiescent(After(accepts, EMPTY, steps))
    && key in After(accepts, EMPTY, steps).rows && e in After(accepts, EMPTY, steps).buffer && accepts(key, e)
  }

  lemma {:induction false} BacklogGrows(accepts: Accepts, s: State, steps: seq<Step>, m: nat, n: nat)
    requires Runs(accepts, s, steps) && BacklogWithin(accepts, s, steps, m) && m <= n
    ensures BacklogWithin(accepts, s, steps, n)
    decreases |steps|
  {
    if steps != [] {
      BacklogGrows(accepts, Next(accepts, s, steps[0]), steps[1..], m, n);
    }
  }

  lemma {:induction false} RunsAppend(accepts: Accepts, s: State, a: seq<Step>, b: seq<Step>, n: nat)
    requires Runs(accepts, s, a) && Runs(accepts, After(accepts, s, a), b)
    requires BacklogWithin(accepts, s, a, n) && BacklogWithin(accepts, After(accepts, s, a), b, n)
    ensures Runs(accepts, s, a + b) && After(accepts, s, a + b) == After(accepts, After(accepts, s, a), b)
    ensures BacklogWithin(accepts, s, a + b, n)
    decreases |a|
  {
    hide Next, Enabled;
    if a == [] {
      assert a + b == b;
    } else {
      assert (a + b)[1..] == a[1..] + b;
      RunsAppend(accepts, Next(accepts, s, a[0]), a[1..], b, n);
    }
  }

  lemma OneStep(accepts: Accepts, s: State, step: Step, n: nat)
    requires Enabled(s, step) && |s.buffer| <= n && |Next(accepts, s, step).buffer| <= n
    ensures Runs(accepts, s, [step]) && After(accepts, s, [step]) == Next(accepts, s, step)
    ensures BacklogWithin(accepts, s, [step], n)
  {
    hide Enabled, Next;
    assert [step][1..] == [];
    assert Runs(accepts, Next(accepts, s, step), []);
    assert BacklogWithin(accepts, Next(accepts, s, step), [], n);
  }

  /** The run leads from EMPTY to the state, with a backlog of at most `n` throughout. */
  ghost predicate Leads(accepts: Accepts, steps: seq<Step>, s: State, n: nat) {
    Runs(accepts, EMPTY, steps) && BacklogWithin(accepts, EMPTY, steps, n) && After(accepts, EMPTY, steps) == s
  }

  lemma LeadOn(accepts: Accepts, steps: seq<Step>, s: State, step: Step, n: nat) returns (more: seq<Step>)
    requires Leads(accepts, steps, s, n) && Enabled(s, step)
    requires |s.buffer| <= n && |Next(accepts, s, step).buffer| <= n
    ensures Leads(accepts, more, Next(accepts, s, step), n)
  {
    hide Enabled, Next;
    OneStep(accepts, s, step, n);
    RunsAppend(accepts, EMPTY, steps, [step], n);
    more := steps + [step];
  }

  lemma LeadsFromEmpty(accepts: Accepts, n: nat)
    ensures Leads(accepts, [], EMPTY, n)
  {
    var none: seq<Step> := [];
    assert BacklogWithin(accepts, EMPTY, none, n);
  }

  lemma LeadsThere(accepts: Accepts, steps: seq<Step>, s: State, n: nat)
    requires Leads(accepts, steps, s, n)
    ensures Runs(accepts, EMPTY, steps) && BacklogWithin(accepts, EMPTY, steps, n) && After(accepts, EMPTY, steps) == s
  {
  }

  /** A publisher lists nobody and comes to buffer its event. */
  lemma PublishFindsNobody(accepts: Accepts, s: State, steps: seq<Step>, e: Event, n: nat)
    returns (more: seq<Step>, t: State)
    requires Leads(accepts, steps, s, n) && s.rows == {} && e !in s.published && e !in s.procs && |s.buffer| <= n
    ensures Leads(accepts, more, t, n)
    ensures t == s.(procs := s.procs[e := PubBuffer(e)], published := s.published + {e}, offered := s.offered + {e})
  {
    hide Leads, SignalMove, WaitMove, Without, FirstAccepting;
    more := LeadOn(accepts, steps, s, Spawn(e, PubList(e, true)), n);
    t := Next(accepts, s, Spawn(e, PubList(e, true)));
    assert t.procs == s.procs[e := PubList(e, true)];
    more := LeadOn(accepts, more, t, Move(e, []), n);
    t := Next(accepts, t, Move(e, []));
    assert t.procs == s.procs[e := PubFan(e, [], true)];
    more := LeadOn(accepts, more, t, Move(e, []), n);
    t := Next(accepts, t, Move(e, []));
    assert t.procs == s.procs[e := PubBuffer(e)];
  }

  /** A publisher that nobody waits for buffers its event. */
  lemma PublishOne(accepts: Accepts, s: State, steps: seq<Step>, e: Event, n: nat) returns (more: seq<Step>, t: State)
    requires Leads(accepts, steps, s, n) && s.rows == {} && e !in s.published && e !in s.procs && |s.buffer| < n
    ensures Leads(accepts, more, t, n)
    ensures t == s.(buffer := s.buffer + [e], procs := s.procs[e := Finished],
                    published := s.published + {e}, offered := s.offered + {e})
  {
    hide Leads, SignalMove, WaitMove, Without;
    more, t := PublishFindsNobody(accepts, s, steps, e, n);
    more := LeadOn(accepts, more, t, Move(e, []), n);
    t := Next(accepts, t, Move(e, []));
    assert t.procs == s.procs[e := PubRelist(e)];
    more := LeadOn(accepts, more, t, Move(e, []), n);
    t := Next(accepts, t, Move(e, []));
    assert t.procs == s.procs[e := Finished];
  }

  function Upto(n: nat): seq<Event> {
    seq(n, i => i)
  }

  /** Events that nobody waits for pile up in the order of publication. */
  lemma {:induction false} PublishMany(accepts: Accepts, m: nat, n: nat) returns (steps: seq<Step>, s: State)
    requires m <= n
    ensures Leads(accepts, steps, s, n)
    ensures s.rows == {} && s.buffer == Upto(m) && s.cps == map[]
    ensures forall e | e in s.published :: e < m
    ensures forall pid | pid in s.procs :: pid < m && s.procs[pid] == Finished
  {
    if m == 0 {
      steps, s := [], EMPTY;
      LeadsFromEmpty(accepts, n);
    } else {
      steps, s := PublishMany(accepts, m - 1, n);
      hide Leads;
      steps, s := PublishOne(accepts, s, steps, m - 1, n);
      assert Upto(m) == Upto(m - 1) + [m - 1];
    }
  }

  /** A wait whose candidates all fail its criteria parks, whatever lies behind them. */
  lemma {:induction false} ScanFails(accepts: Accepts, s: State, pid: Pid, key: Key, candidates: seq<Event>,
                                     listed: seq<Key>, n: nat)
    returns (steps: seq<Step>)
    requires pid in s.procs && s.procs[pid] == EvTry(key, candidates)
    requires forall e | e in candidates :: !accepts(key, e)
    requires Lists(listed, s.rows) && |s.buffer| <= n
    ensures Runs(accepts, s, steps) && BacklogWithin(accepts, s, steps, n)
    ensures After(accepts, s, steps) == Become(s, pid, Parked(key))
    decreases |candidates|
  {
    var step := Move(pid, listed);
    var s' := Next(accepts, s, step);
    if candidates == [] {
      OneStep(accepts, s, step, n);
      steps := [step];
    } else {
      assert forall e | e in candidates[1..] :: e in candidates;
      var tail := ScanFails(accepts, s', pid, key, candidates[1..], listed, n);
      OneStep(accepts, s, step, n);
      hide Runs, After, BacklogWithin;
      RunsAppend(accepts, s, [step], tail, n);
      steps := [step] + tail;
      assert Become(s', pid, Parked(key)) == Become(s, pid, Parked(key));
    }
  }

  /** A wait that finds no record registers and scans. */
  lemma WaitScans(accepts: Accepts, s: State, steps: seq<Step>, pid: Pid, key: Key, n: nat)
    returns (more: seq<Step>, t: State)
    requires Leads(accepts, steps, s, n)
    requires s.rows == {} && s.cps == map[] && pid !in s.procs && |s.buffer| <= n
    ensures Leads(accepts, more, t, n)
    ensures t == s.(rows := {key}, driven := s.driven + {key}, procs := s.procs[pid := EvTry(key, Scan(s.buffer))])
  {
    hide *;
    more, t := WaitRegisters(accepts, steps, s, pid, key, n);
    PutMove(accepts, t, pid, key);
    more := LeadOn(accepts, more, t, Move(pid, []), n);
    t := Next(accepts, t, Move(pid, []));
    ScanMove(accepts, t, pid, key);
    more := LeadOn(accepts, more, t, Move(pid, [key]), n);
    t := Next(accepts, t, Move(pid, [key]));
    assert t.procs == s.procs[pid := EvTry(key, Scan(s.buffer))];
  }

  lemma PutMove(accepts: Accepts, s: State, pid: Pid, key: Key)
    requires pid in s.procs && s.procs[pid] == EvPut(key) && s.rows == {}
    ensures Enabled(s, Move(pid, []))
    ensures Next(accepts, s, Move(pid, [])) == s.(rows := {key}, procs := s.procs[pid := EvScan(key)])
  {
    hide SignalMove, PublishMove, Scan, Without;
  }

  lemma ScanMove(accepts: Accepts, s: State, pid: Pid, key: Key)
    requires pid in s.procs && s.procs[pid] == EvScan(key) && s.rows == {key}
    ensures Enabled(s, Move(pid, [key]))
    ensures Next(accepts, s, Move(pid, [key])) == s.(procs := s.procs[pid := EvTry(key, Scan(s.buffer))])
  {
    hide SignalMove, PublishMove, Scan, Without;
  }

  lemma WaitRegisters(accepts: Accepts, steps: seq<Step>, s: State, pid: Pid, key: Key, n: nat)
    returns (more: seq<Step>, t: State)
    requires Leads(accepts, steps, s, n)
    requires s.rows == {} && s.cps == map[] && pid !in s.procs && |s.buffer| <= n
    ensures Leads(accepts, more, t, n)
    ensures t == s.(driven := s.driven + {key}, procs := s.procs[pid := EvPut(key)])
  {
    hide Leads, SignalMove, PublishMove, Scan, Without;
    more := LeadOn(accepts, steps, s, Spawn(pid, EvRead(key)), n);
    t := Next(accepts, s, Spawn(pid, EvRead(key)));
    assert t.procs == s.procs[pid := EvRead(key)];
    more := LeadOn(accepts, more, t, Move(pid, []), n);
    t := Next(accepts, t, Move(pid, []));
    assert t.procs == s.procs[pid := EvPut(key)];
  }

  /** The 51st event is out of reach: 50 that the waiter does not accept hide the one it does. */
  lemma HiddenBehindBacklog() returns (accepts: Accepts, steps: seq<Step>, key: Key)
    ensures Runs(accepts, EMPTY, steps) && BacklogWithin(accepts, EMPTY, steps, SCAN_LIMIT + 1)
    ensures var end := After(accepts, EMPTY, steps);
            Quiescent(end) && key in end.rows && SCAN_LIMIT in end.buffer && accepts(key, SCAN_LIMIT)
  {
    var n := SCAN_LIMIT + 1;
    accepts := (k, e) => e == SCAN_LIMIT;
    key := Key(0, 0);
    var s, t;
    steps, s := PublishMany(accepts, n, n);
    var events := Upto(n);
    hide Runs, After, BacklogWithin, Next, Enabled;
    steps, t := WaitScans(accepts, s, steps, n, key, n);
    LeadsThere(accepts, steps, t, n);
    assert Scan(events) == events[..SCAN_LIMIT];
    var tail := ScanFails(accepts, t, n, key, events[..SCAN_LIMIT], [key], n);
    RunsAppend(accepts, EMPTY, steps, tail, n);
    steps := steps + tail;
    assert events[SCAN_LIMIT] == SCAN_LIMIT;
  }

  /** The promise to pair waiters with buffered events holds exactly for backlogs of at most one scan. */
  lemma MatchHoldsIffWithinScan(n: nat)
    ensures MatchHolds(n) <==> n <= SCAN_LIMIT
  {
    if n <= SCAN_LIMIT {
      forall accepts: Accepts, steps, key, e ensures !MissesMatch(n, accepts, steps, key, e) {
        if MissesMatch(n, accepts, steps, key, e) {
          BacklogGrows(accepts, EMPTY, steps, n, SCAN_LIMIT);
          NoMissedMatch(accepts, steps, key, e);
        }
      }
    } else {
      var accepts, steps, key := HiddenBehindBacklog();
      BacklogGrows(accepts, EMPTY, steps, SCAN_LIMIT + 1, n);
      hide Runs, After, BacklogWithin, Quiescent;
      assert MissesMatch(n, accepts, steps, key, SCAN_LIMIT);
    }
  }

  // ------------------------------------------- what was counted as received is not lost

  /** The process holds the payload of the hit. */
  predicate Bears(proc: Proc, hit: Hit) {
    match proc
    case SigTake(e, key, _) => hit == (key, e)
    case SigBuffer(e, key, _) => hit == (key, e)
    case SigDeliver(_, key, _, from) => hit == (key, from)
    case _ => false
  }

  ghost predicate Borne(s: State, hit: Hit) {
    exists pid :: pid in s.procs && Bears(s.procs[pid], hit)
  }

  ghost predicate HitsKept(s: State) {
    && (forall hit | hit in s.hits :: hit in s.stray || Recorded(s, hit) || Borne(s, hit))
    && (forall hit | hit in s.stray :: hit in s.missed)
    && (forall pid | pid in s.procs && s.procs[pid].SigBuffer? :: (s.procs[pid].key, s.procs[pid].e) in s.missed)
  }

  lemma {:induction false} TakeStrayKeeps(stray: seq<Hit>, key: Key)
    ensures var (found, rest) := TakeStray(stray, key);
            && (forall hit | hit in rest :: hit in stray)
            && (found.None? ==> rest == stray)
            && (found.Some? ==> (key, found.value) in stray
                                && forall hit | hit in stray :: hit in rest || hit == (key, found.value))
  {
    if stray != [] {
      assert stray == [stray[0]] + stray[1..];
      TakeStrayKeeps(stray[1..], key);
    }
  }

  /** The hit is still in hand, left under its token or recorded after the process's step. */
  predicate Survives(s: State, t: State, pid: Pid, hit: Hit)
    requires pid in s.procs && pid in t.procs
  {
    (hit in s.stray || Recorded(s, hit) || Bears(s.procs[pid], hit) || hit !in s.hits) && hit in t.hits ==>
      hit in t.stray || Recorded(t, hit) || Bears(t.procs[pid], hit)
  }

  lemma SignalSurvives(s: State, pid: Pid, hit: Hit)
    requires pid in s.procs && Signalling(s.procs[pid])
    ensures Survives(s, SignalMove(s, pid), pid, hit)
  {
    if s.procs[pid].SigReclaim? {
      TakeStrayKeeps(s.stray, s.procs[pid].key);
    }
    hide TakeStray;
  }

  lemma PublishSurvives(accepts: Accepts, s: State, pid: Pid, listed: seq<Key>, hit: Hit)
    requires pid in s.procs && Publishing(s.procs[pid])
    ensures Survives(s, PublishMove(accepts, s, pid, listed), pid, hit)
  {
    hide Without, FirstAccepting;
  }

  lemma WaitSurvives(accepts: Accepts, s: State, pid: Pid, hit: Hit)
    requires pid in s.procs && Waiting(s.procs[pid])
    ensures Survives(s, WaitMove(accepts, s, pid), pid, hit)
  {
    hide Without, Scan;
  }

  lemma MoverKeepsHits(accepts: Accepts, s: State, step: Step, hit: Hit)
    requires Enabled(s, step) && step.Move?
    requires hit in s.stray || Recorded(s, hit) || Bears(s.procs[step.pid], hit) || hit !in s.hits
    requires hit in Next(accepts, s, step).hits
    ensures var t := Next(accepts, s, step);
            hit in t.stray || Recorded(t, hit) || Bears(t.procs[step.pid], hit)
  {
    hide PublishMove, SignalMove, WaitMove, Lists;
    if Signalling(s.procs[step.pid]) {
      SignalSurvives(s, step.pid, hit);
    } else if Waiting(s.procs[step.pid]) {
      WaitSurvives(accepts, s, step.pid, hit);
    } else {
      PublishSurvives(accepts, s, step.pid, step.listed, hit);
    }
  }

  lemma MoverKeepsStray(accepts: Accepts, s: State, step: Step)
    requires Enabled(s, step) && step.Move? && HitsKept(s)
    ensures var t := Next(accepts, s, step);
            && (forall hit | hit in t.stray :: hit in t.missed)
            && s.missed <= t.missed
            && (t.procs[step.pid].SigBuffer? ==> (t.procs[step.pid].key, t.procs[step.pid].e) in t.missed)
  {
    if s.procs[step.pid].SigReclaim? {
      TakeStrayKeeps(s.stray, s.procs[step.pid].key);
    }
    hide Without, FirstAccepting, Lists, Scan, TakeStray;
  }

  lemma StepKeepsHits(accepts: Accepts, s: State, step: Step)
    requires HitsKept(s) && Enabled(s, step)
    ensures HitsKept(Next(accepts, s, step))
  {
    var t := Next(accepts, s, step);
    forall q | q in s.procs && q != step.pid ensures q in t.procs && t.procs[q] == s.procs[q] {
      OthersStay(accepts, s, step, q);
    }
    assert step.pid in t.procs;
    if step.Move? {
      MoverKeepsStray(accepts, s, step);
      MoverPid(accepts, s, step);
      hide Next, Enabled;
      forall hit | hit in t.hits ensures hit in t.stray || Recorded(t, hit) || Borne(t, hit) {
        HitMoves(accepts, s, step, hit);
      }
    }
  }

  lemma MoverPid(accepts: Accepts, s: State, step: Step)
    requires Enabled(s, step) && step.Move?
    ensures Next(accepts, s, step).procs.Keys == s.procs.Keys
  {
    hide PublishMove, SignalMove, WaitMove;
  }

  lemma HitMoves(accepts: Accepts, s: State, step: Step, hit: Hit)
    requires HitsKept(s) && Enabled(s, step) && step.Move? && hit in Next(accepts, s, step).hits
    ensures var t := Next(accepts, s, step); hit in t.stray || Recorded(t, hit) || Borne(t, hit)
  {
    assert step.pid in s.procs;
    hide Next, Enabled;
    var t := Next(accepts, s, step);
    MoverPid(accepts, s, step);
    if hit in s.hits && hit !in s.stray && !Recorded(s, hit) && !Bears(s.procs[step.pid], hit) {
      var pid :| pid in s.procs && Bears(s.procs[pid], hit);
      OthersStay(accepts, s, step, pid);
      assert Bears(t.procs[pid], hit);
    } else {
      MoverKeepsHits(accepts, s, step, hit);
      assert Bears(t.procs[step.pid], hit) ==> Borne(t, hit);
    }
  }

  lemma {:induction false} RunKeepsHits(accepts: Accepts, s: State, steps: seq<Step>)
    requires HitsKept(s) && Runs(accepts, s, steps)
    ensures HitsKept(After(accepts, s, steps))
    decreases |steps|
  {
    hide Next, Enabled, HitsKept;
    if steps != [] {
      StepKeepsHits(accepts, s, steps[0]);
      RunKeepsHits(accepts, Next(accepts, s, steps[0]), steps[1..]);
    }
  }

  /**
   * Whatever raced with it, once every call has returned, an event counted as received by a waiter is
   * recorded or left under the waiter's token, and left there only if the waiter's row had gone.
   */
  lemma HitRecordedOrStranded(accepts: Accepts, steps: seq<Step>, hit: Hit)
    requires Runs(accepts, EMPTY, steps) && Quiescent(After(accepts, EMPTY, steps))
    requires hit in After(accepts, EMPTY, steps).hits
    ensures var end := After(accepts, EMPTY, steps);
            (Recorded(end, hit) || hit in end.stray) && (hit in end.stray ==> hit in end.missed)
  {
    RunKeepsHits(accepts, EMPTY, steps);
    assert !Borne(After(accepts, EMPTY, steps), hit);
  }

  // ------------------------------------------------------ exactly when a hit is stranded

  /** No wait is driven a second time. */
  ghost predicate SingleDrives(accepts: Accepts, s: State, steps: seq<Step>)
    requires Runs(accepts, s, steps)
    decreases |steps|
  {
    steps != [] ==> !Redrives(s, steps[0]) && SingleDrives(accepts, Next(accepts, s, steps[0]), steps[1..])
  }

  predicate Redrives(s: State, step: Step) {
    step.Spawn? && step.proc.EvRead? && step.proc.key in s.driven
  }

  /** The process has yet to register the wait. */
  predicate WillPut(proc: Proc, key: Key) {
    (proc.EvRead? || proc.EvPut?) && proc.key == key
  }

  /** The wait was begun and will not register again. */
  ghost predicate Done(s: State, key: Key) {
    key in s.driven && forall pid | pid in s.procs :: !WillPut(s.procs[pid], key)
  }

  /** The waiters a publisher has yet to look at. */
  function TodoOf(proc: Proc): seq<Key> {
    match proc
    case PubFan(_, todo, _) => todo
    case SigTake(_, _, todo) => todo
    case SigBuffer(_, _, todo) => todo
    case SigRetake(_, _, todo) => todo
    case SigReclaim(_, _, todo) => todo
    case SigDeliver(_, _, todo, _) => todo
    case _ => []
  }

  /** The waiters ahead of a publisher are registered or gone for good, and it has not hit them yet. */
  ghost predicate TodoSound(s: State, proc: Proc) {
    var todo := TodoOf(proc);
    && NoRepeats(todo)
    && (Carries(proc).Some? ==> forall k | k in todo :: Done(s, k) && (k, Carries(proc).value) !in s.hits)
    && (Signalling(proc) ==> proc.key !in todo)
    && (proc.PubList? ==> forall hit | hit in s.hits :: hit.1 != proc.e)
  }

  /** Where a publisher stands with the waiter it is signalling. */
  ghost predicate SignalSound(s: State, proc: Proc) {
    && (Signalling(proc) ==> (proc.key, proc.e) in s.hits && Done(s, proc.key))
    && !proc.SigReclaim?
    && (proc.SigTake? ==> (proc.key, proc.e) !in s.missed && !Recorded(s, (proc.key, proc.e)))
    && (proc.SigBuffer? || proc.SigRetake? ==> (proc.key, proc.e) in s.missed)
    && (proc.SigDeliver? ==> proc.from == proc.e && (proc.key, proc.e) !in s.missed)
  }

  ghost predicate RowsDone(s: State) {
    forall k | k in s.rows :: Done(s, k)
  }

  /** At most one process has yet to register a given wait, and the wait was begun. */
  ghost predicate PutsUnique(s: State) {
    && (forall p, q, k | p in s.procs && q in s.procs && p != q && WillPut(s.procs[p], k) :: !WillPut(s.procs[q], k))
    && (forall p, k | p in s.procs && WillPut(s.procs[p], k) :: k in s.driven)
  }

  ghost predicate HitsLogged(s: State) {
    && (forall hit | hit in s.hits :: hit.1 in s.published)
    && (forall hit | hit in s.missed :: hit in s.hits && !Recorded(s, hit))
    && (forall hit | Recorded(s, hit) :: hit in s.hits)
  }

  ghost predicate MissedGone(s: State) {
    forall hit | hit in s.missed :: Done(s, hit.0) && hit.0 !in s.rows
  }

  ghost predicate MissedKept(s: State) {
    forall hit | hit in s.missed :: hit in s.stray || Borne(s, hit)
  }

  ghost predicate ProcsSound(s: State) {
    forall pid | pid in s.procs :: TodoSound(s, s.procs[pid]) && SignalSound(s, s.procs[pid])
  }

  ghost predicate Sound(s: State) {
    && SingleCopies(s) && HitsKept(s)
    && RowsDone(s) && PutsUnique(s) && HitsLogged(s) && MissedGone(s) && MissedKept(s) && ProcsSound(s)
  }

  /** What a store call of the process `pid` may do to the hits, seen from the other publishers. */
  ghost predicate Beside(s: State, t: State, e: Option<Event>) {
    && (forall k :: Done(s, k) ==> Done(t, k))
    && (forall hit | hit in t.hits && hit !in s.hits :: Some(hit.1) == e)
    && (forall hit | hit in t.missed && hit !in s.missed :: Some(hit.1) == e)
    && (forall hit | Recorded(t, hit) && !Recorded(s, hit) :: Some(hit.1) == e)
    && s.hits <= t.hits && s.missed <= t.missed && (forall hit | Recorded(s, hit) :: Recorded(t, hit))
  }

  lemma OtherStaysSound(s: State, t: State, proc: Proc, e: Option<Event>)
    requires TodoSound(s, proc) && SignalSound(s, proc) && Beside(s, t, e)
    requires Carries(proc).Some? ==> Carries(proc) != e
    ensures TodoSound(t, proc) && SignalSound(t, proc)
  {
    hide Done;
  }

  /** What the mover's own step does, by the part of the protocol it is in. */
  lemma MoverStaysSound(accepts: Accepts, s: State, step: Step)
    requires Sound(s) && Enabled(s, step) && step.Move?
    ensures var t := Next(accepts, s, step);
            && t.procs.Keys == s.procs.Keys && t.driven == s.driven
            && Beside(s, t, Carries(s.procs[step.pid]))
            && TodoSound(t, t.procs[step.pid]) && SignalSound(t, t.procs[step.pid])
  {
    var proc := s.procs[step.pid];
    DoneStays(accepts, s, step);
    assert TodoSound(s, proc) && SignalSound(s, proc);
    if proc.PubList? {
      ListStaysSound(accepts, s, step);
    } else if proc.PubFan? {
      FanStaysSound(accepts, s, step);
    } else if Signalling(proc) {
      SignalStaysSound(accepts, s, step);
    } else {
      QuietStaysSound(accepts, s, step);
    }
  }

  lemma DoneStays(accepts: Accepts, s: State, step: Step)
    requires Enabled(s, step) && step.Move?
    ensures var t := Next(accepts, s, step);
            t.procs.Keys == s.procs.Keys && t.driven == s.driven && forall k :: Done(s, k) ==> Done(t, k)
  {
    var t := Next(accepts, s, step);
    MoverPid(accepts, s, step);
    forall k, pid | Done(s, k) && pid in t.procs ensures !WillPut(t.procs[pid], k) {
      if pid != step.pid { OthersStay(accepts, s, step, pid); }
      PutsOnlyIfItWould(accepts, s, step, k);
    }
    hide Next, Enabled;
    assert t.driven == s.driven by { PutsOnlyIfItWould(accepts, s, step, Key(0, 0)); }
  }

  lemma PutsOnlyIfItWould(accepts: Accepts, s: State, step: Step, k: Key)
    requires Enabled(s, step) && step.Move?
    ensures var t := Next(accepts, s, step);
            && t.driven == s.driven && step.pid in t.procs
            && (WillPut(t.procs[step.pid], k) ==> WillPut(s.procs[step.pid], k))
  {
    hide Without, TakeStray, FirstAccepting, Lists, Scan;
  }

  lemma ListStaysSound(accepts: Accepts, s: State, step: Step)
    requires Enabled(s, step) && step.Move? && s.procs[step.pid].PubList?
    requires TodoSound(s, s.procs[step.pid]) && HoldsFresh(s, s.procs[step.pid])
    requires forall k | k in s.rows :: Done(s, k)
    requires forall hit | hit in s.missed || Recorded(s, hit) :: hit in s.hits
    requires var t := Next(accepts, s, step); forall k :: Done(s, k) ==> Done(t, k)
    ensures var t := Next(accepts, s, step);
            && step.pid in t.procs && Beside(s, t, Carries(s.procs[step.pid]))
            && TodoSound(t, t.procs[step.pid]) && SignalSound(t, t.procs[step.pid])
  {
    hide SignalMove, WaitMove, Without, TakeStray, FirstAccepting, Scan, Done, NoRepeats;
  }

  lemma FanStaysSound(accepts: Accepts, s: State, step: Step)
    requires Enabled(s, step) && step.Move? && s.procs[step.pid].PubFan?
    requires TodoSound(s, s.procs[step.pid])
    requires forall hit | hit in s.missed || Recorded(s, hit) :: hit in s.hits
    requires var t := Next(accepts, s, step); forall k :: Done(s, k) ==> Done(t, k)
    ensures var t := Next(accepts, s, step);
            && step.pid in t.procs && Beside(s, t, Carries(s.procs[step.pid]))
            && TodoSound(t, t.procs[step.pid]) && SignalSound(t, t.procs[step.pid])
  {
    hide PublishMove, SignalMove, WaitMove, Done, Lists, NoRepeats;
    var t, todo := Next(accepts, s, step), s.procs[step.pid].todo;
    FanMove(accepts, s, step.pid, step.listed);
    if todo != [] {
      TailOf(todo);
    }
  }

  lemma TailOf(todo: seq<Key>)
    requires NoRepeats(todo) && todo != []
    ensures NoRepeats(todo[1..]) && todo[0] !in todo[1..] && todo[0] in todo
    ensures forall k | k in todo[1..] :: k in todo
  {
  }

  /** A publisher looks at the next listed waiter. */
  lemma FanMove(accepts: Accepts, s: State, pid: Pid, listed: seq<Key>)
    requires pid in s.procs && s.procs[pid].PubFan?
    ensures var t, proc := PublishMove(accepts, s, pid, listed), s.procs[pid];
            && t.missed == s.missed && (forall hit :: Recorded(t, hit) <==> Recorded(s, hit))
            && (if proc.todo == [] then
                  t.hits == s.hits && (t.procs[pid] == PubBuffer(proc.e) || t.procs[pid] == Finished)
                else if accepts(proc.todo[0], proc.e) then
                  && t.hits == s.hits + {(proc.todo[0], proc.e)}
                  && t.procs[pid] == SigTake(proc.e, proc.todo[0], proc.todo[1..])
                else t.hits == s.hits && t.procs[pid] == PubFan(proc.e, proc.todo[1..], proc.keep))
  {
  }

  lemma SignalStaysSound(accepts: Accepts, s: State, step: Step)
    requires Enabled(s, step) && step.Move? && Signalling(s.procs[step.pid])
    requires TodoSound(s, s.procs[step.pid]) && SignalSound(s, s.procs[step.pid])
    requires forall hit | hit in s.missed :: hit.0 !in s.rows
    requires var t := Next(accepts, s, step); forall k :: Done(s, k) ==> Done(t, k)
    ensures var t := Next(accepts, s, step);
            && step.pid in t.procs && Beside(s, t, Carries(s.procs[step.pid]))
            && TodoSound(t, t.procs[step.pid]) && SignalSound(t, t.procs[step.pid])
  {
    assert Next(accepts, s, step) == SignalMove(s, step.pid) by { hide SignalMove, Lists; }
    hide *;
    SignalBeside(s, step.pid);
    SignalKeepsTodo(s, step.pid);
    SignalKeepsSound(s, step.pid);
  }

  lemma SignalBeside(s: State, pid: Pid)
    requires pid in s.procs && Signalling(s.procs[pid]) && SignalSound(s, s.procs[pid])
    requires forall k :: Done(s, k) ==> Done(SignalMove(s, pid), k)
    ensures Beside(s, SignalMove(s, pid), Carries(s.procs[pid]))
  {
    hide TakeStray, Done;
  }

  lemma SignalKeepsTodo(s: State, pid: Pid)
    requires pid in s.procs && Signalling(s.procs[pid])
    requires TodoSound(s, s.procs[pid]) && SignalSound(s, s.procs[pid])
    requires forall k :: Done(s, k) ==> Done(SignalMove(s, pid), k)
    ensures TodoSound(SignalMove(s, pid), SignalMove(s, pid).procs[pid])
  {
    hide TakeStray, Done, NoRepeats;
  }

  lemma SignalKeepsSound(s: State, pid: Pid)
    requires pid in s.procs && Signalling(s.procs[pid]) && SignalSound(s, s.procs[pid])
    requires forall hit | hit in s.missed :: hit.0 !in s.rows
    requires forall k :: Done(s, k) ==> Done(SignalMove(s, pid), k)
    ensures SignalSound(SignalMove(s, pid), SignalMove(s, pid).procs[pid])
  {
    hide TakeStray, Done;
  }

  /** A step of no consequence for hits. */
  ghost predicate Quiet(s: State, t: State, pid: Pid)
    requires pid in t.procs
  {
    && t.hits == s.hits && t.missed == s.missed && (forall hit :: Recorded(t, hit) <==> Recorded(s, hit))
    && Carries(t.procs[pid]).None? && TodoOf(t.procs[pid]) == [] && !Signalling(t.procs[pid])
  }

  lemma QuietStaysSound(accepts: Accepts, s: State, step: Step)
    requires Enabled(s, step) && step.Move?
    requires var proc := s.procs[step.pid]; !proc.PubList? && !proc.PubFan? && !Signalling(proc)
    requires var t := Next(accepts, s, step); forall k :: Done(s, k) ==> Done(t, k)
    ensures var t := Next(accepts, s, step);
            && step.pid in t.procs && Beside(s, t, Carries(s.procs[step.pid]))
            && TodoSound(t, t.procs[step.pid]) && SignalSound(t, t.procs[step.pid])
  {
    var t := Next(accepts, s, step);
    assert Quiet(s, t, step.pid) by {
      hide PublishMove, WaitMove, SignalMove, Lists, Done;
      if Waiting(s.procs[step.pid]) {
        WaitIsQuiet(accepts, s, step.pid);
      } else {
        PublishIsQuiet(accepts, s, step.pid, step.listed);
      }
    }
    hide Next, Enabled, Done;
  }

  lemma WaitIsQuiet(accepts: Accepts, s: State, pid: Pid)
    requires pid in s.procs && Waiting(s.procs[pid])
    ensures Quiet(s, WaitMove(accepts, s, pid), pid)
  {
    hide Without, Scan;
  }

  lemma PublishIsQuiet(accepts: Accepts, s: State, pid: Pid, listed: seq<Key>)
    requires pid in s.procs && Publishing(s.procs[pid]) && !s.procs[pid].PubList? && !s.procs[pid].PubFan?
    ensures Quiet(s, PublishMove(accepts, s, pid, listed), pid)
  {
    hide Without, FirstAccepting;
  }

  /** Rows grow only by the put of a wait. */
  lemma MoverRows(accepts: Accepts, s: State, step: Step)
    requires Enabled(s, step) && step.Move?
    ensures forall k | k in Next(accepts, s, step).rows :: k in s.rows || WillPut(s.procs[step.pid], k)
  {
    hide Without, TakeStray, FirstAccepting, Scan, Lists;
  }

  /** Nobody reclaims, so what is under a token stays there. */
  lemma MoverStray(accepts: Accepts, s: State, step: Step)
    requires Enabled(s, step) && step.Move? && !s.procs[step.pid].SigReclaim?
    ensures forall hit | hit in s.stray :: hit in Next(accepts, s, step).stray
  {
    hide Without, TakeStray, FirstAccepting, Scan, Lists;
  }

  lemma MoverLogs(accepts: Accepts, s: State, step: Step)
    requires Enabled(s, step) && step.Move?
    requires SignalSound(s, s.procs[step.pid]) && HoldsFresh(s, s.procs[step.pid])
    ensures var t := Next(accepts, s, step);
            && t.published == s.published
            && (forall hit | hit in t.hits && hit !in s.hits :: hit.1 in s.published && hit !in t.missed - s.missed)
            && (forall hit | hit in t.missed && hit !in s.missed ::
                  hit in s.hits && !Recorded(t, hit) && Done(s, hit.0) && hit.0 !in t.rows)
            && (forall hit | Recorded(t, hit) && !Recorded(s, hit) :: hit in s.hits && hit !in t.missed)
            && s.hits <= t.hits && s.missed <= t.missed && (forall hit | Recorded(s, hit) :: Recorded(t, hit))
  {
    hide Without, TakeStray, FirstAccepting, Scan, Done, Lists;
  }

  lemma MoveKeepsLogs(accepts: Accepts, s: State, step: Step)
    requires Sound(s) && Enabled(s, step) && step.Move?
    ensures HitsLogged(Next(accepts, s, step))
  {
    var proc := s.procs[step.pid];
    assert SignalSound(s, proc) && HoldsFresh(s, proc);
    MoverLogs(accepts, s, step);
    hide Next, Enabled, Done, SignalSound, HoldsFresh, TodoSound, SingleCopies, HitsKept, Borne;
  }

  lemma MoveKeepsGone(accepts: Accepts, s: State, step: Step)
    requires Sound(s) && Enabled(s, step) && step.Move?
    ensures MissedGone(Next(accepts, s, step))
  {
    var t, proc := Next(accepts, s, step), s.procs[step.pid];
    assert step.pid in s.procs && SignalSound(s, proc) && HoldsFresh(s, proc);
    MoverLogs(accepts, s, step);
    MoverRows(accepts, s, step);
    DoneStays(accepts, s, step);
    hide Next, Enabled, SignalSound, HoldsFresh, TodoSound, SingleCopies, HitsKept, Borne;
    forall hit | hit in t.missed ensures Done(t, hit.0) && hit.0 !in t.rows {
      assert Done(s, hit.0);
    }
  }

  lemma MoveKeepsRows(accepts: Accepts, s: State, step: Step)
    requires Sound(s) && Enabled(s, step) && step.Move?
    ensures RowsDone(Next(accepts, s, step))
  {
    var t := Next(accepts, s, step);
    DoneStays(accepts, s, step);
    forall k | k in t.rows ensures Done(t, k) {
      if k !in s.rows { PutIsDone(accepts, s, step, k); }
    }
  }

  lemma MoveKeepsPuts(accepts: Accepts, s: State, step: Step)
    requires PutsUnique(s) && Enabled(s, step) && step.Move?
    ensures PutsUnique(Next(accepts, s, step))
  {
    var t := Next(accepts, s, step);
    MoverPid(accepts, s, step);
    assert step.pid in s.procs;
    forall q | q in s.procs && q != step.pid ensures q in t.procs && t.procs[q] == s.procs[q] {
      OthersStay(accepts, s, step, q);
    }
    forall k ensures t.driven == s.driven && (WillPut(t.procs[step.pid], k) ==> WillPut(s.procs[step.pid], k)) {
      PutsOnlyIfItWould(accepts, s, step, k);
    }
    hide Next, Enabled, WillPut;
  }

  lemma MoveKeepsProcs(accepts: Accepts, s: State, step: Step)
    requires Sound(s) && Enabled(s, step) && step.Move?
    ensures ProcsSound(Next(accepts, s, step))
  {
    var t := Next(accepts, s, step);
    assert step.pid in s.procs;
    MoverStaysSound(accepts, s, step);
    forall q | q in s.procs && q != step.pid
      ensures q in t.procs && t.procs[q] == s.procs[q] && TodoSound(t, t.procs[q]) && SignalSound(t, t.procs[q])
    {
      OthersStay(accepts, s, step, q);
      assert NoShare(s.procs[q], s.procs[step.pid]);
      OtherStaysSound(s, t, s.procs[q], Carries(s.procs[step.pid]));
    }
    hide Next, Enabled, TodoSound, SignalSound, SingleCopies, HitsKept, Beside;
  }

  lemma MissedStaysKept(accepts: Accepts, s: State, step: Step, hit: Hit)
    requires Sound(s) && Enabled(s, step) && step.Move? && hit in Next(accepts, s, step).missed
    ensures hit in Next(accepts, s, step).stray || Borne(Next(accepts, s, step), hit)
  {
    var t := Next(accepts, s, step);
    MoverPid(accepts, s, step);
    assert SignalSound(s, s.procs[step.pid]) && step.pid in t.procs;
    MoverStray(accepts, s, step);
    if hit in s.missed && hit !in s.stray {
      var pid :| pid in s.procs && Bears(s.procs[pid], hit);
      assert SignalSound(s, s.procs[pid]);
      assert s.procs[pid].SigBuffer?;
      if pid == step.pid {
        BufferStrays(accepts, s, step);
      } else {
        OthersStay(accepts, s, step, pid);
        hide Next, Enabled;
        assert Bears(t.procs[pid], hit);
      }
    } else if hit !in s.missed {
      NewMissIsBorne(accepts, s, step, hit);
      assert Bears(t.procs[step.pid], hit);
    }
  }

  lemma BufferStrays(accepts: Accepts, s: State, step: Step)
    requires Enabled(s, step) && step.Move? && s.procs[step.pid].SigBuffer?
    ensures (s.procs[step.pid].key, s.procs[step.pid].e) in Next(accepts, s, step).stray
  {
  }

  lemma NewMissIsBorne(accepts: Accepts, s: State, step: Step, hit: Hit)
    requires Enabled(s, step) && step.Move? && hit in Next(accepts, s, step).missed && hit !in s.missed
    ensures step.pid in Next(accepts, s, step).procs && Bears(Next(accepts, s, step).procs[step.pid], hit)
  {
    hide Without, TakeStray, FirstAccepting, Scan, Lists;
  }

  lemma MoveKeepsSound(accepts: Accepts, s: State, step: Step)
    requires Sound(s) && Enabled(s, step) && step.Move?
    ensures Sound(Next(accepts, s, step))
  {
    hide Next, Enabled, SingleCopies, HitsKept, RowsDone, PutsUnique, HitsLogged, MissedGone, ProcsSound, Borne;
    var t := Next(accepts, s, step);
    StepKeepsCopies(accepts, s, step);
    StepKeepsHits(accepts, s, step);
    MoveKeepsRows(accepts, s, step);
    MoveKeepsPuts(accepts, s, step);
    MoveKeepsLogs(accepts, s, step);
    MoveKeepsGone(accepts, s, step);
    MoveKeepsProcs(accepts, s, step);
    forall hit | hit in t.missed ensures hit in t.stray || Borne(t, hit) {
      MissedStaysKept(accepts, s, step, hit);
    }
  }

  lemma PutIsDone(accepts: Accepts, s: State, step: Step, k: Key)
    requires Sound(s) && Enabled(s, step) && step.Move?
    requires k in Next(accepts, s, step).rows && k !in s.rows
    ensures Done(Next(accepts, s, step), k)
  {
    var t := Next(accepts, s, step);
    MoverPid(accepts, s, step);
    assert WillPut(s.procs[step.pid], k) && t.procs[step.pid] == EvScan(k) by { PutRegisters(accepts, s, step, k); }
    forall pid | pid in t.procs ensures !WillPut(t.procs[pid], k) {
      if pid != step.pid { OthersStay(accepts, s, step, pid); }
    }
    PutsOnlyIfItWould(accepts, s, step, k);
  }

  lemma PutRegisters(accepts: Accepts, s: State, step: Step, k: Key)
    requires Enabled(s, step) && step.Move? && k in Next(accepts, s, step).rows && k !in s.rows
    ensures WillPut(s.procs[step.pid], k)
    ensures step.pid in Next(accepts, s, step).procs && Next(accepts, s, step).procs[step.pid] == EvScan(k)
  {
    hide Without, TakeStray, FirstAccepting, Scan, Lists;
  }

  lemma SpawnKeepsSound(accepts: Accepts, s: State, step: Step)
    requires Sound(s) && Enabled(s, step) && step.Spawn? && !Redrives(s, step)
    ensures Sound(Next(accepts, s, step))
  {
    var t := Next(accepts, s, step);
    StepKeepsCopies(accepts, s, step);
    StepKeepsHits(accepts, s, step);
    SpawnKeepsDone(accepts, s, step);
    SpawnKeepsProcs(accepts, s, step);
    SpawnKeepsBorne(accepts, s, step);
    hide SingleCopies, HitsKept, Borne, Done, ProcsSound, PutsUnique;
  }

  lemma SpawnKeepsBorne(accepts: Accepts, s: State, step: Step)
    requires Enabled(s, step) && step.Spawn?
    ensures forall hit | Borne(s, hit) :: Borne(Next(accepts, s, step), hit)
  {
    var t := Next(accepts, s, step);
    SpawnedOnly(accepts, s, step);
    hide Next, Bears;
    forall hit | Borne(s, hit) ensures Borne(t, hit) {
      var pid :| pid in s.procs && Bears(s.procs[pid], hit);
      assert pid in t.procs && Bears(t.procs[pid], hit);
    }
  }

  lemma SpawnKeepsDone(accepts: Accepts, s: State, step: Step)
    requires Enabled(s, step) && step.Spawn? && !Redrives(s, step) && PutsUnique(s)
    ensures forall k | Done(s, k) :: Done(Next(accepts, s, step), k)
    ensures PutsUnique(Next(accepts, s, step))
  {
    var t := Next(accepts, s, step);
    assert forall pid | pid in t.procs && pid != step.pid :: pid in s.procs && t.procs[pid] == s.procs[pid];
  }

  lemma SpawnedOnly(accepts: Accepts, s: State, step: Step)
    requires Enabled(s, step) && step.Spawn?
    ensures var t := Next(accepts, s, step);
            t.procs == s.procs[step.pid := step.proc]
  {
  }

  lemma SpawnKeepsProcs(accepts: Accepts, s: State, step: Step)
    requires Sound(s) && Enabled(s, step) && step.Spawn? && !Redrives(s, step)
    ensures ProcsSound(Next(accepts, s, step))
  {
    var t := Next(accepts, s, step);
    SpawnKeepsDone(accepts, s, step);
    assert Beside(s, t, None) && t.hits == s.hits;
    assert TodoSound(t, step.proc) && SignalSound(t, step.proc);
    hide TodoSound, SignalSound, Done, Enabled, Next;
    forall q | q in s.procs ensures TodoSound(t, s.procs[q]) && SignalSound(t, s.procs[q]) {
      OtherStaysSound(s, t, s.procs[q], None);
    }
    SpawnedOnly(accepts, s, step);
    hide Sound;
  }

  lemma {:induction false} RunKeepsSound(accepts: Accepts, s: State, steps: seq<Step>)
    requires Sound(s) && Runs(accepts, s, steps) && SingleDrives(accepts, s, steps)
    ensures Sound(After(accepts, s, steps))
    decreases |steps|
  {
    hide Next, Enabled, Sound;
    if steps != [] {
      if steps[0].Move? {
        MoveKeepsSound(accepts, s, steps[0]);
      } else {
        SpawnKeepsSound(accepts, s, steps[0]);
      }
      RunKeepsSound(accepts, Next(accepts, s, steps[0]), steps[1..]);
    }
  }

  /**
   * If no wait is driven twice, an event counted as received by a waiter is left under the waiter's
   * token exactly when the waiter's row had gone between the listing and the take, by its deadline,
   * another publisher or its own scan; in every other case it is recorded.
   */
  lemma StrandedIffRowGone(accepts: Accepts, steps: seq<Step>, hit: Hit)
    requires Runs(accepts, EMPTY, steps) && SingleDrives(accepts, EMPTY, steps)
    requires Quiescent(After(accepts, EMPTY, steps)) && hit in After(accepts, EMPTY, steps).hits
    ensures var end := After(accepts, EMPTY, steps);
            (hit in end.stray <==> hit in end.missed) && (Recorded(end, hit) <==> hit !in end.missed)
  {
    RunKeepsSound(accepts, EMPTY, steps);
    var end := After(accepts, EMPTY, steps);
    assert !Borne(end, hit);
  }

  /** A waiter finds nothing and parks, registered. */
  lemma WaiterParks(accepts: Accepts, key: Key) returns (steps: seq<Step>, s: State)
    ensures Leads(accepts, steps, s, 0)
    ensures s == EMPTY.(rows := {key}, driven := {key}, procs := map[0 := Parked(key)])
  {
    LeadsFromEmpty(accepts, 0);
    hide Leads, SignalMove, PublishMove, Without;
    steps, s := WaitScans(accepts, EMPTY, [], 0, key, 0);
    assert Scan(EMPTY.buffer) == [];
    steps := LeadOn(accepts, steps, s, Move(0, [key]), 0);
    s := Next(accepts, s, Move(0, [key]));
    assert s.procs == map[0 := Parked(key)];
  }

  /** Its row is listed by a publisher. */
  lemma PublisherLists(accepts: Accepts, key: Key, e: Event) returns (steps: seq<Step>, s: State)
    ensures Leads(accepts, steps, s, 0)
    ensures s == EMPTY.(rows := {key}, driven := {key}, published := {e}, offered := {e}, seen := {(key, e)},
                        procs := map[0 := Parked(key), 1 := PubFan(e, [key], true)])
  {
    hide Leads, SignalMove, WaitMove, FirstAccepting, Without;
    steps, s := WaiterParks(accepts, key);
    steps := LeadOn(accepts, steps, s, Spawn(1, PubList(e, true)), 0);
    s := Next(accepts, s, Spawn(1, PubList(e, true)));
    assert s.procs == map[0 := Parked(key), 1 := PubList(e, true)];
    steps := LeadOn(accepts, steps, s, Move(1, [key]), 0);
    s := Next(accepts, s, Move(1, [key]));
    assert s.procs == map[0 := Parked(key), 1 := PubFan(e, [key], true)];
  }

  /** Its row is listed by a publisher whose event it accepts. */
  lemma WaiterListed(accepts: Accepts, key: Key, e: Event) returns (steps: seq<Step>, s: State)
    requires accepts(key, e)
    ensures Leads(accepts, steps, s, 0)
    ensures s == EMPTY.(rows := {key}, driven := {key}, published := {e}, offered := {e}, seen := {(key, e)},
                        hits := {(key, e)}, procs := map[0 := Parked(key), 1 := SigTake(e, key, [])])
  {
    hide Leads, SignalMove, WaitMove, FirstAccepting, Without;
    steps, s := PublisherLists(accepts, key, e);
    steps := LeadOn(accepts, steps, s, Move(1, [key]), 0);
    s := Next(accepts, s, Move(1, [key]));
    assert [key][1..] == [] && s.procs == map[0 := Parked(key), 1 := SigTake(e, key, [])];
  }

  /** Its deadline passes before the publisher takes the row. */
  lemma ListedThenExpired(accepts: Accepts, key: Key, e: Event) returns (steps: seq<Step>, s: State)
    requires accepts(key, e)
    ensures Leads(accepts, steps, s, 0)
    ensures s == EMPTY.(driven := {key}, published := {e}, offered := {e}, seen := {(key, e)}, hits := {(key, e)},
                        procs := map[0 := Parked(key), 1 := SigTake(e, key, []), 2 := Finished])
  {
    hide Leads, SignalMove, PublishMove, Without;
    steps, s := WaiterListed(accepts, key, e);
    steps := LeadOn(accepts, steps, s, Spawn(2, Expire(key)), 0);
    s := Next(accepts, s, Spawn(2, Expire(key)));
    assert s.procs == map[0 := Parked(key), 1 := SigTake(e, key, []), 2 := Expire(key)];
    steps := LeadOn(accepts, steps, s, Move(2, [key]), 0);
    s := Next(accepts, s, Move(2, [key]));
    assert s.procs == map[0 := Parked(key), 1 := SigTake(e, key, []), 2 := Finished] && s.rows == {};
  }

  /** The take finds nothing and the payload goes under the token. */
  lemma TakeMisses(accepts: Accepts, key: Key, e: Event) returns (steps: seq<Step>, s: State)
    requires accepts(key, e)
    ensures Leads(accepts, steps, s, 0)
    ensures s == EMPTY.(driven := {key}, published := {e}, offered := {e}, seen := {(key, e)},
                        hits := {(key, e)}, missed := {(key, e)}, stray := [(key, e)],
                        procs := map[0 := Parked(key), 1 := SigRetake(e, key, []), 2 := Finished])
  {
    hide Leads, WaitMove, PublishMove, TakeStray;
    steps, s := ListedThenExpired(accepts, key, e);
    steps := LeadOn(accepts, steps, s, Move(1, []), 0);
    s := Next(accepts, s, Move(1, []));
    assert s.procs == map[0 := Parked(key), 1 := SigBuffer(e, key, []), 2 := Finished];
    steps := LeadOn(accepts, steps, s, Move(1, []), 0);
    s := Next(accepts, s, Move(1, []));
    assert s.procs == map[0 := Parked(key), 1 := SigRetake(e, key, []), 2 := Finished];
  }

  /** It happens: the deadline passes between the listing and the take, and nobody ever gets the event. */
  lemma StrandedByDeadline(accepts: Accepts, key: Key, e: Event) returns (steps: seq<Step>)
    requires accepts(key, e)
    ensures Runs(accepts, EMPTY, steps)
    ensures var end := After(accepts, EMPTY, steps);
            && Quiescent(end) && end.hits == {(key, e)} && end.stray == [(key, e)]
            && end.rows == {} && end.buffer == [] && end.cps == map[]
  {
    var s: State;
    hide Leads, TakeStray, FirstAccepting, Without, Runs, After;
    steps, s := TakeMisses(accepts, key, e);
    steps := LeadOn(accepts, steps, s, Move(1, []), 0);
    s := Next(accepts, s, Move(1, []));
    assert s.procs == map[0 := Parked(key), 1 := PubFan(e, [], false), 2 := Finished];
    steps := LeadOn(accepts, steps, s, Move(1, []), 0);
    s := Next(accepts, s, Move(1, []));
    assert s.procs == map[0 := Parked(key), 1 := Finished, 2 := Finished];
    LeadsThere(accepts, steps, s, 0);
  }
}

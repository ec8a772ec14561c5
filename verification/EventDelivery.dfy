/**
 * What becomes of every named event, over every run: who receives it, what is recorded for it, and
 * what the checkpoint of a wait holds in the end.
 * Models `publishEvent` in packages/adonis/src/engine.ts and `consumeBufferedEvent` in
 * packages/adonis/src/workflow-ctx.ts.
 */
module EventDelivery {
  import opened Common
  import opened EventRendezvous

  // ------------------------------------------------------------- who receives an event

  /** Where a publisher stands with the waiters it listed: those ahead of it are yet to be hit. */
  ghost predicate FanSound(s: State, proc: Proc) {
    && NoRepeats(TodoOf(proc))
    && (Carries(proc).Some? ==>
          forall k | k in TodoOf(proc) :: (k, Carries(proc).value) in s.seen - s.hits)
    && (Signalling(proc) ==> proc.key !in TodoOf(proc) && (proc.key, proc.e) in s.hits)
    && (proc.PubList? ==> forall hit | hit in s.seen :: hit.1 != proc.e)
  }

  /** Some publisher has yet to look at the waiter. */
  ghost predicate Ahead(s: State, hit: Hit) {
    exists pid :: pid in s.procs && Carries(s.procs[pid]) == Some(hit.1) && hit.0 in TodoOf(s.procs[pid])
  }

  ghost predicate Fanned(accepts: Accepts, s: State) {
    && SingleCopies(s)
    && (forall pid | pid in s.procs :: FanSound(s, s.procs[pid]))
    && (forall hit | hit in s.hits :: hit in s.seen && accepts(hit.0, hit.1))
    && (forall hit | hit in s.seen :: hit.1 in s.published)
    && (forall hit | hit in s.seen && accepts(hit.0, hit.1) :: hit in s.hits || Ahead(s, hit))
  }

  /** What a store call may do to the hits: list the waiters, look at one, or nothing. */
  ghost predicate FanEffect(accepts: Accepts, s: State, t: State, before: Proc, after: Proc) {
    || (t.hits == s.hits && t.seen == s.seen && TodoOf(after) == TodoOf(before)
        && (Carries(after) == Carries(before) || (Carries(after).None? && TodoOf(after) == []))
        && !after.PubList? && !before.PubList?
        && (Signalling(after) ==> Signalling(before) && after.key == before.key && after.e == before.e))
    || (before.PubList? && after.PubFan? && after.e == before.e && NoRepeats(after.todo)
        && t.hits == s.hits && (forall k :: k in after.todo <==> k in s.rows)
        && forall hit :: hit in t.seen <==> hit in s.seen || (hit.0 in s.rows && hit.1 == before.e))
    || (before.PubFan? && before.todo != [] && t.seen == s.seen && TodoOf(after) == before.todo[1..]
        && (if accepts(before.todo[0], before.e)
            then after == SigTake(before.e, before.todo[0], before.todo[1..])
                 && t.hits == s.hits + {(before.todo[0], before.e)}
            else after.PubFan? && after.e == before.e && t.hits == s.hits))
  }

  lemma PublishFans(accepts: Accepts, s: State, pid: Pid, listed: seq<Key>)
    requires pid in s.procs && Publishing(s.procs[pid]) && Lists(listed, s.rows)
    ensures var t := PublishMove(accepts, s, pid, listed); FanEffect(accepts, s, t, s.procs[pid], t.procs[pid])
  {
    hide Without, FirstAccepting;
  }

  lemma SignalFans(accepts: Accepts, s: State, pid: Pid)
    requires pid in s.procs && Signalling(s.procs[pid])
    ensures var t := SignalMove(s, pid); FanEffect(accepts, s, t, s.procs[pid], t.procs[pid])
  {
    hide TakeStray, NoRepeats;
  }

  lemma WaitFans(accepts: Accepts, s: State, pid: Pid)
    requires pid in s.procs && Waiting(s.procs[pid])
    ensures var t := WaitMove(accepts, s, pid); FanEffect(accepts, s, t, s.procs[pid], t.procs[pid])
  {
    hide Without, Scan, NoRepeats;
  }

  lemma MoverFans(accepts: Accepts, s: State, step: Step)
    requires Enabled(s, step) && step.Move?
    ensures var t := Next(accepts, s, step);
            t.procs.Keys == s.procs.Keys && FanEffect(accepts, s, t, s.procs[step.pid], t.procs[step.pid])
  {
    hide PublishMove, SignalMove, WaitMove, FanEffect, Lists;
    if Signalling(s.procs[step.pid]) {
      SignalFans(accepts, s, step.pid);
    } else if Waiting(s.procs[step.pid]) {
      WaitFans(accepts, s, step.pid);
    } else {
      PublishFans(accepts, s, step.pid, step.listed);
    }
  }

  lemma StepKeepsFanned(accepts: Accepts, s: State, step: Step)
    requires Fanned(accepts, s) && Enabled(s, step)
    ensures Fanned(accepts, Next(accepts, s, step))
  {
    var t := Next(accepts, s, step);
    StepKeepsCopies(accepts, s, step);
    forall q | q in s.procs && q != step.pid ensures q in t.procs && t.procs[q] == s.procs[q] {
      OthersStay(accepts, s, step, q);
    }
    if step.Move? {
      MoverFans(accepts, s, step);
      MoverEffect(accepts, s, step);
      assert step.pid in s.procs;
      hide Next, Enabled;
      EffectKeepsFanned(accepts, s, t, step.pid);
    } else {
      SpawnKeepsFanned(accepts, s, step);
    }
  }

  lemma SpawnKeepsFanned(accepts: Accepts, s: State, step: Step)
    requires Fanned(accepts, s) && Enabled(s, step) && step.Spawn? && SingleCopies(Next(accepts, s, step))
    ensures Fanned(accepts, Next(accepts, s, step))
  {
    var t := Next(accepts, s, step);
    assert t.procs == s.procs[step.pid := step.proc] && t.seen == s.seen && t.hits == s.hits;
    hide SingleCopies, Carries, TodoOf, NoRepeats;
    forall hit | Ahead(s, hit) ensures Ahead(t, hit) {
      var pid :| pid in s.procs && Carries(s.procs[pid]) == Some(hit.1) && hit.0 in TodoOf(s.procs[pid]);
      assert t.procs[pid] == s.procs[pid];
    }
    assert FanSound(t, step.proc) by { SpawnedFansNobody(s, step); }
    forall pid | pid in t.procs ensures FanSound(t, t.procs[pid]) {
      if pid != step.pid { assert FanSound(s, s.procs[pid]); }
    }
  }

  lemma SpawnedFansNobody(s: State, step: Step)
    requires Enabled(s, step) && step.Spawn? && forall hit | hit in s.seen :: hit.1 in s.published
    ensures FanSound(s, step.proc)
  {
  }

  lemma EffectKeepsFanned(accepts: Accepts, s: State, t: State, pid: Pid)
    requires Fanned(accepts, s) && SingleCopies(t) && pid in s.procs && t.procs.Keys == s.procs.Keys
    requires t.published == s.published && FanEffect(accepts, s, t, s.procs[pid], t.procs[pid])
    requires forall q | q in s.procs && q != pid :: t.procs[q] == s.procs[q]
    ensures Fanned(accepts, t)
  {
    var before, after := s.procs[pid], t.procs[pid];
    assert FanSound(s, before) && HoldsFresh(s, before);
    forall q | q in s.procs && q != pid ensures FanSound(t, t.procs[q]) {
      assert FanSound(s, s.procs[q]) && NoShare(s.procs[pid], s.procs[q]) && NoShare(s.procs[q], s.procs[pid]);
      OtherFanSound(accepts, s, t, pid, s.procs[q]);
    }
    MoverFanSound(accepts, s, t, before, after);
    forall hit | hit in t.seen && accepts(hit.0, hit.1) && hit !in t.hits ensures Ahead(t, hit) {
      StillAhead(accepts, s, t, pid, hit);
    }
    HitsAreSeen(accepts, s, t, before, after);
  }

  lemma HitsAreSeen(accepts: Accepts, s: State, t: State, before: Proc, after: Proc)
    requires FanEffect(accepts, s, t, before, after) && FanSound(s, before) && HoldsFresh(s, before)
    requires forall hit | hit in s.hits :: hit in s.seen && accepts(hit.0, hit.1)
    requires forall hit | hit in s.seen :: hit.1 in s.published
    ensures forall hit | hit in t.hits :: hit in t.seen && accepts(hit.0, hit.1)
    ensures forall hit | hit in t.seen :: hit.1 in s.published
  {
    hide NoRepeats;
  }

  lemma MoverFanSound(accepts: Accepts, s: State, t: State, before: Proc, after: Proc)
    requires FanEffect(accepts, s, t, before, after) && FanSound(s, before)
    requires forall hit | hit in s.hits :: hit in s.seen
    ensures FanSound(t, after)
  {
    if before.PubFan? && before.todo != [] {
      TailOf(before.todo);
      hide NoRepeats;
    } else if before.PubList? {
      hide NoRepeats;
    } else {
      hide NoRepeats;
    }
  }

  lemma OtherFanSound(accepts: Accepts, s: State, t: State, pid: Pid, proc: Proc)
    requires pid in s.procs && pid in t.procs && FanEffect(accepts, s, t, s.procs[pid], t.procs[pid])
    requires FanSound(s, proc) && NoShare(s.procs[pid], proc)
    ensures FanSound(t, proc)
  {
    hide NoRepeats;
  }

  lemma StillAhead(accepts: Accepts, s: State, t: State, pid: Pid, hit: Hit)
    requires Fanned(accepts, s) && pid in s.procs && t.procs.Keys == s.procs.Keys
    requires FanEffect(accepts, s, t, s.procs[pid], t.procs[pid])
    requires forall q | q in s.procs && q != pid :: t.procs[q] == s.procs[q]
    requires hit in t.seen && accepts(hit.0, hit.1) && hit !in t.hits
    ensures Ahead(t, hit)
  {
    hide SingleCopies, FanSound, NoRepeats;
    if hit in s.seen {
      assert hit !in s.hits;
      var q :| q in s.procs && Carries(s.procs[q]) == Some(hit.1) && hit.0 in TodoOf(s.procs[q]);
      assert q != pid ==> t.procs[q] == s.procs[q];
      assert Carries(t.procs[q]) == Some(hit.1) && hit.0 in TodoOf(t.procs[q]);
    } else {
      assert Carries(t.procs[pid]) == Some(hit.1) && hit.0 in TodoOf(t.procs[pid]);
    }
  }

  lemma {:induction false} RunKeepsFanned(accepts: Accepts, s: State, steps: seq<Step>)
    requires Fanned(accepts, s) && Runs(accepts, s, steps)
    ensures Fanned(accepts, After(accepts, s, steps))
    decreases |steps|
  {
    hide Next, Enabled, Fanned;
    if steps != [] {
      StepKeepsFanned(accepts, s, steps[0]);
      RunKeepsFanned(accepts, Next(accepts, s, steps[0]), steps[1..]);
    }
  }

  /** Once every call has returned, an event was received by exactly the listed waiters that accept it. */
  lemma ReceivedByAllWhoAccept(accepts: Accepts, steps: seq<Step>, hit: Hit)
    requires Runs(accepts, EMPTY, steps) && Quiescent(After(accepts, EMPTY, steps))
    ensures var end := After(accepts, EMPTY, steps);
            hit in end.hits <==> hit in end.seen && accepts(hit.0, hit.1)
  {
    RunKeepsFanned(accepts, EMPTY, steps);
    assert !Ahead(After(accepts, EMPTY, steps), hit);
  }

  // ------------------------------------------------------- an event nobody received is kept

  ghost predicate Received(s: State, e: Event) {
    exists key :: (key, e) in s.hits
  }

  /** What a publisher knows of its event: whether it is still to be kept. */
  ghost predicate FateSound(s: State, proc: Proc) {
    match proc
    case PubList(e, keep) => keep <==> e in s.offered && !Received(s, e)
    case PubFan(e, _, keep) => keep <==> e in s.offered && !Received(s, e)
    case PubBuffer(e) => e in s.offered && !Received(s, e)
    case _ => true
  }

  ghost predicate Carried(s: State, e: Event) {
    exists pid :: pid in s.procs && Carries(s.procs[pid]) == Some(e)
  }

  predicate Kept(s: State, e: Event) {
    e in s.buffer || e in s.claims
  }

  ghost predicate Fated(accepts: Accepts, s: State) {
    && Fanned(accepts, s) && s.offered <= s.published
    && (forall pid | pid in s.procs :: FateSound(s, s.procs[pid]))
    && (forall e | Kept(s, e) :: e in s.offered && !Received(s, e))
    && (forall e | e in s.offered && !Received(s, e) :: Kept(s, e) || Carried(s, e))
  }

  /** What a store call may do to an event: keep it, claim it, count it as received, or nothing. */
  ghost predicate FateEffect(s: State, t: State, before: Proc, after: Proc) {
    && t.offered == s.offered && t.published == s.published
    && match before
       case PubList(e, keep) =>
         t.hits == s.hits && SameKept(s, t) && after.PubFan? && after.e == e && after.keep == keep
       case PubFan(e, todo, keep) =>
         && SameKept(s, t)
         && (|| (t.hits == s.hits && after.PubFan? && after.e == e && after.keep == keep)
             || (t.hits == s.hits && todo == [] && after == if keep then PubBuffer(e) else Finished)
             || (todo != [] && t.hits == s.hits + {(todo[0], e)} && after.SigTake? && after.e == e))
       case PubBuffer(e) =>
         t.hits == s.hits && after == PubRelist(e) && forall x :: Kept(t, x) <==> Kept(s, x) || x == e
       case _ =>
         && t.hits == s.hits && SameKept(s, t) && !after.PubList? && !after.PubBuffer?
         && (after.PubFan? ==> !after.keep && Signalling(before) && after.e == before.e)
         && (Carries(before).Some? ==> Carries(after) == Carries(before))
  }

  ghost predicate SameKept(s: State, t: State) {
    forall x :: Kept(t, x) <==> Kept(s, x)
  }

  lemma PublishFates(accepts: Accepts, s: State, pid: Pid, listed: seq<Key>)
    requires pid in s.procs && Publishing(s.procs[pid])
    ensures var t := PublishMove(accepts, s, pid, listed); FateEffect(s, t, s.procs[pid], t.procs[pid])
  {
    hide Without, FirstAccepting;
  }

  lemma SignalFates(s: State, pid: Pid)
    requires pid in s.procs && Signalling(s.procs[pid])
    ensures var t := SignalMove(s, pid); FateEffect(s, t, s.procs[pid], t.procs[pid])
  {
    hide TakeStray;
  }

  lemma WaitFates(accepts: Accepts, s: State, pid: Pid)
    requires pid in s.procs && Waiting(s.procs[pid])
    ensures var t := WaitMove(accepts, s, pid); FateEffect(s, t, s.procs[pid], t.procs[pid])
  {
    hide Without, Scan;
  }

  lemma MoverFates(accepts: Accepts, s: State, step: Step)
    requires Enabled(s, step) && step.Move?
    ensures var t := Next(accepts, s, step); FateEffect(s, t, s.procs[step.pid], t.procs[step.pid])
  {
    hide PublishMove, SignalMove, WaitMove, FateEffect, Lists;
    if Signalling(s.procs[step.pid]) {
      SignalFates(s, step.pid);
    } else if Waiting(s.procs[step.pid]) {
      WaitFates(accepts, s, step.pid);
    } else {
      PublishFates(accepts, s, step.pid, step.listed);
    }
  }

  lemma StepKeepsFated(accepts: Accepts, s: State, step: Step)
    requires Fated(accepts, s) && Enabled(s, step)
    ensures Fated(accepts, Next(accepts, s, step))
  {
    var t := Next(accepts, s, step);
    StepKeepsFanned(accepts, s, step);
    if step.Move? {
      forall q | q in s.procs && q != step.pid ensures q in t.procs && t.procs[q] == s.procs[q] {
        OthersStay(accepts, s, step, q);
      }
      MoverFates(accepts, s, step);
      MoverFans(accepts, s, step);
      assert step.pid in s.procs;
      hide Next, Enabled, Fanned, FanEffect;
      assert Fanned(accepts, s) && Fanned(accepts, t);
      FannedMeans(accepts, s, step.pid);
      EffectKeepsFated(accepts, s, t, step.pid);
    } else {
      SpawnKeepsFated(accepts, s, step);
    }
  }

  lemma FannedMeans(accepts: Accepts, s: State, pid: Pid)
    requires Fanned(accepts, s) && pid in s.procs
    ensures forall q | q in s.procs && q != pid :: NoShare(s.procs[pid], s.procs[q])
    ensures Signalling(s.procs[pid]) ==> Received(s, s.procs[pid].e)
    ensures s.procs[pid].PubFan? ==> !Kept(s, s.procs[pid].e)
  {
    hide NoRepeats;
    assert FanSound(s, s.procs[pid]) && HoldsFresh(s, s.procs[pid]);
  }

  lemma EffectKeepsFated(accepts: Accepts, s: State, t: State, pid: Pid)
    requires Fated(accepts, s) && Fanned(accepts, t) && pid in s.procs && t.procs.Keys == s.procs.Keys
    requires FateEffect(s, t, s.procs[pid], t.procs[pid])
    requires forall q | q in s.procs && q != pid :: t.procs[q] == s.procs[q] && NoShare(s.procs[pid], s.procs[q])
    requires Signalling(s.procs[pid]) ==> Received(s, s.procs[pid].e)
    requires s.procs[pid].PubFan? ==> !Kept(s, s.procs[pid].e)
    ensures Fated(accepts, t)
  {
    hide Fanned, Kept, Received;
    assert FateSound(s, s.procs[pid]);
    ReceivedMoves(s, t, s.procs[pid], t.procs[pid]);
    MoverFateSound(s, t, s.procs[pid], t.procs[pid]);
    forall q | q in s.procs && q != pid ensures FateSound(t, t.procs[q]) {
      assert FateSound(s, s.procs[q]);
      OtherFateSound(s, t, s.procs[pid], s.procs[q]);
    }
    KeptWasOffered(s, t, s.procs[pid], t.procs[pid]);
    forall e | e in t.offered && !Received(t, e) && !Kept(t, e) ensures Carried(t, e) {
      StillCarried(s, t, pid, e);
    }
  }

  /** Only the mover's own event is newly received. */
  lemma ReceivedMoves(s: State, t: State, before: Proc, after: Proc)
    requires FateEffect(s, t, before, after)
    ensures forall e | Received(s, e) :: Received(t, e)
    ensures forall e | Received(t, e) && !Received(s, e) :: before.PubFan? && before.e == e && after.SigTake?
    ensures before.PubFan? && after.SigTake? ==> Received(t, before.e)
  {
    hide Kept;
  }

  lemma MoverFateSound(s: State, t: State, before: Proc, after: Proc)
    requires FateEffect(s, t, before, after) && FateSound(s, before)
    requires forall e | Received(s, e) :: Received(t, e)
    requires forall e | Received(t, e) && !Received(s, e) :: before.PubFan? && before.e == e && after.SigTake?
    requires Signalling(before) ==> Received(s, before.e)
    ensures FateSound(t, after)
  {
    hide Kept, Received;
  }

  lemma OtherFateSound(s: State, t: State, before: Proc, proc: Proc)
    requires FateSound(s, proc) && t.offered == s.offered && NoShare(before, proc)
    requires forall e | Received(s, e) :: Received(t, e)
    requires forall e | Received(t, e) && !Received(s, e) :: before.PubFan? && before.e == e
    ensures FateSound(t, proc)
  {
    hide Received;
  }

  lemma KeptWasOffered(s: State, t: State, before: Proc, after: Proc)
    requires FateEffect(s, t, before, after) && FateSound(s, before) && t.offered == s.offered
    requires forall e | Kept(s, e) :: e in s.offered && !Received(s, e)
    requires before.PubFan? ==> !Kept(s, before.e)
    requires forall e | Received(t, e) && !Received(s, e) :: before.PubFan? && before.e == e && after.SigTake?
    ensures forall e | Kept(t, e) :: e in t.offered && !Received(t, e)
  {
    hide Kept, Received;
  }

  lemma StillCarried(s: State, t: State, pid: Pid, e: Event)
    requires pid in s.procs && t.procs.Keys == s.procs.Keys && FateEffect(s, t, s.procs[pid], t.procs[pid])
    requires forall q | q in s.procs && q != pid :: t.procs[q] == s.procs[q]
    requires FateSound(s, s.procs[pid])
    requires forall x | Received(s, x) :: Received(t, x)
    requires e in s.offered && !Received(t, e) && !Kept(t, e) && (Kept(s, e) || Carried(s, e))
    ensures Carried(t, e)
  {
    hide Kept, Received;
    assert !Kept(s, e);
    var q :| q in s.procs && Carries(s.procs[q]) == Some(e);
    assert Carries(t.procs[q]) == Some(e);
  }

  lemma SpawnKeepsFated(accepts: Accepts, s: State, step: Step)
    requires Fated(accepts, s) && Enabled(s, step) && step.Spawn? && Fanned(accepts, Next(accepts, s, step))
    ensures Fated(accepts, Next(accepts, s, step))
  {
    var t := Next(accepts, s, step);
    SpawnOffers(accepts, s, step);
    assert forall e | Received(s, e) :: e in s.published by { SeenIsPublished(accepts, s); }
    forall pid | pid in s.procs && Carries(s.procs[pid]).Some?
      ensures Carries(s.procs[pid]).value in s.published
    {
      CarriedIsPublished(accepts, s, pid);
    }
    hide Next, Fanned, Enabled;
    SpawnCarries(s, t, step.pid, step.proc);
    assert forall e :: Received(t, e) <==> Received(s, e);
    hide Received, Carried;
    forall pid | pid in t.procs ensures FateSound(t, t.procs[pid]) {
      if pid != step.pid {
        assert FateSound(s, s.procs[pid]);
      }
    }
  }

  lemma SpawnCarries(s: State, t: State, pid: Pid, proc: Proc)
    requires pid !in s.procs && t.procs == s.procs[pid := proc]
    ensures forall e: Event | Carried(s, e) :: Carried(t, e)
    ensures Carries(proc).Some? ==> Carried(t, Carries(proc).value)
  {
    hide Carries;
    forall e: Event | Carried(s, e) ensures Carried(t, e) {
      var q :| q in s.procs && Carries(s.procs[q]) == Some(e);
      assert t.procs[q] == s.procs[q];
    }
    assert t.procs[pid] == proc;
  }

  lemma SpawnOffers(accepts: Accepts, s: State, step: Step)
    requires Enabled(s, step) && step.Spawn?
    ensures var t := Next(accepts, s, step);
            && t.procs == s.procs[step.pid := step.proc] && step.pid !in s.procs
            && t.hits == s.hits && t.buffer == s.buffer && t.claims == s.claims
            && (step.proc.PubList? || step.proc.EvRead? || step.proc.Expire?)
            && (if step.proc.PubList? then
                  && step.proc.e !in s.published && t.published == s.published + {step.proc.e}
                  && t.offered == s.offered + if step.proc.keep then {step.proc.e} else {}
                else t.published == s.published && t.offered == s.offered)
  {
  }

  lemma SeenIsPublished(accepts: Accepts, s: State)
    requires Fanned(accepts, s)
    ensures forall e | Received(s, e) :: e in s.published
  {
    hide SingleCopies, FanSound, Ahead;
  }

  lemma CarriedIsPublished(accepts: Accepts, s: State, pid: Pid)
    requires Fanned(accepts, s) && pid in s.procs && Carries(s.procs[pid]).Some?
    ensures Carries(s.procs[pid]).value in s.published
  {
    assert HoldsFresh(s, s.procs[pid]);
  }

  lemma {:induction false} RunKeepsFated(accepts: Accepts, s: State, steps: seq<Step>)
    requires Fated(accepts, s) && Runs(accepts, s, steps)
    ensures Fated(accepts, After(accepts, s, steps))
    decreases |steps|
  {
    hide Next, Enabled, Fated;
    if steps != [] {
      StepKeepsFated(accepts, s, steps[0]);
      RunKeepsFated(accepts, Next(accepts, s, steps[0]), steps[1..]);
    }
  }

  /**
   * Once every call has returned, an event is buffered or claimed, and not both, exactly when it was
   * published to be kept and no waiter received it.
   */
  lemma KeptIffNobodyReceived(accepts: Accepts, steps: seq<Step>, e: Event)
    requires Runs(accepts, EMPTY, steps) && Quiescent(After(accepts, EMPTY, steps))
    ensures var end := After(accepts, EMPTY, steps);
            && (e in end.buffer || e in end.claims <==> e in end.offered && forall key :: (key, e) !in end.hits)
            && !(e in end.buffer && e in end.claims)
  {
    RunKeepsFated(accepts, EMPTY, steps);
    var end := After(accepts, EMPTY, steps);
    assert !Carried(end, e);
    assert Received(end, e) <==> exists key :: (key, e) in end.hits;
  }

  // --------------------------------------------- what was received or claimed is recorded

  /** One copy of an event: the payload signalled to a waiter that received it, or the buffered copy, claimed. */
  datatype Copy = Live(key: Key, e: Event) | Claimed(e: Event)

  /** The copy has come into being. */
  predicate Made(s: State, c: Copy) {
    match c
    case Live(key, e) => (key, e) in s.hits
    case Claimed(e) => e in s.claims
  }

  /** The process has the copy in hand. */
  predicate InHand(proc: Proc, c: Copy) {
    match c
    case Live(key, e) => Bears(proc, (key, e))
    case Claimed(e) =>
      match proc
      case PubTakeRow(x, _) => x == e
      case PubDeliver(x, _) => x == e
      case EvUnregister(_, x) => x == e
      case EvWrite(_, x) => x == e
      case _ => false
  }

  predicate Records(w: Write, c: Copy) {
    match c
    case Live(key, e) => w == Write(key, e, true)
    case Claimed(e) => w.e == e && !w.live
  }

  /** Those who have the copy in hand. */
  function Hands(procs: map<Pid, Proc>, c: Copy): set<Pid> {
    set pid | pid in procs && InHand(procs[pid], c)
  }

  /** How often the copy lies under the waiter's token. */
  function Strays(stray: seq<Hit>, c: Copy): nat {
    match c
    case Live(key, e) => multiset(stray)[(key, e)]
    case Claimed(_) => 0
  }

  /** The checkpoint writes of the copy. */
  function Recordings(writes: seq<Write>, c: Copy): set<nat> {
    set i | 0 <= i < |writes| && Records(writes[i], c)
  }

  /** The times the copy was dropped because its waiter was gone. */
  function Drops(dropped: seq<Hit>, c: Copy): set<nat> {
    set i | 0 <= i < |dropped| && c == Claimed(dropped[i].1)
  }

  /** In how many places the copy lies outside of any process. */
  function Laid(s: State, c: Copy): nat {
    Strays(s.stray, c) + |Recordings(s.writes, c)| + |Drops(s.dropped, c)|
  }

  function Unit(b: bool): nat {
    if b then 1 else 0
  }

  ghost predicate Balanced(accepts: Accepts, s: State) {
    Fanned(accepts, s) && forall c :: |Hands(s.procs, c)| + Laid(s, c) == Unit(Made(s, c))
  }

  lemma RecordingsAppend(writes: seq<Write>, w: Write, c: Copy)
    ensures |Recordings(writes + [w], c)| == |Recordings(writes, c)| + Unit(Records(w, c))
  {
    var more := Recordings(writes + [w], c);
    assert forall i | 0 <= i < |writes| :: (writes + [w])[i] == writes[i];
    assert more == Recordings(writes, c) + if Records(w, c) then {|writes|} else {};
  }

  lemma DropsAppend(dropped: seq<Hit>, hit: Hit, c: Copy)
    ensures |Drops(dropped + [hit], c)| == |Drops(dropped, c)| + Unit(c == Claimed(hit.1))
  {
    var more := Drops(dropped + [hit], c);
    assert forall i | 0 <= i < |dropped| :: (dropped + [hit])[i] == dropped[i];
    assert more == Drops(dropped, c) + if c == Claimed(hit.1) then {|dropped|} else {};
  }

  lemma HandsMove(procs: map<Pid, Proc>, pid: Pid, proc: Proc, c: Copy)
    ensures |Hands(procs[pid := proc], c)| + Unit(pid in procs && InHand(procs[pid], c))
            == |Hands(procs, c)| + Unit(InHand(proc, c))
  {
    hide InHand;
    var before, after := Hands(procs, c), Hands(procs[pid := proc], c);
    assert after - {pid} == before - {pid};
    assert pid in after <==> InHand(proc, c);
    assert pid in before <==> pid in procs && InHand(procs[pid], c);
    hide Hands;
    SizeWithout(before, pid);
    SizeWithout(after, pid);
  }

  lemma SizeWithout(pids: set<Pid>, pid: Pid)
    ensures |pids| == |pids - {pid}| + Unit(pid in pids)
  {
    if pid !in pids {
      assert pids - {pid} == pids;
    }
  }

  lemma {:induction false} TakeStrayOne(stray: seq<Hit>, key: Key)
    ensures var (found, rest) := TakeStray(stray, key);
            multiset(stray) == multiset(rest) + if found.Some? then multiset{(key, found.value)} else multiset{}
  {
    if stray != [] {
      assert stray == [stray[0]] + stray[1..];
      TakeStrayOne(stray[1..], key);
    }
  }

  /** A store call passes the copy on, or makes it: nothing is lost, nothing doubled. */
  ghost predicate Passes(s: State, t: State, before: Proc, after: Proc, c: Copy) {
    Laid(t, c) + Unit(InHand(after, c)) + Unit(Made(s, c)) == Laid(s, c) + Unit(InHand(before, c)) + Unit(Made(t, c))
  }

  lemma PublishPasses(accepts: Accepts, s: State, pid: Pid, listed: seq<Key>, c: Copy)
    requires pid in s.procs && Publishing(s.procs[pid])
    requires FanSound(s, s.procs[pid]) && forall e | e in s.buffer :: e !in s.claims
    ensures var t := PublishMove(accepts, s, pid, listed); Passes(s, t, s.procs[pid], t.procs[pid], c)
  {
    hide Without, FirstAccepting, Recordings, Drops, Strays, NoRepeats;
    var proc := s.procs[pid];
    if proc.PubDeliver? {
      RecordingsAppend(s.writes, Write(proc.key, proc.e, false), c);
    } else if proc.PubTakeRow? {
      DropsAppend(s.dropped, (proc.key, proc.e), c);
    } else if proc.PubFan? && proc.todo != [] {
      assert proc.todo[0] in TodoOf(proc);
    }
  }

  lemma SignalPasses(s: State, pid: Pid, c: Copy)
    requires pid in s.procs && Signalling(s.procs[pid])
    ensures var t := SignalMove(s, pid); Passes(s, t, s.procs[pid], t.procs[pid], c)
  {
    var proc := s.procs[pid];
    if proc.SigDeliver? {
      DeliverPasses(s, pid, c);
    } else if proc.SigReclaim? {
      ReclaimPasses(s, pid, c);
    } else if proc.SigBuffer? {
      BufferPasses(s, pid, c);
    } else {
      hide TakeStray, Recordings, Drops, Strays;
    }
  }

  lemma BufferPasses(s: State, pid: Pid, c: Copy)
    requires pid in s.procs && s.procs[pid].SigBuffer?
    ensures var t := SignalMove(s, pid); Passes(s, t, s.procs[pid], t.procs[pid], c)
  {
    hide TakeStray, Recordings, Drops;
  }

  lemma DeliverPasses(s: State, pid: Pid, c: Copy)
    requires pid in s.procs && s.procs[pid].SigDeliver?
    ensures var t := SignalMove(s, pid); Passes(s, t, s.procs[pid], t.procs[pid], c)
  {
    hide TakeStray, Recordings, Drops, Strays;
    RecordingsAppend(s.writes, Write(s.procs[pid].key, s.procs[pid].from, true), c);
  }

  lemma ReclaimPasses(s: State, pid: Pid, c: Copy)
    requires pid in s.procs && s.procs[pid].SigReclaim?
    ensures var t := SignalMove(s, pid); Passes(s, t, s.procs[pid], t.procs[pid], c)
  {
    hide TakeStray, Recordings, Drops;
    TakeStrayOne(s.stray, s.procs[pid].key);
  }

  lemma WaitPasses(accepts: Accepts, s: State, pid: Pid, c: Copy)
    requires pid in s.procs && Waiting(s.procs[pid]) && forall e | e in s.buffer :: e !in s.claims
    ensures var t := WaitMove(accepts, s, pid); Passes(s, t, s.procs[pid], t.procs[pid], c)
  {
    hide Without, Scan, Recordings, Drops, Strays;
    var proc := s.procs[pid];
    if proc.EvWrite? {
      RecordingsAppend(s.writes, Write(proc.key, proc.e, false), c);
    }
  }

  lemma MoverPasses(accepts: Accepts, s: State, step: Step, c: Copy)
    requires Fanned(accepts, s) && Enabled(s, step) && step.Move?
    ensures var t := Next(accepts, s, step);
            && t.procs == s.procs[step.pid := t.procs[step.pid]]
            && Passes(s, t, s.procs[step.pid], t.procs[step.pid], c)
  {
    hide PublishMove, SignalMove, WaitMove, Passes, Lists;
    assert FanSound(s, s.procs[step.pid]);
    if Signalling(s.procs[step.pid]) {
      SignalPasses(s, step.pid, c);
    } else if Waiting(s.procs[step.pid]) {
      WaitPasses(accepts, s, step.pid, c);
    } else {
      PublishPasses(accepts, s, step.pid, step.listed, c);
    }
  }

  lemma StepKeepsBalanced(accepts: Accepts, s: State, step: Step)
    requires Balanced(accepts, s) && Enabled(s, step)
    ensures Balanced(accepts, Next(accepts, s, step))
  {
    var t := Next(accepts, s, step);
    StepKeepsFanned(accepts, s, step);
    forall c ensures |Hands(t.procs, c)| + Laid(t, c) == Unit(Made(t, c)) {
      assert |Hands(s.procs, c)| + Laid(s, c) == Unit(Made(s, c));
      if step.Move? {
        MoverPasses(accepts, s, step, c);
        assert step.pid in s.procs;
        hide Next, Enabled, Fanned, Laid, Hands, InHand, Made;
        HandsMove(s.procs, step.pid, t.procs[step.pid], c);
      } else {
        HandsMove(s.procs, step.pid, step.proc, c);
        SpawnLaysNothing(accepts, s, step, c);
      }
    }
  }

  lemma SpawnLaysNothing(accepts: Accepts, s: State, step: Step, c: Copy)
    requires Enabled(s, step) && step.Spawn?
    ensures var t := Next(accepts, s, step);
            && t.procs == s.procs[step.pid := step.proc] && step.pid !in s.procs
            && Laid(t, c) == Laid(s, c) && Made(t, c) == Made(s, c) && !InHand(step.proc, c)
  {
    hide Strays, Recordings, Drops;
  }

  lemma {:induction false} RunKeepsBalanced(accepts: Accepts, s: State, steps: seq<Step>)
    requires Balanced(accepts, s) && Runs(accepts, s, steps)
    ensures Balanced(accepts, After(accepts, s, steps))
    decreases |steps|
  {
    hide Next, Enabled, Balanced;
    if steps != [] {
      StepKeepsBalanced(accepts, s, steps[0]);
      RunKeepsBalanced(accepts, Next(accepts, s, steps[0]), steps[1..]);
    }
  }

  /**
   * In every reachable state each copy made, of an event received live or claimed from the buffer, is
   * in exactly one place: in hand, under the waiter's token, written to a checkpoint, or dropped.
   */
  lemma EveryCopyInOnePlace(accepts: Accepts, steps: seq<Step>, c: Copy)
    requires Runs(accepts, EMPTY, steps)
    ensures var s := After(accepts, EMPTY, steps);
            |Hands(s.procs, c)| + Strays(s.stray, c) + |Recordings(s.writes, c)| + |Drops(s.dropped, c)|
            == if Made(s, c) then 1 else 0
  {
    EmptyIsBalanced(accepts);
    RunKeepsBalanced(accepts, EMPTY, steps);
  }

  lemma EmptyIsBalanced(accepts: Accepts)
    ensures Balanced(accepts, EMPTY)
  {
    forall c ensures |Hands(EMPTY.procs, c)| + Laid(EMPTY, c) == Unit(Made(EMPTY, c)) {
      assert Hands(EMPTY.procs, c) == {} && Recordings(EMPTY.writes, c) == {} && Drops(EMPTY.dropped, c) == {};
    }
  }

  /**
   * Once every call has returned, an event received live by a waiter is written once or lies once under
   * its token, and a claimed event is written once or was dropped once.
   */
  lemma CopyRecordedOnce(accepts: Accepts, steps: seq<Step>, c: Copy)
    requires Runs(accepts, EMPTY, steps) && Quiescent(After(accepts, EMPTY, steps))
    requires Made(After(accepts, EMPTY, steps), c)
    ensures var end := After(accepts, EMPTY, steps);
            Strays(end.stray, c) + |Recordings(end.writes, c)| + |Drops(end.dropped, c)| == 1
  {
    EveryCopyInOnePlace(accepts, steps, c);
    assert Hands(After(accepts, EMPTY, steps).procs, c) == {};
  }

  // ------------------------------------------------------ to a waiter that accepts it

  /** The event and the waiter it is bound for, if the process has one for it. */
  function BoundFor(proc: Proc): Option<Hit> {
    match proc
    case PubClaim(e, key) => Some((key, e))
    case PubTakeRow(e, key) => Some((key, e))
    case PubDeliver(e, key) => Some((key, e))
    case SigTake(e, key, _) => Some((key, e))
    case SigBuffer(e, key, _) => Some((key, e))
    case SigDeliver(_, key, _, from) => Some((key, from))
    case EvUnregister(key, e) => Some((key, e))
    case EvWrite(key, e) => Some((key, e))
    case _ => None
  }

  predicate BoundRight(accepts: Accepts, proc: Proc) {
    BoundFor(proc).Some? ==> accepts(BoundFor(proc).value.0, BoundFor(proc).value.1)
  }

  ghost predicate LaidRight(accepts: Accepts, s: State) {
    && (forall hit | hit in s.stray :: accepts(hit.0, hit.1))
    && (forall hit | hit in s.dropped :: accepts(hit.0, hit.1))
    && (forall w | w in s.writes :: accepts(w.key, w.e))
  }

  ghost predicate AllAccepted(accepts: Accepts, s: State) {
    LaidRight(accepts, s) && forall pid | pid in s.procs :: BoundRight(accepts, s.procs[pid])
  }

  lemma PublishAccepts(accepts: Accepts, s: State, pid: Pid, listed: seq<Key>)
    requires pid in s.procs && Publishing(s.procs[pid]) && LaidRight(accepts, s) && BoundRight(accepts, s.procs[pid])
    ensures var t := PublishMove(accepts, s, pid, listed);
            LaidRight(accepts, t) && BoundRight(accepts, t.procs[pid])
  {
    hide Without;
  }

  lemma SignalAccepts(accepts: Accepts, s: State, pid: Pid)
    requires pid in s.procs && Signalling(s.procs[pid]) && LaidRight(accepts, s) && BoundRight(accepts, s.procs[pid])
    requires s.procs[pid].SigBuffer? || s.procs[pid].SigTake? ==> accepts(s.procs[pid].key, s.procs[pid].e)
    ensures var t := SignalMove(s, pid); LaidRight(accepts, t) && BoundRight(accepts, t.procs[pid])
  {
    if s.procs[pid].SigReclaim? {
      TakeStrayKeeps(s.stray, s.procs[pid].key);
    }
    hide TakeStray;
  }

  lemma WaitAccepts(accepts: Accepts, s: State, pid: Pid)
    requires pid in s.procs && Waiting(s.procs[pid]) && LaidRight(accepts, s) && BoundRight(accepts, s.procs[pid])
    ensures var t := WaitMove(accepts, s, pid); LaidRight(accepts, t) && BoundRight(accepts, t.procs[pid])
  {
    hide Without, Scan;
  }

  lemma StepKeepsAccepted(accepts: Accepts, s: State, step: Step)
    requires AllAccepted(accepts, s) && Enabled(s, step)
    ensures AllAccepted(accepts, Next(accepts, s, step))
  {
    var t := Next(accepts, s, step);
    forall q | q in s.procs && q != step.pid ensures q in t.procs && t.procs[q] == s.procs[q] {
      OthersStay(accepts, s, step, q);
    }
    if step.Move? {
      MoverPid(accepts, s, step);
      MoverAccepts(accepts, s, step);
      hide Next, Enabled, BoundRight, LaidRight;
    }
  }

  lemma MoverAccepts(accepts: Accepts, s: State, step: Step)
    requires AllAccepted(accepts, s) && Enabled(s, step) && step.Move?
    ensures var t := Next(accepts, s, step);
            step.pid in t.procs && LaidRight(accepts, t) && BoundRight(accepts, t.procs[step.pid])
  {
    var proc := s.procs[step.pid];
    assert BoundRight(accepts, proc);
    hide PublishMove, SignalMove, WaitMove, LaidRight, Lists;
    if Signalling(proc) {
      SignalAccepts(accepts, s, step.pid);
    } else if Waiting(proc) {
      WaitAccepts(accepts, s, step.pid);
    } else {
      PublishAccepts(accepts, s, step.pid, step.listed);
    }
  }

  lemma {:induction false} RunKeepsAccepted(accepts: Accepts, s: State, steps: seq<Step>)
    requires AllAccepted(accepts, s) && Runs(accepts, s, steps)
    ensures AllAccepted(accepts, After(accepts, s, steps))
    decreases |steps|
  {
    hide Next, Enabled, AllAccepted;
    if steps != [] {
      StepKeepsAccepted(accepts, s, steps[0]);
      RunKeepsAccepted(accepts, Next(accepts, s, steps[0]), steps[1..]);
    }
  }

  /** Over every run a wait is only ever given an event its criteria accept. */
  lemma OnlyAcceptedRecorded(accepts: Accepts, steps: seq<Step>, w: Write)
    requires Runs(accepts, EMPTY, steps) && w in After(accepts, EMPTY, steps).writes
    ensures accepts(w.key, w.e)
  {
    RunKeepsAccepted(accepts, EMPTY, steps);
  }

  // -------------------------------------------------- the checkpoint is the last write

  /** The checkpoint of every wait written is its last write, and no other wait has one. */
  ghost predicate CheckpointsAreWrites(s: State) {
    && (forall w | w in s.writes :: w.key in s.cps)
    && (forall key | key in s.cps :: LastIsCheckpoint(s, key))
  }

  ghost predicate LastIsCheckpoint(s: State, key: Key)
    requires key in s.cps
  {
    exists i | 0 <= i < |s.writes| :: LastFor(s.writes, i, key) && s.writes[i].e == s.cps[key]
  }

  predicate LastFor(writes: seq<Write>, i: nat, key: Key)
    requires i < |writes|
  {
    writes[i].key == key && forall j | i < j < |writes| :: writes[j].key != key
  }

  /** What a store call may do to the checkpoints: nothing, or one write. */
  ghost predicate WriteEffect(s: State, t: State) {
    || (t.writes == s.writes && t.cps == s.cps)
    || exists w: Write :: t.writes == s.writes + [w] && t.cps == s.cps[w.key := w.e]
  }

  lemma PublishWrites(accepts: Accepts, s: State, pid: Pid, listed: seq<Key>)
    requires pid in s.procs && Publishing(s.procs[pid])
    ensures WriteEffect(s, PublishMove(accepts, s, pid, listed))
  {
    hide Without, FirstAccepting, WriteEffect;
    var t, proc := PublishMove(accepts, s, pid, listed), s.procs[pid];
    if proc.PubDeliver? {
      OneWrite(s, t, Write(proc.key, proc.e, false));
    } else {
      NoWrite(s, t);
    }
  }

  lemma SignalWrites(s: State, pid: Pid)
    requires pid in s.procs && Signalling(s.procs[pid])
    ensures WriteEffect(s, SignalMove(s, pid))
  {
    hide TakeStray, WriteEffect;
    var t, proc := SignalMove(s, pid), s.procs[pid];
    if proc.SigDeliver? {
      OneWrite(s, t, Write(proc.key, proc.from, true));
    } else {
      NoWrite(s, t);
    }
  }

  lemma WaitWrites(accepts: Accepts, s: State, pid: Pid)
    requires pid in s.procs && Waiting(s.procs[pid])
    ensures WriteEffect(s, WaitMove(accepts, s, pid))
  {
    hide Without, Scan, WriteEffect;
    var t, proc := WaitMove(accepts, s, pid), s.procs[pid];
    if proc.EvWrite? {
      OneWrite(s, t, Write(proc.key, proc.e, false));
    } else {
      NoWrite(s, t);
    }
  }

  lemma OneWrite(s: State, t: State, w: Write)
    requires t.writes == s.writes + [w] && t.cps == s.cps[w.key := w.e]
    ensures WriteEffect(s, t)
  {
  }

  lemma NoWrite(s: State, t: State)
    requires t.writes == s.writes && t.cps == s.cps
    ensures WriteEffect(s, t)
  {
  }

  lemma EffectKeepsCheckpoints(s: State, t: State)
    requires CheckpointsAreWrites(s) && WriteEffect(s, t)
    ensures CheckpointsAreWrites(t)
  {
    if t.writes != s.writes || t.cps != s.cps {
      var w: Write :| t.writes == s.writes + [w] && t.cps == s.cps[w.key := w.e];
      var n := |s.writes|;
      forall k | k in t.cps ensures LastIsCheckpoint(t, k) {
        if k == w.key {
          assert LastFor(t.writes, n, k);
        } else {
          assert LastIsCheckpoint(s, k);
          var i :| 0 <= i < n && LastFor(s.writes, i, k) && s.writes[i].e == s.cps[k];
          assert LastFor(t.writes, i, k);
        }
      }
    }
  }

  lemma StepKeepsCheckpoints(accepts: Accepts, s: State, step: Step)
    requires CheckpointsAreWrites(s) && Enabled(s, step)
    ensures CheckpointsAreWrites(Next(accepts, s, step))
  {
    hide PublishMove, SignalMove, WaitMove, WriteEffect, CheckpointsAreWrites, Lists;
    if step.Spawn? {
      NoWrite(s, Next(accepts, s, step));
    } else if Signalling(s.procs[step.pid]) {
      SignalWrites(s, step.pid);
    } else if Waiting(s.procs[step.pid]) {
      WaitWrites(accepts, s, step.pid);
    } else {
      PublishWrites(accepts, s, step.pid, step.listed);
    }
    EffectKeepsCheckpoints(s, Next(accepts, s, step));
  }

  lemma {:induction false} RunKeepsCheckpoints(accepts: Accepts, s: State, steps: seq<Step>)
    requires CheckpointsAreWrites(s) && Runs(accepts, s, steps)
    ensures CheckpointsAreWrites(After(accepts, s, steps))
    decreases |steps|
  {
    hide Next, Enabled, CheckpointsAreWrites;
    if steps != [] {
      StepKeepsCheckpoints(accepts, s, steps[0]);
      RunKeepsCheckpoints(accepts, Next(accepts, s, steps[0]), steps[1..]);
    }
  }

  /** Over every run a wait has a checkpoint exactly when an event was written for it, and holds the last one. */
  lemma CheckpointIsLastWrite(accepts: Accepts, steps: seq<Step>, key: Key, e: Event)
    requires Runs(accepts, EMPTY, steps)
    ensures var end := After(accepts, EMPTY, steps);
            (key in end.cps && end.cps[key] == e
             <==> exists i | 0 <= i < |end.writes| :: LastFor(end.writes, i, key) && end.writes[i].e == e)
  {
    RunKeepsCheckpoints(accepts, EMPTY, steps);
    var end := After(accepts, EMPTY, steps);
    if i :| 0 <= i < |end.writes| && LastFor(end.writes, i, key) && end.writes[i].e == e {
      assert end.writes[i] in end.writes && LastIsCheckpoint(end, key);
      var j :| 0 <= j < |end.writes| && LastFor(end.writes, j, key) && end.writes[j].e == end.cps[key];
      assert i == j;
    }
  }

  // ------------------------------------------- a wait is left registered or is answered

  /** The process is about to write the checkpoint of the wait. */
  predicate Answers(proc: Proc, key: Key) {
    (proc.EvUnregister? || proc.EvWrite? || proc.PubDeliver? || proc.SigDeliver?) && proc.key == key
  }

  ghost predicate Settling(s: State, key: Key) {
    key in s.cps || exists pid :: pid in s.procs && Answers(s.procs[pid], key)
  }

  predicate Reclaims(proc: Proc, key: Key) {
    proc.SigReclaim? && proc.key == key
  }

  ghost predicate Reclaiming(s: State, key: Key) {
    exists pid :: pid in s.procs && Reclaims(s.procs[pid], key)
  }

  predicate HasStray(s: State, key: Key) {
    exists hit :: hit in s.stray && hit.0 == key
  }

  /** The wait is registered, or whoever took its row is about to answer it. */
  ghost predicate Anchored(s: State, key: Key) {
    key in s.rows || Settling(s, key) || Reclaiming(s, key)
  }

  /** Nobody takes the row of the wait, or looks for a payload under its token, in vain. */
  ghost predicate Attended(s: State, key: Key) {
    && (forall pid | pid in s.procs :: s.procs[pid] != Expire(key))
    && (forall pid | pid in s.procs && (s.procs[pid].SigRetake? || s.procs[pid].SigReclaim?)
                     && s.procs[pid].key == key ::
          HasStray(s, key) || Settling(s, key))
    && (key in s.driven ==> Anchored(s, key) || exists pid :: pid in s.procs && WillPut(s.procs[pid], key))
    && (forall pid | pid in s.procs && (s.procs[pid].PubClaim? || s.procs[pid].PubTakeRow?)
                     && s.procs[pid].key == key ::
          Anchored(s, key))
    && (forall hit | hit in s.dropped && hit.0 == key :: Settling(s, key) || Reclaiming(s, key))
  }

  /** What a store call does to one wait. */
  ghost predicate WaitEffect(s: State, t: State, before: Proc, after: Proc, key: Key) {
    && t.driven == s.driven && after != Expire(key)
    && (key in s.cps ==> key in t.cps)
    && (Answers(before, key) ==> Answers(after, key) || key in t.cps)
    && (Reclaims(before, key) ==> Answers(after, key) || !HasStray(s, key))
    && (Reclaims(after, key) ==> before.SigRetake? && before.key == key)
    && (after.SigRetake? && after.key == key ==> HasStray(t, key))
    && (HasStray(s, key) ==> HasStray(t, key) || Answers(after, key))
    && (key in s.rows ==> key in t.rows || Answers(after, key) || Reclaims(after, key) || before == Expire(key))
    && (WillPut(before, key) ==> WillPut(after, key) || key in t.rows || key in t.cps)
    && (after.PubClaim? && after.key == key ==> key in t.rows)
    && (after.PubTakeRow? && after.key == key ==> before.PubClaim? && before.key == key)
    && (forall hit | hit in t.dropped && hit !in s.dropped && hit.0 == key ::
          before.PubTakeRow? && before.key == key && key !in s.rows)
  }

  lemma PublishAttends(accepts: Accepts, s: State, pid: Pid, listed: seq<Key>, key: Key)
    requires pid in s.procs && Publishing(s.procs[pid]) && Lists(listed, s.rows)
    ensures var t := PublishMove(accepts, s, pid, listed); WaitEffect(s, t, s.procs[pid], t.procs[pid], key)
  {
    hide Without, NoRepeats;
    if s.procs[pid].PubTakeRow? || s.procs[pid].PubDeliver? {
      hide HasStray, FirstAccepting;
    } else {
      PublishLeavesWaits(accepts, s, pid, listed);
      hide PublishMove, HasStray;
    }
  }

  /** Until its late claim a publisher leaves the waits alone. */
  lemma PublishLeavesWaits(accepts: Accepts, s: State, pid: Pid, listed: seq<Key>)
    requires pid in s.procs && Publishing(s.procs[pid]) && !s.procs[pid].PubTakeRow? && !s.procs[pid].PubDeliver?
    ensures var t, before := PublishMove(accepts, s, pid, listed), s.procs[pid];
            && t.rows == s.rows && t.cps == s.cps && t.stray == s.stray && t.dropped == s.dropped
            && t.driven == s.driven
            && (t.procs[pid].PubList? || t.procs[pid].PubFan? || t.procs[pid].PubBuffer? || t.procs[pid].PubRelist?
                || t.procs[pid].SigTake? || t.procs[pid].Finished?
                || (t.procs[pid].PubClaim? && t.procs[pid].key in listed)
                || (t.procs[pid].PubTakeRow? && before.PubClaim? && before.key == t.procs[pid].key))
  {
    hide Without;
  }

  lemma SignalAttends(accepts: Accepts, s: State, pid: Pid, key: Key)
    requires pid in s.procs && Signalling(s.procs[pid])
    ensures var t := SignalMove(s, pid); WaitEffect(s, t, s.procs[pid], t.procs[pid], key)
  {
    var proc := s.procs[pid];
    if proc.SigReclaim? {
      TakeStrayKeeps(s.stray, proc.key);
      TakeStrayFinds(s.stray, proc.key);
    } else if proc.SigBuffer? {
      assert (proc.key, proc.e) in s.stray + [(proc.key, proc.e)];
    }
    hide TakeStray;
  }

  lemma {:induction false} TakeStrayFinds(stray: seq<Hit>, key: Key)
    ensures TakeStray(stray, key).0.None? ==> forall hit | hit in stray :: hit.0 != key
  {
    if stray != [] {
      assert stray == [stray[0]] + stray[1..];
      TakeStrayFinds(stray[1..], key);
    }
  }

  lemma WaitAttends(accepts: Accepts, s: State, pid: Pid, key: Key)
    requires pid in s.procs && Waiting(s.procs[pid])
    ensures var t := WaitMove(accepts, s, pid); WaitEffect(s, t, s.procs[pid], t.procs[pid], key)
  {
    hide Without, Scan;
  }

  lemma MoverAttends(accepts: Accepts, s: State, step: Step, key: Key)
    requires Enabled(s, step) && step.Move?
    ensures var t := Next(accepts, s, step);
            && t.procs == s.procs[step.pid := t.procs[step.pid]]
            && WaitEffect(s, t, s.procs[step.pid], t.procs[step.pid], key)
  {
    hide PublishMove, SignalMove, WaitMove, WaitEffect, Lists;
    if Signalling(s.procs[step.pid]) {
      SignalAttends(accepts, s, step.pid, key);
    } else if Waiting(s.procs[step.pid]) {
      WaitAttends(accepts, s, step.pid, key);
    } else {
      PublishAttends(accepts, s, step.pid, step.listed, key);
    }
  }

  lemma EffectKeepsAttended(s: State, t: State, pid: Pid, key: Key)
    requires Attended(s, key) && pid in s.procs && pid in t.procs && t.procs == s.procs[pid := t.procs[pid]]
    requires WaitEffect(s, t, s.procs[pid], t.procs[pid], key)
    ensures Attended(t, key)
  {
    SettlingStays(s, t, pid, key);
    StrayStays(s, t, pid, key);
    AnchoredStays(s, t, pid, key);
    assert key in s.driven ==> Anchored(t, key) || exists q :: q in t.procs && WillPut(t.procs[q], key) by {
      if key in s.driven && !Anchored(s, key) {
        var q :| q in s.procs && WillPut(s.procs[q], key);
        assert q != pid ==> t.procs[q] == s.procs[q];
      }
    }
    hide HasStray, Settling, Reclaiming;
  }

  lemma SettlingStays(s: State, t: State, pid: Pid, key: Key)
    requires pid in s.procs && pid in t.procs && t.procs == s.procs[pid := t.procs[pid]]
    requires WaitEffect(s, t, s.procs[pid], t.procs[pid], key)
    ensures Settling(s, key) ==> Settling(t, key)
    ensures Answers(t.procs[pid], key) ==> Settling(t, key)
    ensures Reclaims(t.procs[pid], key) ==> Reclaiming(t, key)
  {
    hide HasStray;
    if Settling(s, key) && key !in t.cps {
      var q :| q in s.procs && Answers(s.procs[q], key);
      assert q != pid ==> t.procs[q] == s.procs[q];
    }
  }

  lemma StrayStays(s: State, t: State, pid: Pid, key: Key)
    requires pid in s.procs && pid in t.procs && t.procs == s.procs[pid := t.procs[pid]]
    requires WaitEffect(s, t, s.procs[pid], t.procs[pid], key)
    requires Settling(s, key) ==> Settling(t, key)
    requires Answers(t.procs[pid], key) ==> Settling(t, key)
    ensures HasStray(s, key) || Settling(s, key) ==> HasStray(t, key) || Settling(t, key)
  {
    hide HasStray, Settling;
  }

  lemma AnchoredStays(s: State, t: State, pid: Pid, key: Key)
    requires Attended(s, key) && pid in s.procs && pid in t.procs && t.procs == s.procs[pid := t.procs[pid]]
    requires WaitEffect(s, t, s.procs[pid], t.procs[pid], key)
    requires Settling(s, key) ==> Settling(t, key)
    requires Answers(t.procs[pid], key) ==> Settling(t, key)
    requires Reclaims(t.procs[pid], key) ==> Reclaiming(t, key)
    ensures Settling(s, key) || Reclaiming(s, key) ==> Settling(t, key) || Reclaiming(t, key)
    ensures Anchored(s, key) ==> Anchored(t, key)
  {
    hide HasStray, Settling;
    if Reclaiming(s, key) && !Settling(s, key) {
      var q :| q in s.procs && Reclaims(s.procs[q], key);
      assert q != pid ==> t.procs[q] == s.procs[q];
    }
  }

  /** No deadline of the wait passes. */
  predicate NeverExpires(steps: seq<Step>, key: Key) {
    forall step | step in steps && step.Spawn? :: step.proc != Expire(key)
  }

  lemma SpawnKeepsAttended(accepts: Accepts, s: State, step: Step, key: Key)
    requires Attended(s, key) && Enabled(s, step) && step.Spawn? && step.proc != Expire(key)
    ensures Attended(Next(accepts, s, step), key)
  {
    var t := Next(accepts, s, step);
    SpawnsWait(accepts, s, step);
    hide Enabled, Next, HasStray, Settling, Reclaiming;
    SpawnKeepsAnchors(s, t, step.pid, step.proc, key);
    assert forall q | q in s.procs :: q in t.procs && t.procs[q] == s.procs[q];
    assert HasStray(s, key) ==> HasStray(t, key) by { assert t.stray == s.stray; }
    assert key in t.driven && key !in s.driven ==> WillPut(t.procs[step.pid], key);
  }

  lemma SpawnKeepsAnchors(s: State, t: State, pid: Pid, proc: Proc, key: Key)
    requires pid !in s.procs && t.procs == s.procs[pid := proc] && t.cps == s.cps
    ensures Settling(s, key) ==> Settling(t, key)
    ensures Reclaiming(s, key) ==> Reclaiming(t, key)
  {
    assert forall q | q in s.procs :: q in t.procs && t.procs[q] == s.procs[q];
  }

  lemma SpawnsWait(accepts: Accepts, s: State, step: Step)
    requires Enabled(s, step) && step.Spawn?
    ensures var t := Next(accepts, s, step);
            && t.procs == s.procs[step.pid := step.proc] && step.pid !in s.procs
            && (step.proc.PubList? || step.proc.EvRead? || step.proc.Expire?)
            && t.rows == s.rows && t.cps == s.cps && t.stray == s.stray && t.dropped == s.dropped
            && t.driven == s.driven + if step.proc.EvRead? then {step.proc.key} else {}
  {
  }

  lemma StepKeepsAttended(accepts: Accepts, s: State, step: Step, key: Key)
    requires Attended(s, key) && Enabled(s, step) && (step.Spawn? ==> step.proc != Expire(key))
    ensures Attended(Next(accepts, s, step), key)
  {
    if step.Spawn? {
      SpawnKeepsAttended(accepts, s, step, key);
    } else {
      assert step.pid in s.procs;
      hide Enabled, Next;
      MoverAttends(accepts, s, step, key);
      EffectKeepsAttended(s, Next(accepts, s, step), step.pid, key);
    }
  }

  lemma {:induction false} RunKeepsAttended(accepts: Accepts, s: State, steps: seq<Step>, key: Key)
    requires Attended(s, key) && Runs(accepts, s, steps) && NeverExpires(steps, key)
    ensures Attended(After(accepts, s, steps), key)
    decreases |steps|
  {
    hide Next, Enabled, Attended;
    if steps != [] {
      assert steps[0] in steps && forall step | step in steps[1..] :: step in steps;
      StepKeepsAttended(accepts, s, steps[0], key);
      RunKeepsAttended(accepts, Next(accepts, s, steps[0]), steps[1..], key);
    }
  }

  /**
   * Whoever takes the row of a wait answers it: unless its deadline passes, once every call has returned
   * a wait that was begun is registered or has its checkpoint, and has it if a claimed event was dropped
   * for it.
   */
  lemma WaiterKeptOrAnswered(accepts: Accepts, steps: seq<Step>, key: Key)
    requires Runs(accepts, EMPTY, steps) && Quiescent(After(accepts, EMPTY, steps)) && NeverExpires(steps, key)
    ensures var end := After(accepts, EMPTY, steps);
            && (key in end.driven ==> key in end.rows || key in end.cps)
            && (forall hit | hit in end.dropped && hit.0 == key :: key in end.cps)
  {
    RunKeepsAttended(accepts, EMPTY, steps, key);
    var end := After(accepts, EMPTY, steps);
    assert Settling(end, key) ==> key in end.cps;
    assert !Reclaiming(end, key);
  }

  // ------------------------------------------------ the row of an answered wait is gone

  /** The process has taken the row of the wait. */
  predicate Took(proc: Proc, key: Key) {
    (proc.EvWrite? || proc.PubDeliver? || proc.SigDeliver? || proc.SigReclaim?) && proc.key == key
  }

  /** The process has registered the wait and not taken it back yet. */
  predicate PastPut(proc: Proc, key: Key) {
    (proc.EvScan? || proc.EvTry? || proc.EvUnregister?) && proc.key == key
  }

  ghost predicate Untaken(s: State, key: Key) {
    key !in s.cps && forall pid | pid in s.procs :: !Took(s.procs[pid], key)
  }

  ghost predicate RowOpen(s: State, key: Key) {
    key in s.rows || key !in s.driven || exists pid :: pid in s.procs && WillPut(s.procs[pid], key)
  }

  /** A wait that is registered, or yet to be, is not answered, nor is anybody about to. */
  ghost predicate OpenIsUntaken(s: State, key: Key) {
    && (RowOpen(s, key) ==> Untaken(s, key))
    && (forall pid | pid in s.procs && PastPut(s.procs[pid], key) :: Done(s, key))
  }

  /** What a store call does to the row of the wait. */
  ghost predicate RowEffect(s: State, t: State, before: Proc, after: Proc, key: Key) {
    && t.driven == s.driven
    && (key in t.cps ==> key in s.cps || Took(before, key))
    && (Took(after, key) ==> Took(before, key) || (key !in t.rows && (key in s.rows || PastPut(before, key))))
    && (key in t.rows ==> key in s.rows || WillPut(before, key))
    && (WillPut(after, key) ==> WillPut(before, key))
    && (PastPut(after, key) ==> PastPut(before, key) || key in t.rows)
  }

  lemma PublishTakes(accepts: Accepts, s: State, pid: Pid, listed: seq<Key>, key: Key)
    requires pid in s.procs && Publishing(s.procs[pid])
    ensures var t := PublishMove(accepts, s, pid, listed); RowEffect(s, t, s.procs[pid], t.procs[pid], key)
  {
    hide Without, FirstAccepting;
    if !s.procs[pid].PubTakeRow? && !s.procs[pid].PubDeliver? {
      PublishLeavesWaits(accepts, s, pid, listed);
      hide PublishMove;
    }
  }

  lemma SignalTakes(s: State, pid: Pid, key: Key)
    requires pid in s.procs && Signalling(s.procs[pid])
    ensures var t := SignalMove(s, pid); RowEffect(s, t, s.procs[pid], t.procs[pid], key)
  {
    hide TakeStray;
  }

  lemma WaitTakes(accepts: Accepts, s: State, pid: Pid, key: Key)
    requires pid in s.procs && Waiting(s.procs[pid])
    ensures var t := WaitMove(accepts, s, pid); RowEffect(s, t, s.procs[pid], t.procs[pid], key)
  {
    hide Without, Scan;
  }

  lemma MoverTakes(accepts: Accepts, s: State, step: Step, key: Key)
    requires Enabled(s, step) && step.Move?
    ensures var t := Next(accepts, s, step);
            && t.procs == s.procs[step.pid := t.procs[step.pid]]
            && RowEffect(s, t, s.procs[step.pid], t.procs[step.pid], key)
  {
    hide PublishMove, SignalMove, WaitMove, RowEffect, Lists;
    if Signalling(s.procs[step.pid]) {
      SignalTakes(s, step.pid, key);
    } else if Waiting(s.procs[step.pid]) {
      WaitTakes(accepts, s, step.pid, key);
    } else {
      PublishTakes(accepts, s, step.pid, step.listed, key);
    }
  }

  lemma EffectKeepsOpen(s: State, t: State, pid: Pid, key: Key)
    requires OpenIsUntaken(s, key) && RowsDone(s) && RowsDone(t) && PutsUnique(s)
    requires pid in s.procs && pid in t.procs && t.procs == s.procs[pid := t.procs[pid]]
    requires RowEffect(s, t, s.procs[pid], t.procs[pid], key)
    requires Done(s, key) ==> Done(t, key)
    ensures OpenIsUntaken(t, key)
  {
    if RowOpen(t, key) {
      assert RowOpen(s, key) by {
        if key !in t.rows && key in t.driven {
          var q :| q in t.procs && WillPut(t.procs[q], key);
          assert q in s.procs && WillPut(s.procs[q], key);
        } else if key in t.rows && key !in s.rows {
          assert WillPut(s.procs[pid], key);
        }
      }
      assert (key in s.rows || PastPut(s.procs[pid], key)) && Done(s, key) ==> Done(t, key);
      assert !Took(t.procs[pid], key);
    }
  }

  lemma StepKeepsOpen(accepts: Accepts, s: State, step: Step, key: Key)
    requires OpenIsUntaken(s, key) && Sound(s) && Enabled(s, step) && !Redrives(s, step)
    requires Sound(Next(accepts, s, step))
    ensures OpenIsUntaken(Next(accepts, s, step), key)
  {
    if step.Spawn? {
      SpawnKeepsOpen(accepts, s, step, key);
    } else {
      MoverTakes(accepts, s, step, key);
      DoneStays(accepts, s, step);
      assert step.pid in s.procs;
      hide Next, Enabled, Done, RowsDone, PutsUnique;
      EffectKeepsOpen(s, Next(accepts, s, step), step.pid, key);
    }
  }

  lemma SpawnKeepsOpen(accepts: Accepts, s: State, step: Step, key: Key)
    requires OpenIsUntaken(s, key) && PutsUnique(s) && Enabled(s, step) && step.Spawn? && !Redrives(s, step)
    ensures OpenIsUntaken(Next(accepts, s, step), key)
  {
    var t := Next(accepts, s, step);
    SpawnKeepsDone(accepts, s, step);
    SpawnsWait(accepts, s, step);
    assert WillPut(step.proc, key) ==> key !in s.driven;
    hide Next, Enabled, Done, PutsUnique;
    if RowOpen(t, key) && key in t.driven && key !in t.rows {
      var q :| q in t.procs && WillPut(t.procs[q], key);
      assert q != step.pid ==> WillPut(s.procs[q], key);
    }
  }

  lemma {:induction false} RunKeepsOpen(accepts: Accepts, s: State, steps: seq<Step>, key: Key)
    requires OpenIsUntaken(s, key) && Sound(s) && Runs(accepts, s, steps) && SingleDrives(accepts, s, steps)
    ensures OpenIsUntaken(After(accepts, s, steps), key)
    decreases |steps|
  {
    hide Next, Enabled, Sound, OpenIsUntaken;
    if steps != [] {
      if steps[0].Move? {
        MoveKeepsSound(accepts, s, steps[0]);
      } else {
        SpawnKeepsSound(accepts, s, steps[0]);
      }
      StepKeepsOpen(accepts, s, steps[0], key);
      RunKeepsOpen(accepts, Next(accepts, s, steps[0]), steps[1..], key);
    }
  }

  /**
   * If no wait is driven twice, no wait is ever registered and answered at once: with the lemma above, a
   * wait whose deadline does not pass is in the end exactly one of the two.
   */
  lemma AnsweredRowGone(accepts: Accepts, steps: seq<Step>, key: Key)
    requires Runs(accepts, EMPTY, steps) && SingleDrives(accepts, EMPTY, steps)
    ensures var s := After(accepts, EMPTY, steps); !(key in s.rows && key in s.cps)
  {
    RunKeepsOpen(accepts, EMPTY, steps, key);
  }

  // ------------------------------------------------------------- smaller promises

  /** A wait that has its checkpoint returns when it is driven again, and registers nothing. */
  lemma AnsweredWaitReturns(accepts: Accepts, s: State, pid: Pid, key: Key, listed: seq<Key>)
    requires key in s.cps && pid !in s.procs && Lists(listed, s.rows)
    ensures var steps := [Spawn(pid, EvRead(key)), Move(pid, listed)];
            && Runs(accepts, s, steps)
            && After(accepts, s, steps) == s.(procs := s.procs[pid := Finished], driven := s.driven + {key})
  {
    hide Lists;
    var t := Next(accepts, s, Spawn(pid, EvRead(key)));
    var end := Next(accepts, t, Move(pid, listed));
    assert end.procs == s.procs[pid := Finished];
    var steps := [Spawn(pid, EvRead(key)), Move(pid, listed)];
    assert steps[1..] == [Move(pid, listed)] && steps[1..][1..] == [];
    assert Runs(accepts, end, []) && After(accepts, end, []) == end;
    assert Runs(accepts, t, steps[1..]) && After(accepts, t, steps[1..]) == end;
    hide Next, Enabled;
  }

  /** A publisher that looks again pairs its event with the first listed waiter that accepts it. */
  lemma {:induction false} LateWaiterIsFirst(accepts: Accepts, listed: seq<Key>, e: Event) returns (i: nat)
    requires FirstAccepting(accepts, listed, e).Some?
    ensures i < |listed| && FirstAccepting(accepts, listed, e) == Some(listed[i])
    ensures accepts(listed[i], e) && forall j | 0 <= j < i :: !accepts(listed[j], e)
  {
    if accepts(listed[0], e) {
      i := 0;
    } else {
      var k := LateWaiterIsFirst(accepts, listed[1..], e);
      i := k + 1;
      forall j | 0 <= j < i ensures !accepts(listed[j], e) {
        assert j > 0 ==> listed[j] == listed[1..][j - 1];
      }
    }
  }

  /** The payload taken from under a token is the oldest there, and nothing else is. */
  lemma {:induction false} OldestStrayTaken(stray: seq<Hit>, key: Key) returns (i: nat)
    requires TakeStray(stray, key).0.Some?
    ensures i < |stray| && stray[i] == (key, TakeStray(stray, key).0.value)
    ensures TakeStray(stray, key).1 == stray[..i] + stray[i + 1..]
    ensures forall j | 0 <= j < i :: stray[j].0 != key
  {
    if stray[0].0 == key {
      i := 0;
    } else {
      var k := OldestStrayTaken(stray[1..], key);
      i := k + 1;
      assert [stray[0]] + (stray[1..][..k] + stray[1..][k + 1..]) == stray[..i] + stray[i + 1..];
      forall j | 0 <= j < i ensures stray[j].0 != key {
        assert j > 0 ==> stray[j] == stray[1..][j - 1];
      }
    }
  }
}

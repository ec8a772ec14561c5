/**
 * The rendezvous of `engine.signal` with the waits on one token, as a state machine in which every
 * store call is one atomic step of one process and processes are unbounded in number.
 * Models `signal` and `deliverSignal` in packages/adonis/src/engine.ts and `waitForSignal` and
 * `webhook` in packages/adonis/src/workflow-ctx.ts.
 */
module SignalRendezvous {
  import opened Common

  /** A wait: a run and the position its resolving checkpoint is written at. */
  datatype Key = Key(run: nat, position: nat)

  /** Every call of `signal` carries a payload of its own; the id names it. */
  type Payload = nat
  type Pid = nat

  /** A process and what it is about to do. */
  datatype Proc =
    // engine.signal
    | SendTake(p: Payload)
    | SendBuffer(p: Payload)
    | SendRetake(p: Payload)
    | SendReclaim(key: Key)
    | Deliver(key: Key, p: Payload)
    // ctx.waitForSignal; `remote` is the wait command of a remotely driven run
    | WaitRead(key: Key)
    | WaitTake(key: Key, remote: bool)
    | WaitPut(key: Key, remote: bool)
    | WaitRetake(key: Key, remote: bool)
    | SelfWrite(key: Key, p: Payload, registered: bool)
    | SelfRemove(key: Key)
    | RemoveFirst(key: Key, p: Payload)
    // a bounded wait past its deadline
    | Expire(key: Key)
    // webhook().wait()
    | HookRead(key: Key)
    | HookPut(key: Key)
    // at rest
    | Parked(key: Key)
    | Finished

  predicate AtRest(proc: Proc) {
    proc.Parked? || proc.Finished?
  }

  /** The store's view of the token, the processes, and the log of checkpoint writes. */
  datatype State = State(
    row: Option<Key>, buffer: seq<Payload>, cps: map<Key, Payload>,
    procs: map<Pid, Proc>, sent: set<Payload>, writes: seq<(Key, Payload)>)

  const EMPTY := State(None, [], map[], map[], {}, [])

  // ------------------------------------------------------------------- steps

  datatype Step = Spawn(pid: Pid, proc: Proc) | Move(pid: Pid)

  predicate Startable(s: State, proc: Proc) {
    match proc
    case SendTake(p) => p !in s.sent
    case WaitRead(_) => true
    case WaitTake(_, remote) => remote
    case Expire(_) => true
    case HookRead(_) => true
    case _ => false
  }

  predicate Enabled(s: State, step: Step) {
    match step
    case Spawn(pid, proc) => pid !in s.procs && Startable(s, proc)
    case Move(pid) => pid in s.procs && !AtRest(s.procs[pid])
  }

  function Become(s: State, pid: Pid, proc: Proc): State {
    s.(procs := s.procs[pid := proc])
  }

  function Write(s: State, key: Key, p: Payload): State {
    s.(cps := s.cps[key := p], writes := s.writes + [(key, p)])
  }

  function RemoveRow(s: State, key: Key): State {
    if s.row == Some(key) then s.(row := None) else s
  }

  function MoveOf(s: State, pid: Pid): State
    requires pid in s.procs && !AtRest(s.procs[pid])
  {
    match s.procs[pid]
    case SendTake(p) =>
      if s.row.Some? then Become(s.(row := None), pid, Deliver(s.row.value, p))
      else Become(s, pid, SendBuffer(p))
    case SendBuffer(p) => Become(s.(buffer := s.buffer + [p]), pid, SendRetake(p))
    case SendRetake(p) =>
      if s.row.Some? then Become(s.(row := None), pid, SendReclaim(s.row.value))
      else Become(s, pid, Finished)
    case SendReclaim(key) =>
      if s.buffer != [] then Become(s.(buffer := s.buffer[1..]), pid, Deliver(key, s.buffer[0]))
      else Become(s, pid, Finished)
    case Deliver(key, p) => Become(Write(s, key, p), pid, Finished)
    case WaitRead(key) => Become(s, pid, if key in s.cps then Finished else WaitTake(key, false))
    case WaitTake(key, remote) =>
      if s.buffer != [] then Become(s.(buffer := s.buffer[1..]), pid, SelfWrite(key, s.buffer[0], false))
      else Become(s, pid, WaitPut(key, remote))
    case WaitPut(key, remote) => Become(s.(row := Some(key)), pid, WaitRetake(key, remote))
    case WaitRetake(key, remote) =>
      if s.buffer == [] then Become(s, pid, Parked(key))
      else
        var taken := s.(buffer := s.buffer[1..]);
        if remote then Become(taken, pid, RemoveFirst(key, s.buffer[0]))
        else Become(taken, pid, SelfWrite(key, s.buffer[0], true))
    case SelfWrite(key, p, registered) =>
      Become(Write(s, key, p), pid, if registered then SelfRemove(key) else Finished)
    case SelfRemove(key) => Become(RemoveRow(s, key), pid, Finished)
    case RemoveFirst(key, p) => Become(RemoveRow(s, key), pid, SelfWrite(key, p, false))
    case Expire(key) => Become(RemoveRow(s, key), pid, Finished)
    case HookRead(key) => Become(s, pid, if key in s.cps then Finished else HookPut(key))
    case HookPut(key) => Become(s.(row := Some(key)), pid, Parked(key))
  }

  function Next(s: State, step: Step): State
    requires Enabled(s, step)
  {
    match step
    case Spawn(pid, proc) =>
      Become(if proc.SendTake? then s.(sent := s.sent + {proc.p}) else s, pid, proc)
    case Move(pid) => MoveOf(s, pid)
  }

  ghost predicate Runs(s: State, steps: seq<Step>)
    decreases |steps|
  {
    steps != [] ==> Enabled(s, steps[0]) && Runs(Next(s, steps[0]), steps[1..])
  }

  ghost function After(s: State, steps: seq<Step>): State
    requires Runs(s, steps)
    decreases |steps|
  {
    if steps == [] then s else After(Next(s, steps[0]), steps[1..])
  }

  /** No call or wait is in the middle of its work. */
  predicate Quiescent(s: State) {
    forall pid | pid in s.procs :: AtRest(s.procs[pid])
  }

  predicate IsHook(proc: Proc) {
    proc.HookRead? || proc.HookPut?
  }

  predicate NoHooks(steps: seq<Step>) {
    forall i | 0 <= i < |steps| && steps[i].Spawn? :: !IsHook(steps[i].proc)
  }

  // ------------------------------------------- a waiter and a payload never both rest

  /** The process is bound to look again at a row of `key` or at the buffer, or to remove its row. */
  predicate Watches(proc: Proc, key: Key) {
    match proc
    case SendRetake(_) => true
    case WaitRetake(k, _) => k == key
    case SelfWrite(k, _, registered) => registered && k == key
    case SelfRemove(k) => k == key
    case RemoveFirst(k, _) => k == key
    case _ => false
  }

  ghost predicate Paired(s: State) {
    && (s.row.Some? && s.buffer != [] ==> exists pid :: pid in s.procs && Watches(s.procs[pid], s.row.value))
    && (forall pid | pid in s.procs :: !IsHook(s.procs[pid]))
  }

  lemma StepKeepsPaired(s: State, step: Step)
    requires Paired(s) && Enabled(s, step)
    requires step.Spawn? ==> !IsHook(step.proc)
    ensures Paired(Next(s, step))
  {
    var s' := Next(s, step);
    if step.Spawn? {
      if s'.row.Some? && s'.buffer != [] {
        var q :| q in s.procs && Watches(s.procs[q], s.row.value);
        assert q in s'.procs && Watches(s'.procs[q], s'.row.value);
      }
    } else if s'.row.Some? && s'.buffer != [] && !Watches(s'.procs[step.pid], s'.row.value) {
      RestIsUntouched(s, step);
      var q :| q in s.procs && Watches(s.procs[q], s.row.value);
      assert q in s'.procs && Watches(s'.procs[q], s'.row.value);
    }
  }

  /** A mover that leaves a row beside a payload without watching them found them there. */
  lemma RestIsUntouched(s: State, step: Step)
    requires Enabled(s, step) && step.Move? && !IsHook(s.procs[step.pid])
    requires var s' := Next(s, step);
             s'.row.Some? && s'.buffer != [] && !Watches(s'.procs[step.pid], s'.row.value)
    ensures s.row == Next(s, step).row && s.buffer != []
    ensures !Watches(s.procs[step.pid], s.row.value)
    ensures forall q | q in s.procs && q != step.pid :: q in Next(s, step).procs && Next(s, step).procs[q] == s.procs[q]
  {
  }

  lemma {:induction false} RunKeepsPaired(s: State, steps: seq<Step>)
    requires Paired(s) && Runs(s, steps) && NoHooks(steps)
    ensures Paired(After(s, steps))
    decreases |steps|
  {
    if steps != [] {
      StepKeepsPaired(s, steps[0]);
      assert forall i | 0 <= i < |steps[1..]| :: steps[1..][i] == steps[i + 1];
      RunKeepsPaired(Next(s, steps[0]), steps[1..]);
    }
  }

  /**
   * With any number of runs, waits, re-drives, expiries and concurrent signals on one token, a
   * registered waiter and a buffered payload never rest in the store together.
   */
  lemma NeverBothAtRest(steps: seq<Step>)
    requires Runs(EMPTY, steps) && NoHooks(steps) && Quiescent(After(EMPTY, steps))
    ensures After(EMPTY, steps).row.None? || After(EMPTY, steps).buffer == []
  {
    RunKeepsPaired(EMPTY, steps);
  }

  // -------------------------------------------- every payload is in exactly one place

  /** The payload a process has in hand. */
  function Held(proc: Proc): Option<Payload> {
    match proc
    case SendTake(p) => Some(p)
    case SendBuffer(p) => Some(p)
    case Deliver(_, p) => Some(p)
    case SelfWrite(_, p, _) => Some(p)
    case RemoveFirst(_, p) => Some(p)
    case _ => None
  }

  datatype Place = InBuffer(index: nat) | Written(index: nat) | With(pid: Pid)

  predicate At(s: State, p: Payload, place: Place) {
    match place
    case InBuffer(i) => i < |s.buffer| && s.buffer[i] == p
    case Written(i) => i < |s.writes| && s.writes[i].1 == p
    case With(pid) => pid in s.procs && Held(s.procs[pid]) == Some(p)
  }

  /** Each payload sent is somewhere, and nothing is in two places. */
  ghost predicate Conserved(s: State) {
    && (forall p | p in s.sent :: exists place :: At(s, p, place))
    && (forall p, a, b | At(s, p, a) && At(s, p, b) :: a == b)
    && (forall p, a | At(s, p, a) :: p in s.sent)
  }

  /** Where the payload at `place` was one step earlier. */
  function Before(s: State, step: Step, place: Place): Place
    requires Enabled(s, step)
  {
    match place
    case InBuffer(i) =>
      if step.Spawn? then place
      else if |Next(s, step).buffer| < |s.buffer| then InBuffer(i + 1)
      else if i == |s.buffer| then With(step.pid)
      else place
    case Written(i) => if i == |s.writes| then With(step.pid) else place
    case With(pid) =>
      if step.Move? && pid == step.pid && |Next(s, step).buffer| < |s.buffer| then InBuffer(0) else place
  }

  lemma BeforeHolds(s: State, step: Step, p: Payload, place: Place)
    requires Enabled(s, step) && At(Next(s, step), p, place)
    ensures At(s, p, Before(s, step, place)) || (step.Spawn? && step.proc == SendTake(p) && place == With(step.pid))
  {
    hide Next, Enabled, At, Before;
    match place
    case InBuffer(i) => BufferedBefore(s, step, p, i);
    case Written(i) => WrittenBefore(s, step, p, i);
    case With(pid) => HeldBefore(s, step, p, pid);
  }

  lemma BufferedBefore(s: State, step: Step, p: Payload, i: nat)
    requires Enabled(s, step) && At(Next(s, step), p, InBuffer(i))
    ensures At(s, p, Before(s, step, InBuffer(i)))
  {
  }

  lemma WrittenBefore(s: State, step: Step, p: Payload, i: nat)
    requires Enabled(s, step) && At(Next(s, step), p, Written(i))
    ensures At(s, p, Before(s, step, Written(i)))
  {
  }

  lemma HeldBefore(s: State, step: Step, p: Payload, pid: Pid)
    requires Enabled(s, step) && At(Next(s, step), p, With(pid))
    ensures At(s, p, Before(s, step, With(pid))) || (step.Spawn? && step.proc == SendTake(p) && pid == step.pid)
  {
  }

  /** Two places that held the same payload after a step held it before the step too. */
  lemma BeforeInjective(s: State, step: Step, p: Payload, a: Place, b: Place)
    requires Enabled(s, step) && At(Next(s, step), p, a) && At(Next(s, step), p, b)
    requires Before(s, step, a) == Before(s, step, b)
    ensures a == b
  {
  }

  /** The new place of the payload that was at `place`. */
  function Afterwards(s: State, step: Step, place: Place): Place
    requires Enabled(s, step)
  {
    if step.Spawn? then place
    else
      var s' := Next(s, step);
      match place
      case InBuffer(i) =>
        if |s'.buffer| < |s.buffer| then (if i == 0 then With(step.pid) else InBuffer(i - 1)) else place
      case Written(_) => place
      case With(pid) =>
        if pid != step.pid then place
        else if |s'.buffer| > |s.buffer| then InBuffer(|s.buffer|)
        else if |s'.writes| > |s.writes| then Written(|s.writes|)
        else place
  }

  lemma AfterwardsHolds(s: State, step: Step, p: Payload, place: Place)
    requires Enabled(s, step) && At(s, p, place)
    ensures At(Next(s, step), p, Afterwards(s, step, place))
  {
  }

  lemma StepConserves(s: State, step: Step)
    requires Conserved(s) && Enabled(s, step)
    ensures Conserved(Next(s, step))
  {
    var s' := Next(s, step);
    forall p | p in s'.sent
      ensures exists place :: At(s', p, place)
    {
      if p in s.sent {
        var place :| At(s, p, place);
        AfterwardsHolds(s, step, p, place);
      } else {
        assert At(s', p, With(step.pid));
      }
    }
    forall p, a, b | At(s', p, a) && At(s', p, b)
      ensures a == b
    {
      BeforeHolds(s, step, p, a);
      BeforeHolds(s, step, p, b);
      if At(s, p, Before(s, step, a)) && At(s, p, Before(s, step, b)) {
        BeforeInjective(s, step, p, a, b);
      }
    }
    forall p, a | At(s', p, a)
      ensures p in s'.sent
    {
      BeforeHolds(s, step, p, a);
    }
  }

  lemma {:induction false} RunConserves(s: State, steps: seq<Step>)
    requires Conserved(s) && Runs(s, steps)
    ensures Conserved(After(s, steps))
    decreases |steps|
  {
    if steps != [] {
      StepConserves(s, steps[0]);
      RunConserves(Next(s, steps[0]), steps[1..]);
    }
  }

  /** In every reachable state each payload sent is in exactly one place: in hand, buffered or written. */
  lemma ExactlyOnePlace(steps: seq<Step>, p: Payload)
    requires Runs(EMPTY, steps) && p in After(EMPTY, steps).sent
    ensures exists place :: At(After(EMPTY, steps), p, place)
                         && forall other :: At(After(EMPTY, steps), p, other) ==> other == place
  {
    RunConserves(EMPTY, steps);
    var s := After(EMPTY, steps);
    var place :| At(s, p, place);
    assert forall other :: At(s, p, other) ==> other == place;
  }

  // ------------------------------------------------------- whose row it is to remove

  /** The process is a wait, or the deadline of one, for `key`. */
  predicate Own(proc: Proc, key: Key) {
    && (proc.WaitRead? || proc.WaitTake? || proc.WaitPut? || proc.WaitRetake? || proc.SelfWrite? || proc.SelfRemove?
        || proc.RemoveFirst? || proc.Expire? || proc.HookRead? || proc.HookPut?)
    && proc.key == key
  }

  /**
   * Of the waits of one token none removes another's row: a registered row goes only to a signal, to a
   * process of that wait, or to a wait that registers after it.
   */
  lemma RowGoesToSignalOrOwner(s: State, step: Step, key: Key)
    requires Enabled(s, step) && s.row == Some(key) && Next(s, step).row != Some(key)
    ensures step.Move?
    ensures var proc := s.procs[step.pid];
            || proc.SendTake? || proc.SendRetake? || Own(proc, key)
            || (exists other :: Own(proc, other) && Next(s, step).row == Some(other))
  {
    var proc := s.procs[step.pid];
    assert Next(s, step).row.Some? ==> Own(proc, Next(s, step).row.value);
  }

  /** When the deadline of a wait passes, its row goes, and no other wait's. */
  lemma DeadlineRemovesOwnRow(s: State, pid: Pid, key: Key)
    requires pid in s.procs && s.procs[pid] == Expire(key)
    ensures Next(s, Move(pid))
            == s.(procs := s.procs[pid := Finished], row := if s.row == Some(key) then None else s.row)
  {
    assert Next(s, Move(pid)).procs == s.procs[pid := Finished];
  }

  /** A wait that has its checkpoint returns when it is driven again, and neither takes nor registers anything. */
  lemma AnsweredWaitReturns(s: State, pid: Pid, key: Key)
    requires key in s.cps && pid !in s.procs
    ensures var steps := [Spawn(pid, WaitRead(key)), Move(pid)];
            Runs(s, steps) && After(s, steps) == s.(procs := s.procs[pid := Finished])
  {
    var t := Next(s, Spawn(pid, WaitRead(key)));
    var end := Next(t, Move(pid));
    assert end.procs == s.procs[pid := Finished];
    var steps := [Spawn(pid, WaitRead(key)), Move(pid)];
    assert steps[1..] == [Move(pid)] && steps[1..][1..] == [];
    assert Runs(end, []) && After(end, []) == end;
    assert Runs(t, steps[1..]) && After(t, steps[1..]) == end;
    hide Next, Enabled;
  }

  // ------------------------------------------------------------------ no lost wake

  predicate IsWait(proc: Proc) {
    proc.WaitRead? || proc.WaitTake?
  }

  /** The steps of one wait `key`, driven once as process `w`, and any number of signals. */
  predicate OneWait(steps: seq<Step>, key: Key, w: Pid) {
    forall i | 0 <= i < |steps| && steps[i].Spawn? ::
      (steps[i].proc.SendTake? && steps[i].pid != w)
      || (steps[i].pid == w && IsWait(steps[i].proc) && steps[i].proc.key == key)
  }

  predicate IsSender(proc: Proc, key: Key) {
    match proc
    case SendTake(_) => true
    case SendBuffer(_) => true
    case SendRetake(_) => true
    case SendReclaim(k) => k == key
    case Deliver(k, _) => k == key
    case Finished => true
    case _ => false
  }

  predicate NoGrab(s: State) {
    forall pid | pid in s.procs :: !s.procs[pid].SendReclaim? && !s.procs[pid].Deliver?
  }

  /** Whoever is about to look for a late waiter still has its payload in the buffer. */
  predicate RetakersBuffered(s: State) {
    forall pid | pid in s.procs && s.procs[pid].SendRetake? :: s.procs[pid].p in s.buffer
  }

  ghost predicate Grabbed(s: State, key: Key) {
    || key in s.cps
    || (exists pid :: pid in s.procs && s.procs[pid].Deliver?)
    || (s.buffer != [] && exists pid :: pid in s.procs && s.procs[pid].SendReclaim?)
  }

  predicate Untouched(s: State, key: Key) {
    NoGrab(s) && RetakersBuffered(s) && key !in s.cps
  }

  ghost predicate WakeInv(s: State, key: Key, w: Pid) {
    && (s.row == None || s.row == Some(key))
    && (forall pid | pid in s.procs && pid != w :: IsSender(s.procs[pid], key))
    && (forall i | 0 <= i < |s.writes| :: s.writes[i].0 == key)
    && (key in s.cps <==> s.writes != [])
    && if w !in s.procs then s.row == None && Untouched(s, key)
       else match s.procs[w]
         case WaitRead(k) => k == key && s.row == None && Untouched(s, key)
         case WaitTake(k, _) => k == key && s.row == None && Untouched(s, key)
         case WaitPut(k, _) => k == key && s.row == None && Untouched(s, key)
         case WaitRetake(k, _) => k == key && if s.row.Some? then Untouched(s, key) else Grabbed(s, key)
         case Parked(k) => k == key && if s.row.Some? then Untouched(s, key) else Grabbed(s, key)
         case SelfWrite(k, _, registered) => k == key && (!registered ==> s.row == None)
         case SelfRemove(k) => k == key && key in s.cps
         case RemoveFirst(k, _) => k == key
         case Finished => key in s.cps && s.row == None
         case _ => false
  }

  lemma SpawnKeepsWake(s: State, step: Step, key: Key, w: Pid)
    requires WakeInv(s, key, w) && Enabled(s, step) && step.Spawn? && OneWait([step], key, w)
    ensures WakeInv(Next(s, step), key, w)
  {
    assert [step][0] == step;
    var s' := Next(s, step);
    if step.pid != w {
      assert step.proc.SendTake?;
      forall pid | pid in s.procs
        ensures pid in s'.procs && s'.procs[pid] == s.procs[pid]
      {
      }
    }
  }

  lemma SenderKeepsWake(s: State, step: Step, key: Key, w: Pid)
    requires WakeInv(s, key, w) && Enabled(s, step) && step.Move? && step.pid != w
    ensures WakeInv(Next(s, step), key, w)
  {
    var s' := Next(s, step);
    SenderMove(s, step, key, w);
    if Grabbed(s, key) {
      GrabStays(s, step, key, w);
    }
    if w in s.procs && (s.procs[w].WaitRetake? || s.procs[w].Parked?) && s.row.Some? && s'.row.None? {
      RowIsGrabbed(s, step, key, w);
    }
    hide Next, Grabbed, Untouched, Enabled;
  }

  /** What a sender's step leaves of the row, the writes and the others. */
  lemma SenderMove(s: State, step: Step, key: Key, w: Pid)
    requires WakeInv(s, key, w) && Enabled(s, step) && step.Move? && step.pid != w
    ensures var s' := Next(s, step);
            && (s'.row == s.row || s'.row == None)
            && (forall pid | pid in s'.procs && pid != w :: IsSender(s'.procs[pid], key))
            && (w in s'.procs <==> w in s.procs) && (w in s.procs ==> s'.procs[w] == s.procs[w])
            && (forall i | 0 <= i < |s'.writes| :: s'.writes[i].0 == key)
            && (key in s'.cps <==> s'.writes != []) && (key in s.cps ==> key in s'.cps)
            && (Untouched(s, key) && s'.row == s.row ==> Untouched(s', key))
  {
    var s' := Next(s, step);
    forall pid | pid in s.procs && pid != step.pid
      ensures pid in s'.procs && s'.procs[pid] == s.procs[pid]
    {
    }
    if Untouched(s, key) && s'.row == s.row {
      assert Untouched(s', key);
    }
  }

  lemma RowIsGrabbed(s: State, step: Step, key: Key, w: Pid)
    requires WakeInv(s, key, w) && Enabled(s, step) && step.Move? && step.pid != w
    requires Untouched(s, key) && s.row.Some? && Next(s, step).row.None?
    ensures Grabbed(Next(s, step), key)
  {
    var s' := Next(s, step);
    assert step.pid in s'.procs;
    assert s'.procs[step.pid].Deliver? || (s'.procs[step.pid].SendReclaim? && s.procs[step.pid].p in s.buffer);
  }

  lemma GrabStays(s: State, step: Step, key: Key, w: Pid)
    requires WakeInv(s, key, w) && Enabled(s, step) && step.Move? && step.pid != w && Grabbed(s, key)
    ensures Grabbed(Next(s, step), key)
  {
    var s' := Next(s, step);
    if key !in s'.cps {
      if exists pid :: pid in s.procs && s.procs[pid].Deliver? {
        var pid :| pid in s.procs && s.procs[pid].Deliver?;
        assert pid in s'.procs && s'.procs[pid].Deliver?;
      } else {
        var pid :| pid in s.procs && s.procs[pid].SendReclaim?;
        if s.procs[step.pid].SendReclaim? {
          assert step.pid in s'.procs && s'.procs[step.pid].Deliver?;
        } else {
          assert pid in s'.procs && s'.procs[pid].SendReclaim?;
        }
      }
    }
  }

  lemma WaiterKeepsWake(s: State, step: Step, key: Key, w: Pid)
    requires WakeInv(s, key, w) && Enabled(s, step) && step == Move(w)
    ensures WakeInv(Next(s, step), key, w)
  {
    var s' := Next(s, step);
    forall pid | pid in s.procs && pid != w
      ensures pid in s'.procs && s'.procs[pid] == s.procs[pid]
    {
    }
    if s.procs[w].WaitRetake? && s.buffer == [] && s.row.None? && key !in s.cps {
      var pid :| pid in s.procs && s.procs[pid].Deliver?;
      assert pid in s'.procs && s'.procs[pid].Deliver?;
    }
  }

  lemma {:induction false} RunKeepsWake(s: State, steps: seq<Step>, key: Key, w: Pid)
    requires WakeInv(s, key, w) && Runs(s, steps) && OneWait(steps, key, w)
    ensures WakeInv(After(s, steps), key, w)
    decreases |steps|
  {
    if steps != [] {
      assert [steps[0]][0] == steps[0];
      if steps[0].Spawn? {
        SpawnKeepsWake(s, steps[0], key, w);
      } else if steps[0].pid == w {
        WaiterKeepsWake(s, steps[0], key, w);
      } else {
        SenderKeepsWake(s, steps[0], key, w);
      }
      assert forall i | 0 <= i < |steps[1..]| :: steps[1..][i] == steps[i + 1];
      RunKeepsWake(Next(s, steps[0]), steps[1..], key, w);
    }
  }

  lemma OneWaitHasNoHooks(steps: seq<Step>, key: Key, w: Pid)
    requires OneWait(steps, key, w)
    ensures NoHooks(steps)
  {
  }

  /**
   * No lost wake: with one wait and any number of signals, if all calls have returned and the wait is
   * parked without a result, its row is still registered and nothing is buffered.
   */
  lemma NoLostWake(steps: seq<Step>, key: Key, w: Pid)
    requires Runs(EMPTY, steps) && OneWait(steps, key, w)
    requires var s := After(EMPTY, steps);
             Quiescent(s) && w in s.procs && s.procs[w].Parked? && key !in s.cps
    ensures After(EMPTY, steps).row == Some(key) && After(EMPTY, steps).buffer == []
  {
    RunKeepsWake(EMPTY, steps, key, w);
    OneWaitHasNoHooks(steps, key, w);
    NeverBothAtRest(steps);
    var s := After(EMPTY, steps);
    assert forall pid | pid in s.procs :: !s.procs[pid].Deliver? && !s.procs[pid].SendReclaim?;
  }

  /** With a single signal, it is recorded once at the wait and leaves neither a row nor a copy. */
  lemma SingleSignalDelivered(steps: seq<Step>, key: Key, w: Pid, p: Payload)
    requires Runs(EMPTY, steps) && OneWait(steps, key, w)
    requires var s := After(EMPTY, steps);
             Quiescent(s) && w in s.procs && s.sent == {p}
    ensures var s := After(EMPTY, steps);
            s.writes == [(key, p)] && s.row == None && s.buffer == []
  {
    RunKeepsWake(EMPTY, steps, key, w);
    RunConserves(EMPTY, steps);
    OneWaitHasNoHooks(steps, key, w);
    NeverBothAtRest(steps);
    var s := After(EMPTY, steps);
    RestingPlace(s, p);
    if key !in s.cps {
      NoLostWake(steps, key, w);
    }
    OnlyPayload(s, p);
    assert s.writes == [(key, p)];
  }

  lemma RestingPlace(s: State, p: Payload)
    requires Conserved(s) && Quiescent(s) && p in s.sent
    ensures s.buffer != [] || s.writes != []
  {
    var place :| At(s, p, place);
  }

  lemma TwoPlaces(s: State, p: Payload, q: Payload, a: Place, b: Place)
    requires Conserved(s) && At(s, p, a) && At(s, q, b) && a != b
    ensures p != q && p in s.sent && q in s.sent
  {
  }

  /** With one payload sent and some write on record, that write is all there is. */
  lemma OnlyPayload(s: State, p: Payload)
    requires Conserved(s) && s.sent == {p} && s.writes != []
    ensures |s.writes| == 1 && s.writes[0].1 == p && s.buffer == []
  {
    assert At(s, s.writes[0].1, Written(0));
    if |s.writes| > 1 {
      TwoPlaces(s, s.writes[0].1, s.writes[1].1, Written(0), Written(1));
    } else if s.buffer != [] {
      TwoPlaces(s, s.writes[0].1, s.buffer[0], Written(0), InBuffer(0));
    }
  }

  // ---------------------------------------- how many signals one wait may safely face

  ghost predicate WritesOnce(n: nat) {
    forall steps: seq<Step>, key: Key, w: Pid ::
      Runs(EMPTY, steps) && OneWait(steps, key, w) && |After(EMPTY, steps).sent| <= n
      ==> |After(EMPTY, steps).writes| <= 1
  }

  lemma TwoWritesTwoSignals(steps: seq<Step>)
    requires Runs(EMPTY, steps) && |After(EMPTY, steps).writes| > 1
    ensures |After(EMPTY, steps).sent| > 1
  {
    RunConserves(EMPTY, steps);
    var s := After(EMPTY, steps);
    var p, q := s.writes[0].1, s.writes[1].1;
    assert At(s, p, Written(0)) && At(s, q, Written(1)) && Written(0) != Written(1);
    assert p != q && {p, q} <= s.sent;
    SubsetSize({p, q}, s.sent);
  }

  // The race, in four parts: the wait misses and is about to register; a first signal misses and the
  // wait registers; a second signal takes the row and the first buffers; then everyone finishes.

  function RaceOne(key: Key): seq<Step> {
    [Spawn(0, WaitRead(key)), Move(0), Move(0)]
  }

  function RaceTwo(): seq<Step> {
    [Spawn(1, SendTake(1)), Move(1), Move(0)]
  }

  function RaceThree(): seq<Step> {
    [Spawn(2, SendTake(2)), Move(2), Move(1)]
  }

  function RaceFour(): seq<Step> {
    [Move(0), Move(0), Move(2)]
  }

  function RaceFive(): seq<Step> {
    [Move(1), Move(0)]
  }

  lemma OneWaitConcat(a: seq<Step>, b: seq<Step>, key: Key, w: Pid)
    requires OneWait(a, key, w) && OneWait(b, key, w)
    ensures OneWait(a + b, key, w)
  {
  }

  /** Two signals racing one wait: one is taken directly, the other from the buffer, and both are written. */
  lemma TwoSignalsOverwrite() returns (steps: seq<Step>, key: Key)
    ensures Runs(EMPTY, steps) && OneWait(steps, key, 0)
    ensures var s := After(EMPTY, steps);
            Quiescent(s) && s.sent == {1, 2} && s.writes == [(key, 1), (key, 2)] && s.cps == map[key := 2]
  {
    key := Key(0, 0);
    hide Runs, After;
    var s1 := AfterOne(key);
    var s2 := AfterTwo(key, s1);
    var s3 := AfterThree(key, s2);
    var s4 := AfterFour(key, s3);
    var s5 := AfterFive(key, s4);
    steps := RaceOne(key);
    steps := Extend(steps, s1, RaceTwo(), s2, key);
    steps := Extend(steps, s2, RaceThree(), s3, key);
    steps := Extend(steps, s3, RaceFour(), s4, key);
    steps := Extend(steps, s4, RaceFive(), s5, key);
  }

  lemma Extend(steps: seq<Step>, s: State, more: seq<Step>, s': State, key: Key) returns (all: seq<Step>)
    requires Runs(EMPTY, steps) && After(EMPTY, steps) == s && OneWait(steps, key, 0)
    requires Runs(s, more) && After(s, more) == s' && OneWait(more, key, 0)
    ensures Runs(EMPTY, all) && After(EMPTY, all) == s' && OneWait(all, key, 0)
  {
    all := steps + more;
    RunsAppend(EMPTY, steps, more);
    OneWaitConcat(steps, more, key, 0);
  }

  lemma {:induction false} RunsAppend(s: State, a: seq<Step>, b: seq<Step>)
    requires Runs(s, a) && Runs(After(s, a), b)
    ensures Runs(s, a + b) && After(s, a + b) == After(After(s, a), b)
    decreases |a|
  {
    if a == [] {
      assert a + b == b;
    } else {
      assert (a + b)[0] == a[0] && (a + b)[1..] == a[1..] + b;
      RunsAppend(Next(s, a[0]), a[1..], b);
    }
  }

  lemma Cons(s: State, step: Step, tail: seq<Step>, s': State)
    requires Enabled(s, step) && s' == Next(s, step) && Runs(s', tail)
    ensures Runs(s, [step] + tail) && After(s, [step] + tail) == After(s', tail)
  {
    assert ([step] + tail)[1..] == tail;
  }

  lemma ThreeSteps(s: State, t1: State, t2: State, t3: State, steps: seq<Step>)
    requires |steps| == 3
    requires Enabled(s, steps[0]) && t1 == Next(s, steps[0])
    requires Enabled(t1, steps[1]) && t2 == Next(t1, steps[1])
    requires Enabled(t2, steps[2]) && t3 == Next(t2, steps[2])
    ensures Runs(s, steps) && After(s, steps) == t3
  {
    hide Enabled, Next;
    Cons(t2, steps[2], [], t3);
    Cons(t1, steps[1], [steps[2]], t2);
    Cons(s, steps[0], [steps[1], steps[2]], t1);
    assert steps == [steps[0]] + [steps[1], steps[2]];
  }

  lemma AfterOne(key: Key) returns (end: State)
    ensures end == EMPTY.(procs := map[0 := WaitPut(key, false)])
    ensures Runs(EMPTY, RaceOne(key)) && After(EMPTY, RaceOne(key)) == end && OneWait(RaceOne(key), key, 0)
  {
    end := EMPTY.(procs := map[0 := WaitPut(key, false)]);
    var t1 := Next(EMPTY, Spawn(0, WaitRead(key)));
    var t2 := Next(t1, Move(0));
    ThreeSteps(EMPTY, t1, t2, end, RaceOne(key));
  }

  lemma AfterTwo(key: Key, s: State) returns (end: State)
    requires s == EMPTY.(procs := map[0 := WaitPut(key, false)])
    ensures end == EMPTY.(procs := map[0 := WaitRetake(key, false), 1 := SendBuffer(1)], row := Some(key), sent := {1})
    ensures Runs(s, RaceTwo()) && After(s, RaceTwo()) == end && OneWait(RaceTwo(), key, 0)
  {
    end := EMPTY.(procs := map[0 := WaitRetake(key, false), 1 := SendBuffer(1)], row := Some(key), sent := {1});
    var t1 := Next(s, Spawn(1, SendTake(1)));
    var t2 := Next(t1, Move(1));
    ThreeSteps(s, t1, t2, end, RaceTwo());
  }

  lemma AfterThree(key: Key, s: State) returns (end: State)
    requires s == EMPTY.(procs := map[0 := WaitRetake(key, false), 1 := SendBuffer(1)], row := Some(key), sent := {1})
    ensures end.row == None && end.buffer == [1] && end.cps == map[] && end.writes == [] && end.sent == {1, 2}
    ensures end.procs == s.procs[1 := SendRetake(1)][2 := Deliver(key, 2)]
    ensures Runs(s, RaceThree()) && After(s, RaceThree()) == end && OneWait(RaceThree(), key, 0)
  {
    var t1 := Next(s, Spawn(2, SendTake(2)));
    var t2 := Next(t1, Move(2));
    end := Next(t2, Move(1));
    ThreeSteps(s, t1, t2, end, RaceThree());
  }

  lemma AfterFour(key: Key, s: State) returns (end: State)
    requires s.row == None && s.buffer == [1] && s.cps == map[] && s.writes == [] && s.sent == {1, 2}
    requires s.procs.Keys == {0, 1, 2} && s.procs[0] == WaitRetake(key, false) && s.procs[2] == Deliver(key, 2)
    ensures end.row == None && end.buffer == [] && end.cps == map[key := 2] && end.sent == {1, 2}
    ensures end.writes == [(key, 1), (key, 2)]
    ensures end.procs == s.procs[0 := SelfRemove(key)][2 := Finished]
    ensures Runs(s, RaceFour()) && After(s, RaceFour()) == end && OneWait(RaceFour(), key, 0)
  {
    var t1 := Next(s, Move(0));
    var t2 := Next(t1, Move(0));
    end := Next(t2, Move(2));
    ThreeSteps(s, t1, t2, end, RaceFour());
  }

  lemma AfterFive(key: Key, s: State) returns (end: State)
    requires s.row == None && s.buffer == []
    requires s.procs.Keys == {0, 1, 2}
    requires s.procs[0] == SelfRemove(key) && s.procs[1] == SendRetake(1) && s.procs[2] == Finished
    ensures end == s.(procs := end.procs) && Quiescent(end)
    ensures Runs(s, RaceFive()) && After(s, RaceFive()) == end && OneWait(RaceFive(), key, 0)
  {
    var t1 := Next(s, Move(1));
    end := Next(t1, Move(0));
    Cons(t1, Move(0), [], end);
    Cons(s, Move(1), [Move(0)], t1);
    assert RaceFive() == [Move(1)] + [Move(0)];
  }

  /** A wait's checkpoint is written at most once for every schedule exactly when at most one signal is sent. */
  lemma WritesOnceIffOneSignal(n: nat)
    ensures WritesOnce(n) <==> n <= 1
  {
    if n <= 1 {
      forall steps: seq<Step>, key: Key, w: Pid
        | Runs(EMPTY, steps) && OneWait(steps, key, w) && |After(EMPTY, steps).sent| <= n
        ensures |After(EMPTY, steps).writes| <= 1
      {
        if |After(EMPTY, steps).writes| > 1 {
          TwoWritesTwoSignals(steps);
        }
      }
    } else {
      var steps, key := TwoSignalsOverwrite();
      assert |After(EMPTY, steps).sent| == 2;
    }
  }

  // ------------------------------------------------------- webhook().wait() is different

  /** The steps of one webhook `key`, driven any number of times, and of one callback `c` carrying `p`. */
  predicate OneCallback(steps: seq<Step>, key: Key, c: Pid, p: Payload) {
    forall i | 0 <= i < |steps| && steps[i].Spawn? ::
      if steps[i].pid == c then steps[i].proc == SendTake(p) else steps[i].proc == HookRead(key)
  }

  /** The step registers a webhook wait, and the callback's call has not returned. */
  predicate RegistersInTime(s: State, step: Step, c: Pid) {
    && step.Move? && step.pid in s.procs && s.procs[step.pid].HookPut?
    && !(c in s.procs && s.procs[c].Finished?)
  }

  /** Some step of the run registers the wait before the callback's call has returned. */
  ghost predicate InTime(s: State, steps: seq<Step>, c: Pid)
    requires Runs(s, steps)
    decreases |steps|
  {
    steps != [] && (RegistersInTime(s, steps[0], c) || InTime(Next(s, steps[0]), steps[1..], c))
  }

  /** Where the callback `c` and its payload stand, `registered` telling whether a wait registered in time. */
  predicate CallbackAt(s: State, key: Key, c: Pid, p: Payload, registered: bool) {
    if c !in s.procs then s.buffer == [] && s.writes == [] && (s.row.Some? <==> registered)
    else match s.procs[c]
      case SendTake(q) => q == p && s.buffer == [] && s.writes == [] && (s.row.Some? <==> registered)
      case SendBuffer(q) => q == p && s.buffer == [] && s.writes == [] && (s.row.Some? <==> registered)
      case SendRetake(q) => q == p && s.buffer == [p] && s.writes == [] && (s.row.Some? <==> registered)
      case SendReclaim(k) => k == key && s.buffer == [p] && s.writes == [] && registered
      case Deliver(k, q) => k == key && q == p && s.buffer == [] && s.writes == [] && registered
      case Finished =>
        if registered then s.buffer == [] && s.writes == [(key, p)] else s.buffer == [p] && s.writes == []
      case _ => false
  }

  /** Where a drive of the webhook stands: it parks behind its row and ends only with a result. */
  predicate DriveAt(s: State, proc: Proc, key: Key, registered: bool) {
    match proc
    case HookRead(k) => k == key
    case HookPut(k) => k == key
    case Parked(k) => k == key && (registered || s.row.Some?)
    case Finished => key in s.cps
    case _ => false
  }

  predicate HookInv(s: State, key: Key, c: Pid, p: Payload, registered: bool) {
    && (s.row == None || s.row == Some(key))
    && (key in s.cps <==> s.writes != [])
    && CallbackAt(s, key, c, p, registered)
    && forall w | w in s.procs && w != c :: DriveAt(s, s.procs[w], key, registered)
  }

  lemma SpawnKeepsHook(s: State, step: Step, key: Key, c: Pid, p: Payload, registered: bool)
    requires HookInv(s, key, c, p, registered) && Enabled(s, step) && step.Spawn?
    requires if step.pid == c then step.proc == SendTake(p) else step.proc == HookRead(key)
    ensures HookInv(Next(s, step), key, c, p, registered)
  {
  }

  lemma CallbackKeepsHook(s: State, step: Step, key: Key, c: Pid, p: Payload, registered: bool)
    requires HookInv(s, key, c, p, registered) && Enabled(s, step) && step == Move(c)
    ensures !RegistersInTime(s, step, c) && HookInv(Next(s, step), key, c, p, registered)
  {
    var s' := Next(s, step);
    forall w | w in s'.procs && w != c
      ensures DriveAt(s', s'.procs[w], key, registered)
    {
      assert DriveAt(s, s.procs[w], key, registered);
    }
  }

  lemma DriveKeepsHook(s: State, step: Step, key: Key, c: Pid, p: Payload, registered: bool)
    requires HookInv(s, key, c, p, registered) && Enabled(s, step) && step.Move? && step.pid != c
    ensures HookInv(Next(s, step), key, c, p, registered || RegistersInTime(s, step, c))
  {
    var s' := Next(s, step);
    assert DriveAt(s, s.procs[step.pid], key, registered);
    assert s'.buffer == s.buffer && s'.writes == s.writes && s'.cps == s.cps;
    assert c in s'.procs <==> c in s.procs;
    forall w | w in s'.procs && w != c
      ensures DriveAt(s', s'.procs[w], key, registered || RegistersInTime(s, step, c))
    {
      assert DriveAt(s, s.procs[w], key, registered);
    }
  }

  lemma StepKeepsHook(s: State, step: Step, key: Key, c: Pid, p: Payload, registered: bool)
    requires HookInv(s, key, c, p, registered) && Enabled(s, step) && OneCallback([step], key, c, p)
    ensures HookInv(Next(s, step), key, c, p, registered || RegistersInTime(s, step, c))
  {
    hide HookInv, Next;
    assert [step][0] == step;
    if step.Spawn? {
      SpawnKeepsHook(s, step, key, c, p, registered);
    } else if step.pid == c {
      CallbackKeepsHook(s, step, key, c, p, registered);
    } else {
      DriveKeepsHook(s, step, key, c, p, registered);
    }
  }

  lemma {:induction false} RunKeepsHook(s: State, steps: seq<Step>, key: Key, c: Pid, p: Payload, registered: bool)
    requires HookInv(s, key, c, p, registered) && Runs(s, steps) && OneCallback(steps, key, c, p)
    ensures HookInv(After(s, steps), key, c, p, registered || InTime(s, steps, c))
    decreases |steps|
  {
    if steps != [] {
      assert [steps[0]][0] == steps[0];
      StepKeepsHook(s, steps[0], key, c, p, registered);
      assert forall i | 0 <= i < |steps[1..]| :: steps[1..][i] == steps[i + 1];
      RunKeepsHook(Next(s, steps[0]), steps[1..], key, c, p, registered || RegistersInTime(s, steps[0], c));
    }
  }

  /**
   * A webhook wait registers without looking at the buffer, so over every run its callback is recorded
   * exactly when some drive registered before the callback's call had returned. Otherwise row and
   * payload rest beside each other, and no later drive of the wait changes that.
   */
  lemma HookDeliveredIffRegisteredInTime(steps: seq<Step>, key: Key, c: Pid, p: Payload, w: Pid)
    requires Runs(EMPTY, steps) && OneCallback(steps, key, c, p)
    requires var end := After(EMPTY, steps); Quiescent(end) && c in end.procs && w in end.procs && w != c
    ensures var end := After(EMPTY, steps);
            if InTime(EMPTY, steps, c) then end.writes == [(key, p)] && end.buffer == []
            else end.writes == [] && end.buffer == [p] && end.row == Some(key)
  {
    RunKeepsHook(EMPTY, steps, key, c, p, false);
    var end := After(EMPTY, steps);
    assert AtRest(end.procs[c]) && AtRest(end.procs[w]);
    assert DriveAt(end, end.procs[w], key, InTime(EMPTY, steps, c));
  }

  function CallbackReturns(): seq<Step> {
    [Spawn(1, SendTake(1)), Move(1), Move(1)]
  }

  function HookRegisters(key: Key): seq<Step> {
    [Spawn(0, HookRead(key)), Move(0), Move(0)]
  }

  lemma OneCallbackConcat(a: seq<Step>, b: seq<Step>, key: Key, c: Pid, p: Payload)
    requires OneCallback(a, key, c, p) && OneCallback(b, key, c, p)
    ensures OneCallback(a + b, key, c, p)
  {
  }

  lemma CallbackFirst() returns (steps: seq<Step>, end: State)
    ensures Runs(EMPTY, steps) && After(EMPTY, steps) == end
    ensures forall key :: OneCallback(steps, key, 1, 1)
    ensures end == EMPTY.(buffer := [1], sent := {1}, procs := map[1 := Finished])
  {
    var a1 := Next(EMPTY, Spawn(1, SendTake(1)));
    var a2 := Next(a1, Move(1));
    var a3 := Next(a2, Move(1));
    end := Next(a3, Move(1));
    ThreeSteps(EMPTY, a1, a2, a3, CallbackReturns());
    Cons(a3, Move(1), [], end);
    hide Next, Enabled;
    steps := CallbackReturns() + [Move(1)];
    RunsAppend(EMPTY, CallbackReturns(), [Move(1)]);
  }

  lemma WaitSecond(s: State, key: Key) returns (end: State)
    requires s == EMPTY.(buffer := [1], sent := {1}, procs := map[1 := Finished])
    ensures Runs(s, HookRegisters(key)) && After(s, HookRegisters(key)) == end
    ensures end == s.(row := Some(key), procs := map[0 := Parked(key), 1 := Finished])
  {
    var b1 := Next(s, Spawn(0, HookRead(key)));
    var b2 := Next(b1, Move(0));
    end := Next(b2, Move(0));
    ThreeSteps(s, b1, b2, end, HookRegisters(key));
    hide Runs, After;
    assert end.procs == map[0 := Parked(key), 1 := Finished];
  }

  /** A whole run on which the callback comes first: payload and row rest, and nothing is recorded. */
  lemma CallbackBeforeWait(key: Key) returns (steps: seq<Step>)
    ensures Runs(EMPTY, steps) && OneCallback(steps, key, 1, 1)
    ensures var end := After(EMPTY, steps);
            Quiescent(end) && end.row == Some(key) && end.buffer == [1] && end.writes == []
            && end.procs == map[0 := Parked(key), 1 := Finished]
  {
    hide Runs, After;
    var first, s := CallbackFirst();
    var end := WaitSecond(s, key);
    RunsAppend(EMPTY, first, HookRegisters(key));
    steps := first + HookRegisters(key);
    assert OneCallback(first, key, 1, 1) && OneCallback(HookRegisters(key), key, 1, 1);
    OneCallbackConcat(first, HookRegisters(key), key, 1, 1);
  }
}

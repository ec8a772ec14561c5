/**
 * What an in-process run gives its body: every outcome is what the world produced for that position
 * when it was settled, every operation runs at its own position, and the run ends as the body does.
 * Stated over the events of a run and the log of its passes, not over the journal.
 * Models packages/adonis/src/workflow-ctx.ts.
 */
module CtxWorld {
  import opened Common
  import opened WorkflowCtx
  import opened CtxReplay

  // ------------------------------------------------------------- what the world gave

  /** What an operation that is run now leaves at its position: its own value, or what is produced there. */
  function Fresh(op: Op, produced: Option<Value>): Option<Outcome> {
    match op
    case LocalStep(_, _) => if produced.Some? then Some(Ok(produced.value)) else None
    case WaitSignal(_) => if produced.Some? then Some(Ok(produced.value)) else None
    case SetEvent(_, value) => Some(Ok(value))
    case Patched(_) => Some(Ok(Json("true")))
    case _ => None
  }

  /** What the first operation of the log that runs at position `s` leaves there. */
  function FreshAt(log: seq<Visit>, s: nat, world: World): Option<Outcome> {
    if log == [] then None
    else if log[0].at == s && Fresh(log[0].op, world(s)).Some? then Fresh(log[0].op, world(s))
    else FreshAt(log[1..], s, world)
  }

  /**
   * What each position has been given: by the first pass that came to it, by the completion of its step
   * or timer, or by the signal delivered to its row.
   */
  function Give(given: map<nat, Outcome>, e: Event, log: seq<Visit>): map<nat, Outcome> {
    match e
    case Complete(at, o) => given[at := o]
    case Deliver(row, v) => given[row.at := Ok(v)]
    case Drive(world) =>
      given + map s | s in (set v | v in log :: v.at) && s !in given && FreshAt(log, s, world).Some? ::
                FreshAt(log, s, world).value
  }

  ghost function Given(b: Body, s: State, events: seq<Event>, given: map<nat, Outcome>): map<nat, Outcome>
    requires Runs(b, s, events)
    decreases |events|
  {
    if events == [] then given
    else
      var s' := Next(b, s, events[0]);
      Given(b, s', events[1..], Give(given, events[0], s'.log))
  }

  // ------------------------------------------------------------- the journal agrees

  predicate DoneAt(j: Journal, s: nat) {
    s in j && j[s].status.Done?
  }

  ghost predicate Holds(j: Journal, given: map<nat, Outcome>) {
    && (forall s | s in given :: DoneAt(j, s) && j[s].status.outcome == given[s])
    && (forall s | DoneAt(j, s) :: s in given)
  }

  lemma {:induction false} DoneBelow(b: Body, j: Journal, rows: set<Row>, place: Place)
    requires Fits(b, j, rows, place)
    ensures forall s | s in j && s < place.next :: j[s].status.Done?
    decreases b
  {
    hide Matches, HooksOwn;
    if b.Do? && Recorded(b.op, j, place).Some? {
      var o := Recorded(b.op, j, place).value;
      DoneBelow(b.rest[o], j, rows, After(b.op, place, o));
    }
  }

  /** What one resumed operation writes is what the log says it leaves. */
  lemma OpLeaves(op: Op, j: Journal, place: Place, world: World)
    requires Perform(op, j, place, world).control.Resumed?
    requires op.Patched? && place.next in j ==> j[place.next].status.Done?
    ensures var p, at := Perform(op, j, place, world), PositionOf(op, place);
            && (DoneAt(p.journal, at) && !DoneAt(j, at)
                <==> !DoneAt(j, at) && Fresh(op, world(at)).Some?)
            && (DoneAt(p.journal, at) && !DoneAt(j, at) ==> p.journal[at].status.outcome == Fresh(op, world(at)).value)
            && (forall s | s != at :: (s in p.journal <==> s in j) && (s in j ==> p.journal[s] == j[s]))
  {
  }

  lemma OpStopsUndone(op: Op, j: Journal, place: Place, world: World)
    requires !Perform(op, j, place, world).control.Resumed?
    ensures var p := Perform(op, j, place, world).journal;
            forall s | !DoneAt(j, s) :: !DoneAt(p, s)
  {
  }

  /** What a pass newly settles is what the operations of its log leave. */
  ghost predicate Leaves(j: Journal, p: Pass, world: World) {
    forall s | !DoneAt(j, s) ::
      && (DoneAt(p.journal, s) <==> FreshAt(p.log, s, world).Some?)
      && (DoneAt(p.journal, s) ==> FreshAt(p.log, s, world) == Some(p.journal[s].status.outcome))
  }

  lemma {:induction false} PassLeaves(b: Body, j: Journal, rows: set<Row>, place: Place, world: World)
    requires Fits(b, j, rows, place)
    requires forall r | r in rows :: world(r.at).None?
    ensures Leaves(j, RunPass(b, j, place, world), world)
    decreases b
  {
    if b.Do? {
      var p := Perform(b.op, j, place, world);
      if p.control.Resumed? {
        var o := p.control.outcome;
        var next := After(b.op, place, o);
        if Recorded(b.op, j, place).None? {
          FrontierResumes(b.op, j, rows, place, world);
          SettledFits(b.rest[o], p.journal, next);
        } else {
          RecordedIsPerformed(b.op, j, place, world);
        }
        PassIsGood(b.rest[o], p.journal, rows, next, world);
        PassLeaves(b.rest[o], p.journal, rows, next, world);
        DoneBelow(b.rest[o], p.journal, rows, next);
        MarkerIsDone(b.op, j, place, world);
        ConsLeaves(b, j, place, world);
      } else {
        OpStopsUndone(b.op, j, place, world);
      }
    }
  }

  lemma MarkerIsDone(op: Op, j: Journal, place: Place, world: World)
    requires Perform(op, j, place, world).control.Resumed?
    requires var p := Perform(op, j, place, world);
             forall s | s in p.journal && s < After(op, place, p.control.outcome).next :: p.journal[s].status.Done?
    requires op.Patched? ==> Perform(op, j, place, world).control.outcome == Flag(true)
    ensures op.Patched? && place.next in j ==> j[place.next].status.Done?
  {
  }

  lemma ConsLeaves(b: Body, j: Journal, place: Place, world: World)
    requires b.Do? && Perform(b.op, j, place, world).control.Resumed?
    requires b.op.Patched? && place.next in j ==> j[place.next].status.Done?
    requires var p := Perform(b.op, j, place, world);
             var tail := RunPass(b.rest[p.control.outcome], p.journal, After(b.op, place, p.control.outcome), world);
             Leaves(p.journal, tail, world) && Extends(p.journal, tail.journal)
    ensures Leaves(j, RunPass(b, j, place, world), world)
  {
    var p, at := Perform(b.op, j, place, world), PositionOf(b.op, place);
    var o := p.control.outcome;
    var tail := RunPass(b.rest[o], p.journal, After(b.op, place, o), world);
    var all := RunPass(b, j, place, world);
    OpLeaves(b.op, j, place, world);
    assert all.log == [Visit(b.op, at, o)] + tail.log && all.log[1..] == tail.log;
    hide Perform, RunPass, Fresh;
    forall s | !DoneAt(j, s)
      ensures DoneAt(all.journal, s) <==> FreshAt(all.log, s, world).Some?
      ensures DoneAt(all.journal, s) ==> FreshAt(all.log, s, world) == Some(all.journal[s].status.outcome)
    {
      if s != at {
        assert FreshAt(all.log, s, world) == FreshAt(tail.log, s, world);
      }
    }
  }

  lemma StepKeepsHolds(b: Body, s: State, e: Event, given: map<nat, Outcome>)
    requires Inv(b, s) && Enabled(s, e) && Holds(s.journal, given)
    ensures Holds(Next(b, s, e).journal, Give(given, e, Next(b, s, e).log))
  {
    match e
    case Complete(at, o) =>
    case Deliver(row, v) =>
    case Drive(world) =>
      PassLeaves(b, s.journal, s.rows, START, world);
      PassIsGood(b, s.journal, s.rows, START, world);
      hide RunPass, Fits, Walk, Matches;
      DriveHolds(s.journal, RunPass(b, s.journal, START, world), world, given);
  }

  lemma {:induction false} FreshIsVisited(log: seq<Visit>, s: nat, world: World)
    requires FreshAt(log, s, world).Some?
    ensures s in (set v | v in log :: v.at)
  {
    if log[0].at == s && Fresh(log[0].op, world(s)).Some? {
      assert log[0] in log;
    } else {
      FreshIsVisited(log[1..], s, world);
      var v :| v in log[1..] && v.at == s;
      assert v in log;
    }
  }

  lemma DriveHolds(j: Journal, p: Pass, world: World, given: map<nat, Outcome>)
    requires Holds(j, given) && Leaves(j, p, world) && Extends(j, p.journal)
    ensures Holds(p.journal, Give(given, Drive(world), p.log))
  {
    hide FreshAt;
    forall s | FreshAt(p.log, s, world).Some? ensures s in (set v | v in p.log :: v.at) {
      FreshIsVisited(p.log, s, world);
    }
  }

  lemma {:induction false} RunKeepsHolds(b: Body, s: State, events: seq<Event>, given: map<nat, Outcome>)
    requires Inv(b, s) && Runs(b, s, events) && Holds(s.journal, given)
    ensures Holds(End(b, s, events).journal, Given(b, s, events, given))
    decreases |events|
  {
    hide Inv, Next, Enabled, Holds, Give;
    if events != [] {
      StepKeepsInv(b, s, events[0]);
      StepKeepsHolds(b, s, events[0], given);
      RunKeepsHolds(b, Next(b, s, events[0]), events[1..], Give(given, events[0], Next(b, s, events[0]).log));
    }
  }

  /**
   * Over every run, what the body was given by a step, a local step or a wait is what that position was
   * given first: the completion of the step, the value its body produced in the pass that ran it, the
   * payload found buffered, or the one delivered to the row.
   */
  lemma OutcomeIsWhatWasGiven(b: Body, events: seq<Event>, i: nat)
    requires Runs(b, FRESH, events) && i < |End(b, FRESH, events).log|
    ensures var v := End(b, FRESH, events).log[i];
            var given := Given(b, FRESH, events, map[]);
            v.op.Step? || v.op.LocalStep? || v.op.WaitSignal? || v.op.WaitHook? ==>
              v.at in given && v.outcome == given[v.at]
  {
    FreshInv(b);
    RunKeepsHolds(b, FRESH, events, map[]);
    OwnHistoryReplays(b, events, i);
    hide Fits;
  }

  // ------------------------------------------------------- the log is a path of the body

  /** The log performs the body's own operations, going on after each outcome as the body does. */
  ghost predicate Follows(b: Body, log: seq<Visit>)
    decreases |log|
  {
    log != [] ==> b.Do? && log[0].op == b.op && Follows(b.rest[log[0].outcome], log[1..])
  }

  /** Where the body is after the log. */
  ghost function Reached(b: Body, log: seq<Visit>): Body
    requires Follows(b, log)
    decreases |log|
  {
    if log == [] then b else Reached(b.rest[log[0].outcome], log[1..])
  }

  /** How many positions the log has taken: one an operation, but none for a webhook's wait. */
  function Taken(log: seq<Visit>): nat {
    if log == [] then 0
    else Taken(log[..|log| - 1]) + if log[|log| - 1].op.WaitHook? then 0 else 1
  }

  /** The positions of the webhooks minted, in order. */
  function Minted(log: seq<Visit>): seq<nat> {
    if log == [] then []
    else
      var front := log[..|log| - 1];
      Minted(front) + if log[|log| - 1].op.Webhook? then [Taken(front)] else []
  }

  /** The place a pass has reached after the log. */
  function PlaceOf(log: seq<Visit>): Place {
    Place(Taken(log), Minted(log))
  }

  /** Every operation of the log ran at its own position. */
  ghost predicate WellPlaced(log: seq<Visit>) {
    forall i | 0 <= i < |log| ::
      log[i].at == if log[i].op.WaitHook? && log[i].op.which < |Minted(log[..i])| then Minted(log[..i])[log[i].op.which]
                   else Taken(log[..i])
  }

  /** No guard of the log was left without its marker. */
  predicate AllMarked(log: seq<Visit>) {
    forall v | v in log && v.op.Patched? :: v.outcome == Flag(true)
  }

  lemma OneMorePlaced(before: seq<Visit>, v: Visit)
    requires WellPlaced(before) && v.at == PositionOf(v.op, PlaceOf(before))
    ensures WellPlaced(before + [v])
  {
    var more := before + [v];
    forall i | 0 <= i < |more|
      ensures more[i].at == if more[i].op.WaitHook? && more[i].op.which < |Minted(more[..i])|
                            then Minted(more[..i])[more[i].op.which] else Taken(more[..i])
    {
      if i < |before| {
        assert more[..i] == before[..i];
      } else {
        assert more[..i] == before;
      }
    }
  }

  /** What stops a body at an operation: it waits for something nobody has given, and is registered for it. */
  predicate WaitsAt(op: Op, log: seq<Visit>, p: Pass, world: World) {
    var at := Taken(log);
    match op
    case Step(name, _) => at in p.journal && p.journal[at].name == name && !DoneAt(p.journal, at) && p.row.None?
    case Sleep => at in p.journal && !DoneAt(p.journal, at) && p.row.None?
    case WaitSignal(token) =>
      !DoneAt(p.journal, at) && world(at).None? && p.row == Some(Row(at, "signal:" + token))
    case WaitHook(k) =>
      && k < |Minted(log)| && !DoneAt(p.journal, Minted(log)[k])
      && p.row == Some(Row(Minted(log)[k], "signal:wh:" + Digits(Minted(log)[k])))
    case _ => false
  }

  /** How a pass that has run `log` ends: as the body does there, or waiting at its next operation. */
  ghost predicate EndsAt(b: Body, log: seq<Visit>, p: Pass, world: World) {
    match p.result
    case Completed(output) => b == Return(output)
    case Failed(BodyThrew(message)) => b == Throw(message)
    case Failed(StepThrew) =>
      && b.Do? && b.op.LocalStep? && world(Taken(log)).None?
      && Taken(log) in p.journal && p.journal[Taken(log)] == Entry(b.op.name, Broken)
    case Failed(NoSuchWebhook) => b.Do? && b.op.WaitHook? && b.op.which >= |Minted(log)|
    case Failed(Nondeterminism) => true
    case Parked => b.Do? && WaitsAt(b.op, log, p, world)
  }

  ghost predicate PathOf(b: Body, before: seq<Visit>, p: Pass, world: World) {
    && Follows(b, p.log) && WellPlaced(before + p.log)
    && EndsAt(Reached(b, p.log), before + p.log, p, world)
  }

  lemma {:induction false} PassIsPath(b: Body, j: Journal, before: seq<Visit>, world: World)
    requires WellPlaced(before) && AllMarked(RunPass(b, j, PlaceOf(before), world).log)
    ensures PathOf(b, before, RunPass(b, j, PlaceOf(before), world), world)
    decreases b
  {
    var place := PlaceOf(before);
    var all := RunPass(b, j, place, world);
    if b.Do? && Perform(b.op, j, place, world).control.Resumed? {
      var p := Perform(b.op, j, place, world);
      var o := p.control.outcome;
      var head := Visit(b.op, PositionOf(b.op, place), o);
      var tail := RunPass(b.rest[o], p.journal, After(b.op, place, o), world);
      var more := before + [head];
      assert all.log == [head] + tail.log && all.log[1..] == tail.log;
      assert head in all.log && forall v | v in tail.log :: v in all.log;
      OneMorePlaced(before, head);
      PlaceMoves(before, head);
      hide Perform, RunPass, WellPlaced, EndsAt, PlaceOf;
      PassIsPath(b.rest[o], p.journal, more, world);
      ConsIsPath(b, before, head, tail, all, world);
    } else {
      assert before + all.log == before;
      hide RunPass;
      PassStops(b, j, before, world);
    }
  }

  lemma ConsIsPath(b: Body, before: seq<Visit>, head: Visit, tail: Pass, all: Pass, world: World)
    requires b.Do? && head.op == b.op && PathOf(b.rest[head.outcome], before + [head], tail, world)
    requires all.log == [head] + tail.log
    requires all.journal == tail.journal && all.result == tail.result && all.row == tail.row
    ensures PathOf(b, before, all, world)
  {
    hide WellPlaced;
    assert all.log[1..] == tail.log;
    assert before + all.log == (before + [head]) + tail.log;
  }

  lemma HookName(at: nat)
    ensures "signal:" + HookToken(at) == "signal:wh:" + Digits(at)
  {
  }

  lemma PlaceMoves(before: seq<Visit>, v: Visit)
    requires v.op.Patched? ==> v.outcome == Flag(true)
    ensures PlaceOf(before + [v]) == After(v.op, PlaceOf(before), v.outcome)
  {
    var more := before + [v];
    assert more[..|more| - 1] == before;
  }

  lemma PassStops(b: Body, j: Journal, before: seq<Visit>, world: World)
    requires !b.Do? || !Perform(b.op, j, PlaceOf(before), world).control.Resumed?
    ensures var all := RunPass(b, j, PlaceOf(before), world);
            all.log == [] && EndsAt(b, before, all, world)
  {
    hide Taken, Minted;
    var hooks := Minted(before);
    if b.Do? && b.op.WaitHook? && b.op.which < |hooks| {
      HookName(hooks[b.op.which]);
    }
  }

  /** The log of the last pass is a path of the body, each operation at its own place. */
  ghost predicate OnPath(b: Body, s: State) {
    Follows(b, s.log) && WellPlaced(s.log)
  }

  lemma DriveOnPath(b: Body, s: State, world: World)
    requires Inv(b, s) && Enabled(s, Drive(world))
    ensures PathOf(b, [], RunPass(b, s.journal, START, world), world)
    ensures OnPath(b, Next(b, s, Drive(world)))
  {
    hide RunPass, Fits, Walk, PathOf, AllMarked, WellPlaced, Follows;
    var p := RunPass(b, s.journal, START, world);
    PassIsMarked(b, s, world);
    assert PlaceOf([]) == START;
    NothingPlaced();
    PassIsPath(b, s.journal, [], world);
    PathIsOn(b, p, world);
  }

  lemma NothingPlaced()
    ensures WellPlaced([])
  {
  }

  lemma PathIsOn(b: Body, p: Pass, world: World)
    requires PathOf(b, [], p, world)
    ensures Follows(b, p.log) && WellPlaced(p.log)
  {
    assert [] + p.log == p.log;
  }

  lemma PassIsMarked(b: Body, s: State, world: World)
    requires Inv(b, s) && Enabled(s, Drive(world))
    ensures AllMarked(RunPass(b, s.journal, START, world).log)
  {
    hide RunPass, Fits, Walk;
    PassIsGood(b, s.journal, s.rows, START, world);
    var p := RunPass(b, s.journal, START, world);
    forall v | v in p.log && v.op.Patched? ensures v.outcome == Flag(true) {
      assert Matches(v, p.journal);
    }
  }

  lemma {:induction false} RunOnPath(b: Body, s: State, events: seq<Event>)
    requires Inv(b, s) && OnPath(b, s) && Runs(b, s, events)
    ensures OnPath(b, End(b, s, events))
    decreases |events|
  {
    if events != [] {
      StepKeepsInv(b, s, events[0]);
      if events[0].Drive? { DriveOnPath(b, s, events[0].world); }
      RunOnPath(b, Next(b, s, events[0]), events[1..]);
    }
  }

  /**
   * Over every run the last pass performed the body's own operations in order, each going on with the
   * outcome of the one before, and each at its own position: the number of operations before it, webhook
   * waits not counted, and for a webhook's wait the position of its webhook.
   */
  lemma LogIsPathOfBody(b: Body, events: seq<Event>)
    requires Runs(b, FRESH, events)
    ensures OnPath(b, End(b, FRESH, events))
  {
    FreshInv(b);
    RunOnPath(b, FRESH, events);
  }

  /**
   * Whenever a pass ends, it ends as the body does after its log: with its output, its error, or the
   * local step that threw in this pass; or it waits at the body's next operation, for something that was
   * not given yet, dispatched or registered under that operation's own name.
   */
  lemma PassEndsAsBody(b: Body, events: seq<Event>, world: World)
    requires Runs(b, FRESH, events) && Enabled(End(b, FRESH, events), Drive(world))
    ensures var s := End(b, FRESH, events);
            var p := RunPass(b, s.journal, START, world);
            Follows(b, p.log) && EndsAt(Reached(b, p.log), p.log, p, world)
  {
    FreshInv(b);
    RunKeepsInv(b, FRESH, events);
    var s := End(b, FRESH, events);
    DriveOnPath(b, s, world);
    var p := RunPass(b, s.journal, START, world);
    assert [] + p.log == p.log;
  }
}

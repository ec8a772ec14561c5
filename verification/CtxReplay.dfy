/**
 * Replay of an in-process body over any run of passes, completions and signal deliveries: every
 * operation keeps its position and outcome, the nondeterminism guard never trips on the body's own
 * history, and a failing pass undoes exactly the completed compensable steps of the whole run.
 * Models packages/adonis/src/workflow-ctx.ts and packages/adonis/src/engine.ts.
 */
module CtxReplay {
  import opened Common
  import opened WorkflowCtx

  // ------------------------------------------------------- what a journal has settled

  /** The outcome the journal alone fixes for an operation, if any. */
  function Recorded(op: Op, j: Journal, place: Place): Option<Outcome> {
    var at, name := PositionOf(op, place), RecordName(op, place);
    match op
    case Webhook => Some(Handle(at))
    case Patched(_) =>
      if at !in j then None
      else if j[at].name == name then Some(Flag(true))
      else if IsMarker(j[at].name) then None
      else Some(Flag(false))
    case WaitHook(k) =>
      if k < |place.hooks| && at in j && j[at].status.Done? then Some(j[at].status.outcome) else None
    case WaitSignal(_) => if at in j && j[at].status.Done? then Some(j[at].status.outcome) else None
    case Sleep => if at in j && j[at].status.Done? then Some(Ok(Undefined)) else None
    case SetEvent(_, _) => if at in j && j[at].name == name && j[at].status.Done? then Some(Ok(Undefined)) else None
    case _ => if at in j && j[at].name == name && j[at].status.Done? then Some(j[at].status.outcome) else None
  }

  lemma RecordedIsPerformed(op: Op, j: Journal, place: Place, world: World)
    requires Recorded(op, j, place).Some?
    ensures Perform(op, j, place, world) == Performed(j, Resumed(Recorded(op, j, place).value), None)
  {
  }

  lemma ResumedIsRecorded(op: Op, j: Journal, place: Place, world: World)
    requires Perform(op, j, place, world).control.Resumed?
    ensures Recorded(op, Perform(op, j, place, world).journal, place)
            == Some(Perform(op, j, place, world).control.outcome)
  {
  }

  /** Later journals keep every name and every settled outcome. */
  predicate Extends(j: Journal, j': Journal) {
    forall s | s in j :: s in j' && j'[s].name == j[s].name && (j[s].status.Done? ==> j'[s].status == j[s].status)
  }

  lemma RecordedGrows(op: Op, j: Journal, j': Journal, place: Place)
    requires Extends(j, j') && Recorded(op, j, place).Some?
    ensures Recorded(op, j', place) == Recorded(op, j, place)
  {
  }

  /** The settled prefix of the body, with the position of every operation in it. */
  ghost function Walk(b: Body, j: Journal, place: Place): seq<Visit>
    decreases b
  {
    if !b.Do? || Recorded(b.op, j, place).None? then []
    else
      var o := Recorded(b.op, j, place).value;
      [Visit(b.op, PositionOf(b.op, place), o)] + Walk(b.rest[o], j, After(b.op, place, o))
  }

  lemma {:induction false} WalkGrows(b: Body, j: Journal, j': Journal, place: Place)
    requires Extends(j, j')
    ensures Walk(b, j, place) <= Walk(b, j', place)
    decreases b
  {
    if b.Do? && Recorded(b.op, j, place).Some? {
      var o := Recorded(b.op, j, place).value;
      RecordedGrows(b.op, j, j', place);
      WalkGrows(b.rest[o], j, j', After(b.op, place, o));
    }
  }

  // ------------------------------------------------------------ a body's own journal

  /** The journal holds, at the visited position and under the right name, what the body was given. */
  predicate Matches(v: Visit, j: Journal) {
    match v.op
    case Webhook => v.outcome == Handle(v.at)
    case Step(name, _) => v.at in j && j[v.at] == Entry(name, Done(v.outcome))
    case LocalStep(name, _) => v.at in j && j[v.at] == Entry(name, Done(v.outcome))
    case Sleep => v.at in j && j[v.at].name == "sleep" && j[v.at].status.Done? && v.outcome == Ok(Undefined)
    case WaitSignal(token) => v.at in j && j[v.at] == Entry("signal:" + token, Done(v.outcome))
    case WaitHook(_) => v.at in j && j[v.at] == Entry("signal:" + HookToken(v.at), Done(v.outcome))
    case Patched(id) => v.at in j && j[v.at].name == "patch:" + id && v.outcome == Flag(true)
    case SetEvent(key, value) =>
      v.at in j && j[v.at] == Entry("event:" + key, Done(Ok(value))) && v.outcome == Ok(Undefined)
  }

  lemma MatchesStays(v: Visit, j: Journal, j': Journal)
    requires Matches(v, j) && Extends(j, j')
    ensures Matches(v, j')
  {
  }

  /** Webhooks were minted before here, and only their own callbacks are recorded at their positions. */
  predicate HooksOwn(j: Journal, place: Place) {
    forall i | 0 <= i < |place.hooks| ::
      && place.hooks[i] < place.next
      && (place.hooks[i] in j ==> j[place.hooks[i]].name == "signal:" + HookToken(place.hooks[i]))
  }

  predicate Settled(j: Journal, place: Place) {
    HooksOwn(j, place) && forall s | s in j :: s < place.next && j[s].status.Done?
  }

  /**
   * At the operation the body is stopped at, every earlier position is settled, at most this position
   * is dispatched, and the only waiter is the one this operation registers.
   */
  predicate Frontier(op: Op, j: Journal, rows: set<Row>, place: Place) {
    var at, name := PositionOf(op, place), RecordName(op, place);
    && HooksOwn(j, place)
    && (forall s | s in j ::
          || (s < place.next && j[s].status.Done?)
          || (s == place.next && (op.Step? || op.Sleep?) && j[s] == Entry(name, Waiting)))
    && (forall r | r in rows ::
          (op.WaitSignal? || (op.WaitHook? && op.which < |place.hooks|)) && r == Row(at, name))
  }

  /** The journal and waiters are what this body leaves behind when it stops where the journal stops. */
  ghost predicate Fits(b: Body, j: Journal, rows: set<Row>, place: Place)
    decreases b
  {
    if !b.Do? then Settled(j, place) && rows == {}
    else if Recorded(b.op, j, place).None? then Frontier(b.op, j, rows, place)
    else
      var o := Recorded(b.op, j, place).value;
      && Matches(Visit(b.op, PositionOf(b.op, place), o), j)
      && Fits(b.rest[o], j, rows, After(b.op, place, o))
  }

  lemma {:induction false} SettledFits(b: Body, j: Journal, place: Place)
    requires Settled(j, place)
    ensures Fits(b, j, {}, place)
    decreases b
  {
    if b.Do? && Recorded(b.op, j, place).Some? {
      var o := Recorded(b.op, j, place).value;
      SettledFits(b.rest[o], j, After(b.op, place, o));
    }
  }

  // ----------------------------------------------------------------------- one pass

  function RowSet(row: Option<Row>): set<Row> {
    if row.Some? then {row.value} else {}
  }

  /** What every pass guarantees over a journal the body fits. */
  ghost predicate GoodPass(b: Body, j: Journal, rows: set<Row>, place: Place, p: Pass) {
    && Extends(j, p.journal)
    && p.log == Walk(b, p.journal, place)
    && (forall v | v in p.log :: Matches(v, p.journal))
    && p.undos == UndosOf(p.log)
    && p.result != Failed(Nondeterminism)
    && (p.result.Parked? ==> Fits(b, p.journal, rows + RowSet(p.row), place))
  }

  /** The names of the completed compensable steps of a log, in completion order. */
  function UndosOf(log: seq<Visit>): seq<string> {
    if log == [] then [] else Undo(log[0].op, log[0].outcome) + UndosOf(log[1..])
  }

  lemma FrontierResumes(op: Op, j: Journal, rows: set<Row>, place: Place, world: World)
    requires Frontier(op, j, rows, place) && Recorded(op, j, place).None?
    requires forall r | r in rows :: world(r.at).None?
    requires Perform(op, j, place, world).control.Resumed?
    ensures var p := Perform(op, j, place, world);
            && rows == {} && Extends(j, p.journal)
            && Settled(p.journal, After(op, place, p.control.outcome))
            && Matches(Visit(op, PositionOf(op, place), p.control.outcome), p.journal)
  {
  }

  lemma FrontierStops(b: Body, rows: set<Row>, j: Journal, place: Place, world: World)
    requires b.Do? && Frontier(b.op, j, rows, place) && Recorded(b.op, j, place).None?
    requires !Perform(b.op, j, place, world).control.Resumed?
    ensures GoodPass(b, j, rows, place, RunPass(b, j, place, world))
  {
    var p := Perform(b.op, j, place, world);
    assert Recorded(b.op, p.journal, place).None?;
    assert Extends(j, p.journal);
    if p.control.Suspend? {
      assert Frontier(b.op, p.journal, rows + RowSet(p.row), place);
    }
  }

  lemma {:induction false} PassIsGood(b: Body, j: Journal, rows: set<Row>, place: Place, world: World)
    requires Fits(b, j, rows, place)
    requires forall r | r in rows :: world(r.at).None?
    ensures GoodPass(b, j, rows, place, RunPass(b, j, place, world))
    decreases b
  {
    if b.Do? {
      var p := Perform(b.op, j, place, world);
      if Recorded(b.op, j, place).Some? {
        RecordedIsPerformed(b.op, j, place, world);
      }
      if p.control.Resumed? {
        var o := p.control.outcome;
        var next := After(b.op, place, o);
        if Recorded(b.op, j, place).None? {
          FrontierResumes(b.op, j, rows, place, world);
          SettledFits(b.rest[o], p.journal, next);
        }
        PassIsGood(b.rest[o], p.journal, rows, next, world);
        ResumedIsRecorded(b.op, j, place, world);
        ConsIsGood(b, j, rows, place, world);
      } else {
        FrontierStops(b, rows, j, place, world);
      }
    }
  }

  lemma ConsIsGood(b: Body, j: Journal, rows: set<Row>, place: Place, world: World)
    requires b.Do? && Perform(b.op, j, place, world).control.Resumed?
    requires var p := Perform(b.op, j, place, world);
             var o := p.control.outcome;
             && Extends(j, p.journal) && Recorded(b.op, p.journal, place) == Some(o)
             && Matches(Visit(b.op, PositionOf(b.op, place), o), p.journal)
             && GoodPass(b.rest[o], p.journal, rows, After(b.op, place, o),
                         RunPass(b.rest[o], p.journal, After(b.op, place, o), world))
    ensures GoodPass(b, j, rows, place, RunPass(b, j, place, world))
  {
    var p := Perform(b.op, j, place, world);
    var o := p.control.outcome;
    var tail := RunPass(b.rest[o], p.journal, After(b.op, place, o), world);
    hide Perform, Recorded;
    RecordedGrows(b.op, p.journal, tail.journal, place);
    MatchesStays(Visit(b.op, PositionOf(b.op, place), o), p.journal, tail.journal);
    hide Matches;
    var all := RunPass(b, j, place, world);
    assert all.log[1..] == tail.log;
  }

  // ------------------------------------------------------------ what the world may do

  /** A dispatched step settles or a timer falls due at `at`. */
  lemma {:induction false} CompletionFits(b: Body, j: Journal, rows: set<Row>, place: Place, at: nat, o: Outcome)
    requires Fits(b, j, rows, place) && at in j && j[at].status.Waiting?
    ensures Fits(b, j[at := Entry(j[at].name, Done(o))], rows, place)
    decreases b
  {
    var j' := j[at := Entry(j[at].name, Done(o))];
    if b.Do? {
      if Recorded(b.op, j, place).Some? {
        var r := Recorded(b.op, j, place).value;
        RecordedGrows(b.op, j, j', place);
        CompletionFits(b.rest[r], j, rows, After(b.op, place, r), at, o);
      } else {
        var r := Recorded(b.op, j', place).value;
        assert rows == {};
        SettledFits(b.rest[r], j', After(b.op, place, r));
      }
    }
  }

  /** A signal is delivered to a registered waiter. */
  lemma {:induction false} DeliveryFits(b: Body, j: Journal, rows: set<Row>, place: Place, row: Row, v: Value)
    requires Fits(b, j, rows, place) && row in rows
    ensures row.at !in j
    ensures Fits(b, j[row.at := Entry(row.name, Done(Ok(v)))], rows - {row}, place)
    decreases b
  {
    var j' := j[row.at := Entry(row.name, Done(Ok(v)))];
    if b.Do? {
      if Recorded(b.op, j, place).Some? {
        var r := Recorded(b.op, j, place).value;
        DeliveryFits(b.rest[r], j, rows, After(b.op, place, r), row, v);
        RecordedGrows(b.op, j, j', place);
      } else {
        var r := Recorded(b.op, j', place).value;
        assert rows - {row} == {};
        SettledFits(b.rest[r], j', After(b.op, place, r));
      }
    }
  }

  // -------------------------------------------------------------------------- runs

  /** `log` and `undos` are those of the last pass; `result` is set once the run is over. */
  datatype State = State(journal: Journal, rows: set<Row>, log: seq<Visit>, undos: seq<string>, result: Option<Result>)

  const FRESH := State(map[], {}, [], [], None)

  datatype Event = Drive(world: World) | Complete(at: nat, outcome: Outcome) | Deliver(row: Row, value: Value)

  /** A pass finds nothing buffered for a waiter that is still registered; see `SignalRendezvous`. */
  predicate Enabled(s: State, e: Event) {
    && s.result.None?
    && match e
       case Drive(world) => forall r | r in s.rows :: world(r.at).None?
       case Complete(at, o) => at in s.journal && s.journal[at].status.Waiting? && (o.Ok? || o.Threw?)
       case Deliver(row, _) => row in s.rows
  }

  ghost function Next(b: Body, s: State, e: Event): State
    requires Enabled(s, e)
  {
    match e
    case Drive(world) =>
      var p := RunPass(b, s.journal, START, world);
      State(p.journal, s.rows + RowSet(p.row), p.log, p.undos, if p.result.Parked? then None else Some(p.result))
    case Complete(at, o) => s.(journal := s.journal[at := Entry(s.journal[at].name, Done(o))])
    case Deliver(row, v) =>
      s.(journal := s.journal[row.at := Entry(row.name, Done(Ok(v)))], rows := s.rows - {row})
  }

  ghost predicate Runs(b: Body, s: State, events: seq<Event>)
    decreases |events|
  {
    events != [] ==> Enabled(s, events[0]) && Runs(b, Next(b, s, events[0]), events[1..])
  }

  ghost function End(b: Body, s: State, events: seq<Event>): State
    requires Runs(b, s, events)
    decreases |events|
  {
    if events == [] then s else End(b, Next(b, s, events[0]), events[1..])
  }

  ghost predicate Inv(b: Body, s: State) {
    && (s.result.None? ==> Fits(b, s.journal, s.rows, START))
    && s.log <= Walk(b, s.journal, START)
    && (forall v | v in s.log :: Matches(v, s.journal))
    && s.undos == UndosOf(s.log)
    && s.result != Some(Failed(Nondeterminism))
  }

  lemma StepKeepsInv(b: Body, s: State, e: Event)
    requires Inv(b, s) && Enabled(s, e)
    ensures Inv(b, Next(b, s, e)) && Extends(s.journal, Next(b, s, e).journal)
    ensures s.log <= Next(b, s, e).log
  {
    var s' := Next(b, s, e);
    hide Fits, Perform, Recorded;
    match e {
      case Drive(world) => PassIsGood(b, s.journal, s.rows, START, world);
      case Complete(at, o) => CompletionFits(b, s.journal, s.rows, START, at, o);
      case Deliver(row, v) => DeliveryFits(b, s.journal, s.rows, START, row, v);
    }
    WalkGrows(b, s.journal, s'.journal, START);
    forall v | v in s.log ensures Matches(v, s'.journal) {
      MatchesStays(v, s.journal, s'.journal);
    }
    hide Walk, RunPass, Matches;
  }

  lemma {:induction false} RunKeepsInv(b: Body, s: State, events: seq<Event>)
    requires Inv(b, s) && Runs(b, s, events)
    ensures Inv(b, End(b, s, events)) && s.log <= End(b, s, events).log
    decreases |events|
  {
    hide Inv, Next, Enabled;
    if events != [] {
      StepKeepsInv(b, s, events[0]);
      RunKeepsInv(b, Next(b, s, events[0]), events[1..]);
    }
  }

  lemma FreshInv(b: Body)
    ensures Inv(b, FRESH)
  {
    SettledFits(b, map[], START);
  }

  /**
   * Whatever happens between two passes, the later one gives the body the same operations at the same
   * positions with the same outcomes and then continues; `patched` and `webhook` included.
   */
  lemma ReplayStable(b: Body, before: seq<Event>, after: seq<Event>)
    requires Runs(b, FRESH, before) && Runs(b, End(b, FRESH, before), after)
    ensures End(b, FRESH, before).log <= End(b, End(b, FRESH, before), after).log
  {
    FreshInv(b);
    RunKeepsInv(b, FRESH, before);
    RunKeepsInv(b, End(b, FRESH, before), after);
  }

  /**
   * A run of one body never trips the nondeterminism guard, and at any time everything its last pass was
   * given stands in the journal under the operation's own name: payloads, outputs, published values, and
   * a marker for every `patched`, which therefore always answers true.
   */
  lemma OwnHistoryReplays(b: Body, events: seq<Event>, i: nat)
    requires Runs(b, FRESH, events)
    ensures End(b, FRESH, events).result != Some(Failed(Nondeterminism))
    ensures i < |End(b, FRESH, events).log| ==> Matches(End(b, FRESH, events).log[i], End(b, FRESH, events).journal)
  {
    FreshInv(b);
    RunKeepsInv(b, FRESH, events);
  }

  // ------------------------------------------- every settled entry is seen by a pass

  /** Some visit other than a mint reads position `s`. */
  ghost predicate Visited(log: seq<Visit>, s: nat) {
    exists v | v in log :: v.at == s && !v.op.Webhook?
  }

  ghost predicate AllVisited(j: Journal, log: seq<Visit>) {
    forall s | s in j && j[s].status.Done? :: Visited(log, s)
  }

  lemma VisitedGrows(a: seq<Visit>, b: seq<Visit>, s: nat)
    requires a <= b && Visited(a, s)
    ensures Visited(b, s)
  {
    var v :| v in a && v.at == s && !v.op.Webhook?;
    assert v in b;
  }

  lemma VisitedTail(b: Body, j: Journal, place: Place, s: nat)
    requires b.Do? && Recorded(b.op, j, place).Some?
    requires var o := Recorded(b.op, j, place).value;
             || (PositionOf(b.op, place) == s && !b.op.Webhook?)
             || Visited(Walk(b.rest[o], j, After(b.op, place, o)), s)
    ensures Visited(Walk(b, j, place), s)
  {
    var o := Recorded(b.op, j, place).value;
    var tail := Walk(b.rest[o], j, After(b.op, place, o));
    var head := Visit(b.op, PositionOf(b.op, place), o);
    assert Walk(b, j, place) == [head] + tail;
    if Visited(tail, s) {
      var v :| v in tail && v.at == s && !v.op.Webhook?;
      assert v in Walk(b, j, place);
    } else {
      assert head in Walk(b, j, place);
    }
  }

  /** What the world settles is the operation the body is stopped at. */
  lemma {:induction false} SettledIsVisited(b: Body, j: Journal, rows: set<Row>, place: Place, at: nat, e: Entry)
    requires Fits(b, j, rows, place) && e.status.Done?
    requires (at in j && j[at].status.Waiting? && e.name == j[at].name) || (Row(at, e.name) in rows && at !in j)
    ensures Visited(Walk(b, j[at := e], place), at)
    decreases b
  {
    var j' := j[at := e];
    if b.Do? {
      if Recorded(b.op, j, place).Some? {
        var o := Recorded(b.op, j, place).value;
        RecordedGrows(b.op, j, j', place);
        SettledIsVisited(b.rest[o], j, rows, After(b.op, place, o), at, e);
      }
      VisitedTail(b, j', place, at);
    }
  }

  /** What a pass settles it has visited. */
  lemma {:induction false} WrittenIsVisited(b: Body, j: Journal, place: Place, world: World, s: nat)
    requires var p := RunPass(b, j, place, world); s in p.journal && p.journal[s].status.Done?
    requires !(s in j && j[s].status.Done?)
    ensures Visited(RunPass(b, j, place, world).log, s)
    decreases b
  {
    var p := Perform(b.op, j, place, world);
    var o := p.control.outcome;
    var head := Visit(b.op, PositionOf(b.op, place), o);
    var all := RunPass(b, j, place, world);
    assert head in all.log;
    if !(s in p.journal && p.journal[s].status.Done?) {
      var next := After(b.op, place, o);
      WrittenIsVisited(b.rest[o], p.journal, next, world, s);
      var tail := RunPass(b.rest[o], p.journal, next, world).log;
      var v :| v in tail && v.at == s && !v.op.Webhook?;
      assert all.log == [head] + tail && v in all.log;
    }
  }

  /** Every settled entry is visited by the walk, and a finished run's last pass took the whole walk. */
  ghost predicate Seen(b: Body, s: State) {
    && AllVisited(s.journal, Walk(b, s.journal, START))
    && (s.result.Some? ==> s.log == Walk(b, s.journal, START))
  }

  lemma StepKeepsSeen(b: Body, s: State, e: Event)
    requires Inv(b, s) && Seen(b, s) && Enabled(s, e)
    ensures Seen(b, Next(b, s, e))
  {
    var s' := Next(b, s, e);
    StepKeepsInv(b, s, e);
    WalkGrows(b, s.journal, s'.journal, START);
    var old_, walk := Walk(b, s.journal, START), Walk(b, s'.journal, START);
    match e {
      case Drive(world) => PassIsGood(b, s.journal, s.rows, START, world);
      case Complete(at, o) =>
        SettledIsVisited(b, s.journal, s.rows, START, at, Entry(s.journal[at].name, Done(o)));
      case Deliver(row, v) =>
        DeliveryFits(b, s.journal, s.rows, START, row, v);
        SettledIsVisited(b, s.journal, s.rows, START, row.at, Entry(row.name, Done(Ok(v))));
    }
    hide Walk, Fits, Inv, Visited, Recorded, Perform;
    forall x | x in s'.journal && s'.journal[x].status.Done?
      ensures Visited(walk, x)
    {
      if x in s.journal && s.journal[x].status.Done? {
        VisitedGrows(old_, walk, x);
      } else if e.Drive? {
        WrittenIsVisited(b, s.journal, START, e.world, x);
      }
    }
  }

  lemma {:induction false} RunKeepsSeen(b: Body, s: State, events: seq<Event>)
    requires Inv(b, s) && Seen(b, s) && Runs(b, s, events)
    ensures Seen(b, End(b, s, events))
    decreases |events|
  {
    hide Inv, Seen, Next, Enabled;
    if events != [] {
      StepKeepsInv(b, s, events[0]);
      StepKeepsSeen(b, s, events[0]);
      RunKeepsSeen(b, Next(b, s, events[0]), events[1..]);
    }
  }

  /** When a run of one body is over, its last pass has read every settled entry of the journal. */
  lemma FinishedRunSawAll(b: Body, events: seq<Event>)
    requires Runs(b, FRESH, events) && End(b, FRESH, events).result.Some?
    ensures AllVisited(End(b, FRESH, events).journal, End(b, FRESH, events).log)
  {
    FreshInv(b);
    RunKeepsSeen(b, FRESH, events);
  }
}

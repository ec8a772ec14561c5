/**
 * The in-process workflow context: every primitive takes a logical position, reads the checkpoint
 * recorded there, and either returns it, does its work and records it, or suspends the run. A pass
 * replays the body from its start.
 * Models packages/adonis/src/workflow-ctx.ts and the body turn of `runExecution` in
 * packages/adonis/src/engine.ts.
 */
module WorkflowCtx {
  import opened Common

  // ---------------------------------------------------------------------- journal

  /** What the body sees of an operation. A failed step is delivered as `Threw`. */
  datatype Outcome = Ok(value: Value) | Threw(message: string) | Flag(answer: bool) | Handle(token: nat)

  /** `Waiting` is a dispatched step or a timer not yet due; `Broken` a local step that threw. */
  datatype Status = Done(outcome: Outcome) | Waiting | Broken

  datatype Entry = Entry(name: string, status: Status)

  type Journal = map<nat, Entry>

  // ------------------------------------------------------------------------- body

  datatype Op =
    | Step(name: string, undo: bool)
    | LocalStep(name: string, undo: bool)
    | Sleep
    | WaitSignal(token: string)
    | Webhook
    | WaitHook(which: nat)
    | Patched(id: string)
    | SetEvent(key: string, value: Value)

  /** A deterministic body: its future depends on the outcomes it has seen alone, and every path ends. */
  datatype RawBody =
    | Return(output: Value)
    | Throw(message: string)
    | Do(op: Op, rest: imap<Outcome, RawBody>)

  ghost predicate Total(b: RawBody)
    decreases b
  {
    b.Do? ==> forall o: Outcome :: o in b.rest && Total(b.rest[o])
  }

  type Body = b: RawBody | Total(b) witness Return(Undefined)

  /** The next position, and the positions of the webhooks minted so far. */
  datatype Place = Place(next: nat, hooks: seq<nat>)

  const START := Place(0, [])

  const SLEEP := "sleep"
  const MARKER := "patch:"

  function HookToken(at: nat): string {
    "wh:" + Digits(at)
  }

  /** The name an operation records at its position, or expects there. */
  function RecordName(op: Op, place: Place): string {
    match op
    case Step(name, _) => name
    case LocalStep(name, _) => name
    case Sleep => SLEEP
    case WaitSignal(token) => "signal:" + token
    case Webhook => ""
    case WaitHook(k) => if k < |place.hooks| then "signal:" + HookToken(place.hooks[k]) else ""
    case Patched(id) => MARKER + id
    case SetEvent(key, _) => "event:" + key
  }

  /** The position whose checkpoint an operation reads. */
  function PositionOf(op: Op, place: Place): nat {
    if op.WaitHook? && op.which < |place.hooks| then place.hooks[op.which] else place.next
  }

  predicate IsMarker(name: string) {
    MARKER <= name
  }

  /** Where the body is after an outcome: an unmet guard and a webhook's wait take no position. */
  function After(op: Op, place: Place, outcome: Outcome): Place {
    match op
    case Webhook => Place(place.next + 1, place.hooks + [place.next])
    case WaitHook(_) => place
    case Patched(_) => if outcome == Flag(false) then place else place.(next := place.next + 1)
    case _ => place.(next := place.next + 1)
  }

  // ------------------------------------------------------------- one operation

  datatype Failure = Nondeterminism | StepThrew | NoSuchWebhook | BodyThrew(message: string)

  datatype Control = Resumed(outcome: Outcome) | Suspend | Raise(failure: Failure)

  datatype Row = Row(at: nat, name: string)

  /** `row` is the waiter registered by an operation that suspends on a signal. */
  datatype Performed = Performed(journal: Journal, control: Control, row: Option<Row>)

  /** What this pass produces at a position: a local body's value, or a signal found buffered. */
  type World = nat -> Option<Value>

  /** The specification of one operation against the journal. */
  function Perform(op: Op, j: Journal, place: Place, world: World): Performed {
    var at, name := PositionOf(op, place), RecordName(op, place);
    match op
    case Step(_, _) =>
      if at !in j then Performed(j[at := Entry(name, Waiting)], Suspend, None)
      else if j[at].name != name then Performed(j, Raise(Nondeterminism), None)
      else if j[at].status.Done? then Performed(j, Resumed(j[at].status.outcome), None)
      else Performed(j, Suspend, None)
    case LocalStep(_, _) =>
      if at in j && j[at].name != name then Performed(j, Raise(Nondeterminism), None)
      else if at in j && j[at].status.Done? then Performed(j, Resumed(j[at].status.outcome), None)
      else if world(at).Some?
      then Performed(j[at := Entry(name, Done(Ok(world(at).value)))], Resumed(Ok(world(at).value)), None)
      else Performed(j[at := Entry(name, Broken)], Raise(StepThrew), None)
    case Sleep =>
      if at !in j then Performed(j[at := Entry(name, Waiting)], Suspend, None)
      else if j[at].status.Done? then Performed(j, Resumed(Ok(Undefined)), None)
      else Performed(j, Suspend, None)
    case WaitSignal(_) =>
      if at in j && j[at].status.Done? then Performed(j, Resumed(j[at].status.outcome), None)
      else if world(at).Some?
      then Performed(j[at := Entry(name, Done(Ok(world(at).value)))], Resumed(Ok(world(at).value)), None)
      else Performed(j, Suspend, Some(Row(at, name)))
    case Webhook => Performed(j, Resumed(Handle(at)), None)
    case WaitHook(k) =>
      if k >= |place.hooks| then Performed(j, Raise(NoSuchWebhook), None)
      else if at in j && j[at].status.Done? then Performed(j, Resumed(j[at].status.outcome), None)
      else Performed(j, Suspend, Some(Row(at, name)))
    case Patched(_) =>
      if at !in j then Performed(j[at := Entry(name, Done(Ok(Json("true"))))], Resumed(Flag(true)), None)
      else if j[at].name == name then Performed(j, Resumed(Flag(true)), None)
      else if IsMarker(j[at].name) then Performed(j, Raise(Nondeterminism), None)
      else Performed(j, Resumed(Flag(false)), None)
    case SetEvent(_, v) =>
      if at in j && j[at].name != name then Performed(j, Raise(Nondeterminism), None)
      else if at in j && j[at].status.Done? then Performed(j, Resumed(Ok(Undefined)), None)
      else Performed(j[at := Entry(name, Done(Ok(v)))], Resumed(Ok(Undefined)), None)
  }

  /** The saga entry a completed operation registers. */
  function Undo(op: Op, outcome: Outcome): seq<string> {
    if (op.Step? || op.LocalStep?) && op.undo && outcome.Ok? then [op.name] else []
  }

  // ---------------------------------------------------------------------- one pass

  datatype Visit = Visit(op: Op, at: nat, outcome: Outcome)

  datatype Result = Completed(output: Value) | Failed(failure: Failure) | Parked

  /** `log` is what the body was given, operation by operation, and `undos` its compensations. */
  datatype Pass = Pass(journal: Journal, log: seq<Visit>, undos: seq<string>, result: Result, row: Option<Row>)

  ghost function RunPass(b: Body, j: Journal, place: Place, world: World): Pass
    decreases b
  {
    match b
    case Return(output) => Pass(j, [], [], Completed(output), None)
    case Throw(message) => Pass(j, [], [], Failed(BodyThrew(message)), None)
    case Do(op, rest) =>
      var p := Perform(op, j, place, world);
      match p.control
      case Suspend => Pass(p.journal, [], [], Parked, p.row)
      case Raise(failure) => Pass(p.journal, [], [], Failed(failure), None)
      case Resumed(o) =>
        var tail := RunPass(rest[o], p.journal, After(op, place, o), world);
        tail.(log := [Visit(op, PositionOf(op, place), o)] + tail.log, undos := Undo(op, o) + tail.undos)
  }

  // ------------------------------------------------------------- the context object

  class Context {
    var next: nat
    var hooks: seq<nat>
    var compensations: seq<string>
    var store: Journal
    var replay: Journal
    var waiters: set<Row>

    /** The per-pass snapshot never disagrees with the store. */
    predicate Valid()
      reads this
    {
      forall s | s in replay :: s in store && store[s] == replay[s]
    }

    function Here(): Place
      reads this
    {
      Place(next, hooks)
    }

    constructor (store: Journal)
      ensures Valid() && Here() == START && compensations == [] && this.store == store && waiters == {}
    {
      next, hooks, compensations, waiters := 0, [], [], {};
      this.store, replay := store, store;
    }

    /** The snapshot is a memo: a read through it is a read of the store. */
    method ReadCheckpoint(at: nat) returns (found: Option<Entry>)
      requires Valid()
      ensures found == if at in store then Some(store[at]) else None
    {
      if at in replay { return Some(replay[at]); }
      found := if at in store then Some(store[at]) else None;
    }

    method WriteCheckpoint(at: nat, entry: Entry)
      requires Valid()
      modifies this`store, this`replay
      ensures Valid() && store == old(store)[at := entry]
    {
      store := store[at := entry];
      replay := replay[at := entry];
    }

    /** What every primitive promises: the journal, control and row of `Perform`, and the place after. */
    twostate predicate Did(op: Op, world: World, control: Control)
      reads this
    {
      var p := Perform(op, old(store), old(Here()), world);
      && Valid() && store == p.journal && control == p.control
      && waiters == old(waiters) + (if p.row.Some? then {p.row.value} else {})
      && (control.Resumed? ==>
            && Here() == After(op, old(Here()), control.outcome)
            && compensations == old(compensations) + Undo(op, control.outcome))
    }

    method CallRemote(name: string, undo: bool, ghost world: World) returns (control: Control)
      requires Valid()
      modifies this
      ensures Did(Step(name, undo), world, control)
    {
      var current := next;
      next := next + 1;
      var existing := ReadCheckpoint(current);
      if existing.None? {
        WriteCheckpoint(current, Entry(name, Waiting));
        return Suspend;
      }
      if existing.value.name != name { return Raise(Nondeterminism); }
      if !existing.value.status.Done? { return Suspend; }
      var outcome := existing.value.status.outcome;
      if undo && outcome.Ok? { compensations := compensations + [name]; }
      control := Resumed(outcome);
    }

    /** `produced` is what the body of the step returns if it is run now. */
    method RunLocalStep(name: string, undo: bool, world: World) returns (control: Control)
      requires Valid()
      modifies this
      ensures Did(LocalStep(name, undo), world, control)
    {
      var current := next;
      next := next + 1;
      var existing := ReadCheckpoint(current);
      if existing.Some? && existing.value.name != name { return Raise(Nondeterminism); }
      if existing.Some? && existing.value.status.Done? {
        var outcome := existing.value.status.outcome;
        if undo && outcome.Ok? { compensations := compensations + [name]; }
        return Resumed(outcome);
      }
      var produced := world(current);
      if produced.None? {
        WriteCheckpoint(current, Entry(name, Broken));
        return Raise(StepThrew);
      }
      WriteCheckpoint(current, Entry(name, Done(Ok(produced.value))));
      if undo { compensations := compensations + [name]; }
      control := Resumed(Ok(produced.value));
    }

    method SuspendUntil(ghost world: World) returns (control: Control)
      requires Valid()
      modifies this
      ensures Did(Sleep, world, control)
    {
      var current := next;
      next := next + 1;
      var existing := ReadCheckpoint(current);
      if existing.Some? {
        return if existing.value.status.Done? then Resumed(Ok(Undefined)) else Suspend;
      }
      WriteCheckpoint(current, Entry(SLEEP, Waiting));
      control := Suspend;
    }

    method WaitForSignal(token: string, world: World) returns (control: Control)
      requires Valid()
      modifies this
      ensures Did(WaitSignal(token), world, control)
    {
      var current := next;
      next := next + 1;
      var existing := ReadCheckpoint(current);
      if existing.Some? && existing.value.status.Done? { return Resumed(existing.value.status.outcome); }
      var buffered := world(current);
      if buffered.Some? {
        WriteCheckpoint(current, Entry("signal:" + token, Done(Ok(buffered.value))));
        return Resumed(Ok(buffered.value));
      }
      waiters := waiters + {Row(current, "signal:" + token)};
      control := Suspend;
    }

    method MintWebhook(ghost world: World) returns (control: Control)
      requires Valid()
      modifies this
      ensures Did(Webhook, world, control)
    {
      var current := next;
      next := next + 1;
      hooks := hooks + [current];
      control := Resumed(Handle(current));
    }

    method WaitForWebhook(which: nat, ghost world: World) returns (control: Control)
      requires Valid()
      modifies this
      ensures Did(WaitHook(which), world, control)
    {
      if which >= |hooks| { return Raise(NoSuchWebhook); }
      var current := hooks[which];
      var existing := ReadCheckpoint(current);
      if existing.Some? && existing.value.status.Done? { return Resumed(existing.value.status.outcome); }
      waiters := waiters + {Row(current, "signal:" + HookToken(current))};
      control := Suspend;
    }

    method IsPatched(id: string, ghost world: World) returns (control: Control)
      requires Valid()
      modifies this
      ensures Did(Patched(id), world, control)
    {
      var marker := MARKER + id;
      var current := next;
      next := next + 1;
      var existing := ReadCheckpoint(current);
      if existing.Some? {
        if existing.value.name == marker { return Resumed(Flag(true)); }
        if IsMarker(existing.value.name) { return Raise(Nondeterminism); }
        next := next - 1;
        return Resumed(Flag(false));
      }
      WriteCheckpoint(current, Entry(marker, Done(Ok(Json("true")))));
      control := Resumed(Flag(true));
    }

    method PublishEvent(key: string, value: Value, ghost world: World) returns (control: Control)
      requires Valid()
      modifies this
      ensures Did(SetEvent(key, value), world, control)
    {
      var current := next;
      next := next + 1;
      var name := "event:" + key;
      var existing := ReadCheckpoint(current);
      if existing.Some? && existing.value.name != name { return Raise(Nondeterminism); }
      if existing.Some? && existing.value.status.Done? { return Resumed(Ok(Undefined)); }
      WriteCheckpoint(current, Entry(name, Done(Ok(value))));
      control := Resumed(Ok(Undefined));
    }

    method DoOp(op: Op, world: World) returns (control: Control)
      requires Valid()
      modifies this
      ensures Did(op, world, control)
    {
      match op
      case Step(name, undo) => control := CallRemote(name, undo, world);
      case LocalStep(name, undo) => control := RunLocalStep(name, undo, world);
      case Sleep => control := SuspendUntil(world);
      case WaitSignal(token) => control := WaitForSignal(token, world);
      case Webhook => control := MintWebhook(world);
      case WaitHook(which) => control := WaitForWebhook(which, world);
      case Patched(id) => control := IsPatched(id, world);
      case SetEvent(key, value) => control := PublishEvent(key, value, world);
    }
  }
}

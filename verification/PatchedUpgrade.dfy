/**
 * Changing a workflow's code under a running history with `patched`: replayed over a history recorded
 * without markers, new code does what the old code did exactly when every guard it meets lands on a
 * recorded operation.
 * Models `patched` in packages/adonis/src/workflow-ctx.ts.
 */
module PatchedUpgrade {
  import opened Common
  import opened WorkflowCtx
  import opened CtxReplay

  /** The old code: every guard removed, its false branch taken. */
  ghost function Erase(b: Body): Body
    decreases b
  {
    match b
    case Return(_) => b
    case Throw(_) => b
    case Do(Patched(_), rest) => Erase(rest[Flag(false)])
    case Do(op, rest) => Do(op, imap o: Outcome :: Erase(rest[o]))
  }

  /** The visits of a log other than guards. */
  function Unguarded(log: seq<Visit>): seq<Visit> {
    if log == [] then []
    else (if log[0].op.Patched? then [] else [log[0]]) + Unguarded(log[1..])
  }

  predicate NoMarkers(j: Journal) {
    forall s | s in j :: !IsMarker(j[s].name)
  }

  /** No operation of the body but a guard records a name that reads as a marker. */
  ghost predicate PlainNames(b: Body)
    decreases b
  {
    b.Do? ==>
      && (b.op.Step? || b.op.LocalStep? ==> !IsMarker(b.op.name))
      && forall o: Outcome :: PlainNames(b.rest[o])
  }

  /** Every guard this pass meets finds an operation recorded at its position. */
  ghost predicate GuardsBacked(b: Body, j: Journal, place: Place, world: World)
    decreases b
  {
    if !b.Do? then true
    else
      var p := Perform(b.op, j, place, world);
      && (b.op.Patched? ==> place.next in j)
      && (p.control.Resumed? ==>
            GuardsBacked(b.rest[p.control.outcome], p.journal, After(b.op, place, p.control.outcome), world))
  }

  /** The two passes leave the same journal, waiter, compensations and result, and did the same work. */
  ghost predicate SameWork(new_: Pass, old_: Pass) {
    && new_.journal == old_.journal && new_.row == old_.row
    && new_.undos == old_.undos && new_.result == old_.result
    && Unguarded(new_.log) == old_.log
  }

  lemma PlainRecord(op: Op, place: Place)
    requires !op.Patched? && (op.Step? || op.LocalStep? ==> !IsMarker(op.name))
    ensures !IsMarker(RecordName(op, place))
  {
    var name := RecordName(op, place);
    assert op.Step? || op.LocalStep? || name == "" || name[0] == 's' || name[0] == 'e';
  }

  lemma PerformKeepsPlain(op: Op, j: Journal, place: Place, world: World)
    requires NoMarkers(j) && !op.Patched? && (op.Step? || op.LocalStep? ==> !IsMarker(op.name))
    ensures NoMarkers(Perform(op, j, place, world).journal)
  {
    PlainRecord(op, place);
    hide IsMarker, RecordName;
  }

  lemma ConsSame(op: Op, at: nat, o: Outcome, n: Pass, m: Pass)
    requires SameWork(n, m) && !op.Patched?
    ensures SameWork(n.(log := [Visit(op, at, o)] + n.log, undos := Undo(op, o) + n.undos),
                     m.(log := [Visit(op, at, o)] + m.log, undos := Undo(op, o) + m.undos))
  {
    assert ([Visit(op, at, o)] + n.log)[1..] == n.log;
  }

  /** Over a history without markers whose entries back every guard, the new code does the old work. */
  lemma {:induction false} BackedDoesOldWork(b: Body, j: Journal, place: Place, world: World)
    requires PlainNames(b) && NoMarkers(j) && GuardsBacked(b, j, place, world)
    ensures SameWork(RunPass(b, j, place, world), RunPass(Erase(b), j, place, world))
    ensures NoMarkers(RunPass(b, j, place, world).journal)
    decreases b
  {
    if b.Do? {
      var p := Perform(b.op, j, place, world);
      if b.op.Patched? {
        assert !IsMarker(j[place.next].name) && IsMarker(RecordName(b.op, place));
        BackedDoesOldWork(b.rest[Flag(false)], j, place, world);
        GuardAddsNothing(b, j, place, world);
      } else {
        PerformKeepsPlain(b.op, j, place, world);
        hide Perform, IsMarker;
        if p.control.Resumed? {
          var o, next := p.control.outcome, After(b.op, place, p.control.outcome);
          BackedDoesOldWork(b.rest[o], p.journal, next, world);
          ConsSame(b.op, PositionOf(b.op, place), o, RunPass(b.rest[o], p.journal, next, world),
                   RunPass(Erase(b.rest[o]), p.journal, next, world));
        }
      }
    }
  }

  lemma GuardAddsNothing(b: Body, j: Journal, place: Place, world: World)
    requires b.Do? && b.op.Patched? && Perform(b.op, j, place, world) == Performed(j, Resumed(Flag(false)), None)
    ensures var all, tail := RunPass(b, j, place, world), RunPass(b.rest[Flag(false)], j, place, world);
            && all.journal == tail.journal && all.row == tail.row && all.undos == tail.undos
            && all.result == tail.result && Unguarded(all.log) == Unguarded(tail.log)
  {
    hide Perform;
    var all, tail := RunPass(b, j, place, world), RunPass(b.rest[Flag(false)], j, place, world);
    assert all.log[1..] == tail.log;
  }

  /** A guard that finds nothing leaves a marker that stays. */
  lemma {:induction false} UnbackedLeavesMarker(b: Body, j: Journal, place: Place, world: World) returns (s: nat)
    requires PlainNames(b) && NoMarkers(j) && !GuardsBacked(b, j, place, world)
    ensures s in RunPass(b, j, place, world).journal && IsMarker(RunPass(b, j, place, world).journal[s].name)
    decreases b
  {
    var p := Perform(b.op, j, place, world);
    if b.op.Patched? && place.next !in j {
      s := place.next;
      var next := After(b.op, place, Flag(true));
      DoneStays(b.rest[Flag(true)], p.journal, next, world, s);
    } else {
      if !b.op.Patched? { PerformKeepsPlain(b.op, j, place, world); }
      s := UnbackedLeavesMarker(b.rest[p.control.outcome], p.journal, After(b.op, place, p.control.outcome), world);
    }
  }

  /** A settled entry stays as it is through any pass. */
  lemma {:induction false} DoneStays(b: Body, j: Journal, place: Place, world: World, s: nat)
    requires s in j && j[s].status.Done?
    ensures var j' := RunPass(b, j, place, world).journal; s in j' && j'[s] == j[s]
    decreases b
  {
    if b.Do? {
      var p := Perform(b.op, j, place, world);
      DonePerformStays(b.op, j, place, world, s);
      hide Perform, IsMarker;
      if p.control.Resumed? {
        DoneStays(b.rest[p.control.outcome], p.journal, After(b.op, place, p.control.outcome), world, s);
      }
    }
  }

  lemma DonePerformStays(op: Op, j: Journal, place: Place, world: World, s: nat)
    requires s in j && j[s].status.Done?
    ensures s in Perform(op, j, place, world).journal && Perform(op, j, place, world).journal[s] == j[s]
  {
  }

  lemma {:induction false} EraseIsPlain(b: Body)
    requires PlainNames(b)
    ensures PlainNames(Erase(b)) && Guardless(Erase(b))
    decreases b
  {
    if b.Do? {
      if b.op.Patched? {
        EraseIsPlain(b.rest[Flag(false)]);
      } else {
        forall o: Outcome ensures PlainNames(Erase(b.rest[o])) && Guardless(Erase(b.rest[o])) {
          EraseIsPlain(b.rest[o]);
        }
      }
    }
  }

  ghost predicate Guardless(b: Body)
    decreases b
  {
    b.Do? ==> !b.op.Patched? && forall o: Outcome :: Guardless(b.rest[o])
  }

  lemma {:induction false} GuardlessLeavesNoMarker(b: Body, j: Journal, place: Place, world: World)
    requires PlainNames(b) && Guardless(b) && NoMarkers(j)
    ensures NoMarkers(RunPass(b, j, place, world).journal)
    decreases b
  {
    if b.Do? {
      var p := Perform(b.op, j, place, world);
      PerformKeepsPlain(b.op, j, place, world);
      hide Perform, NoMarkers;
      if p.control.Resumed? {
        GuardlessLeavesNoMarker(b.rest[p.control.outcome], p.journal, After(b.op, place, p.control.outcome), world);
      }
    }
  }

  /** Along what the old code was given, every guard of the new code sits on a position of `j`. */
  ghost predicate BackedAlong(b: Body, log: seq<Visit>, j: Journal, place: Place)
    decreases b
  {
    if !b.Do? then true
    else if b.op.Patched? then place.next in j && BackedAlong(b.rest[Flag(false)], log, j, place)
    else log != [] ==> BackedAlong(b.rest[log[0].outcome], log[1..], j, After(b.op, place, log[0].outcome))
  }

  ghost predicate AgreeFrom(j: Journal, j': Journal, n: nat) {
    forall s | n <= s :: s in j <==> s in j'
  }

  lemma PerformAgrees(op: Op, j: Journal, j': Journal, place: Place, world: World)
    requires AgreeFrom(j, j', place.next) && Perform(op, j', place, world).control.Resumed? && !op.Patched?
    ensures var p := Perform(op, j', place, world);
            AgreeFrom(j, p.journal, After(op, place, p.control.outcome).next)
  {
  }

  /** The guards the new pass meets are backed exactly when the old code's pass shows them backed. */
  lemma {:induction false} BackedIffAlong(b: Body, j: Journal, j': Journal, place: Place, world: World)
    requires PlainNames(b) && NoMarkers(j') && AgreeFrom(j, j', place.next)
    ensures GuardsBacked(b, j', place, world)
            <==> BackedAlong(b, RunPass(Erase(b), j', place, world).log, j, place)
    decreases b
  {
    if b.Do? {
      var p := Perform(b.op, j', place, world);
      if b.op.Patched? {
        if place.next in j' {
          assert !IsMarker(j'[place.next].name) && IsMarker(RecordName(b.op, place));
          BackedIffAlong(b.rest[Flag(false)], j, j', place, world);
        }
      } else {
        PerformKeepsPlain(b.op, j', place, world);
        if p.control.Resumed? {
          PerformAgrees(b.op, j, j', place, world);
          hide Perform, NoMarkers, AgreeFrom;
          var o, next := p.control.outcome, After(b.op, place, p.control.outcome);
          BackedIffAlong(b.rest[o], j, p.journal, next, world);
          var log := RunPass(Erase(b), j', place, world).log;
          assert log[1..] == RunPass(Erase(b.rest[o]), p.journal, next, world).log;
        }
      }
    }
  }

  /**
   * Patch transparency, exactly: over any history recorded without markers, a pass of the new code does
   * the old code's work, at the old positions, if and only if every guard on the old code's way sits on
   * a position recorded before.
   */
  lemma TransparentIffBacked(b: Body, j: Journal, world: World)
    requires PlainNames(b) && NoMarkers(j)
    ensures SameWork(RunPass(b, j, START, world), RunPass(Erase(b), j, START, world))
            <==> BackedAlong(b, RunPass(Erase(b), j, START, world).log, j, START)
  {
    BackedIffAlong(b, j, j, START, world);
    if GuardsBacked(b, j, START, world) {
      BackedDoesOldWork(b, j, START, world);
    } else {
      var s := UnbackedLeavesMarker(b, j, START, world);
      EraseIsPlain(b);
      GuardlessLeavesNoMarker(Erase(b), j, START, world);
    }
  }

  // ------------------------------------------------- deploying a guard where a run is parked

  /** A run of the old code up to a state that waits behind the registered `row`. */
  ghost predicate ParkedOld(b: Body, events: seq<Event>, row: Row) {
    && Runs(Erase(b), FRESH, events)
    && End(Erase(b), FRESH, events).result.None? && row in End(Erase(b), FRESH, events).rows
  }

  predicate PlainState(s: State) {
    NoMarkers(s.journal) && forall r | r in s.rows :: !IsMarker(r.name)
  }

  lemma {:induction false} RowIsPlain(b: Body, j: Journal, place: Place, world: World)
    ensures var row := RunPass(b, j, place, world).row; row.Some? ==> !IsMarker(row.value.name)
    decreases b
  {
    if b.Do? {
      var p := Perform(b.op, j, place, world);
      if p.control.Resumed? {
        RowIsPlain(b.rest[p.control.outcome], p.journal, After(b.op, place, p.control.outcome), world);
      } else if p.row.Some? {
        PlainRecord(b.op, place);
      }
    }
  }

  lemma {:induction false} RunIsPlain(b: Body, s: State, events: seq<Event>)
    requires PlainNames(b) && Guardless(b) && PlainState(s) && Runs(b, s, events)
    ensures PlainState(End(b, s, events))
    decreases |events|
  {
    if events != [] {
      if events[0].Drive? {
        GuardlessLeavesNoMarker(b, s.journal, START, events[0].world);
        RowIsPlain(b, s.journal, START, events[0].world);
      }
      hide RunPass, IsMarker;
      RunIsPlain(b, Next(b, s, events[0]), events[1..]);
    }
  }

  predicate AllDone(j: Journal) {
    forall s | s in j :: j[s].status.Done?
  }

  /** A state parked behind a row has everything else settled and nothing at the row's position. */
  lemma {:induction false} ParkedShape(b: Body, j: Journal, rows: set<Row>, place: Place, row: Row)
    requires Fits(b, j, rows, place) && row in rows
    ensures AllDone(j) && row.at !in j && rows == {row}
    decreases b
  {
    if b.Do? && Recorded(b.op, j, place).Some? {
      var o := Recorded(b.op, j, place).value;
      ParkedShape(b.rest[o], j, rows, After(b.op, place, o), row);
    }
  }

  /** The body comes to the guard `g` after `before`, all of it recorded in `j`. */
  ghost predicate Leads(b: Body, j: Journal, place: Place, before: seq<Visit>, g: Visit)
    decreases b
  {
    b.Do? && g.op.Patched? &&
    if before == [] then g.op == b.op && g.at == place.next
    else
      var o := before[0].outcome;
      && Recorded(b.op, j, place) == Some(o) && before[0] == Visit(b.op, PositionOf(b.op, place), o)
      && Leads(b.rest[o], j, After(b.op, place, o), before[1..], g)
  }

  /** The first guard that answered true. */
  predicate FirstTrue(log: seq<Visit>, i: nat) {
    && i < |log| && log[i].op.Patched? && log[i].outcome == Flag(true)
    && forall k | 0 <= k < i && log[k].op.Patched? :: log[k].outcome != Flag(true)
  }

  lemma {:induction false} FirstTrueIsUnbacked(b: Body, j: Journal, row: Row, place: Place, world: World, i: nat)
    requires Fits(Erase(b), j, {row}, place) && NoMarkers(j) && world(row.at).None?
    requires FirstTrue(RunPass(b, j, place, world).log, i)
    ensures var log := RunPass(b, j, place, world).log;
            Leads(b, j, place, log[..i], log[i]) && log[i].at !in j
    decreases b
  {
    var p := Perform(b.op, j, place, world);
    var log := RunPass(b, j, place, world).log;
    var o := p.control.outcome;
    var tail := RunPass(b.rest[o], p.journal, After(b.op, place, o), world).log;
    assert log == [Visit(b.op, PositionOf(b.op, place), o)] + tail;
    if i == 0 {
      TrueMeansUnrecorded(b.op, j, place, world);
      hide Fits, NoMarkers, Perform, Recorded, RunPass;
      assert log[..i] == [];
    } else {
      assert log[0].op.Patched? ==> log[0].outcome != Flag(true);
      StepsOnRecord(b, j, row, place, world);
      hide Fits, NoMarkers, Perform, Recorded, RunPass;
      assert FirstTrue(tail, i - 1) by {
        assert forall k | 0 <= k < |tail| :: tail[k] == log[k + 1];
      }
      FirstTrueIsUnbacked(b.rest[o], j, row, After(b.op, place, o), world, i - 1);
      assert log[..i][1..] == tail[..i - 1];
    }
  }

  lemma TrueMeansUnrecorded(op: Op, j: Journal, place: Place, world: World)
    requires op.Patched? && NoMarkers(j) && Perform(op, j, place, world).control == Resumed(Flag(true))
    ensures place.next !in j
  {
    assert IsMarker(RecordName(op, place));
  }

  /** Short of the first guard to answer true, the new code is where the old code was, on its record. */
  lemma StepsOnRecord(b: Body, j: Journal, row: Row, place: Place, world: World)
    requires b.Do? && Fits(Erase(b), j, {row}, place) && NoMarkers(j) && world(row.at).None?
    requires var c := Perform(b.op, j, place, world).control;
             c.Resumed? && (b.op.Patched? ==> c.outcome != Flag(true))
    ensures var p := Perform(b.op, j, place, world);
            && p.journal == j && Recorded(b.op, j, place) == Some(p.control.outcome)
            && Fits(Erase(b.rest[p.control.outcome]), j, {row}, After(b.op, place, p.control.outcome))
  {
    if b.op.Patched? {
      GuardOnRecord(b.op, j, place, world);
      hide Perform, Recorded;
    } else {
      ParkedStops(b, j, row, place, world);
      RecordedIsPerformed(b.op, j, place, world);
      hide Perform, Recorded, Fits, Erase;
    }
  }

  lemma GuardOnRecord(op: Op, j: Journal, place: Place, world: World)
    requires op.Patched? && Perform(op, j, place, world).control.Resumed?
    requires Perform(op, j, place, world).control.outcome != Flag(true)
    ensures Perform(op, j, place, world) == Performed(j, Resumed(Flag(false)), None)
    ensures Recorded(op, j, place) == Some(Flag(false)) && After(op, place, Flag(false)) == place
  {
  }

  lemma ParkedStops(b: Body, j: Journal, row: Row, place: Place, world: World)
    requires b.Do? && !b.op.Patched? && Fits(Erase(b), j, {row}, place) && world(row.at).None?
    requires Perform(b.op, j, place, world).control.Resumed?
    ensures Recorded(b.op, j, place).Some?
    ensures var o := Recorded(b.op, j, place).value; Fits(Erase(b.rest[o]), j, {row}, After(b.op, place, o))
  {
    if Recorded(b.op, j, place).None? {
      assert row in {row};
      FrontierResumes(b.op, j, {row}, place, world);
      assert false;
    }
  }

  predicate Keeps(j: Journal, j': Journal) {
    forall s | s in j :: s in j' && j'[s] == j[s]
  }

  /** What a pass over any later journal answers at the guard. */
  lemma {:induction false} LaterAnswer(b: Body, j: Journal, j': Journal, place: Place, world: World,
                                       before: seq<Visit>, g: Visit)
    requires Leads(b, j, place, before, g) && Keeps(j, j') && g.at in j'
    requires j'[g.at].name == MARKER + g.op.id || !IsMarker(j'[g.at].name)
    ensures var log := RunPass(b, j', place, world).log;
            && |before| < |log| && log[..|before|] == before
            && log[|before|] == Visit(g.op, g.at, Flag(IsMarker(j'[g.at].name)))
    decreases b
  {
    var log := RunPass(b, j', place, world).log;
    if before == [] {
      assert IsMarker(RecordName(b.op, place));
    } else {
      var o := before[0].outcome;
      assert Recorded(b.op, j', place) == Some(o);
      RecordedIsPerformed(b.op, j', place, world);
      LaterAnswer(b.rest[o], j, j', After(b.op, place, o), world, before[1..], g);
      assert log[1..] == RunPass(b.rest[o], j', After(b.op, place, o), world).log;
      assert log[..|before|] == [log[0]] + log[1..][..|before| - 1];
    }
  }

  /** The deploying pass leaves the guard's marker. */
  lemma {:induction false} GuardMarks(b: Body, j: Journal, place: Place, world: World, before: seq<Visit>, g: Visit)
    requires Leads(b, j, place, before, g) && g.at !in j
    ensures var j' := RunPass(b, j, place, world).journal;
            g.at in j' && j'[g.at].name == MARKER + g.op.id && j'[g.at].status.Done?
    decreases b
  {
    var p := Perform(b.op, j, place, world);
    if before == [] {
      assert IsMarker(RecordName(b.op, place));
      DoneStays(b.rest[Flag(true)], p.journal, After(b.op, place, Flag(true)), world, g.at);
    } else {
      var o := before[0].outcome;
      RecordedIsPerformed(b.op, j, place, world);
      GuardMarks(b.rest[o], j, After(b.op, place, o), world, before[1..], g);
    }
  }

  // Runs of the new code from there on.

  /** What every run of the new code keeps; `delivered` once a delivery has hit the guard's position. */
  ghost predicate Deployed(s: State, j: Journal, g: Visit, row: Row, delivered: bool)
    requires g.op.Patched?
  {
    && Keeps(j, s.journal)
    && g.at in s.journal && s.journal[g.at].status.Done?
    && s.journal[g.at].name == (if delivered then row.name else MARKER + g.op.id)
    && (delivered ==> row.at == g.at)
    && forall r | r in s.rows :: r.at !in j && (r.at == g.at ==> r == row && !delivered)
  }

  lemma {:induction false} RowIsOpen(b: Body, j: Journal, place: Place, world: World)
    ensures var p := RunPass(b, j, place, world);
            p.row.Some? ==> !(p.row.value.at in p.journal && p.journal[p.row.value.at].status.Done?)
    decreases b
  {
    if b.Do? {
      var p := Perform(b.op, j, place, world);
      if p.control.Resumed? {
        RowIsOpen(b.rest[p.control.outcome], p.journal, After(b.op, place, p.control.outcome), world);
      }
    }
  }

  predicate HitsGuard(e: Event, at: nat) {
    e.Deliver? && e.row.at == at
  }

  lemma DrivesKeepDone(b: Body, j: Journal, world: World)
    ensures var j' := RunPass(b, j, START, world).journal;
            forall s | s in j && j[s].status.Done? :: s in j' && j'[s] == j[s]
  {
    forall s | s in j && j[s].status.Done?
      ensures var j' := RunPass(b, j, START, world).journal; s in j' && j'[s] == j[s]
    {
      DoneStays(b, j, START, world, s);
    }
  }

  lemma StepKeepsDeployed(b: Body, s: State, e: Event, j: Journal, g: Visit, row: Row, delivered: bool)
    requires g.op.Patched? && AllDone(j) && Deployed(s, j, g, row, delivered) && Enabled(s, e)
    ensures Deployed(Next(b, s, e), j, g, row, delivered || HitsGuard(e, g.at))
  {
    if e.Drive? {
      DrivesKeepDone(b, s.journal, e.world);
      RowIsOpen(b, s.journal, START, e.world);
    }
    hide RunPass;
  }

  lemma {:induction false} RunKeepsDeployed(b: Body, s: State, events: seq<Event>, j: Journal, g: Visit, row: Row,
                                            delivered: bool)
    requires g.op.Patched? && AllDone(j) && Deployed(s, j, g, row, delivered) && Runs(b, s, events)
    ensures Deployed(End(b, s, events), j, g, row, delivered || exists e | e in events :: HitsGuard(e, g.at))
    decreases |events|
  {
    if events != [] {
      StepKeepsDeployed(b, s, events[0], j, g, row, delivered);
      RunKeepsDeployed(b, Next(b, s, events[0]), events[1..], j, g, row, delivered || HitsGuard(events[0], g.at));
      assert events == [events[0]] + events[1..];
    }
  }

  /** The state right after the new code's first pass. */
  ghost function Upgraded(b: Body, events: seq<Event>, world: World): State
    requires Runs(Erase(b), FRESH, events) && Enabled(End(Erase(b), FRESH, events), Drive(world))
  {
    Next(b, End(Erase(b), FRESH, events), Drive(world))
  }

  lemma UpgradeDeploys(b: Body, events: seq<Event>, row: Row, world: World, i: nat)
    requires PlainNames(b) && ParkedOld(b, events, row)
    requires Enabled(End(Erase(b), FRESH, events), Drive(world)) && FirstTrue(Upgraded(b, events, world).log, i)
    ensures var old_, s := End(Erase(b), FRESH, events), Upgraded(b, events, world);
            && AllDone(old_.journal) && !IsMarker(row.name) && row in s.rows
            && Leads(b, old_.journal, START, s.log[..i], s.log[i])
            && Deployed(s, old_.journal, s.log[i], row, false)
  {
    var old_, s := End(Erase(b), FRESH, events), Upgraded(b, events, world);
    EraseIsPlain(b);
    RunIsPlain(Erase(b), FRESH, events);
    FreshInv(Erase(b));
    RunKeepsInv(Erase(b), FRESH, events);
    ParkedShape(Erase(b), old_.journal, old_.rows, START, row);
    hide PlainNames, Fits, IsMarker, Recorded;
    FirstTrueIsUnbacked(b, old_.journal, row, START, world, i);
    GuardMarks(b, old_.journal, START, world, s.log[..i], s.log[i]);
    DrivesKeepDone(b, old_.journal, world);
    RowIsOpen(b, old_.journal, START, world);
    hide RunPass, Leads;
  }

  /**
   * New code is deployed on a run of the old code that waits behind `row`, and some guard answers true.
   * Over every later run, a pass repeats the work up to the first such guard and then gives the same
   * answer, unless a delivery has hit the guard's position: then it answers false. Only `row`
   * can be hit there.
   */
  lemma AnswerFollowsDelivery(b: Body, events: seq<Event>, row: Row, world: World, i: nat,
                              more: seq<Event>, again: World)
    requires PlainNames(b) && ParkedOld(b, events, row)
    requires Enabled(End(Erase(b), FRESH, events), Drive(world)) && FirstTrue(Upgraded(b, events, world).log, i)
    requires Runs(b, Upgraded(b, events, world), more)
    requires Enabled(End(b, Upgraded(b, events, world), more), Drive(again))
    ensures var first := Upgraded(b, events, world).log;
            var later := Next(b, End(b, Upgraded(b, events, world), more), Drive(again)).log;
            var hit := exists e | e in more :: HitsGuard(e, first[i].at);
            && i < |later| && later[..i] == first[..i]
            && later[i] == first[i].(outcome := Flag(!hit))
            && (hit ==> row.at == first[i].at)
  {
    var old_, s := End(Erase(b), FRESH, events), Upgraded(b, events, world);
    UpgradeDeploys(b, events, row, world, i);
    hide Fits, Recorded, ParkedOld, PlainNames, Next, Leads;
    RunKeepsDeployed(b, s, more, old_.journal, s.log[i], row, false);
    var end := End(b, s, more);
    assert IsMarker(MARKER + s.log[i].op.id);
    LaterAnswer(b, old_.journal, end.journal, START, again, s.log[..i], s.log[i]);
    NextLog(b, end, again);
  }

  lemma NextLog(b: Body, s: State, world: World)
    requires Enabled(s, Drive(world))
    ensures Next(b, s, Drive(world)).log == RunPass(b, s.journal, START, world).log
  {
  }

  function Nothing(): World {
    at => None
  }

  /** Some later pass does not give the `i`-th answer of the last one. */
  ghost predicate CanFlip(b: Body, s: State, i: nat)
    requires i < |s.log|
  {
    exists more: seq<Event>, again: World :: Runs(b, s, more) && Flips(b, s, i, more, again)
  }

  ghost predicate Flips(b: Body, s: State, i: nat, more: seq<Event>, again: World)
    requires i < |s.log| && Runs(b, s, more)
  {
    && Enabled(End(b, s, more), Drive(again))
    && var later := Next(b, End(b, s, more), Drive(again)).log; i >= |later| || later[i] != s.log[i]
  }

  /**
   * The first guard to answer true on a parked run of the old code can change its answer exactly when
   * the waiter the old code had registered sits at the guard's own position.
   */
  lemma AnswerFlipsIffParkedAtGuard(b: Body, events: seq<Event>, row: Row, world: World, i: nat)
    requires PlainNames(b) && ParkedOld(b, events, row)
    requires Enabled(End(Erase(b), FRESH, events), Drive(world)) && FirstTrue(Upgraded(b, events, world).log, i)
    requires Upgraded(b, events, world).result.None?
    ensures CanFlip(b, Upgraded(b, events, world), i) <==> row.at == Upgraded(b, events, world).log[i].at
  {
    var s := Upgraded(b, events, world);
    UpgradeDeploys(b, events, row, world, i);
    hide PlainNames, ParkedOld, Fits, Recorded, Leads, Deployed, FirstTrue, Upgraded;
    if CanFlip(b, s, i) {
      var more: seq<Event>, again: World :| Runs(b, s, more) && Flips(b, s, i, more, again);
      AnswerFollowsDelivery(b, events, row, world, i, more, again);
    }
    if row.at == s.log[i].at {
      var hit := Deliver(row, Undefined);
      DeliverThenDrive(b, s, hit, Nothing());
      assert hit in [hit] && HitsGuard(hit, s.log[i].at);
      AnswerFollowsDelivery(b, events, row, world, i, [hit], Nothing());
      assert Flips(b, s, i, [hit], Nothing());
    }
  }

  lemma DeliverThenDrive(b: Body, s: State, hit: Event, none: World)
    requires hit.Deliver? && Enabled(s, hit) && forall at :: none(at).None?
    ensures Runs(b, s, [hit]) && Enabled(End(b, s, [hit]), Drive(none))
  {
    assert [hit][1..] == [];
  }

  // One such deployment: old code waits for `go` and returns its payload; new code guards the wait.

  function Payload(o: Outcome): RawBody {
    Return(if o.Ok? then o.value else Undefined)
  }

  ghost function ReturnsPayload(): (b: Body)
    ensures b.Do? && b.op == WaitSignal("go")
    ensures forall o: Outcome :: b.rest[o] == Payload(o)
  {
    var rest := imap o: Outcome | true :: Payload(o);
    assert forall o: Outcome :: o in rest && rest[o] == Payload(o) && Total(Payload(o));
    Do(WaitSignal("go"), rest)
  }

  function Silent(o: Outcome): RawBody {
    Return(Undefined)
  }

  ghost function SleepsInstead(): (b: Body)
    ensures b.Do? && b.op == Sleep
    ensures forall o: Outcome :: b.rest[o] == Silent(o)
  {
    var rest := imap o: Outcome | true :: Silent(o);
    assert forall o: Outcome :: o in rest && rest[o] == Silent(o) && Total(Silent(o));
    Do(Sleep, rest)
  }

  ghost function Branch(o: Outcome): Body {
    if o == Flag(true) then SleepsInstead() else ReturnsPayload()
  }

  ghost function GuardedWait(): (b: Body)
    ensures b.Do? && b.op == Patched("v2")
    ensures forall o: Outcome :: b.rest[o] == Branch(o)
  {
    var rest: imap<Outcome, RawBody> := imap o: Outcome | true :: Branch(o);
    assert forall o: Outcome :: o in rest && rest[o] == Branch(o) && Total(Branch(o));
    Do(Patched("v2"), rest)
  }

  const GUARD := Visit(Patched("v2"), 0, Flag(true))
  const GO := Row(0, "signal:go")

  lemma OldCode()
    ensures PlainNames(GuardedWait()) && Erase(GuardedWait()) == Erase(ReturnsPayload())
    ensures Erase(GuardedWait()).Do? && Erase(GuardedWait()).op == WaitSignal("go")
  {
    var b := GuardedWait();
    assert b.rest[Flag(false)] == Branch(Flag(false)) == ReturnsPayload();
    assert forall o: Outcome :: PlainNames(b.rest[o]) by {
      forall o: Outcome ensures PlainNames(b.rest[o]) {
        BranchIsPlain(o);
      }
    }
    hide PlainNames, Branch;
    PlainGuard(b);
  }

  lemma PlainGuard(b: Body)
    requires b.Do? && b.op.Patched? && forall o: Outcome :: PlainNames(b.rest[o])
    ensures PlainNames(b)
  {
  }

  lemma BranchIsPlain(o: Outcome)
    ensures PlainNames(Branch(o))
  {
    forall p: Outcome ensures PlainNames(Branch(o).rest[p]) {
    }
  }

  lemma OldWaits()
    ensures PlainNames(GuardedWait()) && ParkedOld(GuardedWait(), [Drive(Nothing())], GO)
    ensures End(Erase(GuardedWait()), FRESH, [Drive(Nothing())]) == State(map[], {GO}, [], [], None)
  {
    var old_ := Erase(GuardedWait());
    OldCode();
    hide Erase, PlainNames, GuardedWait;
    assert RecordName(WaitSignal("go"), START) == "signal:go";
    var first := Next(old_, FRESH, Drive(Nothing()));
    assert first == State(map[], {GO}, [], [], None);
    assert [Drive(Nothing())][1..] == [];
    assert Runs(old_, first, []);
  }

  lemma GuardAnswersTrue()
    ensures var s := Next(GuardedWait(), State(map[], {GO}, [], [], None), Drive(Nothing()));
            && s.log == [GUARD] && s.result == None && s.rows == {GO}
            && s.journal == map[0 := Entry(MARKER + "v2", Done(Ok(Json("true")))), 1 := Entry(SLEEP, Waiting)]
  {
    var j := map[0 := Entry(MARKER + "v2", Done(Ok(Json("true"))))];
    var tail := RunPass(SleepsInstead(), j, Place(1, []), Nothing());
    assert tail == Pass(j[1 := Entry(SLEEP, Waiting)], [], [], Parked, None);
  }

  lemma GuardAnswersFalse(j: Journal, v: Value)
    requires 0 in j && j[0] == Entry("signal:go", Done(Ok(v)))
    ensures RunPass(GuardedWait(), j, START, Nothing())
            == Pass(j, [GUARD.(outcome := Flag(false)), Visit(WaitSignal("go"), 0, Ok(v))], [], Completed(v), None)
  {
    PlainRecord(WaitSignal("go"), START);
    assert RecordName(WaitSignal("go"), START) == "signal:go";
    var b := ReturnsPayload();
    assert Perform(b.op, j, START, Nothing()) == Performed(j, Resumed(Ok(v)), None);
    assert b.rest[Ok(v)] == Payload(Ok(v));
    var tail := RunPass(b, j, START, Nothing());
    assert tail.log == [Visit(WaitSignal("go"), 0, Ok(v))];
    assert tail == Pass(j, [Visit(WaitSignal("go"), 0, Ok(v))], [], Completed(v), None);
  }

  /** A whole run: the guard answers true, the old waiter is delivered to, the guard answers false. */
  lemma DeployedRunFlips(v: Value)
    ensures ParkedOld(GuardedWait(), [Drive(Nothing())], GO)
    ensures var b := GuardedWait();
            var s := Next(b, End(Erase(b), FRESH, [Drive(Nothing())]), Drive(Nothing()));
            var events := [Deliver(GO, v), Drive(Nothing())];
            && s.log == [GUARD] && Runs(b, s, events)
            && End(b, s, events).log == [GUARD.(outcome := Flag(false)), Visit(WaitSignal("go"), 0, Ok(v))]
            && End(b, s, events).result == Some(Completed(v))
  {
    OldWaits();
    GuardAnswersTrue();
    hide Erase, ParkedOld, PlainNames, Perform, IsMarker;
    var b := GuardedWait();
    var s := Next(b, State(map[], {GO}, [], [], None), Drive(Nothing()));
    var t := Next(b, s, Deliver(GO, v));
    GuardAnswersFalse(t.journal, v);
    hide RunPass, GuardedWait;
    var events := [Deliver(GO, v), Drive(Nothing())];
    assert events[1..] == [Drive(Nothing())] && [Drive(Nothing())][1..] == [];
    var u := Next(b, t, Drive(Nothing()));
    assert Runs(b, u, []) && End(b, u, []) == u;
    assert Runs(b, t, [Drive(Nothing())]) && End(b, t, [Drive(Nothing())]) == u;
  }
}

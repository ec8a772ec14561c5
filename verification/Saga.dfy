/**
 * The saga unwind of a failed run: its compensations in reverse order, each retried up to a bound and
 * stopping at its first success. A failing compensation is skipped, never rethrown.
 * Models `runCompensation` and the failure branch of `runExecution` in packages/adonis/src/engine.ts.
 */
module Saga {
  import opened Common
  import opened WorkflowCtx
  import opened CtxReplay

  /** One attempt at the compensation registered `which`-th. */
  datatype Try = Try(which: nat, name: string, attempt: nat, succeeded: bool)

  /** Whether the given attempt of the given compensation succeeds. */
  type Luck = (nat, nat) -> bool

  /** `compensationRetries`, at least one whatever is configured. */
  function RetriesOf(configured: Option<int>): (n: nat)
    ensures n >= 1 && (n > 1 ==> configured == Some(n))
    ensures configured.Some? && configured.value >= 1 ==> n == configured.value
  {
    if configured.Some? && configured.value > 1 then configured.value else 1
  }

  /** The attempts from `attempt` on: up to the first success or the bound. */
  function Attempts(which: nat, name: string, attempt: nat, retries: nat, luck: Luck): seq<Try>
    decreases retries + 1 - attempt
  {
    if attempt > retries then []
    else [Try(which, name, attempt, luck(which, attempt))]
         + if luck(which, attempt) then [] else Attempts(which, name, attempt + 1, retries, luck)
  }

  /** The unwind of the first `n` compensations, the last of them first. */
  function Unwound(undos: seq<string>, n: nat, retries: nat, luck: Luck): seq<Try>
    requires n <= |undos|
  {
    if n == 0 then []
    else Attempts(n - 1, undos[n - 1], 1, retries, luck) + Unwound(undos, n - 1, retries, luck)
  }

  class Unwinder {
    const retries: nat
    var tries: seq<Try>

    constructor (configured: Option<int>)
      ensures retries == RetriesOf(configured) && tries == []
    {
      retries := RetriesOf(configured);
      tries := [];
    }

    method RunCompensation(which: nat, name: string, luck: Luck)
      modifies this
      ensures tries == old(tries) + Attempts(which, name, 1, retries, luck)
    {
      ghost var goal := tries + Attempts(which, name, 1, retries, luck);
      var attempt := 1;
      while attempt <= retries
        invariant attempt >= 1
        invariant tries + Attempts(which, name, attempt, retries, luck) == goal
        decreases retries + 1 - attempt
      {
        ghost var before, t := tries, Try(which, name, attempt, luck(which, attempt));
        ghost var rest := if luck(which, attempt) then [] else Attempts(which, name, attempt + 1, retries, luck);
        assert before + ([t] + rest) == (before + [t]) + rest;
        tries := tries + [Try(which, name, attempt, luck(which, attempt))];
        if luck(which, attempt) { return; }
        attempt := attempt + 1;
      }
    }

    method Unwind(undos: seq<string>, luck: Luck)
      modifies this
      ensures tries == old(tries) + Unwound(undos, |undos|, retries, luck)
    {
      var i: nat := |undos|;
      while i > 0
        invariant 0 <= i <= |undos|
        invariant tries + Unwound(undos, i, retries, luck) == old(tries) + Unwound(undos, |undos|, retries, luck)
      {
        i := i - 1;
        ghost var before := tries;
        RunCompensation(i, undos[i], luck);
        ghost var done := Attempts(i, undos[i], 1, retries, luck);
        assert (before + done) + Unwound(undos, i, retries, luck) == before + (done + Unwound(undos, i, retries, luck));
      }
    }
  }

  /** Attempts are numbered in order, all but the last fail, and the last succeeds or is the bound. */
  lemma {:induction false} AttemptsStopAtSuccess(which: nat, name: string, attempt: nat, retries: nat, luck: Luck)
    requires 1 <= attempt <= retries
    ensures var a := Attempts(which, name, attempt, retries, luck);
            && 1 <= |a| <= retries + 1 - attempt
            && (forall i | 0 <= i < |a| :: a[i] == Try(which, name, attempt + i, luck(which, attempt + i)))
            && (forall i | 0 <= i < |a| - 1 :: !a[i].succeeded)
            && (a[|a| - 1].succeeded || |a| == retries + 1 - attempt)
    decreases retries - attempt
  {
    if !luck(which, attempt) && attempt < retries {
      var rest := Attempts(which, name, attempt + 1, retries, luck);
      AttemptsStopAtSuccess(which, name, attempt + 1, retries, luck);
      var a := Attempts(which, name, attempt, retries, luck);
      assert a == [Try(which, name, attempt, false)] + rest;
      forall i | 0 <= i < |a|
        ensures a[i] == Try(which, name, attempt + i, luck(which, attempt + i)) && (i < |a| - 1 ==> !a[i].succeeded)
      {
        if i > 0 {
          assert a[i] == rest[i - 1];
        }
      }
    }
  }

  /** The compensations attempted, in the order of their first attempts. */
  function FirstTries(tries: seq<Try>): seq<string> {
    if tries == [] then []
    else (if tries[0].attempt == 1 then [tries[0].name] else []) + FirstTries(tries[1..])
  }

  function Reverse(s: seq<string>): seq<string> {
    if s == [] then [] else [s[|s| - 1]] + Reverse(s[..|s| - 1])
  }

  lemma {:induction false} FirstTriesAppend(a: seq<Try>, b: seq<Try>)
    ensures FirstTries(a + b) == FirstTries(a) + FirstTries(b)
  {
    if a == [] {
      assert a + b == b;
    } else {
      assert (a + b)[1..] == a[1..] + b;
      FirstTriesAppend(a[1..], b);
    }
  }

  lemma {:induction false} LaterTriesNotFirst(tries: seq<Try>)
    requires forall i | 0 <= i < |tries| :: tries[i].attempt != 1
    ensures FirstTries(tries) == []
  {
    if tries != [] {
      assert tries[0].attempt != 1;
      LaterTriesNotFirst(tries[1..]);
    }
  }

  /** Every registered compensation is attempted, in exactly the reverse of the order of completion. */
  lemma {:induction false} UnwindReversesCompletion(undos: seq<string>, n: nat, retries: nat, luck: Luck)
    requires n <= |undos| && retries >= 1
    ensures FirstTries(Unwound(undos, n, retries, luck)) == Reverse(undos[..n])
  {
    hide Attempts;
    if n > 0 {
      var a := Attempts(n - 1, undos[n - 1], 1, retries, luck);
      AttemptsStopAtSuccess(n - 1, undos[n - 1], 1, retries, luck);
      LaterTriesNotFirst(a[1..]);
      FirstTriesAppend(a, Unwound(undos, n - 1, retries, luck));
      UnwindReversesCompletion(undos, n - 1, retries, luck);
      assert undos[..n][..n - 1] == undos[..n - 1];
    }
  }

  /** How often the compensation registered `which`-th is attempted. */
  function CountTries(tries: seq<Try>, which: nat): nat {
    if tries == [] then 0 else (if tries[0].which == which then 1 else 0) + CountTries(tries[1..], which)
  }

  lemma {:induction false} CountAppend(a: seq<Try>, b: seq<Try>, which: nat)
    ensures CountTries(a + b, which) == CountTries(a, which) + CountTries(b, which)
  {
    if a == [] {
      assert a + b == b;
    } else {
      assert (a + b)[1..] == a[1..] + b;
      CountAppend(a[1..], b, which);
    }
  }

  lemma {:induction false} CountUniform(tries: seq<Try>, owner: nat, which: nat)
    requires forall i | 0 <= i < |tries| :: tries[i].which == owner
    ensures CountTries(tries, which) == if owner == which then |tries| else 0
  {
    if tries != [] {
      assert tries[0].which == owner;
      CountUniform(tries[1..], owner, which);
    }
  }

  /** Each compensation is attempted at least once and at most `compensationRetries` times in all. */
  lemma {:induction false} EachAttemptedWithinRetries(undos: seq<string>, n: nat, retries: nat, luck: Luck, which: nat)
    requires n <= |undos| && retries >= 1
    ensures var count := CountTries(Unwound(undos, n, retries, luck), which);
            if which < n then 1 <= count <= retries else count == 0
  {
    hide Attempts;
    if n > 0 {
      var a := Attempts(n - 1, undos[n - 1], 1, retries, luck);
      AttemptsStopAtSuccess(n - 1, undos[n - 1], 1, retries, luck);
      CountUniform(a, n - 1, which);
      CountAppend(a, Unwound(undos, n - 1, retries, luck), which);
      EachAttemptedWithinRetries(undos, n - 1, retries, luck, which);
    }
  }

  lemma {:induction false} UndosGrow(a: seq<Visit>, b: seq<Visit>)
    requires a <= b
    ensures UndosOf(a) <= UndosOf(b)
  {
    if a != [] {
      assert a[1..] <= b[1..];
      UndosGrow(a[1..], b[1..]);
    }
  }

  // -------------------------------------------------- which steps a failed run undoes

  predicate Compensable(v: Visit) {
    (v.op.Step? || v.op.LocalStep?) && v.op.undo && v.outcome.Ok?
  }

  /** The completed compensable steps of a log, in completion order. */
  function StepsOf(log: seq<Visit>): seq<Visit> {
    if log == [] then [] else (if Compensable(log[0]) then [log[0]] else []) + StepsOf(log[1..])
  }

  lemma {:induction false} StepsAreUndos(log: seq<Visit>)
    ensures |UndosOf(log)| == |StepsOf(log)|
    ensures forall k | 0 <= k < |StepsOf(log)| ::
              Compensable(StepsOf(log)[k]) && UndosOf(log)[k] == StepsOf(log)[k].op.name
    ensures forall v :: v in StepsOf(log) <==> v in log && Compensable(v)
  {
    if log != [] {
      StepsAreUndos(log[1..]);
      assert log == [log[0]] + log[1..];
    }
  }

  /** Steps stand at positions of their own, in the order the body came to them. */
  predicate Ascending(steps: seq<Visit>, from: nat) {
    && (forall k | 0 <= k < |steps| :: from <= steps[k].at)
    && forall i, k | 0 <= i < k < |steps| :: steps[i].at < steps[k].at
  }

  lemma {:induction false} StepsAscend(b: Body, j: Journal, place: Place)
    ensures Ascending(StepsOf(Walk(b, j, place)), place.next)
    decreases b
  {
    if b.Do? && Recorded(b.op, j, place).Some? {
      var o := Recorded(b.op, j, place).value;
      var next := After(b.op, place, o);
      StepsAscend(b.rest[o], j, next);
      var all, tail := Walk(b, j, place), Walk(b.rest[o], j, next);
      assert all[1..] == tail;
    }
  }

  /** The steps a failed run undoes: all it completed and could undo, each recorded under its own name. */
  ghost predicate UndoesExactly(failed: State, steps: seq<Visit>) {
    && (forall k | 0 <= k < |steps| :: Compensable(steps[k]) && Matches(steps[k], failed.journal))
    && (forall i, k | 0 <= i < k < |steps| :: steps[i].at < steps[k].at)
    && (forall s | s in failed.journal && failed.journal[s].status.Done? ::
          exists v | v in failed.log :: v.at == s && !v.op.Webhook? && (Compensable(v) ==> v in steps))
  }

  /**
   * However the run was split into passes, when it fails the unwind attempts every completed compensable
   * step recorded in the journal, and nothing else, in the reverse of the order of their positions, each
   * between once and `retries` times; what earlier passes had registered is among them.
   */
  lemma FailedRunUndoesItsSteps(b: Body, before: seq<Event>, after: seq<Event>, retries: nat, luck: Luck)
    requires Runs(b, FRESH, before) && Runs(b, End(b, FRESH, before), after) && retries >= 1
    requires var result := End(b, End(b, FRESH, before), after).result; result.Some? && result.value.Failed?
    ensures var earlier, failed := End(b, FRESH, before), End(b, End(b, FRESH, before), after);
            var steps, tries := StepsOf(failed.log), Unwound(failed.undos, |failed.undos|, retries, luck);
            && UndoesExactly(failed, steps)
            && |failed.undos| == |steps|
            && (forall k | 0 <= k < |steps| ::
                  failed.undos[k] == steps[k].op.name && 1 <= CountTries(tries, k) <= retries)
            && FirstTries(tries) == Reverse(failed.undos)
            && earlier.undos <= failed.undos
  {
    FreshInv(b);
    RunKeepsInv(b, FRESH, before);
    var earlier := End(b, FRESH, before);
    RunKeepsInv(b, earlier, after);
    var failed := End(b, earlier, after);
    UndosGrow(earlier.log, failed.log);
    RunKeepsSeen(b, FRESH, before);
    RunKeepsSeen(b, earlier, after);
    StepsAscend(b, failed.journal, START);
    hide Walk, Fits, Matches;
    StepsAreUndos(failed.log);
    UnwindReversesCompletion(failed.undos, |failed.undos|, retries, luck);
    assert failed.undos[..|failed.undos|] == failed.undos;
    forall k | 0 <= k < |failed.undos|
      ensures 1 <= CountTries(Unwound(failed.undos, |failed.undos|, retries, luck), k) <= retries
    {
      EachAttemptedWithinRetries(failed.undos, |failed.undos|, retries, luck, k);
    }
    hide CountTries, Unwound, FirstTries, UndosOf, StepsOf;
    assert UndoesExactly(failed, StepsOf(failed.log)) by {
      ExactlyVisited(failed, StepsOf(failed.log));
    }
  }

  lemma ExactlyVisited(failed: State, steps: seq<Visit>)
    requires AllVisited(failed.journal, failed.log) && Ascending(steps, 0)
    requires forall v :: v in steps <==> v in failed.log && Compensable(v)
    requires forall v | v in failed.log :: Matches(v, failed.journal)
    ensures UndoesExactly(failed, steps)
  {
    hide Matches, Compensable;
    forall s | s in failed.journal && failed.journal[s].status.Done?
      ensures exists v | v in failed.log :: v.at == s && !v.op.Webhook? && (Compensable(v) ==> v in steps)
    {
      assert Visited(failed.log, s);
    }
  }
}

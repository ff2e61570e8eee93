/** What the sequential program gets to when nobody interferes with it and it is not stopped. */
module UndisturbedRuns {
  import opened Outcomes
  import E = Escrow
  import X = Exposure
  import opened Rail
  import C = Coordinator
  import Known = CoordinatorSafety
  import Runs = CoordinatorRuns
  import opened ReleaseMaterials
  import opened Resumption
  import Progress
  import CancelPath
  import opened Workflow

  /** Others did nothing, and the program came to its end before it was to be stopped. */
  ghost predicate Undisturbed(p: Workflow)
    reads p
  {
    p.Consistent() && p.quiet && !p.running && p.happened < p.budget
  }

  /** Then it took steps only, as many as something happened. */
  lemma UndisturbedTrace(p: Workflow)
    requires Undisturbed(p)
    ensures p.trace == [C.Start(p.op, p.flags)] + Steps(p.op, p.durations, p.happened)
  {
    forall i | 0 <= i < |p.trace| ensures p.trace[i] == ([C.Start(p.op, p.flags)] + Steps(p.op, p.durations, p.happened))[i] {
      assert Expected(p.op, p.flags, p.durations, p.quiet, p.budget, i, p.trace[i]);
    }
  }

  /** Once an attempt is over, more steps change nothing. */
  lemma {:induction false} OverStays(w: C.World, op: OperationId, durations: C.Durations, n: nat)
    requires op !in w.attempts
    ensures C.RunAll(w, Steps(op, durations, n)) == w
  {
    if n > 0 {
      OverStays(w, op, durations, n - 1);
      assert Steps(op, durations, n) == Steps(op, durations, n - 1) + [C.Run(op, durations)];
      OneMore(w, Steps(op, durations, n - 1), C.Run(op, durations));
    }
  }

  lemma OverForGood(w: C.World, op: OperationId, durations: C.Durations, first: seq<C.Event>, k: nat, n: nat)
    requires op !in C.RunAll(w, first + Steps(op, durations, k)).attempts && k <= n
    ensures C.RunAll(w, first + Steps(op, durations, n)) == C.RunAll(w, first + Steps(op, durations, k))
  {
    OverStays(C.RunAll(w, first + Steps(op, durations, k)), op, durations, n - k);
    RunsAppend(w, first + Steps(op, durations, k), Steps(op, durations, n - k));
    assert first + Steps(op, durations, k) + Steps(op, durations, n - k) == first + Steps(op, durations, n);
  }

  /** Two ends of the same attempt are the same world. */
  lemma OneEnd(w: C.World, op: OperationId, durations: C.Durations, first: seq<C.Event>, k: nat, n: nat)
    requires op !in C.RunAll(w, first + Steps(op, durations, k)).attempts
    requires op !in C.RunAll(w, first + Steps(op, durations, n)).attempts
    ensures C.RunAll(w, first + Steps(op, durations, k)) == C.RunAll(w, first + Steps(op, durations, n))
  {
    if k <= n {
      OverForGood(w, op, durations, first, k, n);
    } else {
      OverForGood(w, op, durations, first, n, k);
    }
  }

  lemma UndisturbedEnd(p: Workflow, n: nat)
    requires Undisturbed(p)
    requires p.op !in C.RunAll(p.start, [C.Start(p.op, p.flags)] + Steps(p.op, p.durations, n)).attempts
    ensures p.View() == C.RunAll(p.start, [C.Start(p.op, p.flags)] + Steps(p.op, p.durations, n))
  {
    UndisturbedTrace(p);
    Runs.LeadsToTheRun(p.worlds, p.trace);
    OneEnd(p.start, p.op, p.durations, [C.Start(p.op, p.flags)], p.happened, n);
  }

  /** A plain run of the program in which nobody interferes carries the operation through when nothing is in the way. */
  lemma UndisturbedRunCarriesThrough(p: Workflow)
    requires Undisturbed(p) && p.flags == PLAIN && C.Positive(p.durations)
    requires Known.Faithful(p.start) && WrittenAhead(p.start) && p.op in p.start.rail.terms && p.op !in p.start.attempts
    requires Progress.CanProceed(p.start, p.op)
    ensures HasStatus(p.rail, p.op, E.Released) && Reservation(p.rail, p.op, X.Redeemed)
    ensures StagesOf(p.rail, p.op) == Stages(true, true, true, true)
  {
    var n := Progress.EveryOperationCanBeCarriedThrough(p.start, p.op, p.durations);
    UndisturbedEnd(p, n);
    assert p.View().rail == p.rail;
  }

  /** A run that is to cancel refunds what can be cancelled. */
  lemma UndisturbedRunRefunds(p: Workflow)
    requires Undisturbed(p) && p.flags == CancelPath.CANCELLING
    requires Known.Faithful(p.start) && p.op in p.start.rail.terms && p.op !in p.start.attempts
    requires CancelPath.CanBeCancelled(p.start.rail, p.op)
    ensures Known.Refunded(p.rail, p.op)
  {
    var n := CancelPath.EveryLockedOperationCanBeRefunded(p.start, p.op, p.durations);
    UndisturbedEnd(p, n);
    assert p.View().rail == p.rail;
  }
}

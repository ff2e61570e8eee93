/** Where the attempt on an operation gets to when nothing else happens. */
module LeftAlone {
  import opened Outcomes
  import E = Escrow
  import S = EscrowSafety
  import opened OperationJournal
  import opened Rail
  import C = Coordinator
  import Known = CoordinatorSafety
  import Runs = CoordinatorRuns
  import opened ReleaseMaterials
  import opened Resumption

  /** Some number of steps of the attempt lead from one world to the other. */
  ghost predicate ComesTo(w: C.World, op: OperationId, durations: C.Durations, t: C.World) {
    exists n: nat :: t == C.RunAll(w, Steps(op, durations, n))
  }

  lemma IsThere(w: C.World, op: OperationId, durations: C.Durations)
    ensures ComesTo(w, op, durations, w)
  {
    assert Steps(op, durations, 0) == [];
    assert w == C.RunAll(w, Steps(op, durations, 0));
  }

  lemma ComesOn(w: C.World, op: OperationId, durations: C.Durations, t: C.World, u: C.World)
    requires ComesTo(w, op, durations, t) && ComesTo(t, op, durations, u)
    ensures ComesTo(w, op, durations, u)
  {
    var m: nat :| t == C.RunAll(w, Steps(op, durations, m));
    var n: nat :| u == C.RunAll(t, Steps(op, durations, n));
    RunsAppend(w, Steps(op, durations, m), Steps(op, durations, n));
    StepsAdd(op, durations, m, n);
  }

  lemma StepsAdd(op: OperationId, durations: C.Durations, m: nat, n: nat)
    ensures Steps(op, durations, m) + Steps(op, durations, n) == Steps(op, durations, m + n)
  {
  }

  lemma OneStep(w: C.World, op: OperationId, durations: C.Durations)
    ensures ComesTo(w, op, durations, C.Next(w, C.Run(op, durations)))
  {
    assert Steps(op, durations, 1) == [C.Run(op, durations)];
    OneMore(w, [], C.Run(op, durations));
    assert [] + [C.Run(op, durations)] == [C.Run(op, durations)];
    assert C.Next(w, C.Run(op, durations)) == C.RunAll(w, Steps(op, durations, 1));
  }

  /** What was true of journals, attempts and materials is still true. */
  lemma StaysFaithful(w: C.World, op: OperationId, durations: C.Durations, t: C.World)
    requires Known.Faithful(w) && ComesTo(w, op, durations, t)
    ensures Known.Faithful(t) && t.rail.terms == w.rail.terms
    ensures WrittenAhead(w) ==> WrittenAhead(t)
  {
    var n: nat :| t == C.RunAll(w, Steps(op, durations, n));
    Runs.RunsKeepInv(w, Steps(op, durations, n));
    TermsStay(w, Steps(op, durations, n));
    if WrittenAhead(w) {
      SoleSubmitterIsHarmless(w, Steps(op, durations, n));
      MaterialsAreWrittenAhead(w, Steps(op, durations, n));
    }
  }

  // The attempt at work ----------------------------------------------------------------------------------------------

  /** The attempt is at this point, with this journal and nothing left to save. */
  predicate WorksAt(w: C.World, op: OperationId, flags: C.Flags, mem: Journal, at: C.Point) {
    op in w.rail.terms && op in w.attempts && w.attempts[op] == C.Attempt(mem, at, flags, false)
  }

  lemma StepIs(w: C.World, op: OperationId, flags: C.Flags, mem: Journal, at: C.Point, durations: C.Durations, m: C.Move)
    requires WorksAt(w, op, flags, mem, at) && m == C.PointMove(w.rail, op, mem, at, flags, durations, w.proofs + 1)
    ensures C.Next(w, C.Run(op, durations)) == C.Apply(w, op, m)
  {
  }

  /** The journal on disk after a move: one that acts first is written right after. */
  function DiskAfter(w: C.World, op: OperationId, m: C.Move): Journal {
    if m.next.Some? && m.next.value.unsaved then m.next.value.mem
    else if m.saved.Some? then m.saved.value
    else C.DiskOf(w, op)
  }

  lemma WritesUp(w: C.World, op: OperationId, flags: C.Flags, mem: Journal, at: C.Point, durations: C.Durations)
    requires op in w.rail.terms && op in w.attempts && w.attempts[op] == C.Attempt(mem, at, flags, true)
    ensures var t := C.Next(w, C.Run(op, durations));
      WorksAt(t, op, flags, mem, at) && t.rail == w.rail && C.DiskOf(t, op) == mem
  {
  }

  lemma TermsDoNotChange(r: State, m: C.Move)
    ensures C.RailAfter(r, m).terms == r.terms
  {
  }

  lemma AppliedMove(w: C.World, op: OperationId, flags: C.Flags, mem: Journal, at: C.Point, m: C.Move)
    requires WorksAt(w, op, flags, mem, at) && m.next.Some?
    ensures var t := C.Apply(w, op, m);
      && op in t.rail.terms && op in t.attempts && t.rail == C.RailAfter(w.rail, m)
      && t.attempts[op] == C.Attempt(m.next.value.mem, m.next.value.at, flags, m.next.value.unsaved)
      && (m.saved.Some? ==> C.DiskOf(t, op) == m.saved.value) && (m.saved.None? ==> C.DiskOf(t, op) == C.DiskOf(w, op))
  {
    TermsDoNotChange(w.rail, m);
  }

  /** The attempt makes its move and goes on. */
  lemma MovesOn(w: C.World, op: OperationId, flags: C.Flags, mem: Journal, at: C.Point, durations: C.Durations, m: C.Move) returns (t: C.World)
    requires WorksAt(w, op, flags, mem, at) && m == C.PointMove(w.rail, op, mem, at, flags, durations, w.proofs + 1)
    requires m.next.Some?
    ensures ComesTo(w, op, durations, t) && t.rail == C.RailAfter(w.rail, m) && C.DiskOf(t, op) == DiskAfter(w, op, m)
    ensures WorksAt(t, op, flags, m.next.value.mem, m.next.value.at)
  {
    StepIs(w, op, flags, mem, at, durations, m);
    OneStep(w, op, durations);
    t := C.Apply(w, op, m);
    AppliedMove(w, op, flags, mem, at, m);
    if m.next.value.unsaved {
      WritesUp(t, op, flags, m.next.value.mem, m.next.value.at, durations);
      OneStep(t, op, durations);
      var u := C.Next(t, C.Run(op, durations));
      ComesOn(w, op, durations, t, u);
      t := u;
    }
  }

  /** A completed step that is not the one to stop after. */
  lemma HaltsOnward(w: C.World, op: OperationId, flags: C.Flags, mem: Journal, step: Step, durations: C.Durations) returns (t: C.World)
    requires WorksAt(w, op, flags, mem, C.Halt(step)) && C.AfterHalt(step).Some? && flags.stopAfter != Some(step)
    ensures ComesTo(w, op, durations, t) && t.rail == w.rail
    ensures WorksAt(t, op, flags, Complete(mem, step), C.AfterHalt(step).value)
  {
    t := MovesOn(w, op, flags, mem, C.Halt(step), durations, C.AtHalt(mem, flags, step));
  }

  /** The attempt makes its last move. */
  lemma MovesOut(w: C.World, op: OperationId, flags: C.Flags, mem: Journal, at: C.Point, durations: C.Durations, m: C.Move) returns (t: C.World)
    requires WorksAt(w, op, flags, mem, at) && m == C.PointMove(w.rail, op, mem, at, flags, durations, w.proofs + 1)
    requires m.next.None?
    ensures ComesTo(w, op, durations, t) && t.rail == C.RailAfter(w.rail, m) && C.DiskOf(t, op) == DiskAfter(w, op, m)
    ensures op !in t.attempts
  {
    StepIs(w, op, flags, mem, at, durations, m);
    OneStep(w, op, durations);
    t := C.Apply(w, op, m);
  }

  /** A run that starts the attempt and then leaves it alone. */
  lemma StartsAndComesTo(w: C.World, op: OperationId, flags: C.Flags, durations: C.Durations, t: C.World) returns (n: nat)
    requires op in w.rail.terms && op !in w.attempts && ComesTo(C.Next(w, C.Start(op, flags)), op, durations, t)
    ensures C.RunAll(w, [C.Start(op, flags)] + Steps(op, durations, n)) == t
  {
    var v := C.Next(w, C.Start(op, flags));
    n :| t == C.RunAll(v, Steps(op, durations, n));
    OneMore(w, [], C.Start(op, flags));
    assert [] + [C.Start(op, flags)] == [C.Start(op, flags)];
    RunsAppend(w, [C.Start(op, flags)], Steps(op, durations, n));
  }

  lemma JustStarted(w: C.World, op: OperationId, flags: C.Flags)
    requires op in w.rail.terms && op !in w.attempts
    ensures var v := C.Next(w, C.Start(op, flags));
      WorksAt(v, op, flags, C.DiskOf(w, op), C.Load) && v.rail == w.rail && v.disks == w.disks && v.proofs == w.proofs
  {
  }
}

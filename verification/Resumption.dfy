/** An attempt on an operation that is burned on Canton comes back to the release, and changes nothing on its way. */
module Resumption {
  import opened Outcomes
  import E = Escrow
  import X = Exposure
  import opened OperationJournal
  import opened Rail
  import C = Coordinator
  import Known = CoordinatorSafety
  import Runs = CoordinatorRuns

  const PLAIN := C.Flags(false, false, false, None)

  lemma {:induction false} RunsAppend(w: C.World, first: seq<C.Event>, second: seq<C.Event>)
    ensures C.RunAll(w, first + second) == C.RunAll(C.RunAll(w, first), second)
    decreases |second|
  {
    if second == [] {
      assert first + second == first;
    } else {
      var init := second[..|second| - 1];
      assert (first + second)[..|first + second| - 1] == first + init;
      RunsAppend(w, first, init);
    }
  }

  lemma OneMore(w: C.World, events: seq<C.Event>, e: C.Event)
    ensures C.RunAll(w, events + [e]) == C.Next(C.RunAll(w, events), e)
  {
    assert (events + [e])[..|events|] == events;
  }

  // A new attempt goes back to the release ---------------------------------------------------------------------

  /** The operation is burned on Canton, and its reservation is not yet redeemed. */
  predicate AwaitsRelease(r: State, op: OperationId) {
    && op in r.terms
    && Approved(r, op) && Reservation(r, op, X.Finalized)
    && MintAuthorized(r, op)
    && op in r.canton && r.canton[op] == Stages(true, true, true, true)
  }

  predicate BurnIsRecorded(j: Journal) {
    Reached(j, Redeemed) && j.completed != Some(Cancelled) && j.mintExpiry != 0 && j.lockProof.Some?
  }

  /** The points an attempt passes on its way back, and the number of them. */
  function Passed(k: nat): C.Point {
    match k
    case 0 => C.Load
    case 1 => C.Halt(Accounts)
    case 2 => C.Deadline
    case 3 => C.Route
    case 4 => C.Reserve
    case 5 => C.Halt(Reserved)
    case 6 => C.Lock
    case 7 => C.Halt(Locked)
    case 8 => C.MintVotes
    case 9 => C.Halt(MintApproved)
    case 10 => C.Mint
    case 11 => C.Halt(CantonMinted)
    case 12 => C.Prepare
    case 13 => C.Halt(TradePrepared)
    case 14 => C.Reassign
    case 15 => C.Halt(Reassigned)
    case 16 => C.Settle
    case 17 => C.Halt(Settled)
    case 18 => C.Halt(Settled)
    case 19 => C.Burn
    case 20 => C.Halt(Redeemed)
    case _ => C.Release
  }

  const SETTLED_UNSAVED: nat := 17
  const WAY_BACK: nat := 21

  function AttemptAt(j: Journal, k: nat): C.Attempt {
    C.Attempt(j, Passed(k), PLAIN, k == SETTLED_UNSAVED)
  }

  lemma PassingChangesNothing(r: State, op: OperationId, j: Journal, k: nat, durations: C.Durations, proof: Bytes32)
    requires AwaitsRelease(r, op) && BurnIsRecorded(j) && k < WAY_BACK
    ensures var m := C.MoveOf(r, op, AttemptAt(j, k), durations, proof);
      && m.next == Some(C.Onward(j, Passed(k + 1), k + 1 == SETTLED_UNSAVED))
      && C.RailAfter(r, m) == r && (m.saved.Some? ==> m.saved.value == j) && !m.newProof
  {
    if k < 6 {
      OpeningChangesNothing(r, op, j, k, durations, proof);
    } else if k < 10 {
      LockingChangesNothing(r, op, j, k, durations, proof);
    } else {
      CantonChangesNothing(r, op, j, k, durations, proof);
    }
  }

  lemma OpeningChangesNothing(r: State, op: OperationId, j: Journal, k: nat, durations: C.Durations, proof: Bytes32)
    requires AwaitsRelease(r, op) && BurnIsRecorded(j) && k < 6
    ensures var m := C.MoveOf(r, op, AttemptAt(j, k), durations, proof);
      && m.next == Some(C.Onward(j, Passed(k + 1), false))
      && C.RailAfter(r, m) == r && (m.saved.Some? ==> m.saved.value == j) && !m.newProof
  {
    Known.ResumeMeans(r, op);
  }

  lemma LockingChangesNothing(r: State, op: OperationId, j: Journal, k: nat, durations: C.Durations, proof: Bytes32)
    requires AwaitsRelease(r, op) && BurnIsRecorded(j) && 6 <= k < 10
    ensures var m := C.MoveOf(r, op, AttemptAt(j, k), durations, proof);
      && m.next == Some(C.Onward(j, Passed(k + 1), false))
      && C.RailAfter(r, m) == r && (m.saved.Some? ==> m.saved.value == j) && !m.newProof
  {
  }

  lemma CantonChangesNothing(r: State, op: OperationId, j: Journal, k: nat, durations: C.Durations, proof: Bytes32)
    requires AwaitsRelease(r, op) && BurnIsRecorded(j) && 10 <= k < WAY_BACK
    ensures var m := C.MoveOf(r, op, AttemptAt(j, k), durations, proof);
      && m.next == Some(C.Onward(j, Passed(k + 1), k + 1 == SETTLED_UNSAVED))
      && C.RailAfter(r, m) == r && (m.saved.Some? ==> m.saved.value == j) && !m.newProof
  {
    assert r.canton[op := r.canton[op]] == r.canton;
  }

  function Steps(op: OperationId, durations: C.Durations, k: nat): seq<C.Event> {
    seq(k, _ => C.Run(op, durations))
  }

  function Returning(op: OperationId, durations: C.Durations): seq<C.Event> {
    [C.Start(op, PLAIN)] + Steps(op, durations, WAY_BACK)
  }

  /** No attempt is at work on the operation, and its saved journal records the burn. */
  predicate Rests(w: C.World, op: OperationId) {
    AwaitsRelease(w.rail, op) && op !in w.attempts && op in w.disks && BurnIsRecorded(w.disks[op])
  }

  function WithAttempt(w: C.World, op: OperationId, a: C.Attempt): C.World {
    w.(attempts := w.attempts[op := a])
  }

  lemma PassingOnce(w: C.World, op: OperationId, k: nat, durations: C.Durations)
    requires Rests(w, op) && k < WAY_BACK
    ensures C.Next(WithAttempt(w, op, AttemptAt(w.disks[op], k)), C.Run(op, durations)) == WithAttempt(w, op, AttemptAt(w.disks[op], k + 1))
  {
    var (j, v) := (w.disks[op], WithAttempt(w, op, AttemptAt(w.disks[op], k)));
    PassingChangesNothing(w.rail, op, j, k, durations, w.proofs + 1);
    assert w.disks[op := j] == w.disks;
    assert w.attempts[op := AttemptAt(j, k)][op := AttemptAt(j, k + 1)] == w.attempts[op := AttemptAt(j, k + 1)];
  }

  lemma ReturnsInSteps(w: C.World, op: OperationId, durations: C.Durations)
    requires Rests(w, op)
    ensures C.RunAll(WithAttempt(w, op, AttemptAt(w.disks[op], 0)), Steps(op, durations, WAY_BACK))
      == WithAttempt(w, op, AttemptAt(w.disks[op], WAY_BACK))
  {
    var worlds := seq(WAY_BACK + 1, k requires 0 <= k => WithAttempt(w, op, AttemptAt(w.disks[op], k)));
    forall i: nat | i < WAY_BACK ensures worlds[i + 1] == C.Next(worlds[i], Steps(op, durations, WAY_BACK)[i]) {
      PassingOnce(w, op, i, durations);
    }
    Runs.LeadsToTheRun(worlds, Steps(op, durations, WAY_BACK));
  }

  /** A new attempt comes back to the release and leaves chains and journals as they are. */
  lemma ReturnsToTheRelease(w: C.World, op: OperationId, durations: C.Durations)
    requires Rests(w, op)
    ensures C.RunAll(w, Returning(op, durations)) == WithAttempt(w, op, C.Attempt(w.disks[op], C.Release, PLAIN, false))
  {
    Starting(w, op);
    ReturnsInSteps(w, op, durations);
    LastPassed(w.disks[op]);
    Joins(w, [C.Start(op, PLAIN)], WithAttempt(w, op, AttemptAt(w.disks[op], 0)), Steps(op, durations, WAY_BACK),
          WithAttempt(w, op, AttemptAt(w.disks[op], WAY_BACK)));
  }

  lemma LastPassed(j: Journal)
    ensures AttemptAt(j, WAY_BACK) == C.Attempt(j, C.Release, PLAIN, false)
  {
  }

  lemma Joins(w: C.World, first: seq<C.Event>, v: C.World, second: seq<C.Event>, t: C.World)
    requires C.RunAll(w, first) == v && C.RunAll(v, second) == t
    ensures C.RunAll(w, first + second) == t
  {
    RunsAppend(w, first, second);
  }

  lemma Starting(w: C.World, op: OperationId)
    requires Rests(w, op)
    ensures C.RunAll(w, [C.Start(op, PLAIN)]) == WithAttempt(w, op, AttemptAt(w.disks[op], 0))
  {
    OneMore(w, [], C.Start(op, PLAIN));
    assert [] + [C.Start(op, PLAIN)] == [C.Start(op, PLAIN)];
  }
}

/** A locked operation can be refunded: an attempt that is to cancel gets there when it is left alone, and otherwise moves nothing. */
module CancelPath {
  import opened Outcomes
  import E = Escrow
  import S = EscrowSafety
  import X = Exposure
  import Agreement
  import opened Recovery
  import opened OperationJournal
  import opened Rail
  import RailSafety
  import C = Coordinator
  import Known = CoordinatorSafety
  import Runs = CoordinatorRuns
  import opened ReleaseMaterials
  import opened Resumption
  import opened LeftAlone
  import opened Voting
  import opened Progress

  const CANCELLING := C.Flags(true, false, false, None)

  function CancelSlot(op: OperationId): E.Slot {
    E.Slot(op, E.DIRECTION_CANCEL)
  }

  /** The receipt is locked on the terms of the operation, to be refunded to its source. */
  predicate LockedForSource(r: State, op: OperationId)
    requires op in r.terms
  {
    && HasStatus(r, op, E.Locked)
    && var receipt := r.escrow.receipts[op];
       && receipt.commitment == CommitmentOf(r.terms[op]) && receipt.reservation == op && receipt.previous == 0
       && receipt.destination == r.terms[op].source
  }

  /** No vote to cancel was ever recorded. */
  predicate NeverVotedOn(r: State, op: OperationId) {
    CancelSlot(op) !in r.escrow.approvals
  }

  /** What is over once the value went back. */
  predicate Refunds(r: State, t: State, op: OperationId)
    requires op in r.terms
  {
    && t.terms == r.terms && HasStatus(t, op, E.Cancelled) && t.zama == r.zama
    && t.escrow.vault == r.escrow.vault - r.terms[op].amount
  }

  // The movement ---------------------------------------------------------------------------------------------------

  lemma CancelIsVotable(r: State, op: OperationId, expiry: int, proof: Bytes32)
    requires op in r.terms && LockedForSource(r, op) && NeverVotedOn(r, op) && r.escrow.now < expiry
    ensures Votable(r, C.CancelArgs(r.terms[op], op, expiry, proof)) && ApprovalFits(r.escrow, C.CancelArgs(r.terms[op], op, expiry, proof))
  {
  }

  lemma CancelSucceeds(r: State, op: OperationId, expiry: int, proof: Bytes32)
    requires op in r.terms && S.Inv(r.escrow) && LockedForSource(r, op) && r.escrow.now < expiry
    requires VotesLack(r.escrow, C.CancelArgs(r.terms[op], op, expiry, proof), false, false)
    ensures var args := C.CancelArgs(r.terms[op], op, expiry, proof);
      E.CancelConfidential(r.escrow, op, E.DIRECTION_CANCEL, C.MovementOf(args)).Ok?
  {
    var s := r.escrow;
    var args := C.CancelArgs(r.terms[op], op, expiry, proof);
    assert S.ReceiptGood(s, op);
    assert S.ApprovalGood(s.config, s.signed, s.receipts[op], CancelSlot(op), s.approvals[CancelSlot(op)]);
    TwoAreThere(s, args);
    S.VaultNeverTooSmall(s, op, E.DIRECTION_CANCEL, C.MovementOf(args), E.DIRECTION_CANCEL);
  }

  lemma CancelMoveIs(r: State, op: OperationId, mem: Journal, args: E.ApproveArgs)
    requires op in r.terms && args.operation == op && args.commitment == CommitmentOf(r.terms[op])
    requires E.CancelConfidential(r.escrow, op, E.DIRECTION_CANCEL, C.MovementOf(args)).Ok?
    ensures var a := Solana(E.SubmitMove(op, E.DIRECTION_CANCEL, C.MovementOf(args), false));
      C.AtSubmitCancel(r, op, mem, args) == C.Act(a, mem, C.CancelReservation) && Refunds(r, Take(r, a), op)
  {
  }

  lemma MovesBack(w: C.World, op: OperationId, flags: C.Flags, mem: Journal, args: E.ApproveArgs, durations: C.Durations) returns (t: C.World)
    requires WorksAt(w, op, flags, mem, C.SubmitCancel(args)) && args.operation == op && args.commitment == CommitmentOf(w.rail.terms[op])
    requires E.CancelConfidential(w.rail.escrow, op, E.DIRECTION_CANCEL, C.MovementOf(args)).Ok?
    ensures ComesTo(w, op, durations, t) && WorksAt(t, op, flags, mem, C.CancelReservation) && Refunds(w.rail, t.rail, op)
  {
    CancelMoveIs(w.rail, op, mem, args);
    var a := Solana(E.SubmitMove(op, E.DIRECTION_CANCEL, C.MovementOf(args), false));
    t := MovesOn(w, op, flags, mem, C.SubmitCancel(args), durations, C.Act(a, mem, C.CancelReservation));
  }

  lemma CancelCounts(w: C.World, op: OperationId, flags: C.Flags, mem: Journal, args: E.ApproveArgs, durations: C.Durations) returns (t: C.World)
    requires WorksAt(w, op, flags, mem, C.VotesCast(args)) && args.direction == E.DIRECTION_CANCEL && C.TwoOfThree(w.rail.escrow, args)
    ensures ComesTo(w, op, durations, t) && WorksAt(t, op, flags, mem, C.SubmitCancel(args)) && t.rail == w.rail
  {
    t := MovesOn(w, op, flags, mem, C.VotesCast(args), durations, C.Goto(mem, C.SubmitCancel(args)));
  }

  lemma CancelMove(r: State, op: OperationId, mem: Journal, proof: Bytes32)
    requires op in r.terms && HasStatus(r, op, E.Locked)
    ensures C.AtCancel(r, op, mem, proof)
      == C.Goto(mem, C.Decide(C.CancelArgs(r.terms[op], op, r.escrow.now + 3600, proof))).(newProof := true)
  {
  }

  lemma AsksToCancel(w: C.World, op: OperationId, flags: C.Flags, mem: Journal, durations: C.Durations) returns (t: C.World)
    requires WorksAt(w, op, flags, mem, C.Cancel) && HasStatus(w.rail, op, E.Locked)
    ensures ComesTo(w, op, durations, t) && t.rail == w.rail
    ensures WorksAt(t, op, flags, mem, C.Decide(C.CancelArgs(w.rail.terms[op], op, w.rail.escrow.now + 3600, w.proofs + 1)))
  {
    var m := C.Goto(mem, C.Decide(C.CancelArgs(w.rail.terms[op], op, w.rail.escrow.now + 3600, w.proofs + 1))).(newProof := true);
    CancelMove(w.rail, op, mem, w.proofs + 1);
    t := MovesOn(w, op, flags, mem, C.Cancel, durations, m);
  }

  lemma VotingKeepsTheLock(r: State, t: State, op: OperationId, args: E.ApproveArgs)
    requires op in r.terms && LockedForSource(r, op) && VotedFrom(r, t, args) && args.direction == E.DIRECTION_CANCEL
    ensures t.terms == r.terms && LockedForSource(t, op) && t.zama == r.zama && t.escrow.vault == r.escrow.vault && t.escrow.now == r.escrow.now
  {
  }

  /** Two votes that were counted move the locked value back. */
  lemma CountsAndMovesBack(w: C.World, op: OperationId, flags: C.Flags, mem: Journal, expiry: int, proof: Bytes32, durations: C.Durations)
    returns (t: C.World)
    requires S.Inv(w.rail.escrow) && op in w.rail.terms && LockedForSource(w.rail, op) && w.rail.escrow.now < expiry
    requires WorksAt(w, op, flags, mem, C.VotesCast(C.CancelArgs(w.rail.terms[op], op, expiry, proof)))
    requires VotesLack(w.rail.escrow, C.CancelArgs(w.rail.terms[op], op, expiry, proof), false, false)
    ensures ComesTo(w, op, durations, t) && WorksAt(t, op, flags, mem, C.CancelReservation) && Refunds(w.rail, t.rail, op)
  {
    var args := C.CancelArgs(w.rail.terms[op], op, expiry, proof);
    TwoAreThere(w.rail.escrow, args);
    CancelSucceeds(w.rail, op, expiry, proof);
    var u := CancelCounts(w, op, flags, mem, args, durations);
    t := MovesBack(u, op, flags, mem, args, durations);
    ComesOn(w, op, durations, u, t);
  }

  lemma VotesAndMovesBack(w: C.World, op: OperationId, flags: C.Flags, mem: Journal, expiry: int, proof: Bytes32, durations: C.Durations)
    returns (t: C.World)
    requires Known.Faithful(w) && op in w.rail.terms && LockedForSource(w.rail, op) && NeverVotedOn(w.rail, op) && w.rail.escrow.now < expiry
    requires WorksAt(w, op, flags, mem, C.Decide(C.CancelArgs(w.rail.terms[op], op, expiry, proof)))
    ensures ComesTo(w, op, durations, t) && WorksAt(t, op, flags, mem, C.CancelReservation) && Refunds(w.rail, t.rail, op)
  {
    var args := C.CancelArgs(w.rail.terms[op], op, expiry, proof);
    CancelIsVotable(w.rail, op, expiry, proof);
    var u := DecidesAndCollects(w, op, flags, mem, args, durations);
    StaysFaithful(w, op, durations, u);
    VotingKeepsTheLock(w.rail, u.rail, op, args);
    t := CountsAndMovesBack(u, op, flags, mem, expiry, proof, durations);
    ComesOn(w, op, durations, u, t);
  }

  /** From the cancel point of a locked operation the value goes back. */
  lemma CancelsLocked(w: C.World, op: OperationId, flags: C.Flags, mem: Journal, durations: C.Durations) returns (t: C.World)
    requires Known.Faithful(w) && WorksAt(w, op, flags, mem, C.Cancel) && LockedForSource(w.rail, op) && NeverVotedOn(w.rail, op)
    ensures ComesTo(w, op, durations, t) && WorksAt(t, op, flags, mem, C.CancelReservation) && Refunds(w.rail, t.rail, op)
  {
    var u := AsksToCancel(w, op, flags, mem, durations);
    StaysFaithful(w, op, durations, u);
    t := VotesAndMovesBack(u, op, flags, mem, w.rail.escrow.now + 3600, w.proofs + 1, durations);
    ComesOn(w, op, durations, u, t);
  }

  // The reservation and the journal --------------------------------------------------------------------------------------

  predicate Cancellable(r: State, op: OperationId) {
    Reservation(r, op, X.Reserved) || Reservation(r, op, X.Cancelled)
  }

  lemma CancelReservationMove(r: State, op: OperationId, mem: Journal)
    requires Cancellable(r, op)
    ensures var m := C.AtCancelReservation(r, op, mem);
      && m.next.Some? && m.next.value.mem == mem && m.next.value.at == C.CheckVault
      && Reservation(C.RailAfter(r, m), op, X.Cancelled) && C.RailAfter(r, m) == r.(zama := C.RailAfter(r, m).zama)
  {
  }

  lemma CancelsReservation(w: C.World, op: OperationId, flags: C.Flags, mem: Journal, durations: C.Durations) returns (t: C.World)
    requires WorksAt(w, op, flags, mem, C.CancelReservation) && Cancellable(w.rail, op)
    ensures ComesTo(w, op, durations, t) && WorksAt(t, op, flags, mem, C.CheckVault)
    ensures Reservation(t.rail, op, X.Cancelled) && t.rail == w.rail.(zama := t.rail.zama)
  {
    CancelReservationMove(w.rail, op, mem);
    t := MovesOn(w, op, flags, mem, C.CancelReservation, durations, C.AtCancelReservation(w.rail, op, mem));
  }

  lemma LastHalt(mem: Journal, flags: C.Flags)
    requires !flags.omitSave
    ensures var m := C.AtHalt(mem, flags, Step.Cancelled);
      && m.action.None? && m.next.None?
      && (mem.completed != Some(Step.Cancelled) ==> m.saved.Some? && m.saved.value.completed == Some(Step.Cancelled))
  {
  }

  lemma RecordsCancel(w: C.World, op: OperationId, flags: C.Flags, mem: Journal, durations: C.Durations) returns (t: C.World)
    requires WorksAt(w, op, flags, mem, C.Halt(Step.Cancelled)) && !flags.omitSave
    ensures ComesTo(w, op, durations, t) && t.rail == w.rail && op !in t.attempts
    ensures mem.completed != Some(Step.Cancelled) ==> C.DiskOf(t, op).completed == Some(Step.Cancelled)
  {
    LastHalt(mem, flags);
    var m := C.AtHalt(mem, flags, Step.Cancelled);
    t := MovesOut(w, op, flags, mem, C.Halt(Step.Cancelled), durations, m);
  }

  lemma FindsVaultEmpty(w: C.World, op: OperationId, flags: C.Flags, mem: Journal, durations: C.Durations) returns (t: C.World)
    requires WorksAt(w, op, flags, mem, C.CheckVault) && w.rail.escrow.vault == 0
    ensures ComesTo(w, op, durations, t) && t.rail == w.rail && WorksAt(t, op, flags, mem, C.Halt(Step.Cancelled))
  {
    t := MovesOn(w, op, flags, mem, C.CheckVault, durations, C.Goto(mem, C.Halt(Step.Cancelled)));
  }

  lemma FindsVaultInUse(w: C.World, op: OperationId, flags: C.Flags, mem: Journal, durations: C.Durations) returns (t: C.World)
    requires WorksAt(w, op, flags, mem, C.CheckVault) && w.rail.escrow.vault != 0
    ensures ComesTo(w, op, durations, t) && t.rail == w.rail && op !in t.attempts
  {
    t := MovesOut(w, op, flags, mem, C.CheckVault, durations, C.END);
  }

  /** With an empty vault the journal says cancelled; with another operation's value in it the attempt ends without saying so. */
  lemma ChecksVault(w: C.World, op: OperationId, flags: C.Flags, mem: Journal, durations: C.Durations) returns (t: C.World)
    requires WorksAt(w, op, flags, mem, C.CheckVault) && !flags.omitSave
    ensures ComesTo(w, op, durations, t) && t.rail == w.rail && op !in t.attempts
    ensures w.rail.escrow.vault == 0 && mem.completed != Some(Step.Cancelled) ==> C.DiskOf(t, op).completed == Some(Step.Cancelled)
  {
    if w.rail.escrow.vault == 0 {
      var u := FindsVaultEmpty(w, op, flags, mem, durations);
      t := RecordsCancel(u, op, flags, mem, durations);
      ComesOn(w, op, durations, u, t);
    } else {
      t := FindsVaultInUse(w, op, flags, mem, durations);
    }
  }

  /** From the refunded receipt to the cancelled reservation and the end. */
  lemma ClosesCancel(w: C.World, op: OperationId, flags: C.Flags, mem: Journal, durations: C.Durations) returns (t: C.World)
    requires WorksAt(w, op, flags, mem, C.CancelReservation) && Cancellable(w.rail, op) && !flags.omitSave
    ensures ComesTo(w, op, durations, t) && op !in t.attempts
    ensures Reservation(t.rail, op, X.Cancelled) && t.rail == w.rail.(zama := t.rail.zama)
    ensures w.rail.escrow.vault == 0 && mem.completed != Some(Step.Cancelled) ==> C.DiskOf(t, op).completed == Some(Step.Cancelled)
  {
    var u := CancelsReservation(w, op, flags, mem, durations);
    t := ChecksVault(u, op, flags, mem, durations);
    ComesOn(w, op, durations, u, t);
  }

  lemma FindsItCancelled(w: C.World, op: OperationId, flags: C.Flags, mem: Journal, durations: C.Durations) returns (t: C.World)
    requires WorksAt(w, op, flags, mem, C.Cancel) && HasStatus(w.rail, op, E.Cancelled)
    ensures ComesTo(w, op, durations, t) && WorksAt(t, op, flags, mem, C.CancelReservation) && t.rail == w.rail
  {
    t := MovesOn(w, op, flags, mem, C.Cancel, durations, C.Goto(mem, C.CancelReservation));
  }

  // The whole way ------------------------------------------------------------------------------------------------------

  /** The receipt is cancelled already, or locked and never voted on for a cancel; and the reservation can be cancelled. */
  predicate CanBeCancelled(r: State, op: OperationId)
    requires op in r.terms
  {
    && Cancellable(r, op)
    && (HasStatus(r, op, E.Cancelled) || (LockedForSource(r, op) && NeverVotedOn(r, op)))
  }

  /** What leaves the vault for the operation. */
  function Refund(r: State, op: OperationId): nat
    requires op in r.terms
  {
    if HasStatus(r, op, E.Cancelled) then 0 else r.terms[op].amount
  }

  /** From the cancel point to the end. */
  lemma CancelsFromHere(w: C.World, op: OperationId, flags: C.Flags, mem: Journal, durations: C.Durations) returns (t: C.World)
    requires Known.Faithful(w) && WorksAt(w, op, flags, mem, C.Cancel) && CanBeCancelled(w.rail, op) && !flags.omitSave
    ensures ComesTo(w, op, durations, t) && op !in t.attempts && Known.Refunded(t.rail, op)
    ensures t.rail.escrow.vault == w.rail.escrow.vault - Refund(w.rail, op)
    ensures t.rail.escrow.vault == 0 && mem.completed != Some(Step.Cancelled) ==> C.DiskOf(t, op).completed == Some(Step.Cancelled)
  {
    var u;
    if HasStatus(w.rail, op, E.Cancelled) {
      u := FindsItCancelled(w, op, flags, mem, durations);
    } else {
      u := CancelsLocked(w, op, flags, mem, durations);
    }
    t := ClosesCancel(u, op, flags, mem, durations);
    ComesOn(w, op, durations, u, t);
  }

  lemma GoesToCancel(w: C.World, op: OperationId, flags: C.Flags, mem: Journal, durations: C.Durations) returns (t: C.World)
    requires WorksAt(w, op, flags, mem, C.Route) && (flags.cancelLocked || mem.completed == Some(Step.Cancelled))
    ensures ComesTo(w, op, durations, t) && WorksAt(t, op, flags, mem, C.Cancel) && t.rail == w.rail
  {
    t := MovesOn(w, op, flags, mem, C.Route, durations, C.Goto(mem, C.Cancel));
  }

  /** From the start to the cancel point nothing changes on the chains. */
  lemma StartsToCancel(v: C.World, op: OperationId, mem: Journal, durations: C.Durations) returns (t: C.World, next: Journal)
    requires WorksAt(v, op, CANCELLING, mem, C.Load) && !(Approved(v.rail, op) && Reservation(v.rail, op, X.Redeemed))
    ensures ComesTo(v, op, durations, t) && WorksAt(t, op, CANCELLING, next, C.Cancel) && t.rail == v.rail
    ensures mem.completed != Some(Step.Cancelled) ==> next.completed != Some(Step.Cancelled)
  {
    var u;
    u, next := Progress.Starts(v, op, CANCELLING, mem, durations);
    t := GoesToCancel(u, op, CANCELLING, next, durations);
    ComesOn(v, op, durations, u, t);
  }

  lemma StartStaysFaithfulToCancel(w: C.World, op: OperationId)
    requires Known.Faithful(w) && op in w.rail.terms && op !in w.attempts
    ensures Known.Faithful(C.Next(w, C.Start(op, CANCELLING)))
  {
    Runs.NextKeepsInv(w, C.Start(op, CANCELLING));
  }

  lemma CancelsFromRest(w: C.World, op: OperationId, durations: C.Durations) returns (t: C.World)
    requires Known.Faithful(w) && op in w.rail.terms && op !in w.attempts && CanBeCancelled(w.rail, op)
    ensures ComesTo(C.Next(w, C.Start(op, CANCELLING)), op, durations, t)
    ensures op !in t.attempts && Known.Refunded(t.rail, op) && t.rail.escrow.vault == w.rail.escrow.vault - Refund(w.rail, op)
    ensures t.rail.escrow.vault == 0 && C.DiskOf(w, op).completed != Some(Step.Cancelled) ==>
      C.DiskOf(t, op).completed == Some(Step.Cancelled)
  {
    var v := C.Next(w, C.Start(op, CANCELLING));
    StartStaysFaithfulToCancel(w, op);
    JustStarted(w, op, CANCELLING);
    var u, mem := StartsToCancel(v, op, C.DiskOf(w, op), durations);
    StaysFaithful(v, op, durations, u);
    t := CancelsFromHere(u, op, CANCELLING, mem, durations);
    ComesOn(v, op, durations, u, t);
  }

  /**
   * From every faithful world at rest in which the operation can be cancelled, an attempt that is to cancel and is left alone
   * refunds exactly its amount and cancels its reservation; if nothing else is in the vault the journal records it.
   */
  lemma EveryLockedOperationCanBeRefunded(w: C.World, op: OperationId, durations: C.Durations) returns (n: nat)
    requires Known.Faithful(w) && op in w.rail.terms && op !in w.attempts && CanBeCancelled(w.rail, op)
    ensures var t := C.RunAll(w, [C.Start(op, CANCELLING)] + Steps(op, durations, n));
      && op !in t.attempts && Known.Refunded(t.rail, op) && t.rail.escrow.vault == w.rail.escrow.vault - Refund(w.rail, op)
      && (t.rail.escrow.vault == 0 && C.DiskOf(w, op).completed != Some(Step.Cancelled) ==>
            C.DiskOf(t, op).completed == Some(Step.Cancelled))
  {
    var t := CancelsFromRest(w, op, durations);
    n := StartsAndComesTo(w, op, CANCELLING, durations, t);
  }
  // When an attempt to cancel moves nothing --------------------------------------------------------------------------------

  /** The receipt is locked on the operation's terms and was never voted on for a cancel. */
  predicate MayRefund(r: State, op: OperationId)
    requires op in r.terms
  {
    LockedForSource(r, op) && NeverVotedOn(r, op)
  }

  /** A recorded vote is not on the proof that the next request will carry. */
  predicate NextProofUnused(r: State, op: OperationId, proof: Bytes32) {
    CancelSlot(op) in r.escrow.approvals && r.escrow.approvals[CancelSlot(op)].digest.OperationDigest? ==>
      r.escrow.approvals[CancelSlot(op)].digest.proof != proof
  }

  predicate BeforeCancel(at: C.Point) {
    || at.Load? || at == C.Halt(Accounts) || at.Deadline? || at.Route? || at.Cancel?
    || at.RecordCompleted? || at == C.Halt(ZamaRedeemed)
  }

  /** The program refuses every vote on the request. */
  predicate Refused(r: State, args: E.ApproveArgs) {
    E.CheckApproveArgs(r.escrow, args).Fail?
  }

  /** Why the attempt will not cancel, at each of the points it can be at. */
  predicate Obstructed(r: State, op: OperationId, at: C.Point, proof: Bytes32)
    requires op in r.terms
  {
    match at
    case Decide(args) => Agreement.Needed(r.escrow, args).Err? || (Refused(r, args) && SlotOf(args) !in r.escrow.approvals)
    case Voting(args, first, second) => Refused(r, args) && (first || second)
    case Submitting(args, _, _) => Refused(r, args)
    case _ => BeforeCancel(at) && !HasStatus(r, op, E.Cancelled) && !MayRefund(r, op) && NextProofUnused(r, op, proof)
  }

  /** The move signs at most, and after it the attempt is over or still obstructed. */
  predicate StaysObstructed(r: State, op: OperationId, m: C.Move, proof: Bytes32)
    requires op in r.terms
  {
    && (m.action.Some? ==> m.action.value.Solana? && m.action.value.event.Sign?)
    && (m.next.Some? ==>
          && !m.next.value.unsaved && op in C.RailAfter(r, m).terms
          && Obstructed(C.RailAfter(r, m), op, m.next.value.at, if m.newProof then proof + 1 else proof))
  }

  lemma ObstructedRequest(r: State, op: OperationId, proof: Bytes32)
    requires op in r.terms && HasStatus(r, op, E.Locked) && r.escrow.receipts[op].operation == op
    requires !MayRefund(r, op) && NextProofUnused(r, op, proof)
    ensures var args := C.CancelArgs(r.terms[op], op, r.escrow.now + 3600, proof);
      Agreement.Needed(r.escrow, args).Err? || (Refused(r, args) && SlotOf(args) !in r.escrow.approvals)
  {
  }

  lemma ObstructedCancel(r: State, op: OperationId, mem: Journal, proof: Bytes32)
    requires op in r.terms && Obstructed(r, op, C.Cancel, proof) && (op in r.escrow.receipts ==> r.escrow.receipts[op].operation == op)
    ensures StaysObstructed(r, op, C.AtCancel(r, op, mem, proof), proof)
  {
    if HasStatus(r, op, E.Locked) {
      ObstructedRequest(r, op, proof);
    }
  }

  lemma ObstructedVote(r: State, op: OperationId, mem: Journal, at: C.Point, proof: Bytes32)
    requires op in r.terms && Obstructed(r, op, at, proof)
    ensures at.Decide? ==> StaysObstructed(r, op, C.AtDecide(r, mem, at.args), proof)
    ensures at.Voting? ==> StaysObstructed(r, op, C.AtVoting(r, mem, at.args, at.first, at.second), proof)
    ensures at.Submitting? ==> StaysObstructed(r, op, C.AtSubmitting(r, mem, at.args, at.index, at.second), proof)
  {
  }

  lemma ObstructedStart(r: State, op: OperationId, mem: Journal, at: C.Point, durations: C.Durations, proof: Bytes32)
    requires op in r.terms && Obstructed(r, op, at, proof)
    ensures at.Load? ==> StaysObstructed(r, op, C.AtLoad(r, op, mem), proof)
    ensures at.Deadline? ==> StaysObstructed(r, op, C.AtDeadline(r, mem, durations.mint), proof)
    ensures at.Route? ==> StaysObstructed(r, op, C.AtRoute(mem, CANCELLING), proof)
    ensures at.RecordCompleted? ==> StaysObstructed(r, op, C.AtRecordCompleted(r, op, mem), proof)
  {
  }

  lemma EarlyHalt(mem: Journal, step: Step)
    requires BeforeCancel(C.Halt(step))
    ensures var m := C.AtHalt(mem, CANCELLING, step);
      m.action.None? && !m.newProof && (m.next.Some? ==> !m.next.value.unsaved && m.next.value.at == C.Deadline)
  {
  }

  lemma ObstructedHalt(r: State, op: OperationId, mem: Journal, step: Step, proof: Bytes32)
    requires op in r.terms && Obstructed(r, op, C.Halt(step), proof)
    ensures StaysObstructed(r, op, C.AtHalt(mem, CANCELLING, step), proof)
  {
    EarlyHalt(mem, step);
  }

  lemma ObstructedPoint(r: State, op: OperationId, mem: Journal, at: C.Point, durations: C.Durations, proof: Bytes32)
    requires op in r.terms && Obstructed(r, op, at, proof)
    requires op in r.escrow.receipts ==> r.escrow.receipts[op].operation == op
    ensures StaysObstructed(r, op, C.PointMove(r, op, mem, at, CANCELLING, durations, proof), proof)
  {
    if at.Cancel? {
      ObstructedCancel(r, op, mem, proof);
    } else if at.Decide? || at.Voting? || at.Submitting? {
      ObstructedVote(r, op, mem, at, proof);
    } else if at.Halt? {
      ObstructedHalt(r, op, mem, at.step, proof);
    } else {
      ObstructedStart(r, op, mem, at, durations, proof);
    }
  }

  lemma ObstructedMove(r: State, op: OperationId, a: C.Attempt, durations: C.Durations, proof: Bytes32)
    requires op in r.terms && Obstructed(r, op, a.at, proof) && a.flags == CANCELLING && !a.unsaved
    requires op in r.escrow.receipts ==> r.escrow.receipts[op].operation == op
    ensures StaysObstructed(r, op, C.MoveOf(r, op, a, durations, proof), proof)
  {
    ObstructedPoint(r, op, a.mem, a.at, durations, proof);
  }

  /** The attempt, if it is still at work, is obstructed. */
  predicate WillNotCancel(w: C.World, op: OperationId) {
    && op in w.rail.terms && (op in w.rail.escrow.receipts ==> w.rail.escrow.receipts[op].operation == op)
    && (op in w.attempts ==>
          w.attempts[op].flags == CANCELLING && !w.attempts[op].unsaved && Obstructed(w.rail, op, w.attempts[op].at, w.proofs + 1))
  }

  /** Nothing but signatures changed on the chains. */
  predicate OnlySigned(r: State, t: State) {
    t == r.(escrow := r.escrow.(signed := t.escrow.signed))
  }

  lemma SigningOnlySigns(r: State, op: OperationId, m: C.Move, proof: Bytes32)
    requires op in r.terms && StaysObstructed(r, op, m, proof)
    ensures OnlySigned(r, C.RailAfter(r, m))
  {
  }

  lemma AppliedObstructed(w: C.World, op: OperationId, m: C.Move)
    requires WillNotCancel(w, op) && op in w.attempts && StaysObstructed(w.rail, op, m, w.proofs + 1)
    ensures WillNotCancel(C.Apply(w, op, m), op) && OnlySigned(w.rail, C.Apply(w, op, m).rail)
  {
    SigningOnlySigns(w.rail, op, m, w.proofs + 1);
  }

  lemma StepWillNotCancel(w: C.World, op: OperationId, durations: C.Durations)
    requires WillNotCancel(w, op)
    ensures var t := C.Next(w, C.Run(op, durations)); WillNotCancel(t, op) && OnlySigned(w.rail, t.rail)
  {
    if op in w.attempts {
      ObstructedMove(w.rail, op, w.attempts[op], durations, w.proofs + 1);
      AppliedObstructed(w, op, C.MoveOf(w.rail, op, w.attempts[op], durations, w.proofs + 1));
    }
  }

  lemma {:induction false} AloneWillNotCancel(w: C.World, op: OperationId, durations: C.Durations, n: nat)
    requires WillNotCancel(w, op)
    ensures var t := C.RunAll(w, Steps(op, durations, n)); WillNotCancel(t, op) && OnlySigned(w.rail, t.rail)
  {
    if n > 0 {
      AloneWillNotCancel(w, op, durations, n - 1);
      assert Steps(op, durations, n) == Steps(op, durations, n - 1) + [C.Run(op, durations)];
      OneMore(w, Steps(op, durations, n - 1), C.Run(op, durations));
      StepWillNotCancel(C.RunAll(w, Steps(op, durations, n - 1)), op, durations);
    }
  }

  lemma ObstructedAtStart(w: C.World, op: OperationId)
    requires Known.Faithful(w) && op in w.rail.terms && op !in w.attempts
    requires !HasStatus(w.rail, op, E.Cancelled) && !MayRefund(w.rail, op) && NextProofUnused(w.rail, op, w.proofs + 1)
    ensures WillNotCancel(C.Next(w, C.Start(op, CANCELLING)), op)
  {
    JustStarted(w, op, CANCELLING);
    assert op in w.rail.escrow.receipts ==> S.ReceiptGood(w.rail.escrow, op);
  }

  /** An attempt to cancel that may not refund leaves receipts, approvals, vault and reservations as they are. */
  lemma NothingIsCancelled(w: C.World, op: OperationId, durations: C.Durations, n: nat)
    requires Known.Faithful(w) && op in w.rail.terms && op !in w.attempts
    requires !HasStatus(w.rail, op, E.Cancelled) && !MayRefund(w.rail, op) && NextProofUnused(w.rail, op, w.proofs + 1)
    ensures OnlySigned(w.rail, C.RunAll(w, [C.Start(op, CANCELLING)] + Steps(op, durations, n)).rail)
  {
    ObstructedAtStart(w, op);
    var v := C.Next(w, C.Start(op, CANCELLING));
    AloneWillNotCancel(v, op, durations, n);
    OneMore(w, [], C.Start(op, CANCELLING));
    assert [] + [C.Start(op, CANCELLING)] == [C.Start(op, CANCELLING)];
    RunsAppend(w, [C.Start(op, CANCELLING)], Steps(op, durations, n));
  }

  ghost predicate Cancels(w: C.World, op: OperationId, durations: C.Durations) {
    exists n: nat :: HasStatus(C.RunAll(w, [C.Start(op, CANCELLING)] + Steps(op, durations, n)).rail, op, E.Cancelled)
  }

  lemma RefundsFromRest(w: C.World, op: OperationId, durations: C.Durations) returns (n: nat)
    requires Known.Faithful(w) && op in w.rail.terms && op !in w.attempts && MayRefund(w.rail, op)
    ensures HasStatus(C.RunAll(w, [C.Start(op, CANCELLING)] + Steps(op, durations, n)).rail, op, E.Cancelled)
  {
    var v := C.Next(w, C.Start(op, CANCELLING));
    StartStaysFaithfulToCancel(w, op);
    JustStarted(w, op, CANCELLING);
    var u, mem := StartsToCancel(v, op, C.DiskOf(w, op), durations);
    StaysFaithful(v, op, durations, u);
    var t := CancelsLocked(u, op, CANCELLING, mem, durations);
    ComesOn(v, op, durations, u, t);
    n := StartsAndComesTo(w, op, CANCELLING, durations, t);
  }

  /** An attempt to cancel that is left alone cancels a receipt exactly when it is locked on its terms and never voted on. */
  lemma CancelsExactlyWhenItMay(w: C.World, op: OperationId, durations: C.Durations)
    requires Known.Faithful(w) && op in w.rail.terms && op !in w.attempts
    requires !HasStatus(w.rail, op, E.Cancelled) && NextProofUnused(w.rail, op, w.proofs + 1)
    ensures Cancels(w, op, durations) <==> MayRefund(w.rail, op)
  {
    if MayRefund(w.rail, op) {
      var n := RefundsFromRest(w, op, durations);
    } else {
      forall n: nat ensures !HasStatus(C.RunAll(w, [C.Start(op, CANCELLING)] + Steps(op, durations, n)).rail, op, E.Cancelled) {
        NothingIsCancelled(w, op, durations, n);
      }
    }
  }
  // After the deadline -----------------------------------------------------------------------------------------------------

  const RECOVERING := C.Flags(false, true, false, None)

  /** A locked operation whose deadline is over gets no more votes for its mint. */
  lemma MintIsRefused(r: State, op: OperationId, mem: Journal)
    requires S.Inv(r.escrow) && op in r.terms && HasStatus(r, op, E.Locked) && mem.mintExpiry <= r.escrow.now
    ensures Agreement.Needed(r.escrow, C.MintArgs(r.terms[op], op, mem)).Err?
  {
    var s := r.escrow;
    var slot := E.Slot(op, E.DIRECTION_MINT);
    assert S.ReceiptGood(s, op);
    if slot in s.approvals {
      assert S.ApprovalGood(s.config, s.signed, s.receipts[op], slot, s.approvals[slot]);
      Known.OnesAreSigners(s.approvals[slot].bitmap);
    }
  }

  lemma ExpireMove(r: State, op: OperationId, mem: Journal)
    requires S.Inv(r.escrow) && op in r.terms && HasStatus(r, op, E.Locked)
    ensures C.AtExpire(r, op, mem) == C.Goto(mem, if mem.mintExpiry <= r.escrow.now then C.Cancel else C.Expire)
  {
    if mem.mintExpiry <= r.escrow.now {
      MintIsRefused(r, op, mem);
    }
  }

  lemma FindsLockToRecover(w: C.World, op: OperationId, mem: Journal, durations: C.Durations) returns (t: C.World)
    requires WorksAt(w, op, RECOVERING, mem, C.Lock) && op in w.rail.escrow.receipts
    ensures ComesTo(w, op, durations, t) && WorksAt(t, op, RECOVERING, LockedJournal(mem, 0, true), C.Expire) && t.rail == w.rail
  {
    t := MovesOn(w, op, RECOVERING, mem, C.Lock, durations, C.Goto(LockedJournal(mem, 0, true), C.Expire));
  }

  lemma Expires(w: C.World, op: OperationId, mem: Journal, durations: C.Durations) returns (t: C.World)
    requires S.Inv(w.rail.escrow) && WorksAt(w, op, RECOVERING, mem, C.Expire) && HasStatus(w.rail, op, E.Locked)
    requires mem.mintExpiry <= w.rail.escrow.now
    ensures ComesTo(w, op, durations, t) && WorksAt(t, op, RECOVERING, mem, C.Cancel) && t.rail == w.rail
  {
    ExpireMove(w.rail, op, mem);
    t := MovesOn(w, op, RECOVERING, mem, C.Expire, durations, C.Goto(mem, C.Cancel));
  }

  lemma WaitsOnce(w: C.World, op: OperationId, mem: Journal, durations: C.Durations)
    requires S.Inv(w.rail.escrow) && WorksAt(w, op, RECOVERING, mem, C.Expire) && HasStatus(w.rail, op, E.Locked)
    requires w.rail.escrow.now < mem.mintExpiry
    ensures C.Next(w, C.Run(op, durations)) == w
  {
    ExpireMove(w.rail, op, mem);
    StepIs(w, op, RECOVERING, mem, C.Expire, durations, C.Goto(mem, C.Expire));
    assert w.attempts[op := w.attempts[op]] == w.attempts;
  }

  /** Until the deadline the attempt waits, and changes nothing. */
  lemma {:induction false} WaitsForTheDeadline(w: C.World, op: OperationId, mem: Journal, durations: C.Durations, n: nat)
    requires S.Inv(w.rail.escrow) && WorksAt(w, op, RECOVERING, mem, C.Expire) && HasStatus(w.rail, op, E.Locked)
    requires w.rail.escrow.now < mem.mintExpiry
    ensures C.RunAll(w, Steps(op, durations, n)) == w
  {
    if n > 0 {
      WaitsForTheDeadline(w, op, mem, durations, n - 1);
      assert Steps(op, durations, n) == Steps(op, durations, n - 1) + [C.Run(op, durations)];
      OneMore(w, Steps(op, durations, n - 1), C.Run(op, durations));
      WaitsOnce(w, op, mem, durations);
    }
  }

  /** From the start to the expiry: the live reservation and the receipt are found. */
  lemma StartsToExpire(v: C.World, op: OperationId, mem: Journal, durations: C.Durations) returns (t: C.World, next: Journal)
    requires WorksAt(v, op, RECOVERING, mem, C.Load) && mem.completed != Some(Step.Cancelled)
    requires Approved(v.rail, op) && Reservation(v.rail, op, X.Reserved) && op in v.rail.escrow.receipts && mem.mintExpiry != 0
    ensures ComesTo(v, op, durations, t) && t.rail == v.rail.(zama := t.rail.zama) && t.rail.zama == v.rail.zama
    ensures WorksAt(t, op, RECOVERING, next, C.Expire) && next.mintExpiry == mem.mintExpiry && next.completed != Some(Step.Cancelled)
  {
    var u, started := Progress.Starts(v, op, RECOVERING, mem, durations);
    var x := ResumesReserved(u, op, started, durations);
    t := FindsLockToRecover(x, op, Complete(started, Reserved), durations);
    next := LockedJournal(Complete(started, Reserved), 0, true);
    ComesOn(v, op, durations, u, x);
    ComesOn(v, op, durations, x, t);
  }

  lemma ResumesReserved(w: C.World, op: OperationId, mem: Journal, durations: C.Durations) returns (t: C.World)
    requires WorksAt(w, op, RECOVERING, mem, C.Route) && mem.completed != Some(Step.Cancelled)
    requires Approved(w.rail, op) && Reservation(w.rail, op, X.Reserved)
    ensures ComesTo(w, op, durations, t) && WorksAt(t, op, RECOVERING, Complete(mem, Reserved), C.Lock) && t.rail == w.rail
  {
    var u := GoesToReserve(w, op, RECOVERING, mem, durations);
    ReserveMove(w.rail, op, mem);
    var x := MovesOn(u, op, RECOVERING, mem, C.Reserve, durations, C.Goto(mem, C.Halt(Reserved)));
    t := HaltsOnward(x, op, RECOVERING, mem, Reserved, durations);
    ComesOn(w, op, durations, u, x);
    ComesOn(w, op, durations, x, t);
  }

  lemma RecoversFromExpiry(w: C.World, op: OperationId, mem: Journal, durations: C.Durations) returns (t: C.World)
    requires Known.Faithful(w) && WorksAt(w, op, RECOVERING, mem, C.Expire) && mem.mintExpiry <= w.rail.escrow.now
    requires MayRefund(w.rail, op) && Cancellable(w.rail, op)
    ensures ComesTo(w, op, durations, t) && op !in t.attempts && Known.Refunded(t.rail, op)
    ensures t.rail.escrow.vault == w.rail.escrow.vault - w.rail.terms[op].amount
  {
    var u := Expires(w, op, mem, durations);
    StaysFaithful(w, op, durations, u);
    t := CancelsFromHere(u, op, RECOVERING, mem, durations);
    ComesOn(w, op, durations, u, t);
  }

  lemma RecoversFromRest(w: C.World, op: OperationId, durations: C.Durations) returns (t: C.World)
    requires Known.Faithful(w) && op in w.rail.terms && op !in w.attempts && MayRefund(w.rail, op)
    requires Approved(w.rail, op) && Reservation(w.rail, op, X.Reserved)
    requires C.DiskOf(w, op).mintExpiry != 0 && C.DiskOf(w, op).mintExpiry <= w.rail.escrow.now
    ensures ComesTo(C.Next(w, C.Start(op, RECOVERING)), op, durations, t)
    ensures op !in t.attempts && Known.Refunded(t.rail, op) && t.rail.escrow.vault == w.rail.escrow.vault - w.rail.terms[op].amount
  {
    var v := C.Next(w, C.Start(op, RECOVERING));
    Runs.NextKeepsInv(w, C.Start(op, RECOVERING));
    JustStarted(w, op, RECOVERING);
    LockedIsNotRecordedCancelled(w, op);
    var u, mem := StartsToExpire(v, op, C.DiskOf(w, op), durations);
    StaysFaithful(v, op, durations, u);
    t := RecoversFromExpiry(u, op, mem, durations);
    ComesOn(v, op, durations, u, t);
  }

  lemma LockedIsNotRecordedCancelled(w: C.World, op: OperationId)
    requires Known.Faithful(w) && HasStatus(w.rail, op, E.Locked)
    ensures C.DiskOf(w, op).completed != Some(Step.Cancelled)
  {
    NothingIsRecorded(w, op);
  }

  /** Once the deadline for its mint is over, an expiry recovery that is left alone refunds a locked operation. */
  lemma EveryExpiredLockCanBeRecovered(w: C.World, op: OperationId, durations: C.Durations) returns (n: nat)
    requires Known.Faithful(w) && op in w.rail.terms && op !in w.attempts && MayRefund(w.rail, op)
    requires Approved(w.rail, op) && Reservation(w.rail, op, X.Reserved)
    requires C.DiskOf(w, op).mintExpiry != 0 && C.DiskOf(w, op).mintExpiry <= w.rail.escrow.now
    ensures var t := C.RunAll(w, [C.Start(op, RECOVERING)] + Steps(op, durations, n));
      op !in t.attempts && Known.Refunded(t.rail, op) && t.rail.escrow.vault == w.rail.escrow.vault - w.rail.terms[op].amount
  {
    var t := RecoversFromRest(w, op, durations);
    n := StartsAndComesTo(w, op, RECOVERING, durations, t);
  }
}

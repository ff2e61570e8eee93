/**
 * An operation that is burned on Canton can always be finished: from every world in which its journal records the burn
 * and its release materials are written ahead, a new attempt that is left alone releases and redeems it.
 */
module Recoverability {
  import opened Outcomes
  import E = Escrow
  import S = EscrowSafety
  import X = Exposure
  import Agreement
  import opened OperationJournal
  import opened Rail
  import RailSafety
  import C = Coordinator
  import Known = CoordinatorSafety
  import Runs = CoordinatorRuns
  import opened ReleaseMaterials
  import opened Resumption
  import opened LeftAlone
  import opened Voting

  predicate Done(w: C.World, op: OperationId) {
    HasStatus(w.rail, op, E.Released) && Reservation(w.rail, op, X.Redeemed) && op !in w.attempts
  }

  /** Left alone, the attempt at work ends with the operation released and redeemed. */
  ghost predicate Ends(w: C.World, op: OperationId, durations: C.Durations) {
    exists t :: ComesTo(w, op, durations, t) && Done(t, op)
  }

  lemma EndsLater(w: C.World, op: OperationId, durations: C.Durations, t: C.World)
    requires ComesTo(w, op, durations, t) && Ends(t, op, durations)
    ensures Ends(w, op, durations)
  {
    var u :| ComesTo(t, op, durations, u) && Done(u, op);
    ComesOn(w, op, durations, t, u);
  }

  // After the release ------------------------------------------------------------------------------------------------

  lemma RedeemMove(r: State, op: OperationId, mem: Journal)
    requires Reservation(r, op, X.Finalized) && !Reached(mem, ZamaRedeemed)
    ensures C.AtRedeem(r, op, mem) == C.ActThenSave(Zama(X.CallRedeem(op)), mem, C.Halt(ZamaRedeemed))
    ensures var t := Take(r, Zama(X.CallRedeem(op)));
      t.terms == r.terms && t.escrow == r.escrow && Reservation(t, op, X.Redeemed)
  {
  }

  lemma Redeems(w: C.World, op: OperationId, mem: Journal, durations: C.Durations) returns (t: C.World)
    requires WorksAt(w, op, PLAIN, mem, C.Redeem) && Reservation(w.rail, op, X.Finalized) && !Reached(mem, ZamaRedeemed)
    ensures ComesTo(w, op, durations, t) && WorksAt(t, op, PLAIN, mem, C.Halt(ZamaRedeemed))
    ensures t.rail == Take(w.rail, Zama(X.CallRedeem(op)))
  {
    RedeemMove(w.rail, op, mem);
    t := MovesOn(w, op, PLAIN, mem, C.Redeem, durations, C.ActThenSave(Zama(X.CallRedeem(op)), mem, C.Halt(ZamaRedeemed)));
  }

  lemma Finishes(w: C.World, op: OperationId, mem: Journal, durations: C.Durations)
    requires WorksAt(w, op, PLAIN, mem, C.Halt(ZamaRedeemed)) && HasStatus(w.rail, op, E.Released) && Reservation(w.rail, op, X.Redeemed)
    ensures Ends(w, op, durations)
  {
    var t := MovesOut(w, op, PLAIN, mem, C.Halt(ZamaRedeemed), durations, C.AtHalt(mem, PLAIN, ZamaRedeemed));
  }

  lemma EndsByRedeeming(w: C.World, op: OperationId, mem: Journal, durations: C.Durations)
    requires WorksAt(w, op, PLAIN, mem, C.Redeem) && HasStatus(w.rail, op, E.Released) && Reservation(w.rail, op, X.Finalized)
    requires !Reached(mem, ZamaRedeemed)
    ensures Ends(w, op, durations)
  {
    var t := Redeems(w, op, mem, durations);
    RedeemMove(w.rail, op, mem);
    Finishes(t, op, mem, durations);
    EndsLater(w, op, durations, t);
  }

  lemma EndsOnceReleased(w: C.World, op: OperationId, mem: Journal, durations: C.Durations)
    requires WorksAt(w, op, PLAIN, mem, C.Halt(Released))
    requires HasStatus(w.rail, op, E.Released) && Reservation(w.rail, op, X.Finalized) && !Reached(mem, ZamaRedeemed)
    ensures Ends(w, op, durations)
  {
    var t := HaltsOnward(w, op, PLAIN, mem, Released, durations);
    EndsByRedeeming(t, op, Complete(mem, Released), durations);
    EndsLater(w, op, durations, t);
  }

  // The release itself -----------------------------------------------------------------------------------------------

  /** The attempt has materials that have not expired, and nothing else stands between it and the release. */
  ghost predicate MayRelease(r: State, op: OperationId, mem: Journal) {
    && Rail.Inv(r) && op in r.terms && r.escrow.now < mem.releaseExpiry
    && HasStatus(r, op, E.MintAuthorized) && Reservation(r, op, X.Finalized)
    && !Reached(mem, Released)
  }

  /** The receipt is on the terms of the operation, because A or B signed its mint. */
  lemma RequestMatches(r: State, op: OperationId, mem: Journal)
    requires MayRelease(r, op, mem)
    ensures Votable(r, C.ReleaseArgs(r.terms[op], op, mem)) && r.escrow.receipts[op].operation == op
  {
    assert S.ReceiptGood(r.escrow, op);
    RailSafety.QuorumWasAllowed(r, op, E.DIRECTION_MINT);
  }

  lemma ReleaseSucceeds(r: State, op: OperationId, mem: Journal)
    requires MayRelease(r, op, mem) && VotesLack(r.escrow, C.ReleaseArgs(r.terms[op], op, mem), false, false)
    ensures E.ReleaseConfidential(r.escrow, op, E.DIRECTION_RELEASE, C.MovementOf(C.ReleaseArgs(r.terms[op], op, mem))).Ok?
  {
    var s := r.escrow;
    RequestMatches(r, op, mem);
    assert S.ApprovalGood(s.config, s.signed, s.receipts[op], ReleaseSlot(op), s.approvals[ReleaseSlot(op)]);
    S.VaultNeverTooSmall(s, op, E.DIRECTION_RELEASE, C.MovementOf(C.ReleaseArgs(r.terms[op], op, mem)), E.DIRECTION_RELEASE);
  }

  /** The program would accept the release on the attempt's materials. */
  predicate ReleaseIsDue(r: State, op: OperationId, mem: Journal)
    requires op in r.terms
  {
    && E.ReleaseConfidential(r.escrow, op, E.DIRECTION_RELEASE, C.MovementOf(C.ReleaseArgs(r.terms[op], op, mem))).Ok?
    && Reservation(r, op, X.Finalized) && !Reached(mem, Released)
  }

  lemma ReleaseMoveIs(r: State, op: OperationId, mem: Journal)
    requires op in r.terms && ReleaseIsDue(r, op, mem)
    ensures var event := C.ReleaseMove(r.terms[op], op, mem);
      && C.AtSubmitRelease(r, op, mem) == C.Act(Solana(event), mem, C.Halt(Released))
      && HasStatus(Take(r, Solana(event)), op, E.Released) && Reservation(Take(r, Solana(event)), op, X.Finalized)
      && !Reached(mem, ZamaRedeemed)
  {
    RailSafety.PayingCloses(r, C.ReleaseMove(r.terms[op], op, mem), op, true);
  }

  lemma EndsByReleasing(w: C.World, op: OperationId, mem: Journal, durations: C.Durations)
    requires WorksAt(w, op, PLAIN, mem, C.SubmitRelease) && ReleaseIsDue(w.rail, op, mem)
    ensures Ends(w, op, durations)
  {
    ReleaseMoveIs(w.rail, op, mem);
    var m := C.Act(Solana(C.ReleaseMove(w.rail.terms[op], op, mem)), mem, C.Halt(Released));
    var t := MovesOn(w, op, PLAIN, mem, C.SubmitRelease, durations, m);
    EndsOnceReleased(t, op, mem, durations);
    EndsLater(w, op, durations, t);
  }

  lemma CompletingApprovalKeepsItDue(r: State, op: OperationId, mem: Journal)
    requires op in r.terms && ReleaseIsDue(r, op, mem)
    ensures ReleaseIsDue(r, op, Complete(mem, ReleaseApproved))
  {
    assert C.ReleaseArgs(r.terms[op], op, Complete(mem, ReleaseApproved)) == C.ReleaseArgs(r.terms[op], op, mem);
  }

  lemma EndsOnceApproved(w: C.World, op: OperationId, mem: Journal, durations: C.Durations)
    requires WorksAt(w, op, PLAIN, mem, C.Halt(ReleaseApproved)) && ReleaseIsDue(w.rail, op, mem)
    ensures Ends(w, op, durations)
  {
    CompletingApprovalKeepsItDue(w.rail, op, mem);
    var t := HaltsOnward(w, op, PLAIN, mem, ReleaseApproved, durations);
    EndsByReleasing(t, op, Complete(mem, ReleaseApproved), durations);
    EndsLater(w, op, durations, t);
  }

  lemma EndsOnceCast(w: C.World, op: OperationId, mem: Journal, args: E.ApproveArgs, durations: C.Durations)
    requires WorksAt(w, op, PLAIN, mem, C.VotesCast(args)) && args.direction == E.DIRECTION_RELEASE && C.TwoOfThree(w.rail.escrow, args)
    requires ReleaseIsDue(w.rail, op, mem)
    ensures Ends(w, op, durations)
  {
    var t := MovesOn(w, op, PLAIN, mem, C.VotesCast(args), durations, C.Goto(mem, C.Halt(ReleaseApproved)));
    EndsOnceApproved(t, op, mem, durations);
    EndsLater(w, op, durations, t);
  }

  lemma VotingKeepsItOpen(r: State, t: State, op: OperationId, mem: Journal)
    requires MayRelease(r, op, mem) && Rail.Inv(t) && VotedFrom(r, t, C.ReleaseArgs(r.terms[op], op, mem))
    ensures MayRelease(t, op, mem)
  {
  }

  /** The attempt collects the votes that are missing, and ends with the release. */
  lemma EndsByVoting(w: C.World, op: OperationId, mem: Journal, durations: C.Durations)
    requires Known.Faithful(w) && MayRelease(w.rail, op, mem)
    requires WorksAt(w, op, PLAIN, mem, C.Decide(C.ReleaseArgs(w.rail.terms[op], op, mem)))
    requires ApprovalFits(w.rail.escrow, C.ReleaseArgs(w.rail.terms[op], op, mem))
    ensures Ends(w, op, durations)
  {
    var args := C.ReleaseArgs(w.rail.terms[op], op, mem);
    RequestMatches(w.rail, op, mem);
    var t := DecidesAndCollects(w, op, PLAIN, mem, args, durations);
    StaysFaithful(w, op, durations, t);
    VotingKeepsItOpen(w.rail, t.rail, op, mem);
    TwoAreThere(t.rail.escrow, args);
    ReleaseSucceeds(t.rail, op, mem);
    EndsOnceCast(t, op, mem, args, durations);
    EndsLater(w, op, durations, t);
  }

  // The materials ----------------------------------------------------------------------------------------------------

  /** Written-ahead materials fit: the release was not made, so no approval of it is used up. */
  lemma MaterialsFit(r: State, op: OperationId, j: Journal)
    requires S.Inv(r.escrow) && op in r.terms && HasStatus(r, op, E.MintAuthorized) && Carried(r, op, j)
    ensures ApprovalFits(r.escrow, C.ReleaseArgs(r.terms[op], op, j))
  {
    assert S.ReceiptGood(r.escrow, op);
  }

  /** What an attempt needs to go on to the release, before it has settled on materials. */
  predicate AuthorizedOnly(r: State, op: OperationId, mem: Journal) {
    HasStatus(r, op, E.MintAuthorized) && Reservation(r, op, X.Finalized) && !Reached(mem, Released)
  }

  /** The materials of an attempt at the decision are those on disk, so a live approval carries them. */
  lemma DecidedMaterialsFit(w: C.World, op: OperationId, mem: Journal, args: E.ApproveArgs)
    requires Rail.Inv(w.rail) && WrittenAhead(w) && WorksAt(w, op, PLAIN, mem, C.Decide(args)) && HasStatus(w.rail, op, E.MintAuthorized)
    ensures ApprovalFits(w.rail.escrow, C.ReleaseArgs(w.rail.terms[op], op, mem))
  {
    assert Works(w.rail, op, mem, C.DiskOf(w, op), C.Decide(args));
    assert Carried(w.rail, op, C.DiskOf(w, op));
    MaterialsFit(w.rail, op, mem);
  }

  /** Kept or made, the materials that the attempt decides on have not expired. */
  lemma Prepares(w: C.World, op: OperationId, mem: Journal, durations: C.Durations) returns (t: C.World, next: Journal)
    requires WorksAt(w, op, PLAIN, mem, C.Materials) && durations.release > 0
    requires C.HasMaterials(mem) ==> w.rail.escrow.now < mem.releaseExpiry
    ensures ComesTo(w, op, durations, t) && WorksAt(t, op, PLAIN, next, C.Decide(C.ReleaseArgs(w.rail.terms[op], op, next)))
    ensures t.rail == w.rail && w.rail.escrow.now < next.releaseExpiry && next.completed == mem.completed
  {
    next := if C.HasMaterials(mem) then mem
            else mem.(releaseExpiry := w.rail.escrow.now + durations.release, releaseProof := Some(w.proofs + 1));
    t := MovesOn(w, op, PLAIN, mem, C.Materials, durations, C.AtMaterials(w.rail, op, mem, durations.release, w.proofs + 1));
  }

  lemma EndsFromDecision(w: C.World, op: OperationId, mem: Journal, durations: C.Durations)
    requires Known.Faithful(w) && WrittenAhead(w) && op in w.rail.terms
    requires WorksAt(w, op, PLAIN, mem, C.Decide(C.ReleaseArgs(w.rail.terms[op], op, mem)))
    requires AuthorizedOnly(w.rail, op, mem) && w.rail.escrow.now < mem.releaseExpiry
    ensures Ends(w, op, durations)
  {
    DecidedMaterialsFit(w, op, mem, C.ReleaseArgs(w.rail.terms[op], op, mem));
    EndsByVoting(w, op, mem, durations);
  }

  lemma EndsFromMaterials(w: C.World, op: OperationId, mem: Journal, durations: C.Durations)
    requires Known.Faithful(w) && WrittenAhead(w) && WorksAt(w, op, PLAIN, mem, C.Materials) && durations.release > 0
    requires AuthorizedOnly(w.rail, op, mem) && (C.HasMaterials(mem) ==> w.rail.escrow.now < mem.releaseExpiry)
    ensures Ends(w, op, durations)
  {
    var t, next := Prepares(w, op, mem, durations);
    StaysFaithful(w, op, durations, t);
    EndsFromDecision(t, op, next, durations);
    EndsLater(w, op, durations, t);
  }

  // From the release point ---------------------------------------------------------------------------------------------

  /** Materials that were not cleared have not expired. */
  lemma KeptMaterialsAreLive(r: State, op: OperationId, mem: Journal)
    requires S.Inv(r.escrow) && op in r.terms && HasStatus(r, op, E.MintAuthorized) && Carried(r, op, mem)
    ensures var kept := C.Refreshed(r, op, mem); C.HasMaterials(kept) ==> r.escrow.now < kept.releaseExpiry
  {
    assert S.ReceiptGood(r.escrow, op);
  }

  /** A journal that says released is right, so it does not say so of an operation that is only authorized. */
  lemma JournalIsBehind(r: State, op: OperationId, mem: Journal)
    requires Known.JournalTrue(r, op, mem) && mem.completed != Some(Cancelled) && Reservation(r, op, X.Finalized)
    ensures !Reached(mem, ZamaRedeemed)
    ensures HasStatus(r, op, E.MintAuthorized) ==> !Reached(mem, Released)
  {
    if Reached(mem, Released) {
      Known.UpToLess(r, op, Rank(mem.completed.value), Rank(Released));
    }
  }

  /** The journal of an attempt at the release carries the materials on disk. */
  lemma JournalCarries(w: C.World, op: OperationId, mem: Journal)
    requires WrittenAhead(w) && WorksAt(w, op, PLAIN, mem, C.Release)
    ensures Carried(w.rail, op, mem)
  {
    assert Works(w.rail, op, mem, C.DiskOf(w, op), C.Release);
    CarriedStays(w.rail, w.rail, op, C.DiskOf(w, op), mem);
  }

  lemma Clears(w: C.World, op: OperationId, mem: Journal, durations: C.Durations) returns (t: C.World)
    requires WorksAt(w, op, PLAIN, mem, C.Release) && Reached(mem, Redeemed) && HasStatus(w.rail, op, E.MintAuthorized)
    requires !Reached(mem, Released)
    ensures ComesTo(w, op, durations, t) && WorksAt(t, op, PLAIN, C.Refreshed(w.rail, op, mem), C.Materials) && t.rail == w.rail
  {
    t := MovesOn(w, op, PLAIN, mem, C.Release, durations, C.Goto(C.Refreshed(w.rail, op, mem), C.Materials));
  }

  lemma EndsFromRefreshed(w: C.World, op: OperationId, mem: Journal, durations: C.Durations)
    requires Known.Faithful(w) && WrittenAhead(w) && WorksAt(w, op, PLAIN, mem, C.Release) && durations.release > 0
    requires BurnIsRecorded(mem) && AuthorizedOnly(w.rail, op, mem)
    ensures Ends(w, op, durations)
  {
    JournalCarries(w, op, mem);
    KeptMaterialsAreLive(w.rail, op, mem);
    var t := Clears(w, op, mem, durations);
    StaysFaithful(w, op, durations, t);
    EndsFromMaterials(t, op, C.Refreshed(w.rail, op, mem), durations);
    EndsLater(w, op, durations, t);
  }

  lemma EndsAlreadyReleased(w: C.World, op: OperationId, mem: Journal, durations: C.Durations)
    requires WorksAt(w, op, PLAIN, mem, C.Release) && Reached(mem, Redeemed) && HasStatus(w.rail, op, E.Released)
    requires Reservation(w.rail, op, X.Finalized) && !Reached(mem, ZamaRedeemed)
    ensures Ends(w, op, durations)
  {
    var t := MovesOn(w, op, PLAIN, mem, C.Release, durations, C.Goto(mem, C.Halt(Released)));
    EndsOnceReleased(t, op, mem, durations);
    EndsLater(w, op, durations, t);
  }

  lemma EndsFromRelease(w: C.World, op: OperationId, mem: Journal, durations: C.Durations)
    requires Known.Faithful(w) && WrittenAhead(w) && WorksAt(w, op, PLAIN, mem, C.Release) && durations.release > 0
    requires AwaitsRelease(w.rail, op) && BurnIsRecorded(mem)
    ensures Ends(w, op, durations)
  {
    assert Known.OnwardTrue(w.rail, op, mem, C.Release);
    JournalIsBehind(w.rail, op, mem);
    if HasStatus(w.rail, op, E.Released) {
      EndsAlreadyReleased(w, op, mem, durations);
    } else {
      EndsFromRefreshed(w, op, mem, durations);
    }
  }

  // Every burned operation can be finished -------------------------------------------------------------------------------

  /** What a true journal that records the burn says of the chains. */
  lemma BurnedIsShown(r: State, op: OperationId, j: Journal)
    requires Rail.Inv(r) && op in r.terms && Known.JournalTrue(r, op, j) && BurnIsRecorded(j)
    ensures AwaitsRelease(r, op) || (Reservation(r, op, X.Redeemed) && HasStatus(r, op, E.Released))
  {
    var rank := Rank(j.completed.value);
    Known.UpToLess(r, op, rank, Rank(CantonMinted));
    Known.UpToLess(r, op, rank, Rank(Redeemed));
    Known.BurnedMeansStaged(r, op);
    RailSafety.AuthorizedMintIsReserved(r, op);
    assert Reservation(r, op, X.Redeemed) ==> ReservationGood(r, op);
  }

  lemma ReturnsFaithfully(w: C.World, events: seq<C.Event>, op: OperationId, durations: C.Durations)
    requires Known.Faithful(w) && WrittenAhead(w) && events == Returning(op, durations)
    ensures Known.Faithful(C.RunAll(w, events)) && WrittenAhead(C.RunAll(w, events))
  {
    SoleSubmitterIsHarmless(w, events);
    MaterialsAreWrittenAhead(w, events);
    Runs.RunsKeepInv(w, events);
  }

  lemma EndsFromRest(w: C.World, op: OperationId, durations: C.Durations)
    requires Known.Faithful(w) && WrittenAhead(w) && Rests(w, op) && durations.release > 0
    ensures Ends(C.RunAll(w, Returning(op, durations)), op, durations)
  {
    ReturnsFaithfully(w, Returning(op, durations), op, durations);
    ReturnsToTheRelease(w, op, durations);
    EndsFromRelease(C.RunAll(w, Returning(op, durations)), op, w.disks[op], durations);
  }

  /**
   * From every faithful, written-ahead world in which no attempt is at work on an operation and its saved journal
   * records the burn, the operation is released and redeemed already, or a new attempt that is left alone does it.
   */
  lemma EveryBurnedOperationCanBeFinished(w: C.World, op: OperationId, durations: C.Durations)
    requires Known.Faithful(w) && WrittenAhead(w) && op in w.rail.terms && durations.release > 0
    requires op !in w.attempts && op in w.disks && BurnIsRecorded(w.disks[op])
    ensures Done(w, op) || exists n: nat :: Done(C.RunAll(w, [C.Start(op, PLAIN)] + Steps(op, durations, n)), op)
  {
    BurnedIsShown(w.rail, op, w.disks[op]);
    if !Done(w, op) {
      EndsFromRest(w, op, durations);
      StartsAndEnds(w, op, durations);
    }
  }

  lemma StartsAndEnds(w: C.World, op: OperationId, durations: C.Durations)
    requires Ends(C.RunAll(w, Returning(op, durations)), op, durations)
    ensures exists n: nat :: Done(C.RunAll(w, [C.Start(op, PLAIN)] + Steps(op, durations, n)), op)
  {
    var v := C.RunAll(w, Returning(op, durations));
    var t :| ComesTo(v, op, durations, t) && Done(t, op);
    var n: nat :| t == C.RunAll(v, Steps(op, durations, n));
    RunsAppend(w, Returning(op, durations), Steps(op, durations, n));
    assert Returning(op, durations) + Steps(op, durations, n) == [C.Start(op, PLAIN)] + Steps(op, durations, WAY_BACK + n);
  }
}

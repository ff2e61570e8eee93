/** What every allowed run keeps across the chains: bridged coins are backed, and each effect happens once. */
module RailSafety {
  import opened Outcomes
  import opened Sums
  import E = Escrow
  import S = EscrowSafety
  import X = Exposure
  import opened Rail

  // Facts that stay ------------------------------------------------------------------------------------------

  lemma FactsStay(r: State, t: State, op: OperationId)
    requires Later(r, t)
    ensures Approved(r, op) ==> Approved(t, op)
    ensures MintAuthorized(r, op) ==> MintAuthorized(t, op)
    ensures HasStatus(r, op, E.Released) ==> HasStatus(t, op, E.Released)
    ensures HasStatus(r, op, E.Cancelled) ==> HasStatus(t, op, E.Cancelled)
    ensures StagesMoved(StagesOf(r, op), StagesOf(t, op))
    ensures Reservation(r, op, X.Cancelled) ==> Reservation(t, op, X.Cancelled)
    ensures Reservation(r, op, X.Redeemed) ==> Reservation(t, op, X.Redeemed)
    ensures Reservation(r, op, X.Finalized) ==> Reservation(t, op, X.Finalized) || Reservation(t, op, X.Redeemed)
  {
    if op in r.escrow.receipts {
      assert S.MovedForward(r.escrow, t.escrow, op);
    }
    if op in r.zama.reservations {
      assert ReservationMoved(r, t, op);
    }
  }

  // What a quorum proves -------------------------------------------------------------------------------------

  /** Of two different attesters at least one is A or B. */
  lemma OneSignerIsHonest(r: State, digest: E.Digest)
    requires S.ThreeKeys(r.escrow.config) && SignaturesGood(r)
    requires S.TwoSigned(r.escrow.config, r.escrow.signed, digest)
    ensures SignAllowed(r, digest)
  {
    var a, b :| a in r.escrow.config.attesters && b in r.escrow.config.attesters && a != b
      && E.Signature(a, digest) in r.escrow.signed && E.Signature(b, digest) in r.escrow.signed;
    assert Honest(r, a) || Honest(r, b);
    assert SignAllowed(r, E.Signature(a, digest).digest) || SignAllowed(r, E.Signature(b, digest).digest);
  }

  /** An approval with two votes was signed by A or B, so what they promise holds of its operation. */
  lemma QuorumWasAllowed(r: State, op: OperationId, direction: nat)
    requires S.Inv(r.escrow) && SignaturesGood(r)
    requires S.Votes(r.escrow, E.Slot(op, direction)) >= 2
    ensures op in r.terms && op in r.escrow.receipts
    ensures r.escrow.receipts[op].commitment == CommitmentOf(r.terms[op])
    ensures r.escrow.receipts[op].reservation == op && r.escrow.receipts[op].previous == 0
    ensures direction == E.DIRECTION_MINT ==> Approved(r, op)
    ensures direction == E.DIRECTION_RELEASE ==> StagesOf(r, op).burned
  {
    var slot := E.Slot(op, direction);
    S.QuorumIsSound(r.escrow, slot);
    assert S.ApprovalGood(r.escrow.config, r.escrow.signed, r.escrow.receipts[op], slot, r.escrow.approvals[slot]);
    OneSignerIsHonest(r, r.escrow.approvals[slot].digest);
  }

  predicate OfRelease(digest: E.Digest, op: OperationId) {
    digest.OperationDigest? && digest.operation == op && digest.direction == E.DIRECTION_RELEASE
  }

  /** Two attesters have signed one and the same release of the operation. */
  ghost predicate ReleaseSigned(r: State, op: OperationId) {
    exists digest :: OfRelease(digest, op) && S.TwoSigned(r.escrow.config, r.escrow.signed, digest)
  }

  lemma ReleaseQuorumIsSigned(r: State, op: OperationId)
    requires S.Inv(r.escrow) && S.Votes(r.escrow, E.Slot(op, E.DIRECTION_RELEASE)) >= 2
    ensures ReleaseSigned(r, op)
  {
    var slot := E.Slot(op, E.DIRECTION_RELEASE);
    S.QuorumIsSound(r.escrow, slot);
    assert S.ApprovalGood(r.escrow.config, r.escrow.signed, r.escrow.receipts[op], slot, r.escrow.approvals[slot]);
    assert OfRelease(r.escrow.approvals[slot].digest, op);
  }

  lemma SignedReleaseStays(r: State, t: State, op: OperationId)
    requires Later(r, t) && ReleaseSigned(r, op)
    ensures ReleaseSigned(t, op)
  {
    var digest :| OfRelease(digest, op) && S.TwoSigned(r.escrow.config, r.escrow.signed, digest);
    assert S.TwoSigned(t.escrow.config, t.escrow.signed, digest);
  }

  /** A released operation was burned first. */
  lemma ReleasedMeansBurned(r: State, op: OperationId)
    requires S.Inv(r.escrow) && SignaturesGood(r) && HasStatus(r, op, E.Released)
    ensures StagesOf(r, op).burned && ReleaseSigned(r, op)
  {
    assert S.ReceiptGood(r.escrow, op);
    var slot := E.Slot(op, E.DIRECTION_RELEASE);
    assert S.ApprovalGood(r.escrow.config, r.escrow.signed, r.escrow.receipts[op], slot, r.escrow.approvals[slot]);
    QuorumWasAllowed(r, op, E.DIRECTION_RELEASE);
    ReleaseQuorumIsSigned(r, op);
  }

  /** An authorized mint is of the amount the operation was set up with, and its reservation was approved. */
  lemma AuthorizedMintIsReserved(r: State, op: OperationId)
    requires S.Inv(r.escrow) && SignaturesGood(r) && MintAuthorized(r, op)
    ensures op in r.terms && r.escrow.receipts[op].commitment.amount == r.terms[op].amount && Approved(r, op)
  {
    assert S.ReceiptGood(r.escrow, op);
    QuorumWasAllowed(r, op, E.DIRECTION_MINT);
  }

  // Steps ----------------------------------------------------------------------------------------------------

  lemma SignatureStays(r: State, t: State, digest: E.Digest)
    requires Later(r, t) && SignAllowed(r, digest)
    ensures SignAllowed(t, digest)
  {
    FactsStay(r, t, digest.operation);
  }

  lemma StepKeepsSignatures(r: State, a: Action, t: State)
    requires SignaturesGood(r) && Allowed(r, a) && t == Take(r, a) && Later(r, t)
    ensures SignaturesGood(t)
  {
    forall s | s in t.escrow.signed && Honest(t, s.attester) ensures SignAllowed(t, s.digest) {
      if s !in r.escrow.signed {
        assert a == Solana(E.Sign(s));
      }
      SignatureStays(r, t, s.digest);
    }
  }

  lemma StepKeepsStages(r: State, a: Action, t: State)
    requires StagesGood(r) && Allowed(r, a) && t == Take(r, a) && Later(r, t)
    ensures StagesGood(t)
  {
    forall op | op in t.canton
      ensures (t.canton[op].minted ==> op in t.terms && MintAuthorized(t, op))
      ensures (t.canton[op].prepared ==> t.canton[op].minted) && (t.canton[op].settled ==> t.canton[op].prepared)
      ensures t.canton[op].burned ==> t.canton[op].settled
    {
      FactsStay(r, t, op);
    }
  }

  lemma ReservationStays(r: State, t: State, op: OperationId)
    requires Later(r, t) && op in r.terms && op in r.zama.reservations && ReservationGood(r, op)
    requires t.zama.reservations[op] == r.zama.reservations[op]
    ensures ReservationGood(t, op)
  {
    FactsStay(r, t, op);
  }

  lemma CallOnOthers(r: State, call: X.Call, op: OperationId)
    requires op in r.zama.reservations
    requires !(call == X.CallFinalize(op) || call == X.CallCancel(op) || call == X.CallRedeem(op))
    ensures op in Take(r, Zama(call)).zama.reservations
    ensures Take(r, Zama(call)).zama.reservations[op] == r.zama.reservations[op]
  {
  }

  lemma CallOnIt(r: State, call: X.Call, op: OperationId)
    requires op in r.terms && op in r.zama.reservations && ReservationGood(r, op) && Allowed(r, Zama(call))
    requires call == X.CallFinalize(op) || call == X.CallCancel(op) || call == X.CallRedeem(op)
    ensures ReservationGood(Take(r, Zama(call)), op)
  {
  }

  lemma NewReservation(r: State, call: X.Call, op: OperationId)
    requires op in r.terms && op !in r.zama.reservations && Allowed(r, Zama(call))
    requires op in Take(r, Zama(call)).zama.reservations
    ensures ReservationGood(Take(r, Zama(call)), op)
  {
  }

  lemma CallKeepsReservations(r: State, call: X.Call, t: State)
    requires ReservationsGood(r) && Allowed(r, Zama(call)) && t == Take(r, Zama(call)) && Later(r, t)
    ensures ReservationsGood(t)
  {
    forall op | op in t.terms && op in t.zama.reservations ensures ReservationGood(t, op) {
      if op !in r.zama.reservations {
        NewReservation(r, call, op);
      } else if call == X.CallFinalize(op) || call == X.CallCancel(op) || call == X.CallRedeem(op) {
        CallOnIt(r, call, op);
      } else {
        CallOnOthers(r, call, op);
        ReservationStays(r, t, op);
      }
    }
  }

  lemma StepKeepsReservations(r: State, a: Action, t: State)
    requires ReservationsGood(r) && Allowed(r, a) && t == Take(r, a) && Later(r, t)
    ensures ReservationsGood(t)
  {
    if a.Zama? {
      CallKeepsReservations(r, a.call, t);
    } else {
      forall op | op in t.terms && op in t.zama.reservations ensures ReservationGood(t, op) {
        ReservationStays(r, t, op);
      }
    }
  }

  lemma StepKeepsInv(r: State, a: Action)
    requires Inv(r) && Allowed(r, a)
    ensures Inv(Take(r, a)) && Later(r, Take(r, a))
  {
    var t := Take(r, a);
    StepIsLater(r, a);
    if a.Solana? {
      S.StepKeepsInv(r.escrow, a.event);
    }
    if a.Zama? && X.Step(r.zama, a.call).Ok? {
      X.StepKeepsInv(r.zama, a.call);
    }
    StepKeepsSignatures(r, a, t);
    StepKeepsStages(r, a, t);
    StepKeepsReservations(r, a, t);
  }

  lemma {:induction false} RunKeepsInv(r: State, actions: seq<Action>, t: State)
    requires Inv(r) && RunsTo(r, actions, t)
    ensures Inv(t)
    decreases |actions|
  {
    if actions != [] {
      StepKeepsInv(r, actions[0]);
      RunKeepsInv(Take(r, actions[0]), actions[1..], t);
    }
  }

  // Backing across the chains --------------------------------------------------------------------------------

  predicate Outstanding(r: State, op: OperationId) {
    StagesOf(r, op).minted && !StagesOf(r, op).burned
  }

  /** What is minted and not yet burned sits in the vault under an authorized receipt of the same amount. */
  predicate BackedOperation(r: State, op: OperationId) {
    && (Outstanding(r, op) ==>
          && op in r.terms && HasStatus(r, op, E.MintAuthorized)
          && r.escrow.receipts[op].commitment.amount == r.terms[op].amount
          && Approved(r, op) && r.zama.reservations[op].amount == r.terms[op].amount
          && (Reservation(r, op, X.Reserved) || Reservation(r, op, X.Finalized)))
    && (HasStatus(r, op, E.Released) ==> StagesOf(r, op).burned)
    && (HasStatus(r, op, E.Cancelled) ==> !StagesOf(r, op).minted)
    && (op in r.terms && Reservation(r, op, X.Redeemed) ==> HasStatus(r, op, E.Released))
  }

  lemma EveryOperationIsBacked(r: State, op: OperationId)
    requires Inv(r)
    ensures BackedOperation(r, op)
  {
    if Outstanding(r, op) {
      assert op in r.canton && MintAuthorized(r, op);
      if HasStatus(r, op, E.Released) {
        ReleasedMeansBurned(r, op);
      } else {
        AuthorizedMintIsReserved(r, op);
        assert ReservationGood(r, op);
      }
    }
    if HasStatus(r, op, E.Released) {
      ReleasedMeansBurned(r, op);
    }
    if StagesOf(r, op).minted {
      assert op in r.canton && MintAuthorized(r, op);
    }
    if op in r.terms && Reservation(r, op, X.Redeemed) {
      assert ReservationGood(r, op);
    }
  }

  ghost function OutstandingAmounts(r: State): map<OperationId, int> {
    map op | op in r.terms && Outstanding(r, op) :: r.terms[op].amount as int
  }

  function Identity(x: int): int {
    x
  }

  lemma {:induction false} LiveIsReservedPlusActive(m: map<X.ReservationId, X.Reservation>)
    ensures Sum(m, X.Live) == Sum(m, X.ReservedPart) + Sum(m, X.ActivePart)
    decreases |m|
  {
    if m != map[] {
      var k :| k in m;
      SumRemove(m, X.Live, k);
      SumRemove(m, X.ReservedPart, k);
      SumRemove(m, X.ActivePart, k);
      LiveIsReservedPlusActive(m - {k});
    }
  }

  lemma OutstandingWithinVault(r: State)
    requires Inv(r)
    ensures Sum(OutstandingAmounts(r), Identity) <= r.escrow.vault
  {
    var m := OutstandingAmounts(r);
    forall op | op in m && Identity(m[op]) > 0
      ensures op in r.escrow.receipts && Identity(m[op]) <= S.HeldPart(r.escrow.receipts[op])
    {
      EveryOperationIsBacked(r, op);
    }
    SumCovered(m, Identity, r.escrow.receipts, S.HeldPart);
  }

  lemma OutstandingWithinExposure(r: State)
    requires Inv(r)
    ensures Sum(OutstandingAmounts(r), Identity) <= r.zama.reserved + r.zama.active
  {
    var m := OutstandingAmounts(r);
    forall op | op in m && Identity(m[op]) > 0
      ensures op in r.zama.reservations && Identity(m[op]) <= X.Live(r.zama.reservations[op])
    {
      EveryOperationIsBacked(r, op);
    }
    SumCovered(m, Identity, r.zama.reservations, X.Live);
    LiveIsReservedPlusActive(r.zama.reservations);
  }

  /**
   * In every state of every allowed run, the stablecoins minted and not burned are no more than what the Solana
   * vault holds, and no more than what the exposure ledger has committed.
   */
  lemma BridgedCoinsAreBacked(r: State, actions: seq<Action>, t: State)
    requires Inv(r) && RunsTo(r, actions, t)
    ensures Sum(OutstandingAmounts(t), Identity) <= t.escrow.vault
    ensures Sum(OutstandingAmounts(t), Identity) <= t.zama.reserved + t.zama.active
    ensures forall op :: BackedOperation(t, op)
  {
    RunKeepsInv(r, actions, t);
    OutstandingWithinVault(t);
    OutstandingWithinExposure(t);
    forall op ensures BackedOperation(t, op) {
      EveryOperationIsBacked(t, op);
    }
  }

  lemma InitialIsGood(terms: map<OperationId, Terms>, escrow: E.State, zama: X.State)
    requires S.Inv(escrow) && escrow.signed == {} && X.Inv(zama) && zama.reservations == map[]
    ensures Inv(State(terms, escrow, zama, map[]))
  {
  }

  // Each effect once -----------------------------------------------------------------------------------------

  datatype Effect = Lock | Mint | Prepare | Settle | Burn | Release | Refund | Reserve | Finalize | Redeem | CancelReservation

  /** The action brings the effect about on chain, rather than finding it there or failing. */
  predicate Performs(r: State, a: Action, effect: Effect, op: OperationId) {
    match effect
    case Lock => a.Solana? && a.event.SubmitLock? && a.event.lock.operation == op && E.LockConfidential(r.escrow, a.event.lock).Ok?
    case Mint => a == CantonMint(op) && !StagesOf(r, op).minted
    case Prepare => a == CantonPrepare(op) && !StagesOf(r, op).prepared
    case Settle => a == CantonSettle(op) && !StagesOf(r, op).settled
    case Burn => a == CantonBurn(op) && !StagesOf(r, op).burned
    case Release => a.Solana? && Pays(r, a.event, op, true)
    case Refund => a.Solana? && Pays(r, a.event, op, false)
    case Reserve => a.Zama? && a.call.CallReserve? && a.call.id == op && X.Step(r.zama, a.call).Ok?
    case Finalize => a.Zama? && a.call == X.CallFinalize(op) && X.Step(r.zama, a.call).Ok?
    case Redeem => a.Zama? && a.call == X.CallRedeem(op) && X.Step(r.zama, a.call).Ok?
    case CancelReservation => a.Zama? && a.call == X.CallCancel(op) && X.Step(r.zama, a.call).Ok?
  }

  predicate Pays(r: State, event: E.Event, op: OperationId, release: bool) {
    && event.SubmitMove? && event.operation == op && event.release == release
    && (if release then E.ReleaseConfidential(r.escrow, op, event.passed, event.movement)
        else E.CancelConfidential(r.escrow, op, event.passed, event.movement)).Ok?
  }

  /** The trace that an effect leaves on its chain. */
  predicate Happened(r: State, effect: Effect, op: OperationId) {
    match effect
    case Lock => op in r.escrow.receipts
    case Mint => StagesOf(r, op).minted
    case Prepare => StagesOf(r, op).prepared
    case Settle => StagesOf(r, op).settled
    case Burn => StagesOf(r, op).burned
    case Release => HasStatus(r, op, E.Released)
    case Refund => HasStatus(r, op, E.Cancelled)
    case Reserve => op in r.zama.reservations
    case Finalize => Reservation(r, op, X.Finalized) || Reservation(r, op, X.Redeemed)
    case Redeem => Reservation(r, op, X.Redeemed)
    case CancelReservation => Reservation(r, op, X.Cancelled)
  }

  function Times(r: State, actions: seq<Action>, effect: Effect, op: OperationId): nat
    decreases |actions|
  {
    if actions == [] then
      0
    else
      (if Performs(r, actions[0], effect, op) then 1 else 0) + Times(Take(r, actions[0]), actions[1..], effect, op)
  }

  lemma PayingCloses(r: State, event: E.Event, op: OperationId, release: bool)
    requires Pays(r, event, op, release)
    ensures !HasStatus(r, op, E.Released) && !HasStatus(r, op, E.Cancelled)
    ensures HasStatus(Take(r, Solana(event)), op, if release then E.Released else E.Cancelled)
  {
  }

  lemma PerformingMakesItHappen(r: State, a: Action, effect: Effect, op: OperationId)
    requires Performs(r, a, effect, op)
    ensures !Happened(r, effect, op) && Happened(Take(r, a), effect, op)
  {
    match effect
    case Release => PayingCloses(r, a.event, op, true);
    case Refund => PayingCloses(r, a.event, op, false);
    case _ =>
  }

  lemma HappenedStays(r: State, t: State, effect: Effect, op: OperationId)
    requires Later(r, t) && Happened(r, effect, op)
    ensures Happened(t, effect, op)
  {
    FactsStay(r, t, op);
    if op in r.escrow.receipts {
      assert S.MovedForward(r.escrow, t.escrow, op);
    }
    if op in r.zama.reservations {
      assert ReservationMoved(r, t, op);
    }
  }

  /** Over every allowed run each effect is brought about at most once, and never again once its trace is there. */
  lemma {:induction false} EachEffectHappensOnce(r: State, actions: seq<Action>, t: State, effect: Effect, op: OperationId)
    requires Inv(r) && RunsTo(r, actions, t)
    ensures Times(r, actions, effect, op) <= 1
    ensures Happened(r, effect, op) ==> Times(r, actions, effect, op) == 0 && Happened(t, effect, op)
    ensures Times(r, actions, effect, op) == 1 ==> Happened(t, effect, op)
    decreases |actions|
  {
    if actions != [] {
      StepKeepsInv(r, actions[0]);
      var s := Take(r, actions[0]);
      EachEffectHappensOnce(s, actions[1..], t, effect, op);
      if Performs(r, actions[0], effect, op) {
        PerformingMakesItHappen(r, actions[0], effect, op);
      } else if Happened(r, effect, op) {
        HappenedStays(r, s, effect, op);
      }
    }
  }
}

/**
 * The three chains side by side: the escrow on Solana, the exposure ledger on Zama, and what has happened to each
 * lock on Canton. Canton scripts find the contract of a lock or exercise the choice, so a flag per stage is kept.
 */
module Rail {
  import opened Outcomes
  import opened Sums
  import E = Escrow
  import S = EscrowSafety
  import X = Exposure

  type OperationId = E.OperationId

  /** What one operation is set up with, once. */
  datatype Terms = Terms(amount: X.u64, blinding: Bytes32, source: E.Pubkey, destination: E.Pubkey, client: X.ClientId)

  datatype Stages = Stages(minted: bool, prepared: bool, settled: bool, burned: bool)

  datatype State = State(
    terms: map<OperationId, Terms>, escrow: E.State, zama: X.State, canton: map<OperationId, Stages>)

  datatype Action =
    | Solana(event: E.Event)
    | Zama(call: X.Call)
    | CantonMint(op: OperationId)
    | CantonPrepare(op: OperationId)
    | CantonSettle(op: OperationId)
    | CantonBurn(op: OperationId)

  const UNTOUCHED := Stages(false, false, false, false)

  function StagesOf(r: State, op: OperationId): Stages {
    if op in r.canton then r.canton[op] else UNTOUCHED
  }

  function CommitmentOf(t: Terms): E.Commitment {
    E.Commitment(t.amount, t.blinding)
  }

  function Take(r: State, a: Action): State {
    match a
    case Solana(event) => r.(escrow := E.Step(r.escrow, event))
    case Zama(call) => r.(zama := match X.Step(r.zama, call) { case Ok(z) => z case Err(_) => r.zama })
    case CantonMint(op) => r.(canton := r.canton[op := StagesOf(r, op).(minted := true)])
    case CantonPrepare(op) => r.(canton := r.canton[op := StagesOf(r, op).(prepared := true)])
    case CantonSettle(op) => r.(canton := r.canton[op := StagesOf(r, op).(settled := true)])
    case CantonBurn(op) => r.(canton := r.canton[op := StagesOf(r, op).(burned := true)])
  }

  // What is true of an operation ----------------------------------------------------------------------------

  predicate HasStatus(r: State, op: OperationId, status: E.ReceiptStatus) {
    op in r.escrow.receipts && r.escrow.receipts[op].status == status
  }

  /** Two attesters have authorized the mint. */
  predicate MintAuthorized(r: State, op: OperationId) {
    HasStatus(r, op, E.MintAuthorized) || HasStatus(r, op, E.Released)
  }

  predicate Approved(r: State, op: OperationId) {
    op in r.zama.reservations && r.zama.reservations[op].approved
  }

  predicate Reservation(r: State, op: OperationId, status: X.Status) {
    op in r.zama.reservations && r.zama.reservations[op].status == status
  }

  // What the parties are trusted with -----------------------------------------------------------------------

  /** Attesters A and B are run by the coordinator; the third key may sign anything. */
  predicate Honest(r: State, key: E.Pubkey) {
    |r.escrow.config.attesters| == 3 && (key == r.escrow.config.attesters[0] || key == r.escrow.config.attesters[1])
  }

  predicate SignAllowed(r: State, digest: E.Digest) {
    && digest.OperationDigest?
    && digest.operation in r.terms
    && digest.commitment == CommitmentOf(r.terms[digest.operation])
    && digest.reservation == digest.operation && digest.previous == 0
    && (digest.direction == E.DIRECTION_MINT ==> Approved(r, digest.operation))
    && (digest.direction == E.DIRECTION_RELEASE ==> StagesOf(r, digest.operation).burned)
  }

  /** Anyone may submit anything to Solana; signing, reserving and minting are guarded. */
  predicate Allowed(r: State, a: Action) {
    match a
    case Solana(Sign(signature)) => Honest(r, signature.attester) ==> SignAllowed(r, signature.digest)
    case Solana(_) => true
    case Zama(CallReserve(id, client, amount)) =>
      id in r.terms ==> client == r.terms[id].client && amount == r.terms[id].amount
    case Zama(CallFinalize(id)) => id in r.terms ==> StagesOf(r, id).minted
    case Zama(CallCancel(id)) => id in r.terms ==> HasStatus(r, id, E.Cancelled)
    case Zama(CallRedeem(id)) => id in r.terms ==> HasStatus(r, id, E.Released)
    case Zama(_) => true
    case CantonMint(op) => op in r.terms && MintAuthorized(r, op)
    case CantonPrepare(op) => StagesOf(r, op).minted
    case CantonSettle(op) => StagesOf(r, op).prepared
    case CantonBurn(op) => StagesOf(r, op).settled
  }

  /** A run in which every action was allowed when it was taken. */
  ghost predicate RunsTo(r: State, actions: seq<Action>, t: State)
    decreases |actions|
  {
    if actions == [] then t == r else Allowed(r, actions[0]) && RunsTo(Take(r, actions[0]), actions[1..], t)
  }

  // The invariant -------------------------------------------------------------------------------------------

  ghost predicate SignaturesGood(r: State) {
    forall s :: s in r.escrow.signed && Honest(r, s.attester) ==> SignAllowed(r, s.digest)
  }

  predicate StagesGood(r: State) {
    forall op :: op in r.canton ==>
      && (r.canton[op].minted ==> op in r.terms && MintAuthorized(r, op))
      && (r.canton[op].prepared ==> r.canton[op].minted)
      && (r.canton[op].settled ==> r.canton[op].prepared)
      && (r.canton[op].burned ==> r.canton[op].settled)
  }

  predicate ReservationGood(r: State, op: OperationId)
    requires op in r.terms && op in r.zama.reservations
  {
    var reservation := r.zama.reservations[op];
    && (reservation.approved ==> reservation.amount == r.terms[op].amount)
    && (reservation.status.Finalized? ==> StagesOf(r, op).minted)
    && (reservation.status.Cancelled? ==> HasStatus(r, op, E.Cancelled))
    && (reservation.status.Redeemed? ==> HasStatus(r, op, E.Released))
  }

  predicate ReservationsGood(r: State) {
    forall op :: op in r.terms && op in r.zama.reservations ==> ReservationGood(r, op)
  }

  ghost predicate Inv(r: State) {
    && S.Inv(r.escrow)
    && X.Inv(r.zama)
    && SignaturesGood(r)
    && StagesGood(r)
    && ReservationsGood(r)
  }

  // Progress is one-way ------------------------------------------------------------------------------------

  /** Nothing that happened is undone. */
  ghost predicate Later(r: State, t: State) {
    && t.terms == r.terms
    && t.escrow.config == r.escrow.config
    && r.escrow.now <= t.escrow.now
    && r.escrow.signed <= t.escrow.signed
    && (forall op :: op in r.escrow.receipts ==> S.MovedForward(r.escrow, t.escrow, op))
    && (forall slot :: slot in r.escrow.approvals ==> slot in t.escrow.approvals)
    && (forall op :: op in r.zama.reservations ==> ReservationMoved(r, t, op))
    && (forall op :: op in r.canton ==> op in t.canton && StagesMoved(r.canton[op], t.canton[op]))
  }

  predicate StagesMoved(a: Stages, b: Stages) {
    (a.minted ==> b.minted) && (a.prepared ==> b.prepared) && (a.settled ==> b.settled) && (a.burned ==> b.burned)
  }

  predicate ReservationMoved(r: State, t: State, op: OperationId)
    requires op in r.zama.reservations
  {
    && op in t.zama.reservations
    && var (a, b) := (r.zama.reservations[op], t.zama.reservations[op]);
       && b == a.(status := b.status)
       && (a.status == b.status || (a.status.Reserved? && (b.status.Finalized? || b.status.Cancelled?))
           || (a.status.Finalized? && b.status.Redeemed?))
  }

  lemma SolanaIsLater(r: State, event: E.Event)
    requires S.Inv(r.escrow)
    ensures Later(r, Take(r, Solana(event)))
  {
    forall op | op in r.escrow.receipts ensures S.MovedForward(r.escrow, E.Step(r.escrow, event), op) {
      S.ReceiptsMoveForward(r.escrow, event, op);
    }
  }

  lemma ZamaIsLater(r: State, call: X.Call)
    ensures Later(r, Take(r, Zama(call)))
  {
  }

  lemma StepIsLater(r: State, a: Action)
    requires S.Inv(r.escrow)
    ensures Later(r, Take(r, a))
  {
    match a
    case Solana(event) => SolanaIsLater(r, event);
    case Zama(call) => ZamaIsLater(r, call);
    case _ =>
  }
}

/**
 * The Solana escrow program: lock receipts, 2-of-3 operation approvals that may be replaced once expired,
 * and the vault they guard.
 *
 * Digests and amount commitments are injective constructors in place of SHA-256, and `signed` is the set of
 * (key, digest) pairs for which an Ed25519 signature exists. A confidential transfer is taken to carry the
 * amount its commitment names.
 */
module Escrow {
  import opened Outcomes
  import opened Sums

  type Pubkey = Bytes32
  type OperationId = Bytes32

  const DIRECTION_LOCK: nat := 1
  const DIRECTION_CANCEL: nat := 2
  const DIRECTION_RELEASE: nat := 3
  const DIRECTION_MINT: nat := 4

  datatype ReceiptStatus = Locked | MintAuthorized | Cancelled | Released

  datatype Commitment = Commitment(amount: nat, blinding: Bytes32)

  datatype Digest =
    | NoDigest
    | OperationDigest(
        chainId: Bytes32, operation: OperationId, direction: nat, destination: Pubkey, commitment: Commitment,
        reservation: Bytes32, previous: OperationId, expiry: int, proof: Bytes32)

  datatype Signature = Signature(attester: Pubkey, digest: Digest)

  datatype Config = Config(chainId: Bytes32, attesters: seq<Pubkey>)

  datatype Receipt = Receipt(
    operation: OperationId, destination: Pubkey, commitment: Commitment, reservation: Bytes32,
    previous: OperationId, expiry: int, lockProof: Bytes32, status: ReceiptStatus)

  datatype Approval = Approval(
    operation: OperationId, direction: nat, digest: Digest, bitmap: bv8, consumed: bool, expiry: int)

  /** The seeds of an approval account. */
  datatype Slot = Slot(operation: OperationId, direction: nat)

  /** One transfer out of the vault, and the time of it. */
  datatype Payout = Payout(
    operation: OperationId, direction: nat, destination: Pubkey, amount: nat, digest: Digest, madeAt: int)

  datatype State = State(
    config: Config,
    now: int,
    receipts: map<OperationId, Receipt>,
    approvals: map<Slot, Approval>,
    vault: nat,
    payouts: seq<Payout>,
    signed: set<Signature>)

  datatype Error =
    | InvalidAttesterSet | AccountInUse | AccountNotInitialized | InvalidReceiptState | ReceiptMismatch
    | AmountCommitmentMismatch | ReservationMismatch | PreviousOperationMismatch | WrongDestination | Expired
    | MissingSignature | DigestMismatch | UnknownAttester | ApprovalConsumed | ApprovalDigestMismatch
    | DuplicateAttester | AttestationThreshold | CancelAfterMint | ProofCommitmentMismatch | VaultTooSmall

  datatype LockArgs = LockArgs(
    operation: OperationId, destination: Pubkey, commitment: Commitment, reservation: Bytes32,
    previous: OperationId, expiry: int, proof: Bytes32)

  datatype ApproveArgs = ApproveArgs(
    operation: OperationId, direction: nat, destination: Pubkey, commitment: Commitment,
    reservation: Bytes32, previous: OperationId, expiry: int, proof: Bytes32)

  /** `proof` is the commitment computed from the transfer data and the proof contexts. */
  datatype MovementArgs = MovementArgs(
    destination: Pubkey, commitment: Commitment, reservation: Bytes32, previous: OperationId, expiry: int,
    proof: Bytes32)

  // Bits of a signer bitmap ------------------------------------------------------------------------------

  function Mask(index: nat): bv8 {
    if index == 0 then 1 else if index == 1 then 2 else 4
  }

  predicate HasBit(bitmap: bv8, index: nat) {
    bitmap & Mask(index) != 0
  }

  function Bit(bitmap: bv8, index: nat): nat {
    if HasBit(bitmap, index) then 1 else 0
  }

  /** No bit beyond the three attesters. */
  predicate LowBits(bitmap: bv8) {
    bitmap & 0xF8 == 0
  }

  /** The ones among the low three bits. */
  function DistinctSigners(bitmap: bv8): nat {
    Bit(bitmap, 0) + Bit(bitmap, 1) + Bit(bitmap, 2)
  }

  lemma SettingABit(bitmap: bv8, index: nat)
    requires LowBits(bitmap) && index < 3 && !HasBit(bitmap, index)
    ensures LowBits(bitmap | Mask(index)) && bitmap | Mask(index) != 0
    ensures HasBit(bitmap | Mask(index), index)
    ensures forall i :: 0 <= i < 3 && i != index ==> HasBit(bitmap | Mask(index), i) == HasBit(bitmap, i)
    ensures DistinctSigners(bitmap | Mask(index)) == DistinctSigners(bitmap) + 1
  {
  }

  function AttesterIndex(config: Config, attester: Pubkey): (r: Option<nat>)
    ensures r.Some? ==> r.value < |config.attesters| && config.attesters[r.value] == attester
    ensures r.None? ==> attester !in config.attesters
  {
    FirstIndex(config.attesters, attester, 0)
  }

  function FirstIndex(keys: seq<Pubkey>, key: Pubkey, from: nat): (r: Option<nat>)
    requires from <= |keys|
    ensures r.Some? ==> from <= r.value < |keys| && keys[r.value] == key && key !in keys[from..r.value]
    ensures r.None? ==> key !in keys[from..]
    decreases |keys| - from
  {
    if from == |keys| then
      None
    else if keys[from] == key then
      Some(from)
    else
      FirstIndex(keys, key, from + 1)
  }

  // Handlers ---------------------------------------------------------------------------------------------

  function Initialize(chainId: Bytes32, attesters: seq<Pubkey>, now: int): Result<State, Error>
    requires |attesters| == 3
  {
    if attesters[0] == attesters[1] || attesters[0] == attesters[2] || attesters[1] == attesters[2] then
      Err(InvalidAttesterSet)
    else
      Ok(State(Config(chainId, attesters), now, map[], map[], 0, [], {}))
  }

  function LockConfidential(s: State, args: LockArgs): Result<State, Error> {
    if args.operation in s.receipts then
      Err(AccountInUse)
    else
      :- Need(s.now < args.expiry, Expired);
      Ok(s.(vault := s.vault + args.commitment.amount,
            receipts := s.receipts[args.operation :=
              Receipt(args.operation, args.destination, args.commitment, args.reservation, args.previous,
                      args.expiry, args.proof, Locked)]))
  }

  function DigestOf(config: Config, args: ApproveArgs): Digest {
    OperationDigest(config.chainId, args.operation, args.direction, args.destination, args.commitment,
                    args.reservation, args.previous, args.expiry, args.proof)
  }

  const BLANK_APPROVAL := Approval(0, 0, NoDigest, 0, false, 0)

  function ApprovalAt(s: State, slot: Slot): Approval {
    if slot in s.approvals then s.approvals[slot] else BLANK_APPROVAL
  }

  /** The approval that a vote is counted into: the one on chain, or a blank one in place of an expired one. */
  function ApprovalToVote(s: State, args: ApproveArgs, expected: Digest): Result<Approval, Error> {
    var approval := ApprovalAt(s, Slot(args.operation, args.direction));
    var empty := approval.bitmap == 0 && approval.digest == NoDigest;
    var expired := !empty && s.now >= approval.expiry;
    if empty || (expired && !approval.consumed) then
      :- Need(!approval.consumed, ApprovalConsumed);
      Ok(Approval(args.operation, args.direction, expected, 0, false, args.expiry))
    else
      :- Need(!approval.consumed, ApprovalConsumed);
      :- Need(!expired, Expired);
      :- Need(approval.digest == expected, ApprovalDigestMismatch);
      :- Need(approval.direction == args.direction, ApprovalDigestMismatch);
      :- Need(approval.operation == args.operation, ReceiptMismatch);
      :- Need(approval.expiry == args.expiry, ReceiptMismatch);
      Ok(approval)
  }

  /** The checks of `approve_operation` that come before the signature is read. */
  function CheckApproveArgs(s: State, args: ApproveArgs): Outcome<Error> {
    if !(args.direction == DIRECTION_MINT || args.direction == DIRECTION_CANCEL || args.direction == DIRECTION_RELEASE) then
      Fail(InvalidReceiptState)
    else if args.operation !in s.receipts then
      Fail(AccountNotInitialized)
    else
      var receipt := s.receipts[args.operation];
      if receipt.operation != args.operation then Fail(ReceiptMismatch)
      else if receipt.commitment != args.commitment then Fail(AmountCommitmentMismatch)
      else if receipt.reservation != args.reservation then Fail(ReservationMismatch)
      else if receipt.previous != args.previous then Fail(PreviousOperationMismatch)
      else if args.direction == DIRECTION_MINT && !(s.now < receipt.expiry) then Fail(Expired)
      else if args.direction == DIRECTION_MINT && args.expiry != receipt.expiry then Fail(ReceiptMismatch)
      else if args.direction != DIRECTION_MINT && !(s.now < args.expiry) then Fail(Expired)
      else if args.direction == DIRECTION_CANCEL && receipt.destination != args.destination then Fail(WrongDestination)
      else Pass
  }

  /** The position of the attester whose signature on the expected digest precedes the instruction. */
  function ReadAttester(s: State, expected: Digest, signature: Signature): Result<nat, Error> {
    if signature !in s.signed then
      Err(MissingSignature)
    else
      :- Need(signature.digest == expected, DigestMismatch);
      :- Need(AttesterIndex(s.config, signature.attester).Some?, UnknownAttester);
      Ok(AttesterIndex(s.config, signature.attester).value)
  }

  /** Writes an approval that now has so many signers and, at the second mint vote, authorizes the mint. */
  function StoreVote(s: State, args: ApproveArgs, voted: Approval, signers: nat): Result<State, Error>
    requires args.operation in s.receipts
  {
    var receipt := s.receipts[args.operation];
    var quorum := args.direction == DIRECTION_MINT && signers >= 2;
    :- Need(quorum ==> receipt.status == Locked || receipt.status == MintAuthorized, InvalidReceiptState);
    Ok(s.(approvals := s.approvals[Slot(args.operation, args.direction) := voted],
          receipts := s.receipts[args.operation := if quorum then receipt.(status := MintAuthorized) else receipt]))
  }

  /** Counts the vote into the approval. */
  function CountVote(s: State, args: ApproveArgs, approval: Approval, index: nat): Result<State, Error>
    requires args.operation in s.receipts
  {
    var voted := approval.(bitmap := approval.bitmap | Mask(index));
    :- Need(!HasBit(approval.bitmap, index), DuplicateAttester);
    StoreVote(s, args, voted, DistinctSigners(voted.bitmap))
  }

  function ApproveOperation(s: State, args: ApproveArgs, signature: Signature): Result<State, Error> {
    var expected := DigestOf(s.config, args);
    :- CheckApproveArgs(s, args);
    var index :- ReadAttester(s, expected, signature);
    var approval :- ApprovalToVote(s, args, expected);
    CountVote(s, args, approval, index)
  }

  predicate CancelPermitted(status: ReceiptStatus) {
    status == Locked
  }

  predicate ReleasePermitted(status: ReceiptStatus) {
    status == MintAuthorized
  }

  function MovementDigest(config: Config, operation: OperationId, args: MovementArgs, direction: nat): Digest {
    OperationDigest(config.chainId, operation, direction, args.destination, args.commitment, args.reservation,
                    args.previous, args.expiry, args.proof)
  }

  /** The checks of `move_vault_tokens`, on the receipt and whichever approval account of it was passed in. */
  function CheckMovement(s: State, operation: OperationId, passed: nat, args: MovementArgs, direction: nat): Outcome<Error> {
    if operation !in s.receipts || Slot(operation, passed) !in s.approvals then
      Fail(AccountNotInitialized)
    else
      var receipt := s.receipts[operation];
      var approval := s.approvals[Slot(operation, passed)];
      if !(s.now < args.expiry) then Fail(Expired)
      else if !(s.now < approval.expiry) then Fail(Expired)
      else if approval.expiry != args.expiry then Fail(ReceiptMismatch)
      else if approval.consumed then Fail(ApprovalConsumed)
      else if approval.direction != direction then Fail(ApprovalDigestMismatch)
      else if DistinctSigners(approval.bitmap) < 2 then Fail(AttestationThreshold)
      else if receipt.status == Cancelled then Fail(InvalidReceiptState)
      else if receipt.status == Released then Fail(InvalidReceiptState)
      else if direction == DIRECTION_CANCEL && receipt.status == MintAuthorized then Fail(CancelAfterMint)
      else if direction == DIRECTION_CANCEL && !CancelPermitted(receipt.status) then Fail(InvalidReceiptState)
      else if direction != DIRECTION_CANCEL && !ReleasePermitted(receipt.status) then Fail(InvalidReceiptState)
      else if receipt.commitment != args.commitment then Fail(AmountCommitmentMismatch)
      else if receipt.reservation != args.reservation then Fail(ReservationMismatch)
      else if receipt.previous != args.previous then Fail(PreviousOperationMismatch)
      else if direction == DIRECTION_CANCEL && receipt.destination != args.destination then Fail(WrongDestination)
      else if approval.digest != MovementDigest(s.config, receipt.operation, args, direction) then Fail(ProofCommitmentMismatch)
      else if s.vault < args.commitment.amount then Fail(VaultTooSmall)
      else Pass
  }

  function MoveVaultTokens(s: State, operation: OperationId, passed: nat, args: MovementArgs, direction: nat): Result<State, Error> {
    var slot := Slot(operation, passed);
    :- CheckMovement(s, operation, passed, args, direction);
    var receipt := s.receipts[operation];
    var approval := s.approvals[slot];
    Ok(s.(vault := s.vault - args.commitment.amount,
          payouts := s.payouts + [Payout(operation, direction, args.destination, args.commitment.amount, approval.digest, s.now)],
          approvals := s.approvals[slot := approval.(consumed := true)],
          receipts := s.receipts[operation :=
            receipt.(status := if direction == DIRECTION_CANCEL then Cancelled else Released)]))
  }

  function CancelConfidential(s: State, operation: OperationId, passed: nat, args: MovementArgs): Result<State, Error> {
    MoveVaultTokens(s, operation, passed, args, DIRECTION_CANCEL)
  }

  function ReleaseConfidential(s: State, operation: OperationId, passed: nat, args: MovementArgs): Result<State, Error> {
    MoveVaultTokens(s, operation, passed, args, DIRECTION_RELEASE)
  }

  // Runs -------------------------------------------------------------------------------------------------

  /** Anyone may submit a transaction at any time; a key signs what it likes; the clock never goes back. */
  datatype Event =
    | Sign(signature: Signature)
    | Tick(elapsed: nat)
    | SubmitLock(lock: LockArgs)
    | SubmitApprove(approve: ApproveArgs, vote: Signature)
    | SubmitMove(operation: OperationId, passed: nat, movement: MovementArgs, release: bool)

  /** A transaction that fails changes nothing. */
  function Committed(s: State, r: Result<State, Error>): State {
    if r.Ok? then r.value else s
  }

  function Step(s: State, event: Event): State {
    match event
    case Sign(signature) => s.(signed := s.signed + {signature})
    case Tick(elapsed) => s.(now := s.now + elapsed)
    case SubmitLock(args) => Committed(s, LockConfidential(s, args))
    case SubmitApprove(args, vote) => Committed(s, ApproveOperation(s, args, vote))
    case SubmitMove(operation, passed, args, release) =>
      Committed(s, if release then ReleaseConfidential(s, operation, passed, args)
                   else CancelConfidential(s, operation, passed, args))
  }

  function Run(s: State, events: seq<Event>): State
    decreases |events|
  {
    if events == [] then s else Run(Step(s, events[0]), events[1..])
  }
}

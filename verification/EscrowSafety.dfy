/** What the escrow program keeps over every run: sound quorums, one-way receipts, and a vault that pays once. */
module EscrowSafety {
  import opened Outcomes
  import opened Sums
  import opened Escrow

  predicate ThreeKeys(config: Config) {
    && |config.attesters| == 3
    && config.attesters[0] != config.attesters[1]
    && config.attesters[0] != config.attesters[2]
    && config.attesters[1] != config.attesters[2]
  }

  predicate IsDirection(direction: nat) {
    direction == DIRECTION_MINT || direction == DIRECTION_CANCEL || direction == DIRECTION_RELEASE
  }

  /** Every bit of a bitmap stands for a signature, by the attester at that position, on exactly this digest. */
  predicate BitsAreSigned(config: Config, signed: set<Signature>, bitmap: bv8, digest: Digest)
    requires |config.attesters| == 3
  {
    forall i :: 0 <= i < 3 && HasBit(bitmap, i) ==> Signature(config.attesters[i], digest) in signed
  }

  predicate ApprovalGood(config: Config, signed: set<Signature>, receipt: Receipt, slot: Slot, a: Approval)
    requires |config.attesters| == 3
  {
    && IsDirection(slot.direction)
    && a.operation == slot.operation == receipt.operation
    && a.direction == slot.direction
    && a.digest.OperationDigest?
    && a.digest == OperationDigest(config.chainId, slot.operation, slot.direction, a.digest.destination, receipt.commitment,
                                   receipt.reservation, receipt.previous, a.expiry, a.digest.proof)
    && a.bitmap != 0 && LowBits(a.bitmap)
    && BitsAreSigned(config, signed, a.bitmap, a.digest)
    && (a.consumed ==> DistinctSigners(a.bitmap) >= 2)
    && (slot.direction == DIRECTION_MINT ==> a.expiry == receipt.expiry && !a.consumed)
    && (slot.direction == DIRECTION_CANCEL ==> a.digest.destination == receipt.destination)
  }

  function Votes(s: State, slot: Slot): nat {
    if slot in s.approvals then DistinctSigners(s.approvals[slot].bitmap) else 0
  }

  predicate Consumed(s: State, slot: Slot) {
    slot in s.approvals && s.approvals[slot].consumed
  }

  predicate ReceiptGood(s: State, operation: OperationId)
    requires operation in s.receipts
  {
    var status := s.receipts[operation].status;
    && s.receipts[operation].operation == operation
    && (status.Cancelled? <==> Consumed(s, Slot(operation, DIRECTION_CANCEL)))
    && (status.Released? <==> Consumed(s, Slot(operation, DIRECTION_RELEASE)))
    && (status.MintAuthorized? || status.Released? <==> Votes(s, Slot(operation, DIRECTION_MINT)) >= 2)
  }

  function HeldPart(r: Receipt): int {
    if r.status.Locked? || r.status.MintAuthorized? then r.commitment.amount else 0
  }

  predicate PayoutGood(s: State, p: Payout) {
    && p.operation in s.receipts
    && s.receipts[p.operation].commitment.amount == p.amount
    && Consumed(s, Slot(p.operation, p.direction))
    && (p.direction == DIRECTION_CANCEL || p.direction == DIRECTION_RELEASE)
    && s.approvals[Slot(p.operation, p.direction)].digest == p.digest
    && p.digest.OperationDigest? && p.digest.destination == p.destination
    && p.madeAt < p.digest.expiry && p.madeAt <= s.now
  }

  predicate ReceiptsGood(s: State) {
    forall op :: op in s.receipts ==> ReceiptGood(s, op)
  }

  predicate ApprovalsGood(s: State)
    requires |s.config.attesters| == 3
  {
    forall slot :: slot in s.approvals ==>
      && slot.operation in s.receipts
      && ApprovalGood(s.config, s.signed, s.receipts[slot.operation], slot, s.approvals[slot])
  }

  predicate PayoutsGood(s: State) {
    && (forall i :: 0 <= i < |s.payouts| ==> PayoutGood(s, s.payouts[i]))
    && (forall i, j :: 0 <= i < j < |s.payouts| ==> s.payouts[i].operation != s.payouts[j].operation)
  }

  ghost predicate Inv(s: State) {
    && ThreeKeys(s.config)
    && ReceiptsGood(s)
    && ApprovalsGood(s)
    && s.vault == Sum(s.receipts, HeldPart)
    && PayoutsGood(s)
  }

  lemma IndexOfAttester(config: Config, index: nat)
    requires ThreeKeys(config) && index < 3
    ensures AttesterIndex(config, config.attesters[index]) == Some(index)
  {
  }

  /** An operation is paid out by a cancel or by a release, never by both. */
  lemma PaidMeansClosed(s: State, i: nat)
    requires Inv(s) && i < |s.payouts|
    ensures var p := s.payouts[i]; var status := s.receipts[p.operation].status;
            if p.direction == DIRECTION_CANCEL then status == Cancelled else status == Released
  {
    assert PayoutGood(s, s.payouts[i]);
  }

  lemma LockKeepsInv(s: State, args: LockArgs)
    requires Inv(s) && LockConfidential(s, args).Ok?
    ensures Inv(LockConfidential(s, args).value)
  {
    var t := LockConfidential(s, args).value;
    SumInsert(s.receipts, HeldPart, args.operation, t.receipts[args.operation]);
    forall op | op in t.receipts ensures ReceiptGood(t, op) {
      assert op != args.operation ==> ReceiptGood(s, op);
      assert forall d :: Slot(args.operation, d) !in s.approvals;
    }
    forall i | 0 <= i < |t.payouts| ensures PayoutGood(t, t.payouts[i]) {
      assert PayoutGood(s, s.payouts[i]);
    }
  }

  /** The approval a vote goes into is good but for its missing bits, and belongs to the requested digest. */
  lemma VoteTarget(s: State, args: ApproveArgs)
    requires Inv(s) && CheckApproveArgs(s, args).Pass?
    requires ApprovalToVote(s, args, DigestOf(s.config, args)).Ok?
    ensures var a := ApprovalToVote(s, args, DigestOf(s.config, args)).value;
            var slot := Slot(args.operation, args.direction);
            && a.operation == args.operation && a.direction == args.direction
            && a.digest == DigestOf(s.config, args) && a.expiry == args.expiry && !a.consumed
            && LowBits(a.bitmap) && BitsAreSigned(s.config, s.signed, a.bitmap, a.digest)
            && (if slot in s.approvals && s.now < s.approvals[slot].expiry then a == s.approvals[slot] else a.bitmap == 0)
            && !Consumed(s, slot)
  {
    var slot := Slot(args.operation, args.direction);
    if slot in s.approvals {
      assert ApprovalGood(s.config, s.signed, s.receipts[args.operation], slot, s.approvals[slot]);
    }
  }

  /** A mint approval lives as long as its receipt, so it is never found expired by a vote that gets this far. */
  lemma MintApprovalIsNeverReplaced(s: State, args: ApproveArgs)
    requires Inv(s) && CheckApproveArgs(s, args).Pass?
    requires ApprovalToVote(s, args, DigestOf(s.config, args)).Ok?
    requires args.direction == DIRECTION_MINT && Slot(args.operation, DIRECTION_MINT) in s.approvals
    ensures ApprovalToVote(s, args, DigestOf(s.config, args)).value == s.approvals[Slot(args.operation, DIRECTION_MINT)]
  {
    var slot := Slot(args.operation, DIRECTION_MINT);
    assert ApprovalGood(s.config, s.signed, s.receipts[args.operation], slot, s.approvals[slot]);
  }

  lemma ApproveOutcome(s: State, args: ApproveArgs, vote: Signature)
    requires Inv(s) && ApproveOperation(s, args, vote).Ok?
    ensures var t := ApproveOperation(s, args, vote).value;
            var slot := Slot(args.operation, args.direction);
            && CheckApproveArgs(s, args).Pass?
            && IsDirection(args.direction)
            && slot in t.approvals && args.operation in s.receipts
            && ApprovalGood(s.config, s.signed, s.receipts[args.operation], slot, t.approvals[slot])
            && !Consumed(s, slot) && !t.approvals[slot].consumed
            && (args.direction == DIRECTION_MINT ==> Votes(t, slot) == Votes(s, slot) + 1)
            && t == s.(approvals := s.approvals[slot := t.approvals[slot]],
                       receipts := s.receipts[args.operation :=
                         if args.direction == DIRECTION_MINT && Votes(t, slot) >= 2
                         then s.receipts[args.operation].(status := MintAuthorized) else s.receipts[args.operation]])
            && (args.direction == DIRECTION_MINT && Votes(t, slot) >= 2 ==>
                  s.receipts[args.operation].status in {Locked, MintAuthorized})
  {
    VoteTarget(s, args);
    var a := ApprovalToVote(s, args, DigestOf(s.config, args)).value;
    var index := AttesterIndex(s.config, vote.attester).value;
    SettingABit(a.bitmap, index);
    if args.direction == DIRECTION_MINT && Slot(args.operation, args.direction) in s.approvals {
      MintApprovalIsNeverReplaced(s, args);
    }
  }

  lemma ApproveKeepsReceipts(s: State, args: ApproveArgs, vote: Signature)
    requires Inv(s) && ApproveOperation(s, args, vote).Ok?
    ensures ReceiptsGood(ApproveOperation(s, args, vote).value)
  {
    ApproveOutcome(s, args, vote);
    var t := ApproveOperation(s, args, vote).value;
    forall op | op in t.receipts ensures ReceiptGood(t, op) {
      assert ReceiptGood(s, op);
    }
  }

  /** Writing one unconsumed approval and one receipt of the same terms disturbs no payout. */
  lemma VoteKeepsPayouts(s: State, t: State, slot: Slot)
    requires PayoutsGood(s) && !Consumed(s, slot) && slot.operation in s.receipts && slot.operation in t.receipts && slot in t.approvals
    requires t.approvals == s.approvals[slot := t.approvals[slot]] && t.payouts == s.payouts && t.now == s.now
    requires t.receipts == s.receipts[slot.operation := s.receipts[slot.operation].(status := t.receipts[slot.operation].status)]
    ensures PayoutsGood(t)
  {
    forall i | 0 <= i < |t.payouts| ensures PayoutGood(t, t.payouts[i]) {
      assert PayoutGood(s, s.payouts[i]);
    }
  }

  lemma VoteKeepsApprovals(s: State, t: State, slot: Slot)
    requires ThreeKeys(s.config) && ApprovalsGood(s) && slot.operation in s.receipts && slot.operation in t.receipts && slot in t.approvals
    requires ApprovalGood(s.config, s.signed, s.receipts[slot.operation], slot, t.approvals[slot])
    requires t.config == s.config && t.signed == s.signed && t.approvals == s.approvals[slot := t.approvals[slot]]
    requires t.receipts == s.receipts[slot.operation := s.receipts[slot.operation].(status := t.receipts[slot.operation].status)]
    ensures ApprovalsGood(t)
  {
  }

  lemma ApproveKeepsInv(s: State, args: ApproveArgs, vote: Signature)
    requires Inv(s) && ApproveOperation(s, args, vote).Ok?
    ensures Inv(ApproveOperation(s, args, vote).value)
  {
    ApproveOutcome(s, args, vote);
    ApproveKeepsReceipts(s, args, vote);
    var t := ApproveOperation(s, args, vote).value;
    var slot := Slot(args.operation, args.direction);
    VoteKeepsPayouts(s, t, slot);
    VoteKeepsApprovals(s, t, slot);
    SumReplace(s.receipts, HeldPart, args.operation, t.receipts[args.operation]);
  }

  /** In a good state the vault holds enough for any movement that passes the other checks. */
  lemma VaultNeverTooSmall(s: State, operation: OperationId, passed: nat, args: MovementArgs, direction: nat)
    requires Inv(s)
    ensures CheckMovement(s, operation, passed, args, direction) != Fail(VaultTooSmall)
  {
    if operation in s.receipts {
      SumAtLeast(s.receipts, HeldPart, operation);
    }
  }

  lemma MoveKeepsReceipts(s: State, operation: OperationId, passed: nat, args: MovementArgs, direction: nat)
    requires Inv(s) && direction in {DIRECTION_CANCEL, DIRECTION_RELEASE}
    requires MoveVaultTokens(s, operation, passed, args, direction).Ok?
    ensures var t := MoveVaultTokens(s, operation, passed, args, direction).value;
            passed == direction && ReceiptsGood(t)
  {
    var t := MoveVaultTokens(s, operation, passed, args, direction).value;
    var slot := Slot(operation, passed);
    assert ApprovalGood(s.config, s.signed, s.receipts[operation], slot, s.approvals[slot]);
    forall op | op in t.receipts ensures ReceiptGood(t, op) {
      assert ReceiptGood(s, op);
    }
  }

  lemma MoveKeepsPayouts(s: State, operation: OperationId, passed: nat, args: MovementArgs, direction: nat)
    requires Inv(s) && direction in {DIRECTION_CANCEL, DIRECTION_RELEASE}
    requires MoveVaultTokens(s, operation, passed, args, direction).Ok?
    ensures var t := MoveVaultTokens(s, operation, passed, args, direction).value;
            PayoutsGood(t)
  {
    var t := MoveVaultTokens(s, operation, passed, args, direction).value;
    var slot := Slot(operation, passed);
    assert ApprovalGood(s.config, s.signed, s.receipts[operation], slot, s.approvals[slot]);
    assert ReceiptGood(s, operation);
    forall i | 0 <= i < |s.payouts|
      ensures PayoutGood(t, s.payouts[i]) && s.payouts[i].operation != operation
    {
      assert PayoutGood(s, s.payouts[i]);
    }
  }

  lemma MoveKeepsApprovals(s: State, operation: OperationId, passed: nat, args: MovementArgs, direction: nat)
    requires Inv(s) && direction in {DIRECTION_CANCEL, DIRECTION_RELEASE}
    requires MoveVaultTokens(s, operation, passed, args, direction).Ok?
    ensures ApprovalsGood(MoveVaultTokens(s, operation, passed, args, direction).value)
  {
    var slot := Slot(operation, passed);
    assert ApprovalGood(s.config, s.signed, s.receipts[operation], slot, s.approvals[slot]);
  }

  lemma MoveKeepsVault(s: State, operation: OperationId, passed: nat, args: MovementArgs, direction: nat)
    requires s.vault == Sum(s.receipts, HeldPart)
    requires MoveVaultTokens(s, operation, passed, args, direction).Ok?
    ensures var t := MoveVaultTokens(s, operation, passed, args, direction).value; t.vault == Sum(t.receipts, HeldPart)
  {
    var t := MoveVaultTokens(s, operation, passed, args, direction).value;
    SumReplace(s.receipts, HeldPart, operation, t.receipts[operation]);
  }

  lemma MoveKeepsInv(s: State, operation: OperationId, passed: nat, args: MovementArgs, direction: nat)
    requires Inv(s) && direction in {DIRECTION_CANCEL, DIRECTION_RELEASE}
    requires MoveVaultTokens(s, operation, passed, args, direction).Ok?
    ensures Inv(MoveVaultTokens(s, operation, passed, args, direction).value)
  {
    MoveKeepsReceipts(s, operation, passed, args, direction);
    MoveKeepsApprovals(s, operation, passed, args, direction);
    MoveKeepsPayouts(s, operation, passed, args, direction);
    MoveKeepsVault(s, operation, passed, args, direction);
  }

  /** More signatures and a later clock leave every account as it is. */
  lemma EnvironmentKeepsInv(s: State, t: State)
    requires Inv(s) && s.signed <= t.signed && s.now <= t.now && t == s.(signed := t.signed, now := t.now)
    ensures Inv(t)
  {
    forall op | op in t.receipts ensures ReceiptGood(t, op) {
      assert ReceiptGood(s, op);
    }
    forall i | 0 <= i < |t.payouts| ensures PayoutGood(t, t.payouts[i]) {
      assert PayoutGood(s, s.payouts[i]);
    }
  }

  lemma StepKeepsInv(s: State, event: Event)
    requires Inv(s)
    ensures Inv(Step(s, event))
  {
    match event
    case Sign(_) => EnvironmentKeepsInv(s, Step(s, event));
    case Tick(_) => EnvironmentKeepsInv(s, Step(s, event));
    case SubmitLock(args) =>
      if LockConfidential(s, args).Ok? { LockKeepsInv(s, args); }
    case SubmitApprove(args, vote) =>
      if ApproveOperation(s, args, vote).Ok? { ApproveKeepsInv(s, args, vote); }
    case SubmitMove(operation, passed, args, release) =>
      var direction := if release then DIRECTION_RELEASE else DIRECTION_CANCEL;
      if MoveVaultTokens(s, operation, passed, args, direction).Ok? {
        MoveKeepsInv(s, operation, passed, args, direction);
      }
  }

  lemma {:induction false} RunKeepsInv(s: State, events: seq<Event>)
    requires Inv(s)
    ensures Inv(Run(s, events))
    decreases |events|
  {
    if events != [] {
      StepKeepsInv(s, events[0]);
      RunKeepsInv(Step(s, events[0]), events[1..]);
    }
  }

  // What the invariant is for ------------------------------------------------------------------------------

  /** Two different attesters have signed this very digest. */
  predicate TwoSigned(config: Config, signed: set<Signature>, digest: Digest) {
    exists a, b :: a in config.attesters && b in config.attesters && a != b
                   && Signature(a, digest) in signed && Signature(b, digest) in signed
  }

  /** `distinct_signers() >= 2` means two different configured keys signed the approval's current digest. */
  lemma QuorumIsSound(s: State, slot: Slot)
    requires Inv(s) && Votes(s, slot) >= 2
    ensures TwoSigned(s.config, s.signed, s.approvals[slot].digest)
  {
    var a := s.approvals[slot];
    assert ApprovalGood(s.config, s.signed, s.receipts[slot.operation], slot, a);
    var i := if HasBit(a.bitmap, 0) then 0 else 1;
    var j := if HasBit(a.bitmap, 2) then 2 else 1;
    assert Signature(s.config.attesters[i], a.digest) in s.signed;
    assert Signature(s.config.attesters[j], a.digest) in s.signed;
    assert s.config.attesters[i] in s.config.attesters && s.config.attesters[j] in s.config.attesters;
  }

  /** A vote that replaces an expired approval starts the count again, on a digest that differs from the old one. */
  lemma OldVotesNeverCount(s: State, args: ApproveArgs, vote: Signature)
    requires Inv(s) && ApproveOperation(s, args, vote).Ok?
    requires Slot(args.operation, args.direction) in s.approvals
    requires s.now >= s.approvals[Slot(args.operation, args.direction)].expiry
    ensures var slot := Slot(args.operation, args.direction);
            var t := ApproveOperation(s, args, vote).value;
            && t.approvals[slot].digest != s.approvals[slot].digest
            && Votes(t, slot) == 1
            && args.direction != DIRECTION_MINT
  {
    var slot := Slot(args.operation, args.direction);
    VoteTarget(s, args);
    assert ApprovalGood(s.config, s.signed, s.receipts[slot.operation], slot, s.approvals[slot]);
    SettingABit(0, AttesterIndex(s.config, vote.attester).value);
  }

  /** The only moves a receipt makes. */
  predicate StatusMove(from: ReceiptStatus, to: ReceiptStatus) {
    || from == to
    || (from.Locked? && (to.MintAuthorized? || to.Cancelled?))
    || (from.MintAuthorized? && to.Released?)
  }

  predicate MovedForward(s: State, t: State, operation: OperationId)
    requires operation in s.receipts
  {
    && operation in t.receipts
    && t.receipts[operation] == s.receipts[operation].(status := t.receipts[operation].status)
    && StatusMove(s.receipts[operation].status, t.receipts[operation].status)
  }

  lemma VotesMoveForward(s: State, args: ApproveArgs, vote: Signature, operation: OperationId)
    requires Inv(s) && operation in s.receipts && ApproveOperation(s, args, vote).Ok?
    ensures MovedForward(s, ApproveOperation(s, args, vote).value, operation)
  {
    ApproveOutcome(s, args, vote);
  }

  /** One step keeps every receipt, changes nothing in it but its status, and moves that forward only. */
  lemma ReceiptsMoveForward(s: State, event: Event, operation: OperationId)
    requires Inv(s) && operation in s.receipts
    ensures MovedForward(s, Step(s, event), operation)
  {
    match event
    case Sign(_) =>
    case Tick(_) =>
    case SubmitLock(_) =>
    case SubmitApprove(args, vote) =>
      if ApproveOperation(s, args, vote).Ok? {
        VotesMoveForward(s, args, vote, operation);
      }
    case SubmitMove(op, passed, args, release) =>
  }

  /** Mint approvals only gain votes: never replaced, never consumed, the digest fixed by the first vote. */
  lemma MintApprovalsOnlyGrow(s: State, event: Event, operation: OperationId)
    requires Inv(s) && Slot(operation, DIRECTION_MINT) in s.approvals
    ensures var slot := Slot(operation, DIRECTION_MINT); var t := Step(s, event);
            && slot in t.approvals
            && t.approvals[slot].digest == s.approvals[slot].digest
            && Votes(t, slot) >= Votes(s, slot)
            && !t.approvals[slot].consumed
  {
    var slot := Slot(operation, DIRECTION_MINT);
    assert ApprovalGood(s.config, s.signed, s.receipts[operation], slot, s.approvals[slot]);
    match event
    case SubmitApprove(args, vote) =>
      if ApproveOperation(s, args, vote).Ok? && Slot(args.operation, args.direction) == slot {
        MintApprovalIsNeverReplaced(s, args);
        ApproveOutcome(s, args, vote);
      }
    case SubmitMove(op, passed, args, release) =>
      var direction := if release then DIRECTION_RELEASE else DIRECTION_CANCEL;
      if MoveVaultTokens(s, op, passed, args, direction).Ok? {
        MoveKeepsReceipts(s, op, passed, args, direction);
      }
    case _ =>
  }

  /** Over a whole run a status that was left is never taken again, and a closed receipt stays closed. */
  lemma {:induction false} LifecycleOverRuns(s: State, events: seq<Event>, operation: OperationId)
    requires Inv(s) && operation in s.receipts
    ensures var t := Run(s, events);
            && operation in t.receipts
            && var (a, b) := (s.receipts[operation].status, t.receipts[operation].status);
               && (StatusMove(a, b) || (a.Locked? && b.Released?))
               && t.receipts[operation] == s.receipts[operation].(status := b)
    decreases |events|
  {
    if events != [] {
      ReceiptsMoveForward(s, events[0], operation);
      StepKeepsInv(s, events[0]);
      LifecycleOverRuns(Step(s, events[0]), events[1..], operation);
    }
  }

  lemma InitialIsGood(chainId: Bytes32, attesters: seq<Pubkey>, now: int)
    requires |attesters| == 3
    ensures Initialize(chainId, attesters, now).Ok? <==> ThreeKeys(Config(chainId, attesters))
    ensures Initialize(chainId, attesters, now).Ok? ==> Inv(Initialize(chainId, attesters, now).value)
  {
  }

  /**
   * After any run from an initialised program: no operation is paid out twice; every payout was signed for, by
   * two different attesters, on a digest that names its operation, direction, destination and amount; and the
   * vault holds exactly the amounts of the receipts that are still open.
   */
  lemma VaultPaysOnceAndOnlyWhatWasSigned(start: State, events: seq<Event>)
    requires Inv(start)
    ensures var s := Run(start, events);
            && (forall i, j :: 0 <= i < j < |s.payouts| ==> s.payouts[i].operation != s.payouts[j].operation)
            && (forall i :: 0 <= i < |s.payouts| ==>
                  var p := s.payouts[i];
                  && TwoSigned(s.config, s.signed, p.digest)
                  && p.digest.OperationDigest?
                  && p.digest.operation == p.operation && p.digest.direction == p.direction
                  && p.digest.destination == p.destination && p.digest.commitment.amount == p.amount
                  && p.madeAt < p.digest.expiry)
            && s.vault == Sum(s.receipts, HeldPart)
  {
    RunKeepsInv(start, events);
    var s := Run(start, events);
    forall i | 0 <= i < |s.payouts|
      ensures var p := s.payouts[i];
              && TwoSigned(s.config, s.signed, p.digest)
              && p.digest.OperationDigest?
              && p.digest.operation == p.operation && p.digest.direction == p.direction
              && p.digest.destination == p.destination && p.digest.commitment.amount == p.amount
              && p.madeAt < p.digest.expiry
    {
      var p := s.payouts[i];
      var slot := Slot(p.operation, p.direction);
      assert PayoutGood(s, p);
      assert ApprovalGood(s.config, s.signed, s.receipts[slot.operation], slot, s.approvals[slot]);
      QuorumIsSound(s, slot);
    }
  }
}

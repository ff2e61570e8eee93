/**
 * When the escrow program accepts a transaction, and what it writes, in terms of receipts, approvals, signatures and
 * the clock alone.
 */
module EscrowDecisions {
  import opened Outcomes
  import opened Sums
  import opened Escrow
  import opened EscrowSafety

  // Locking --------------------------------------------------------------------------------------------------------

  /** A lock succeeds exactly for a new operation with a deadline ahead, and leaves a locked receipt of its terms. */
  lemma LocksExactlyWhenNew(s: State, args: LockArgs)
    ensures LockConfidential(s, args).Ok? <==> args.operation !in s.receipts && s.now < args.expiry
    ensures LockConfidential(s, args).Ok? ==>
      var t := LockConfidential(s, args).value;
      && args.operation in t.receipts && t.receipts - {args.operation} == s.receipts
      && t == s.(receipts := t.receipts, vault := s.vault + args.commitment.amount)
      && var r := t.receipts[args.operation];
         && r.operation == args.operation && r.destination == args.destination && r.commitment == args.commitment
         && r.reservation == args.reservation && r.previous == args.previous && r.expiry == args.expiry
         && r.lockProof == args.proof && r.status == Locked
  {
    if LockConfidential(s, args).Ok? {
      assert LockConfidential(s, args).value.receipts - {args.operation} == s.receipts;
    }
  }

  // Moving ---------------------------------------------------------------------------------------------------------

  /** An unconsumed, unexpired approval of this direction has two votes on exactly the movement. */
  predicate ApprovedMove(s: State, operation: OperationId, args: MovementArgs, direction: nat) {
    var slot := Slot(operation, direction);
    && slot in s.approvals
    && var a := s.approvals[slot];
       && Votes(s, slot) >= 2 && !a.consumed && s.now < a.expiry && a.expiry == args.expiry
       && a.digest == OperationDigest(s.config.chainId, operation, direction, args.destination, args.commitment,
                                      args.reservation, args.previous, args.expiry, args.proof)
  }

  /** The receipt waits for this direction and is on the terms of the movement. */
  predicate ReceiptAwaits(s: State, operation: OperationId, args: MovementArgs, direction: nat) {
    && operation in s.receipts
    && var r := s.receipts[operation];
       && r.status == (if direction == DIRECTION_CANCEL then Locked else MintAuthorized)
       && r.commitment == args.commitment && r.reservation == args.reservation && r.previous == args.previous
       && (direction == DIRECTION_CANCEL ==> r.destination == args.destination)
  }

  /** A movement succeeds exactly when its approval and its receipt are ready for it. */
  lemma MovesExactlyWhenDue(s: State, operation: OperationId, passed: nat, args: MovementArgs, direction: nat)
    requires Inv(s) && (direction == DIRECTION_CANCEL || direction == DIRECTION_RELEASE)
    ensures MoveVaultTokens(s, operation, passed, args, direction).Ok? <==>
      passed == direction && ApprovedMove(s, operation, args, direction) && ReceiptAwaits(s, operation, args, direction)
  {
    var slot := Slot(operation, passed);
    VaultNeverTooSmall(s, operation, passed, args, direction);
    if slot in s.approvals {
      assert ApprovalGood(s.config, s.signed, s.receipts[operation], slot, s.approvals[slot]);
    }
    if operation in s.receipts {
      assert ReceiptGood(s, operation);
    }
  }

  /** It pays the committed amount out once, now, uses the approval up and closes the receipt; nothing else changes. */
  lemma AMovementWrites(s: State, operation: OperationId, args: MovementArgs, direction: nat)
    requires Inv(s) && (direction == DIRECTION_CANCEL || direction == DIRECTION_RELEASE)
    requires MoveVaultTokens(s, operation, direction, args, direction).Ok?
    ensures var (t, slot) := (MoveVaultTokens(s, operation, direction, args, direction).value, Slot(operation, direction));
      && operation in s.receipts && slot in s.approvals && slot in t.approvals && operation in t.receipts
      && t.vault + s.receipts[operation].commitment.amount == s.vault
      && |t.payouts| == |s.payouts| + 1 && t.payouts[..|s.payouts|] == s.payouts
      && (var p := t.payouts[|s.payouts|];
          p.operation == operation && p.direction == direction && p.destination == args.destination
          && p.amount == args.commitment.amount && p.digest == s.approvals[slot].digest && p.madeAt == s.now)
      && t.approvals == s.approvals[slot := s.approvals[slot].(consumed := true)]
      && t.receipts == s.receipts[operation := s.receipts[operation].(status :=
           if direction == DIRECTION_CANCEL then Cancelled else Released)]
      && t.config == s.config && t.now == s.now && t.signed == s.signed
  {
    assert ReceiptGood(s, operation);
  }

  /** The two instructions that move tokens. */
  lemma CancelsAndReleases(s: State, operation: OperationId, passed: nat, args: MovementArgs)
    requires Inv(s)
    ensures CancelConfidential(s, operation, passed, args).Ok? <==>
      passed == DIRECTION_CANCEL && ApprovedMove(s, operation, args, DIRECTION_CANCEL)
      && ReceiptAwaits(s, operation, args, DIRECTION_CANCEL)
    ensures ReleaseConfidential(s, operation, passed, args).Ok? <==>
      passed == DIRECTION_RELEASE && ApprovedMove(s, operation, args, DIRECTION_RELEASE)
      && ReceiptAwaits(s, operation, args, DIRECTION_RELEASE)
  {
    MovesExactlyWhenDue(s, operation, passed, args, DIRECTION_CANCEL);
    MovesExactlyWhenDue(s, operation, passed, args, DIRECTION_RELEASE);
  }

  // Voting ---------------------------------------------------------------------------------------------------------

  /** The request is on the terms of its receipt, and in time. */
  predicate RequestFits(s: State, args: ApproveArgs) {
    && IsDirection(args.direction)
    && args.operation in s.receipts
    && var r := s.receipts[args.operation];
       && r.commitment == args.commitment && r.reservation == args.reservation && r.previous == args.previous
       && s.now < args.expiry
       && (args.direction == DIRECTION_MINT ==> args.expiry == r.expiry)
       && (args.direction == DIRECTION_CANCEL ==> r.destination == args.destination)
  }

  /** The signature exists, is by an attester, and is on the digest of the request. */
  predicate Signs(s: State, args: ApproveArgs, vote: Signature) {
    && vote in s.signed && vote.attester in s.config.attesters
    && vote.digest == OperationDigest(s.config.chainId, args.operation, args.direction, args.destination, args.commitment,
                                      args.reservation, args.previous, args.expiry, args.proof)
  }

  /** A live approval of the slot. */
  predicate LiveAt(s: State, slot: Slot) {
    slot in s.approvals && s.now < s.approvals[slot].expiry
  }

  /** The approval is free to be opened, or is on this digest and lacks this vote. */
  predicate SlotTakes(s: State, args: ApproveArgs, vote: Signature) {
    var slot := Slot(args.operation, args.direction);
    && !Consumed(s, slot)
    && (LiveAt(s, slot) ==>
          && s.approvals[slot].digest == vote.digest
          && forall i :: 0 <= i < |s.config.attesters| && i < 3 && s.config.attesters[i] == vote.attester ==>
               !HasBit(s.approvals[slot].bitmap, i))
  }

  /** A vote that would be the second for a mint needs a receipt that is not closed. */
  predicate MintStillOpen(s: State, args: ApproveArgs) {
    args.direction == DIRECTION_MINT && Votes(s, Slot(args.operation, DIRECTION_MINT)) >= 1 ==>
      args.operation in s.receipts
      && (s.receipts[args.operation].status == Locked || s.receipts[args.operation].status == MintAuthorized)
  }

  lemma CountsOneMore(bitmap: bv8, index: nat)
    requires LowBits(bitmap) && index < 3 && !HasBit(bitmap, index)
    ensures DistinctSigners(bitmap | Mask(index)) >= 2 <==> DistinctSigners(bitmap) >= 1
    ensures DistinctSigners(0) == 0
  {
    SettingABit(bitmap, index);
  }

  lemma ChecksPassExactly(s: State, args: ApproveArgs)
    requires Inv(s)
    ensures CheckApproveArgs(s, args).Pass? <==> RequestFits(s, args)
  {
    if args.operation in s.receipts {
      assert ReceiptGood(s, args.operation);
    }
  }

  lemma SlotTakesExactly(s: State, args: ApproveArgs, vote: Signature, index: nat)
    requires Inv(s) && RequestFits(s, args) && Signs(s, args, vote) && index < 3 && s.config.attesters[index] == vote.attester
    ensures var target := ApprovalToVote(s, args, DigestOf(s.config, args));
      SlotTakes(s, args, vote) <==> target.Ok? && !HasBit(target.value.bitmap, index)
  {
    var slot := Slot(args.operation, args.direction);
    if slot in s.approvals {
      assert ApprovalGood(s.config, s.signed, s.receipts[args.operation], slot, s.approvals[slot]);
    }
  }

  lemma MintOpensExactly(s: State, args: ApproveArgs, vote: Signature, index: nat)
    requires Inv(s) && RequestFits(s, args) && Signs(s, args, vote) && index < 3 && s.config.attesters[index] == vote.attester
    requires SlotTakes(s, args, vote) && ApprovalToVote(s, args, DigestOf(s.config, args)).Ok?
    ensures var target := ApprovalToVote(s, args, DigestOf(s.config, args)).value;
      !HasBit(target.bitmap, index) ==> (CountVote(s, args, target, index).Ok? <==> MintStillOpen(s, args))
  {
    VoteTarget(s, args);
    var target := ApprovalToVote(s, args, DigestOf(s.config, args)).value;
    var slot := Slot(args.operation, args.direction);
    if slot in s.approvals {
      assert ApprovalGood(s.config, s.signed, s.receipts[args.operation], slot, s.approvals[slot]);
    }
    if !HasBit(target.bitmap, index) {
      CountsOneMore(target.bitmap, index);
    }
  }

  lemma ApprovesInOrder(s: State, args: ApproveArgs, vote: Signature)
    ensures ApproveOperation(s, args, vote).Ok? <==>
      && CheckApproveArgs(s, args).Pass?
      && ReadAttester(s, DigestOf(s.config, args), vote).Ok?
      && ApprovalToVote(s, args, DigestOf(s.config, args)).Ok?
      && CountVote(s, args, ApprovalToVote(s, args, DigestOf(s.config, args)).value,
                   ReadAttester(s, DigestOf(s.config, args), vote).value).Ok?
  {
  }

  /** A vote of any of the three attesters is accepted exactly when all of this holds. */
  lemma VotesExactlyWhen(s: State, args: ApproveArgs, vote: Signature)
    requires Inv(s)
    ensures ApproveOperation(s, args, vote).Ok? <==>
      RequestFits(s, args) && Signs(s, args, vote) && SlotTakes(s, args, vote) && MintStillOpen(s, args)
  {
    ApprovesInOrder(s, args, vote);
    ChecksPassExactly(s, args);
    if RequestFits(s, args) && Signs(s, args, vote) {
      var index :| 0 <= index < |s.config.attesters| && s.config.attesters[index] == vote.attester;
      IndexOfAttester(s.config, index);
      SlotTakesExactly(s, args, vote, index);
      if SlotTakes(s, args, vote) {
        MintOpensExactly(s, args, vote, index);
      }
    }
  }

  /** It adds exactly the voter's bit to the live approval, or opens one with that bit alone. */
  lemma AVoteWrites(s: State, args: ApproveArgs, vote: Signature, index: nat)
    requires Inv(s) && ApproveOperation(s, args, vote).Ok? && index < 3 && s.config.attesters[index] == vote.attester
    ensures var (t, slot) := (ApproveOperation(s, args, vote).value, Slot(args.operation, args.direction));
      && slot in t.approvals && args.operation in s.receipts && args.operation in t.receipts
      && var a := t.approvals[slot];
         && a.operation == args.operation && a.direction == args.direction && a.digest == vote.digest
         && a.expiry == args.expiry && !a.consumed && LowBits(a.bitmap)
         && (forall i :: 0 <= i < 3 ==>
               (HasBit(a.bitmap, i) <==> i == index || (LiveAt(s, slot) && HasBit(s.approvals[slot].bitmap, i))))
         && t.receipts[args.operation] == s.receipts[args.operation].(status :=
              if args.direction == DIRECTION_MINT && Votes(t, slot) >= 2 then MintAuthorized
              else s.receipts[args.operation].status)
         && t == s.(approvals := s.approvals[slot := a], receipts := s.receipts[args.operation := t.receipts[args.operation]])
  {
    IndexOfAttester(s.config, index);
    VoteTarget(s, args);
    ApproveOutcome(s, args, vote);
    SettingABit(ApprovalToVote(s, args, DigestOf(s.config, args)).value.bitmap, index);
  }
}

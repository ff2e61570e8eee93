/** The coordinator's decision to vote and the program's decision to accept the votes, side by side. */
module Agreement {
  import opened ByteOrder
  import opened Outcomes
  import opened Escrow
  import opened EscrowSafety
  import opened Recovery

  /** `read_approval`: what the coordinator sees of an approval account. */
  function ReadApproval(s: State, slot: Slot): Option<OnChainApproval<Digest>> {
    if slot in s.approvals then
      var a := s.approvals[slot];
      Some(OnChainApproval(a.bitmap, a.consumed, a.expiry, a.digest))
    else
      None
  }

  function Needed(s: State, args: ApproveArgs): Result<(bool, bool), Refusal> {
    AttestersNeeded(ReadApproval(s, Slot(args.operation, args.direction)), DigestOf(s.config, args), args.expiry, s.now,
                    args.direction == DIRECTION_RELEASE)
  }

  /** The request names the terms of the receipt, and a mint is asked for while it can still be authorized. */
  predicate Matches(s: State, args: ApproveArgs) {
    && IsDirection(args.direction)
    && args.operation in s.receipts
    && var receipt := s.receipts[args.operation];
       && args.commitment == receipt.commitment
       && args.reservation == receipt.reservation
       && args.previous == receipt.previous
       && (args.direction == DIRECTION_MINT ==>
             args.expiry == receipt.expiry && (receipt.status.Locked? || receipt.status.MintAuthorized?))
       && (args.direction == DIRECTION_CANCEL ==> args.destination == receipt.destination)
  }

  function VoteOf(s: State, args: ApproveArgs, index: nat): Signature
    requires index < |s.config.attesters|
  {
    Signature(s.config.attesters[index], DigestOf(s.config, args))
  }

  predicate BothSign(s: State, args: ApproveArgs) {
    && |s.config.attesters| == 3
    && VoteOf(s, args, 0) in s.signed
    && VoteOf(s, args, 1) in s.signed
  }

  function SubmitIf(wanted: bool, s: State, args: ApproveArgs, index: nat): Result<State, Error>
    requires index < |s.config.attesters|
  {
    if wanted then ApproveOperation(s, args, VoteOf(s, args, index)) else Ok(s)
  }

  predicate Accepts(s: State, args: ApproveArgs, index: nat)
    requires index < |s.config.attesters|
  {
    ApproveOperation(s, args, VoteOf(s, args, index)).Ok?
  }

  /** The vote of attester `index` lands exactly when it opens the count or fills in its own missing bit. */
  lemma WhenAVoteLands(s: State, args: ApproveArgs, index: nat)
    requires Inv(s) && Matches(s, args) && index < 2 && VoteOf(s, args, index) in s.signed
    ensures var existing := ReadApproval(s, Slot(args.operation, args.direction));
            Accepts(s, args, index) <==>
              && s.now < args.expiry
              && (existing.Some? ==>
                    && !existing.value.consumed
                    && (s.now < existing.value.expiry ==>
                          && existing.value.digest == DigestOf(s.config, args)
                          && !HasBit(existing.value.bitmap, index)))
  {
    var slot := Slot(args.operation, args.direction);
    IndexOfAttester(s.config, index);
    assert ReceiptGood(s, args.operation);
    if slot in s.approvals {
      assert ApprovalGood(s.config, s.signed, s.receipts[args.operation], slot, s.approvals[slot]);
    }
  }

  /** What is on chain after a vote that landed: the same terms, one bit more. */
  lemma AfterAVote(s: State, args: ApproveArgs, index: nat)
    requires Inv(s) && Matches(s, args) && index < 2 && Accepts(s, args, index)
    ensures var t := ApproveOperation(s, args, VoteOf(s, args, index)).value;
            var slot := Slot(args.operation, args.direction);
            && Inv(t) && Matches(t, args) && t.signed == s.signed && t.now == s.now && t.config == s.config
            && slot in t.approvals
            && t.approvals[slot].digest == DigestOf(s.config, args)
            && t.approvals[slot].expiry == args.expiry
            && !t.approvals[slot].consumed
            && HasBit(t.approvals[slot].bitmap, index)
            && (slot in s.approvals && s.now < s.approvals[slot].expiry ==>
                  forall i :: 0 <= i < 3 && i != index ==> HasBit(t.approvals[slot].bitmap, i) == HasBit(s.approvals[slot].bitmap, i))
            && (!(slot in s.approvals && s.now < s.approvals[slot].expiry) ==> !HasBit(t.approvals[slot].bitmap, 1 - index))
  {
    IndexOfAttester(s.config, index);
    var vote := VoteOf(s, args, index);
    ApproveKeepsInv(s, args, vote);
    VoteTarget(s, args);
    ApproveOutcome(s, args, vote);
    SettingABit(ApprovalToVote(s, args, DigestOf(s.config, args)).value.bitmap, index);
  }

  lemma NothingIsMissing(s: State, args: ApproveArgs)
    requires Inv(s) && Matches(s, args) && Needed(s, args) == Ok((false, false))
    ensures Votes(s, Slot(args.operation, args.direction)) >= 2
  {
    var slot := Slot(args.operation, args.direction);
    assert ApprovalGood(s.config, s.signed, s.receipts[args.operation], slot, s.approvals[slot]);
  }

  /**
   * If the coordinator decides which votes to submit, and the authorization has not expired while it asks for
   * any, then submitting exactly those votes, A before B, succeeds and leaves a quorum.
   */
  lemma FlaggedVotesReachQuorum(s: State, args: ApproveArgs)
    requires Inv(s) && Matches(s, args) && BothSign(s, args)
    requires Needed(s, args).Ok?
    requires var (a, b) := Needed(s, args).value; (a || b ==> s.now < args.expiry)
    ensures var (a, b) := Needed(s, args).value;
            var first := SubmitIf(a, s, args, 0);
            && first.Ok?
            && |first.value.config.attesters| == 3
            && var second := SubmitIf(b, first.value, args, 1);
               && second.Ok?
               && Votes(second.value, Slot(args.operation, args.direction)) >= 2
  {
    var (a, b) := Needed(s, args).value;
    if !a && !b {
      NothingIsMissing(s, args);
    } else {
      var s1 := s;
      if a {
        WhenAVoteLands(s, args, 0);
        AfterAVote(s, args, 0);
        s1 := SubmitIf(a, s, args, 0).value;
      }
      if b {
        WhenAVoteLands(s1, args, 1);
        AfterAVote(s1, args, 1);
      }
    }
  }

  /** For mint and release the coordinator never refuses while the program would accept A or B. */
  lemma NeverRefusesWhatTheProgramAccepts(s: State, args: ApproveArgs)
    requires Inv(s) && Matches(s, args) && BothSign(s, args)
    requires args.direction == DIRECTION_MINT || args.direction == DIRECTION_RELEASE
    requires Accepts(s, args, 0) || Accepts(s, args, 1)
    ensures Needed(s, args).Ok?
  {
    var slot := Slot(args.operation, args.direction);
    WhenAVoteLands(s, args, 0);
    WhenAVoteLands(s, args, 1);
    if slot in s.approvals {
      assert ApprovalGood(s.config, s.signed, s.receipts[args.operation], slot, s.approvals[slot]);
    }
  }

  /** A and B have both voted on this very request, and it still stands. */
  predicate BothStand(s: State, args: ApproveArgs) {
    var slot := Slot(args.operation, args.direction);
    && slot in s.approvals && !s.approvals[slot].consumed && s.now < s.approvals[slot].expiry
    && s.approvals[slot].digest == DigestOf(s.config, args)
    && HasBit(s.approvals[slot].bitmap, 0) && HasBit(s.approvals[slot].bitmap, 1)
  }

  /** For an open mint or release request the coordinator goes on exactly when the program would take A or B, or both stand. */
  lemma GoesOnExactlyWhen(s: State, args: ApproveArgs)
    requires Inv(s) && Matches(s, args) && BothSign(s, args) && s.now < args.expiry
    requires args.direction == DIRECTION_MINT || args.direction == DIRECTION_RELEASE
    ensures Needed(s, args).Ok? <==> Accepts(s, args, 0) || Accepts(s, args, 1) || BothStand(s, args)
    ensures BothStand(s, args) <==> Needed(s, args) == Ok((false, false))
  {
    var slot := Slot(args.operation, args.direction);
    WhenAVoteLands(s, args, 0);
    WhenAVoteLands(s, args, 1);
    if slot in s.approvals {
      assert ApprovalGood(s.config, s.signed, s.receipts[args.operation], slot, s.approvals[slot]);
    }
  }

  /** For a cancel it is stricter: of what the program accepts it refuses exactly the replacement of an expired approval. */
  lemma CancelRefusesReplacement(s: State, args: ApproveArgs)
    requires Inv(s) && Matches(s, args) && BothSign(s, args)
    requires args.direction == DIRECTION_CANCEL
    requires Accepts(s, args, 0) || Accepts(s, args, 1)
    ensures var slot := Slot(args.operation, DIRECTION_CANCEL);
            Needed(s, args).Ok? <==> !(slot in s.approvals && s.now >= s.approvals[slot].expiry)
  {
    var slot := Slot(args.operation, DIRECTION_CANCEL);
    WhenAVoteLands(s, args, 0);
    WhenAVoteLands(s, args, 1);
    if slot in s.approvals {
      assert ApprovalGood(s.config, s.signed, s.receipts[args.operation], slot, s.approvals[slot]);
    }
  }

  // Approvals stay on chain ----------------------------------------------------------------------------------

  lemma {:induction false} ApprovalsStay(s: State, events: seq<Event>, slot: Slot)
    requires slot in s.approvals
    ensures slot in Run(s, events).approvals && Run(s, events).config == s.config
    decreases |events|
  {
    if events != [] {
      ApprovalsStay(Step(s, events[0]), events[1..], slot);
    }
  }

  /**
   * Every cancel attempt makes new transfer proofs, so it asks for a digest that is on no chain yet. It gets
   * to vote if and only if no vote to cancel was ever recorded: one recorded vote, from an attempt stopped
   * before the movement, makes every later attempt of this coordinator be refused, at any time.
   */
  lemma FreshCancelIsRefusedForEver(s: State, events: seq<Event>, args: ApproveArgs)
    requires Slot(args.operation, DIRECTION_CANCEL) in s.approvals && args.direction == DIRECTION_CANCEL
    requires var t := Run(s, events); var slot := Slot(args.operation, DIRECTION_CANCEL);
             slot in t.approvals ==> t.approvals[slot].digest != DigestOf(t.config, args)
    ensures Needed(Run(s, events), args).Err?
  {
    ApprovalsStay(s, events, Slot(args.operation, DIRECTION_CANCEL));
  }

  lemma FreshCancelVotesOnlyOnce(s: State, args: ApproveArgs)
    requires args.direction == DIRECTION_CANCEL
    requires var slot := Slot(args.operation, DIRECTION_CANCEL);
             slot in s.approvals ==> s.approvals[slot].digest != DigestOf(s.config, args)
    ensures Needed(s, args).Ok? <==> Slot(args.operation, DIRECTION_CANCEL) !in s.approvals && s.now < args.expiry
  {
  }

  /** The lock, the signature of A and the one vote of an attempt that stops before B votes. */
  function OneCancelVote(s: State, lock: LockArgs, args: ApproveArgs): seq<Event>
    requires |s.config.attesters| == 3
  {
    [SubmitLock(lock), Sign(VoteOf(s, args, 0)), SubmitApprove(args, VoteOf(s, args, 0))]
  }

  lemma FirstCancelVoteLands(s: State, args: ApproveArgs)
    requires Inv(s) && Matches(s, args) && args.direction == DIRECTION_CANCEL && s.now < args.expiry
    requires VoteOf(s, args, 0) in s.signed && Slot(args.operation, DIRECTION_CANCEL) !in s.approvals
    ensures var (t, slot) := (Step(s, SubmitApprove(args, VoteOf(s, args, 0))), Slot(args.operation, DIRECTION_CANCEL));
      && t.receipts == s.receipts && slot in t.approvals
      && t.approvals[slot].digest == DigestOf(s.config, args) && Votes(t, slot) == 1
  {
    IndexOfAttester(s.config, 0);
    assert ReceiptGood(s, args.operation);
    SettingABit(0, 0);
  }

  lemma LockedAndSigned(s: State, lock: LockArgs, vote: Signature)
    requires Inv(s) && lock.operation !in s.receipts && s.now < lock.expiry
    ensures var t := Step(Step(s, SubmitLock(lock)), Sign(vote));
      && t.config == s.config && t.now == s.now && t.approvals == s.approvals && vote in t.signed
      && Slot(lock.operation, DIRECTION_CANCEL) !in t.approvals
      && lock.operation in t.receipts
      && t.receipts[lock.operation] == Receipt(lock.operation, lock.destination, lock.commitment, lock.reservation, lock.previous,
                                               lock.expiry, lock.proof, Locked)
  {
  }

  /** Such a vote can be recorded for every operation: three steps from any state in which it is not locked yet. */
  lemma OneCancelVoteIsRecorded(s: State, lock: LockArgs, args: ApproveArgs)
    requires Inv(s) && lock.operation !in s.receipts && s.now < lock.expiry && s.now < args.expiry
    requires args.operation == lock.operation && args.direction == DIRECTION_CANCEL && args.destination == lock.destination
    requires args.commitment == lock.commitment && args.reservation == lock.reservation && args.previous == lock.previous
    ensures var (t, slot) := (Run(s, OneCancelVote(s, lock, args)), Slot(args.operation, DIRECTION_CANCEL));
      && Inv(t) && lock.operation in t.receipts && t.receipts[lock.operation].status == Locked
      && slot in t.approvals && t.approvals[slot].digest == DigestOf(s.config, args) && Votes(t, slot) == 1
  {
    var vote := VoteOf(s, args, 0);
    var events := OneCancelVote(s, lock, args);
    var signed := Step(Step(s, SubmitLock(lock)), Sign(vote));
    LockedAndSigned(s, lock, vote);
    ThreeEvents(s, SubmitLock(lock), Sign(vote), SubmitApprove(args, vote));
    TwoEvents(s, SubmitLock(lock), Sign(vote));
    RunKeepsInv(s, [SubmitLock(lock), Sign(vote)]);
    RunKeepsInv(s, events);
    assert VoteOf(signed, args, 0) == vote;
    FirstCancelVoteLands(signed, args);
    assert Run(s, events) == Step(signed, SubmitApprove(args, vote));
  }

  lemma TwoEvents(s: State, a: Event, b: Event)
    ensures Run(s, [a, b]) == Step(Step(s, a), b)
  {
    assert [a, b][1..] == [b] && [b][1..] == [];
    assert Run(Step(s, a), [b]) == Step(Step(s, a), b);
  }

  lemma ThreeEvents(s: State, a: Event, b: Event, c: Event)
    ensures Run(s, [a, b, c]) == Step(Step(Step(s, a), b), c)
  {
    assert [a, b, c][1..] == [b, c] && [b, c][1..] == [c] && [c][1..] == [];
    assert Run(Step(Step(s, a), b), [c]) == Step(Step(Step(s, a), b), c);
  }

  // From account bytes ---------------------------------------------------------------------------------------

  /** The approval account as the program serializes it, with `hash` giving the 32 bytes of a digest. */
  function AccountOf(a: Approval, hash: Digest -> Bytes, discriminator: Bytes, operation: Bytes, bump: Byte): ApprovalAccount
    requires a.direction < 256
  {
    ApprovalAccount(discriminator, operation, a.direction, hash(a.digest), a.bitmap, a.consumed, bump, a.expiry)
  }

  /**
   * Deciding on the decoded bytes is deciding on the approval itself, as long as the two digests at hand do
   * not collide.
   */
  lemma DecidingFromBytes(s: State, args: ApproveArgs, hash: Digest -> Bytes, discriminator: Bytes, operation: Bytes, bump: Byte)
    requires var slot := Slot(args.operation, args.direction);
             && slot in s.approvals && s.approvals[slot].direction < 256
             && WellSized(AccountOf(s.approvals[slot], hash, discriminator, operation, bump))
             && (hash(s.approvals[slot].digest) == hash(DigestOf(s.config, args)) ==>
                   s.approvals[slot].digest == DigestOf(s.config, args))
    ensures var slot := Slot(args.operation, args.direction);
            var decoded := DecodeApproval(EncodeApproval(AccountOf(s.approvals[slot], hash, discriminator, operation, bump)));
            && decoded.Ok?
            && AttestersNeeded(Some(decoded.value), hash(DigestOf(s.config, args)), args.expiry, s.now,
                               args.direction == DIRECTION_RELEASE)
               == Needed(s, args)
  {
    var account := AccountOf(s.approvals[Slot(args.operation, args.direction)], hash, discriminator, operation, bump);
    ApprovalRoundTrip(account, []);
    assert EncodeApproval(account) + [] == EncodeApproval(account);
  }
}

/**
 * The escrow handlers as the program runs them: accounts are loaded, changed field by field, and stored back
 * when the handler returns. Every method is one handler of Escrow on `View()`, so EscrowSafety applies.
 */
module EscrowProgram {
  import opened Outcomes
  import opened Escrow

  class Program {
    const config: Config
    var now: int
    var receipts: map<OperationId, Receipt>
    var approvals: map<Slot, Approval>
    var vault: nat
    var payouts: seq<Payout>
    var signed: set<Signature>

    function View(): State
      reads this
    {
      State(config, now, receipts, approvals, vault, payouts, signed)
    }

    /** The program over accounts that already exist. */
    constructor (s: State)
      ensures View() == s
    {
      config, now, receipts, approvals := s.config, s.now, s.receipts, s.approvals;
      vault, payouts, signed := s.vault, s.payouts, s.signed;
    }

    method LockConfidential(args: LockArgs) returns (r: Outcome<Error>)
      modifies this
      ensures match Escrow.LockConfidential(old(View()), args)
              case Ok(t) => r == Pass && View() == t
              case Err(e) => r == Fail(e) && View() == old(View())
    {
      if args.operation in receipts {
        return Fail(AccountInUse);
      }
      if !(now < args.expiry) {
        return Fail(Expired);
      }
      vault := vault + args.commitment.amount;
      receipts := receipts[args.operation :=
        Receipt(args.operation, args.destination, args.commitment, args.reservation, args.previous, args.expiry,
                args.proof, Locked)];
      r := Pass;
    }

    /** The approval account that the vote goes into, started afresh if it is blank or has expired. */
    method OpenApproval(args: ApproveArgs, expected: Digest) returns (r: Result<Approval, Error>)
      ensures r == ApprovalToVote(View(), args, expected)
    {
      var slot := Slot(args.operation, args.direction);
      var approval := if slot in approvals then approvals[slot] else BLANK_APPROVAL;
      var empty := approval.bitmap == 0 && approval.digest == NoDigest;
      var expired := !empty && now >= approval.expiry;
      if empty || (expired && !approval.consumed) {
        if approval.consumed {
          return Err(ApprovalConsumed);
        }
        approval := approval.(operation := args.operation);
        approval := approval.(direction := args.direction);
        approval := approval.(digest := expected);
        approval := approval.(consumed := false);
        approval := approval.(bitmap := 0);
        approval := approval.(expiry := args.expiry);
      } else if approval.consumed {
        return Err(ApprovalConsumed);
      } else if expired {
        return Err(Expired);
      } else if approval.digest != expected || approval.direction != args.direction {
        return Err(ApprovalDigestMismatch);
      } else if approval.operation != args.operation || approval.expiry != args.expiry {
        return Err(ReceiptMismatch);
      }
      return Ok(approval);
    }

    method StoreVote(args: ApproveArgs, voted: Approval, signers: nat) returns (r: Outcome<Error>)
      requires args.operation in receipts
      modifies this`approvals, this`receipts
      ensures match Escrow.StoreVote(old(View()), args, voted, signers)
              case Ok(t) => r == Pass && View() == t
              case Err(e) => r == Fail(e) && View() == old(View())
    {
      var receipt := receipts[args.operation];
      if args.direction == DIRECTION_MINT && signers >= 2 {
        if !(receipt.status == Locked || receipt.status == MintAuthorized) {
          return Fail(InvalidReceiptState);
        }
        receipt := receipt.(status := MintAuthorized);
      }
      approvals := approvals[Slot(args.operation, args.direction) := voted];
      receipts := receipts[args.operation := receipt];
      return Pass;
    }

    method CountVote(args: ApproveArgs, ballot: Approval, index: nat) returns (r: Outcome<Error>)
      requires args.operation in receipts
      modifies this`approvals, this`receipts
      ensures match Escrow.CountVote(old(View()), args, ballot, index)
              case Ok(t) => r == Pass && View() == t
              case Err(e) => r == Fail(e) && View() == old(View())
    {
      var approval := ballot;
      if HasBit(approval.bitmap, index) {
        return Fail(DuplicateAttester);
      }
      approval := approval.(bitmap := approval.bitmap | Mask(index));
      r := StoreVote(args, approval, DistinctSigners(approval.bitmap));
    }

    method ApproveOperation(args: ApproveArgs, signature: Signature) returns (r: Outcome<Error>)
      modifies this`approvals, this`receipts
      ensures match Escrow.ApproveOperation(old(View()), args, signature)
              case Ok(t) => r == Pass && View() == t
              case Err(e) => r == Fail(e) && View() == old(View())
    {
      r := CheckApproveArgs(View(), args);
      if r.Fail? {
        return;
      }
      var expected := DigestOf(config, args);
      var reader := ReadAttester(View(), expected, signature);
      if reader.Err? {
        return Fail(reader.error);
      }
      var approval := OpenApproval(args, expected);
      if approval.Err? {
        return Fail(approval.error);
      }
      r := CountVote(args, approval.value, reader.value);
    }

    method MoveVaultTokens(operation: OperationId, passed: nat, args: MovementArgs, direction: nat) returns (r: Outcome<Error>)
      modifies this
      ensures match Escrow.MoveVaultTokens(old(View()), operation, passed, args, direction)
              case Ok(t) => r == Pass && View() == t
              case Err(e) => r == Fail(e) && View() == old(View())
    {
      r := CheckMovement(View(), operation, passed, args, direction);
      if r.Fail? {
        return;
      }
      var receipt := receipts[operation];
      var approval := approvals[Slot(operation, passed)];
      vault := vault - args.commitment.amount;
      payouts := payouts + [Payout(operation, direction, args.destination, args.commitment.amount, approval.digest, now)];
      approval := approval.(consumed := true);
      receipt := receipt.(status := if direction == DIRECTION_CANCEL then Cancelled else Released);
      approvals := approvals[Slot(operation, passed) := approval];
      receipts := receipts[operation := receipt];
    }
  }
}

/** The coordinator's journal: how far an operation got, and what has to survive a crash. */
module OperationJournal {
  import opened Outcomes

  datatype Step =
    | Accounts | Reserved | Locked | MintApproved | CantonMinted | TradePrepared | Reassigned | Settled | Redeemed
    | ReleaseApproved | Released | ZamaRedeemed | Cancelled

  function Rank(s: Step): nat {
    match s
    case Accounts => 1
    case Reserved => 2
    case Locked => 3
    case MintApproved => 4
    case CantonMinted => 5
    case TradePrepared => 6
    case Reassigned => 7
    case Settled => 8
    case Redeemed => 9
    case ReleaseApproved => 10
    case Released => 11
    case ZamaRedeemed => 12
    case Cancelled => 13
  }

  /** The fields that decide what a resumed attempt does; an expiry of zero and a missing proof are blank fields. */
  datatype Journal = Journal(
    completed: Option<Step>, mintExpiry: int, lockProof: Option<Bytes32>, releaseExpiry: int, releaseProof: Option<Bytes32>)

  const BLANK := Journal(None, 0, None, 0, None)

  predicate Reached(j: Journal, s: Step) {
    j.completed.Some? && Rank(s) <= Rank(j.completed.value)
  }

  /** The later of a step and what was already completed. */
  function MaxCompleted(s: Step, current: Option<Step>): Step {
    match current
    case Some(done) => if Rank(done) > Rank(s) then done else s
    case None => s
  }

  /** Completing a step: a journal that is already past it stays as it is. */
  function Complete(j: Journal, s: Step): Journal {
    if Reached(j, s) then j else j.(completed := Some(s))
  }

  /** Completing never goes back, and adds nothing beyond the step itself. */
  lemma CompletingOnlyAdvances(j: Journal, s: Step, t: Step)
    ensures Reached(Complete(j, s), t) <==> Reached(j, t) || Rank(t) <= Rank(s)
    ensures Reached(j.(completed := Some(MaxCompleted(s, j.completed))), t) <==> Reached(j, t) || Rank(t) <= Rank(s)
  {
  }
}

/** What a resumed attempt does about its reservation. */
module ReservationResume {
  import opened Outcomes

  const RESERVATION_EMPTY: nat := 0
  const RESERVATION_RESERVED: nat := 1
  const RESERVATION_FINALIZED: nat := 2
  const RESERVATION_CANCELLED: nat := 3
  const RESERVATION_REDEEMED: nat := 4

  datatype Action = SubmitReserve | ResumeApproved | RecordCompleted

  datatype Refusal = StatusUnread | ApprovalUnread | NotApproved | WasCancelled | UnknownStatus

  function RequireApproved(approved: Option<Result<bool, Refusal>>): Outcome<Refusal> {
    match approved
    case None => Fail(ApprovalUnread)
    case Some(Err(_)) => Fail(ApprovalUnread)
    case Some(Ok(true)) => Pass
    case Some(Ok(false)) => Fail(NotApproved)
  }

  function Resume(status: Result<nat, Refusal>, approved: Option<Result<bool, Refusal>>): Result<Action, Refusal> {
    match status
    case Err(_) => Err(StatusUnread)
    case Ok(code) =>
      if code == RESERVATION_EMPTY then
        Ok(SubmitReserve)
      else if code == RESERVATION_RESERVED || code == RESERVATION_FINALIZED then
        :- RequireApproved(approved);
        Ok(ResumeApproved)
      else if code == RESERVATION_CANCELLED then
        Err(WasCancelled)
      else if code == RESERVATION_REDEEMED then
        :- RequireApproved(approved);
        Ok(RecordCompleted)
      else
        Err(UnknownStatus)
  }

  /** An attempt goes on with an existing reservation only on a successful reading of both status and approval. */
  lemma ResumesOnlyOnEvidence(status: Result<nat, Refusal>, approved: Option<Result<bool, Refusal>>)
    ensures Resume(status, approved) == Ok(ResumeApproved)
      <==> (status == Ok(RESERVATION_RESERVED) || status == Ok(RESERVATION_FINALIZED)) && approved == Some(Ok(true))
    ensures Resume(status, approved) == Ok(RecordCompleted) <==> status == Ok(RESERVATION_REDEEMED) && approved == Some(Ok(true))
    ensures Resume(status, approved) == Ok(SubmitReserve) <==> status == Ok(RESERVATION_EMPTY)
  {
  }
}

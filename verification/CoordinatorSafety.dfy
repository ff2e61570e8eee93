/**
 * Whatever the coordinator does, crashing and resuming at any point, each chain action it takes is allowed, and its
 * journal never claims what the chains do not show.
 */
module CoordinatorSafety {
  import opened Outcomes
  import opened Sums
  import E = Escrow
  import S = EscrowSafety
  import X = Exposure
  import Agreement
  import opened Recovery
  import opened OperationJournal
  import ReservationResume
  import opened Rail
  import opened RailSafety
  import C = Coordinator

  // Evidence -------------------------------------------------------------------------------------------------

  /** What the chains show once the step of this rank has had its effect. */
  ghost predicate Shows(r: State, op: OperationId, rank: nat) {
    if rank == Rank(Reserved) then Approved(r, op)
    else if rank == Rank(Locked) then op in r.escrow.receipts
    else if rank == Rank(MintApproved) then MintAuthorized(r, op)
    else if rank == Rank(CantonMinted) then
      StagesOf(r, op).minted && (Reservation(r, op, X.Finalized) || Reservation(r, op, X.Redeemed))
    else if rank == Rank(TradePrepared) then StagesOf(r, op).prepared
    else if rank == Rank(Settled) then StagesOf(r, op).settled
    else if rank == Rank(Redeemed) then StagesOf(r, op).burned
    else if rank == Rank(ReleaseApproved) then ReleaseSigned(r, op)
    else if rank == Rank(Released) then HasStatus(r, op, E.Released)
    else if rank == Rank(ZamaRedeemed) then Reservation(r, op, X.Redeemed)
    else true
  }

  /** The chains show every step up to this rank. */
  ghost predicate UpTo(r: State, op: OperationId, rank: nat) {
    Shows(r, op, rank) && (rank > 0 ==> UpTo(r, op, rank - 1))
  }

  /** The cancel path is complete: the locked value went back and the reservation was cancelled. */
  predicate Refunded(r: State, op: OperationId) {
    HasStatus(r, op, E.Cancelled) && Reservation(r, op, X.Cancelled)
  }

  ghost predicate JournalTrue(r: State, op: OperationId, j: Journal) {
    match j.completed
    case None => true
    case Some(step) => if step == Cancelled then Refunded(r, op) else UpTo(r, op, Rank(step))
  }

  // Points ---------------------------------------------------------------------------------------------------

  function KnownForVotes(direction: nat): nat {
    if direction == E.DIRECTION_MINT then Rank(Locked) else if direction == E.DIRECTION_RELEASE then Rank(Redeemed) else 0
  }

  /** How far the chains are known to be at a point of the run. */
  function Known(at: C.Point): nat {
    match at
    case Lock => Rank(Reserved)
    case SubmitLock(_) => Rank(Reserved)
    case Expire => Rank(Locked)
    case MintVotes => Rank(Locked)
    case Decide(args) => KnownForVotes(args.direction)
    case Voting(args, _, _) => KnownForVotes(args.direction)
    case Submitting(args, _, _) => KnownForVotes(args.direction)
    case VotesCast(args) => KnownForVotes(args.direction)
    case Mint => Rank(MintApproved)
    case Finalize => Rank(MintApproved)
    case Prepare => Rank(CantonMinted)
    case Reassign => Rank(TradePrepared)
    case Settle => Rank(Reassigned)
    case Burn => Rank(Settled)
    case Release => Rank(Redeemed)
    case Materials => Rank(Redeemed)
    case SubmitRelease => Rank(ReleaseApproved)
    case Redeem => Rank(Released)
    case Halt(step) => if step == Cancelled then 0 else Rank(step)
    case _ => 0
  }

  /** Points that only a run whose journal is not cancelled reaches. */
  predicate OnRunPath(at: C.Point) {
    match at
    case Load => false
    case Deadline => false
    case Route => false
    case Cancel => false
    case SubmitCancel(_) => false
    case CancelReservation => false
    case CheckVault => false
    case Decide(args) => args.direction != E.DIRECTION_CANCEL
    case Voting(args, _, _) => args.direction != E.DIRECTION_CANCEL
    case Submitting(args, _, _) => args.direction != E.DIRECTION_CANCEL
    case VotesCast(args) => args.direction != E.DIRECTION_CANCEL
    case Halt(step) => step != Accounts && step != Cancelled
    case _ => true
  }

  /** A request is about this operation and on the terms it was set up with. */
  predicate ArgsTrue(r: State, op: OperationId, args: E.ApproveArgs) {
    && op in r.terms
    && args.operation == op
    && args.commitment == CommitmentOf(r.terms[op])
    && args.reservation == op && args.previous == 0
    && S.IsDirection(args.direction)
  }

  predicate PointTrue(r: State, op: OperationId, at: C.Point) {
    match at
    case RecordCompleted => Approved(r, op) && Reservation(r, op, X.Redeemed)
    case Decide(args) => ArgsTrue(r, op, args)
    case Voting(args, _, _) => ArgsTrue(r, op, args)
    case Submitting(args, _, _) => ArgsTrue(r, op, args)
    case VotesCast(args) => ArgsTrue(r, op, args)
    case Finalize => StagesOf(r, op).minted
    case CancelReservation => HasStatus(r, op, E.Cancelled)
    case CheckVault => Refunded(r, op)
    case Halt(step) => step == Cancelled ==> Refunded(r, op)
    case _ => true
  }

  ghost predicate OnwardTrue(r: State, op: OperationId, mem: Journal, at: C.Point) {
    && JournalTrue(r, op, mem)
    && UpTo(r, op, Known(at))
    && PointTrue(r, op, at)
    && (OnRunPath(at) ==> mem.completed != Some(Cancelled))
  }

  ghost predicate JournalsTrue(w: C.World) {
    forall op :: op in w.disks ==> JournalTrue(w.rail, op, w.disks[op])
  }

  ghost predicate AttemptsTrue(w: C.World) {
    forall op :: op in w.attempts ==> op in w.rail.terms && OnwardTrue(w.rail, op, w.attempts[op].mem, w.attempts[op].at)
  }

  ghost predicate Faithful(w: C.World) {
    Rail.Inv(w.rail) && JournalsTrue(w) && AttemptsTrue(w)
  }

  // Evidence stays -------------------------------------------------------------------------------------------

  lemma ShownStays(r: State, t: State, op: OperationId, rank: nat)
    requires Later(r, t) && Shows(r, op, rank)
    ensures Shows(t, op, rank)
  {
    FactsStay(r, t, op);
    if op in r.escrow.receipts {
      assert S.MovedForward(r.escrow, t.escrow, op);
    }
    if ReleaseSigned(r, op) {
      SignedReleaseStays(r, t, op);
    }
  }

  lemma {:induction false} UpToStays(r: State, t: State, op: OperationId, rank: nat)
    requires Later(r, t) && UpTo(r, op, rank)
    ensures UpTo(t, op, rank)
  {
    ShownStays(r, t, op, rank);
    if rank > 0 {
      UpToStays(r, t, op, rank - 1);
    }
  }

  lemma EvidenceStays(r: State, t: State, op: OperationId, rank: nat)
    requires Later(r, t)
    ensures UpTo(r, op, rank) ==> UpTo(t, op, rank)
    ensures Refunded(r, op) ==> Refunded(t, op)
  {
    FactsStay(r, t, op);
    if UpTo(r, op, rank) {
      UpToStays(r, t, op, rank);
    }
  }

  lemma JournalStaysTrue(r: State, t: State, op: OperationId, j: Journal)
    requires Later(r, t) && JournalTrue(r, op, j)
    ensures JournalTrue(t, op, j)
  {
    if j.completed.Some? {
      EvidenceStays(r, t, op, Rank(j.completed.value));
    }
  }

  lemma OnwardStaysTrue(r: State, t: State, op: OperationId, mem: Journal, at: C.Point)
    requires Later(r, t) && OnwardTrue(r, op, mem, at)
    ensures OnwardTrue(t, op, mem, at)
  {
    JournalStaysTrue(r, t, op, mem);
    EvidenceStays(r, t, op, Known(at));
    FactsStay(r, t, op);
  }

  /** Lower ranks come with higher ones. */
  lemma {:induction false} UpToLess(r: State, op: OperationId, rank: nat, less: nat)
    requires UpTo(r, op, rank) && less <= rank
    ensures UpTo(r, op, less) && Shows(r, op, less)
  {
    if less < rank {
      UpToLess(r, op, rank - 1, less);
    }
  }

  /** What a release proves about the steps that are not seen on Solana. */
  lemma ReleasedMeansUpToReleased(r: State, op: OperationId)
    requires S.Inv(r.escrow) && SignaturesGood(r) && HasStatus(r, op, E.Released) && UpTo(r, op, Rank(Redeemed))
    ensures UpTo(r, op, Rank(Released))
  {
    ReleasedMeansBurned(r, op);
    ReleaseShown(r, op);
  }

  lemma ReleaseShown(r: State, op: OperationId)
    requires HasStatus(r, op, E.Released) && ReleaseSigned(r, op) && UpTo(r, op, Rank(Redeemed))
    ensures UpTo(r, op, Rank(Released))
  {
    assert UpTo(r, op, Rank(ReleaseApproved));
  }

  lemma BurnedMeansStaged(r: State, op: OperationId)
    requires StagesGood(r) && StagesOf(r, op).burned
    ensures op in r.terms && MintAuthorized(r, op)
    ensures StagesOf(r, op).minted && StagesOf(r, op).prepared && StagesOf(r, op).settled
  {
    assert op in r.canton;
  }

  lemma {:induction false} UpToFrom(r: State, op: OperationId, rank: nat)
    requires forall k: nat :: k <= rank ==> Shows(r, op, k)
    ensures UpTo(r, op, rank)
  {
    if rank > 0 {
      UpToFrom(r, op, rank - 1);
    }
  }

  lemma RedeemedMeansAll(r: State, op: OperationId)
    requires Rail.Inv(r) && op in r.terms && Reservation(r, op, X.Redeemed)
    ensures UpTo(r, op, Rank(ZamaRedeemed))
  {
    assert ReservationGood(r, op);
    ReleasedMeansBurned(r, op);
    BurnedMeansStaged(r, op);
    AuthorizedMintIsReserved(r, op);
    AllShown(r, op);
    UpToFrom(r, op, Rank(ZamaRedeemed));
  }

  lemma AllShown(r: State, op: OperationId)
    requires Approved(r, op) && HasStatus(r, op, E.Released) && Reservation(r, op, X.Redeemed)
    requires StagesOf(r, op).minted && StagesOf(r, op).prepared && StagesOf(r, op).settled && StagesOf(r, op).burned
    requires ReleaseSigned(r, op)
    ensures forall k: nat :: k <= Rank(ZamaRedeemed) ==> Shows(r, op, k)
  {
  }

  // One move of one attempt ----------------------------------------------------------------------------------

  /** The chain action is allowed, and journal and point are true of the chains it leaves. */
  ghost predicate MoveTrue(r: State, op: OperationId, m: C.Move) {
    && (m.action.Some? ==> Allowed(r, m.action.value))
    && (m.saved.Some? ==> JournalTrue(C.RailAfter(r, m), op, m.saved.value))
    && (m.next.Some? ==> OnwardTrue(C.RailAfter(r, m), op, m.next.value.mem, m.next.value.at))
  }

  lemma TrueMovesKeepInv(w: C.World, op: OperationId, m: C.Move)
    requires Faithful(w) && op in w.attempts && MoveTrue(w.rail, op, m)
    ensures Faithful(C.Apply(w, op, m))
  {
    var t := C.Apply(w, op, m);
    if m.action.Some? {
      RailSafety.StepKeepsInv(w.rail, m.action.value);
      OthersStayTrue(w, t);
    }
    forall other | other in t.disks ensures JournalTrue(t.rail, other, t.disks[other]) {
    }
    forall other | other in t.attempts ensures other in t.rail.terms && OnwardTrue(t.rail, other, t.attempts[other].mem, t.attempts[other].at) {
    }
  }

  lemma OthersStayTrue(w: C.World, t: C.World)
    requires JournalsTrue(w) && AttemptsTrue(w) && Later(w.rail, t.rail)
    ensures forall op :: op in w.disks ==> JournalTrue(t.rail, op, w.disks[op])
    ensures forall op :: op in w.attempts ==> op in t.rail.terms && OnwardTrue(t.rail, op, w.attempts[op].mem, w.attempts[op].at)
  {
    forall op | op in w.disks ensures JournalTrue(t.rail, op, w.disks[op]) {
      JournalStaysTrue(w.rail, t.rail, op, w.disks[op]);
    }
    forall op | op in w.attempts
      ensures op in t.rail.terms && OnwardTrue(t.rail, op, w.attempts[op].mem, w.attempts[op].at)
    {
      OnwardStaysTrue(w.rail, t.rail, op, w.attempts[op].mem, w.attempts[op].at);
    }
  }

  /** A chain action keeps what is known of an operation. */
  lemma ActingKeepsKnowledge(r: State, a: Action, t: State, op: OperationId, rank: nat, j: Journal)
    requires Rail.Inv(r) && Allowed(r, a) && t == Take(r, a) && UpTo(r, op, rank) && JournalTrue(r, op, j)
    ensures UpTo(t, op, rank) && JournalTrue(t, op, j) && t.terms == r.terms
  {
    RailSafety.StepKeepsInv(r, a);
    EvidenceStays(r, t, op, rank);
    JournalStaysTrue(r, t, op, j);
  }

  lemma GoingOnIsTrue(r: State, op: OperationId, mem: Journal, at: C.Point)
    requires OnwardTrue(r, op, mem, at)
    ensures MoveTrue(r, op, C.Goto(mem, at)) && MoveTrue(r, op, C.Save(mem, at))
  {
  }

  lemma ActingIsTrue(r: State, op: OperationId, a: Action, t: State, mem: Journal, at: C.Point)
    requires Allowed(r, a) && t == Take(r, a) && OnwardTrue(t, op, mem, at)
    ensures MoveTrue(r, op, C.Act(a, mem, at)) && MoveTrue(r, op, C.ActThenSave(a, mem, at))
  {
  }

  lemma EndingIsTrue(r: State, op: OperationId)
    ensures MoveTrue(r, op, C.END)
  {
  }

  // Completing steps -----------------------------------------------------------------------------------------

  lemma CompletingStaysTrue(r: State, op: OperationId, j: Journal, step: Step)
    requires JournalTrue(r, op, j)
    requires if step == Cancelled then Refunded(r, op) else UpTo(r, op, Rank(step))
    ensures JournalTrue(r, op, Complete(j, step))
    ensures step != Cancelled ==> JournalTrue(r, op, j.(completed := Some(MaxCompleted(step, j.completed))))
    ensures step != Cancelled && j.completed != Some(Cancelled) ==> Complete(j, step).completed != Some(Cancelled)
    ensures step != Cancelled && j.completed != Some(Cancelled) ==> MaxCompleted(step, j.completed) != Cancelled
  {
  }

  /** The point after a completed step needs no more than the step itself. */
  lemma AfterHaltRank(step: Step)
    requires C.AfterHalt(step).Some?
    ensures Known(C.AfterHalt(step).value) <= Rank(step)
    ensures OnRunPath(C.AfterHalt(step).value) <==> step != Accounts
  {
  }

  lemma AfterHaltIsPlain(r: State, op: OperationId, step: Step)
    requires C.AfterHalt(step).Some?
    ensures PointTrue(r, op, C.AfterHalt(step).value)
  {
  }

  lemma HaltGoesOn(r: State, op: OperationId, mem: Journal, step: Step)
    requires JournalTrue(r, op, mem) && step != Cancelled && UpTo(r, op, Rank(step)) && C.AfterHalt(step).Some?
    requires step != Accounts ==> mem.completed != Some(Cancelled)
    ensures OnwardTrue(r, op, Complete(mem, step), C.AfterHalt(step).value)
  {
    CompletingStaysTrue(r, op, mem, step);
    AfterHaltRank(step);
    AfterHaltIsPlain(r, op, step);
    UpToLess(r, op, Rank(step), Known(C.AfterHalt(step).value));
    OnwardFrom(r, op, Complete(mem, step), C.AfterHalt(step).value);
  }

  lemma OnwardFrom(r: State, op: OperationId, mem: Journal, at: C.Point)
    requires JournalTrue(r, op, mem) && UpTo(r, op, Known(at)) && PointTrue(r, op, at)
    requires OnRunPath(at) ==> mem.completed != Some(Cancelled)
    ensures OnwardTrue(r, op, mem, at)
  {
  }

  lemma HaltMeans(r: State, op: OperationId, mem: Journal, step: Step)
    requires OnwardTrue(r, op, mem, C.Halt(step))
    ensures JournalTrue(r, op, mem)
    ensures if step == Cancelled then Refunded(r, op) else UpTo(r, op, Rank(step))
    ensures step != Accounts && step != Cancelled ==> mem.completed != Some(Cancelled)
  {
    OnwardMeans(r, op, mem, C.Halt(step));
    HaltIsPlain(r, op, step);
  }

  /** Halting writes the completed step, if it writes at all. */
  lemma HaltSaves(r: State, op: OperationId, mem: Journal, step: Step)
    requires JournalTrue(r, op, mem)
    requires if step == Cancelled then Refunded(r, op) else UpTo(r, op, Rank(step))
    ensures JournalTrue(r, op, Complete(mem, step))
  {
    CompletingStaysTrue(r, op, mem, step);
  }

  lemma HaltIsTrue(r: State, op: OperationId, mem: Journal, flags: C.Flags, step: Step)
    requires OnwardTrue(r, op, mem, C.Halt(step))
    ensures MoveTrue(r, op, C.AtHalt(mem, flags, step))
  {
    HaltMeans(r, op, mem, step);
    HaltSaves(r, op, mem, step);
    if C.AfterHalt(step).Some? {
      HaltGoesOn(r, op, mem, step);
    }
    HaltMove(r, op, Complete(mem, step), C.AtHalt(mem, flags, step), C.AfterHalt(step));
  }

  lemma HaltMove(r: State, op: OperationId, done: Journal, m: C.Move, at: Option<C.Point>)
    requires JournalTrue(r, op, done) && (at.Some? ==> OnwardTrue(r, op, done, at.value))
    requires m.action.None? && (m.saved.Some? ==> m.saved.value == done)
    requires m.next.Some? ==> at.Some? && m.next.value == C.Onward(done, at.value, false)
    ensures MoveTrue(r, op, m)
  {
  }

  // The run path ---------------------------------------------------------------------------------------------

  lemma RedeemedIsNotRefunded(r: State, op: OperationId, mem: Journal)
    requires JournalTrue(r, op, mem) && Approved(r, op) && Reservation(r, op, X.Redeemed)
    ensures OnwardTrue(r, op, mem, C.RecordCompleted)
  {
  }

  lemma ResumeMeans(r: State, op: OperationId)
    ensures C.ResumeAction(r, op) == Ok(ReservationResume.RecordCompleted) <==> Approved(r, op) && Reservation(r, op, X.Redeemed)
    ensures C.ResumeAction(r, op) == Ok(ReservationResume.ResumeApproved)
      <==> Approved(r, op) && (Reservation(r, op, X.Reserved) || Reservation(r, op, X.Finalized))
    ensures C.ResumeAction(r, op) == Ok(ReservationResume.SubmitReserve) <==> op !in r.zama.reservations
  {
  }

  lemma LoadIsTrue(r: State, op: OperationId, mem: Journal)
    requires JournalTrue(r, op, mem)
    ensures MoveTrue(r, op, C.AtLoad(r, op, mem))
  {
    ResumeMeans(r, op);
    if C.ResumeAction(r, op) == Ok(ReservationResume.RecordCompleted) {
      RedeemedIsNotRefunded(r, op, mem);
      GoingOnIsTrue(r, op, mem, C.RecordCompleted);
    } else {
      NothingIsNeeded(r, op, mem, C.Halt(Accounts));
      GoingOnIsTrue(r, op, mem, C.Halt(Accounts));
    }
  }

  /** The first points of a run ask for nothing but a true journal. */
  lemma NothingIsNeeded(r: State, op: OperationId, mem: Journal, at: C.Point)
    requires JournalTrue(r, op, mem) && (at == C.Halt(Accounts) || at == C.Deadline || at == C.Route || at == C.Cancel)
    ensures OnwardTrue(r, op, mem, at)
  {
  }

  lemma DeadlineIsTrue(r: State, op: OperationId, mem: Journal, durations: C.Durations)
    requires JournalTrue(r, op, mem)
    ensures MoveTrue(r, op, C.AtDeadline(r, mem, durations.mint))
  {
    var next := if mem.mintExpiry == 0 then mem.(mintExpiry := r.escrow.now + durations.mint) else mem;
    NothingIsNeeded(r, op, next, C.Route);
    GoingOnIsTrue(r, op, next, C.Route);
  }

  lemma RouteIsTrue(r: State, op: OperationId, mem: Journal, flags: C.Flags)
    requires JournalTrue(r, op, mem)
    ensures MoveTrue(r, op, C.AtRoute(mem, flags))
  {
  }

  lemma ReserveIsAllowed(r: State, op: OperationId)
    requires op in r.terms
    ensures Allowed(r, C.ReserveCall(r, op))
  {
  }

  lemma ReserveShows(t: State, op: OperationId, mem: Journal)
    requires JournalTrue(t, op, mem) && mem.completed != Some(Cancelled) && Approved(t, op)
    ensures OnwardTrue(t, op, mem, C.Halt(Reserved))
    ensures Reservation(t, op, X.Redeemed) ==> OnwardTrue(t, op, mem, C.RecordCompleted)
  {
  }

  lemma ReserveIsTrue(r: State, op: OperationId, mem: Journal)
    requires Rail.Inv(r) && op in r.terms && JournalTrue(r, op, mem) && mem.completed != Some(Cancelled)
    ensures MoveTrue(r, op, C.AtReserve(r, op, mem))
  {
    ResumeMeans(r, op);
    match C.ResumeAction(r, op)
    case Err(_) => EndingIsTrue(r, op);
    case Ok(RecordCompleted) =>
      ReserveShows(r, op, mem);
      GoingOnIsTrue(r, op, mem, C.RecordCompleted);
    case Ok(ResumeApproved) =>
      ReserveShows(r, op, mem);
      GoingOnIsTrue(r, op, mem, C.Halt(Reserved));
    case Ok(SubmitReserve) => SubmitReserveIsTrue(r, op, mem);
  }

  lemma SubmitReserveIsTrue(r: State, op: OperationId, mem: Journal)
    requires Rail.Inv(r) && op in r.terms && JournalTrue(r, op, mem) && mem.completed != Some(Cancelled)
    requires C.ResumeAction(r, op) == Ok(ReservationResume.SubmitReserve)
    ensures MoveTrue(r, op, C.AtReserve(r, op, mem))
  {
    ReserveIsAllowed(r, op);
    var t := Take(r, C.ReserveCall(r, op));
    ActingKeepsKnowledge(r, C.ReserveCall(r, op), t, op, 0, mem);
    if Approved(t, op) {
      ReserveShows(t, op, mem);
      ActingIsTrue(r, op, C.ReserveCall(r, op), t, mem, C.Halt(Reserved));
    }
  }

  lemma AllIsKnown(r: State, op: OperationId, mem: Journal)
    requires UpTo(r, op, Rank(ZamaRedeemed)) && JournalTrue(r, op, mem) && mem.completed != Some(Cancelled)
    ensures OnwardTrue(r, op, mem, C.Halt(ZamaRedeemed))
  {
  }

  lemma RecordCompletedIsTrue(r: State, op: OperationId, mem: Journal)
    requires Rail.Inv(r) && op in r.terms && JournalTrue(r, op, mem) && mem.completed != Some(Cancelled) && Approved(r, op) && Reservation(r, op, X.Redeemed)
    ensures MoveTrue(r, op, C.AtRecordCompleted(r, op, mem))
  {
    RedeemedMeansAll(r, op);
    AllIsKnown(r, op, mem);
    GoingOnIsTrue(r, op, mem, C.Halt(ZamaRedeemed));
    EndingIsTrue(r, op);
  }

  lemma ReceiptSeen(r: State, op: OperationId, mem: Journal, flags: C.Flags)
    requires OnwardTrue(r, op, mem, C.Lock) && op in r.escrow.receipts
    ensures OnwardTrue(r, op, mem, C.AfterLock(flags))
  {
  }

  lemma LockIsTrue(r: State, op: OperationId, mem: Journal, flags: C.Flags, proof: Bytes32)
    requires OnwardTrue(r, op, mem, C.Lock)
    ensures MoveTrue(r, op, C.AtLock(r, op, mem, flags, proof))
  {
    if Reached(mem, Locked) {
      UpToLess(r, op, Rank(mem.completed.value), Rank(Locked));
      ReceiptSeen(r, op, mem, flags);
      GoingOnIsTrue(r, op, mem, C.AfterLock(flags));
    } else if op in r.escrow.receipts {
      CompletingStaysTrue(r, op, mem, Locked);
      var seen := mem.(completed := Some(MaxCompleted(Locked, mem.completed)));
      LockShows(r, op, seen, flags);
      GoingOnIsTrue(r, op, seen, C.AfterLock(flags));
    }
  }

  lemma LockShows(t: State, op: OperationId, mem: Journal, flags: C.Flags)
    requires UpTo(t, op, Rank(Reserved)) && JournalTrue(t, op, mem) && mem.completed != Some(Cancelled) && op in t.escrow.receipts
    ensures OnwardTrue(t, op, mem, C.AfterLock(flags))
  {
  }

  lemma SubmitLockIsTrue(r: State, op: OperationId, mem: Journal, flags: C.Flags, proof: Bytes32)
    requires Rail.Inv(r) && op in r.terms && JournalTrue(r, op, mem) && mem.completed != Some(Cancelled) && UpTo(r, op, Rank(Reserved))
    ensures MoveTrue(r, op, C.AtSubmitLock(r, op, mem, flags, proof))
  {
    var a := Solana(E.SubmitLock(C.LockArgs(r.terms[op], op, mem, proof)));
    if E.LockConfidential(r.escrow, a.event.lock).Ok? {
      var t := Take(r, a);
      ActingKeepsKnowledge(r, a, t, op, Rank(Reserved), mem);
      LockShows(t, op, mem, flags);
      ActingIsTrue(r, op, a, t, mem, C.AfterLock(flags));
    } else {
      EndingIsTrue(r, op);
    }
  }

  lemma MintVotesIsTrue(r: State, op: OperationId, mem: Journal)
    requires op in r.terms && OnwardTrue(r, op, mem, C.MintVotes)
    ensures MoveTrue(r, op, C.AtMintVotes(r, op, mem))
  {
  }

  lemma MintShows(r: State, t: State, op: OperationId, mem: Journal)
    requires UpTo(t, op, Rank(MintApproved)) && t == Take(r, CantonMint(op))
    requires JournalTrue(t, op, mem) && mem.completed != Some(Cancelled)
    ensures OnwardTrue(t, op, mem, C.Finalize)
  {
  }

  /** A step the journal is already past is on chain. */
  lemma SkipIsTrue(r: State, op: OperationId, mem: Journal, step: Step)
    requires JournalTrue(r, op, mem) && mem.completed != Some(Cancelled) && Reached(mem, step)
    requires step != Accounts && step != Cancelled
    ensures OnwardTrue(r, op, mem, C.Halt(step))
  {
    UpToLess(r, op, Rank(mem.completed.value), Rank(step));
    HaltIsPlain(r, op, step);
  }

  lemma HaltIsPlain(r: State, op: OperationId, step: Step)
    ensures step != Cancelled ==> Known(C.Halt(step)) == Rank(step) && PointTrue(r, op, C.Halt(step))
  {
  }

  lemma MintIsTrue(r: State, op: OperationId, mem: Journal)
    requires Rail.Inv(r) && op in r.terms && JournalTrue(r, op, mem) && mem.completed != Some(Cancelled) && UpTo(r, op, Rank(MintApproved))
    ensures MoveTrue(r, op, C.AtMint(op, mem))
  {
    if Reached(mem, CantonMinted) {
      SkipIsTrue(r, op, mem, CantonMinted);
      GoingOnIsTrue(r, op, mem, C.Halt(CantonMinted));
    } else {
      var t := Take(r, CantonMint(op));
      ActingKeepsKnowledge(r, CantonMint(op), t, op, Rank(MintApproved), mem);
      MintShows(r, t, op, mem);
      ActingIsTrue(r, op, CantonMint(op), t, mem, C.Finalize);
    }
  }

  lemma FinalizeShows(t: State, op: OperationId, mem: Journal)
    requires UpTo(t, op, Rank(MintApproved)) && StagesOf(t, op).minted
    requires Reservation(t, op, X.Finalized) || Reservation(t, op, X.Redeemed)
    requires JournalTrue(t, op, mem) && mem.completed != Some(Cancelled)
    ensures OnwardTrue(t, op, mem, C.Halt(CantonMinted))
  {
  }

  lemma FinalizeIsTrue(r: State, op: OperationId, mem: Journal)
    requires Rail.Inv(r) && op in r.terms && JournalTrue(r, op, mem) && mem.completed != Some(Cancelled) && UpTo(r, op, Rank(MintApproved)) && StagesOf(r, op).minted
    ensures MoveTrue(r, op, C.AtFinalize(r, op, mem))
  {
    if Approved(r, op) && Reservation(r, op, X.Reserved) {
      var call := Zama(X.CallFinalize(op));
      var t := Take(r, call);
      ActingKeepsKnowledge(r, call, t, op, Rank(MintApproved), mem);
      FinalizeShows(t, op, mem);
      ActingIsTrue(r, op, call, t, mem, C.Halt(CantonMinted));
    } else if Approved(r, op) && (Reservation(r, op, X.Finalized) || Reservation(r, op, X.Redeemed)) {
      FinalizeShows(r, op, mem);
      GoingOnIsTrue(r, op, mem, C.Halt(CantonMinted));
    } else {
      EndingIsTrue(r, op);
    }
  }

  lemma PrepareShows(r: State, t: State, op: OperationId, mem: Journal)
    requires UpTo(t, op, Rank(CantonMinted)) && t == Take(r, CantonPrepare(op))
    requires JournalTrue(t, op, mem) && mem.completed != Some(Cancelled)
    ensures OnwardTrue(t, op, mem, C.Halt(TradePrepared))
  {
  }

  lemma PrepareIsTrue(r: State, op: OperationId, mem: Journal)
    requires Rail.Inv(r) && JournalTrue(r, op, mem) && mem.completed != Some(Cancelled) && UpTo(r, op, Rank(CantonMinted))
    ensures MoveTrue(r, op, C.AtPrepare(op, mem))
  {
    if Reached(mem, TradePrepared) {
      SkipIsTrue(r, op, mem, TradePrepared);
      GoingOnIsTrue(r, op, mem, C.Halt(TradePrepared));
    } else {
      var t := Take(r, CantonPrepare(op));
      ActingKeepsKnowledge(r, CantonPrepare(op), t, op, Rank(CantonMinted), mem);
      PrepareShows(r, t, op, mem);
      ActingIsTrue(r, op, CantonPrepare(op), t, mem, C.Halt(TradePrepared));
    }
  }

  lemma SettleShows(r: State, t: State, op: OperationId, mem: Journal)
    requires UpTo(t, op, Rank(Reassigned)) && t == Take(r, CantonSettle(op))
    requires JournalTrue(t, op, mem) && mem.completed != Some(Cancelled)
    ensures OnwardTrue(t, op, mem, C.Halt(Settled))
  {
  }

  lemma SettleIsTrue(r: State, op: OperationId, mem: Journal, flags: C.Flags)
    requires Rail.Inv(r) && JournalTrue(r, op, mem) && mem.completed != Some(Cancelled) && UpTo(r, op, Rank(Reassigned))
    ensures MoveTrue(r, op, C.AtSettle(op, mem, flags))
  {
    var t := Take(r, CantonSettle(op));
    PreparedIsKnown(r, op, Rank(Reassigned));
    ActingKeepsKnowledge(r, CantonSettle(op), t, op, Rank(Reassigned), mem);
    SettleShows(r, t, op, mem);
    ActingIsTrue(r, op, CantonSettle(op), t, mem, C.Halt(Settled));
  }

  lemma PreparedIsKnown(r: State, op: OperationId, rank: nat)
    requires UpTo(r, op, rank)
    ensures rank >= Rank(TradePrepared) ==> Allowed(r, CantonSettle(op))
    ensures rank >= Rank(Settled) ==> Allowed(r, CantonBurn(op))
  {
    if rank >= Rank(TradePrepared) {
      UpToLess(r, op, rank, Rank(TradePrepared));
    }
    if rank >= Rank(Settled) {
      UpToLess(r, op, rank, Rank(Settled));
    }
  }

  lemma BurnShows(r: State, t: State, op: OperationId, mem: Journal)
    requires UpTo(t, op, Rank(Settled)) && t == Take(r, CantonBurn(op))
    requires JournalTrue(t, op, mem) && mem.completed != Some(Cancelled)
    ensures OnwardTrue(t, op, mem, C.Halt(Redeemed))
  {
    assert Shows(t, op, Rank(Redeemed));
    assert UpTo(t, op, Rank(Redeemed));
    HaltIsPlain(t, op, Redeemed);
    OnwardFrom(t, op, mem, C.Halt(Redeemed));
  }

  lemma BurnIsTrue(r: State, op: OperationId, mem: Journal)
    requires Rail.Inv(r) && JournalTrue(r, op, mem) && mem.completed != Some(Cancelled) && UpTo(r, op, Rank(Settled))
    ensures MoveTrue(r, op, C.AtBurn(op, mem))
  {
    var t := Take(r, CantonBurn(op));
    PreparedIsKnown(r, op, Rank(Settled));
    ActingKeepsKnowledge(r, CantonBurn(op), t, op, Rank(Settled), mem);
    BurnShows(r, t, op, mem);
    ActingIsTrue(r, op, CantonBurn(op), t, mem, C.Halt(Redeemed));
  }

  lemma ReleaseShows(r: State, op: OperationId, mem: Journal)
    requires UpTo(r, op, Rank(Redeemed)) && JournalTrue(r, op, mem) && mem.completed != Some(Cancelled)
    ensures OnwardTrue(r, op, mem, C.Materials)
    ensures UpTo(r, op, Rank(Released)) ==> OnwardTrue(r, op, mem, C.Halt(Released))
  {
  }

  lemma RefreshKeepsProgress(r: State, op: OperationId, mem: Journal)
    ensures C.Refreshed(r, op, mem).completed == mem.completed
  {
  }

  lemma ReleaseEndsKnown(r: State, op: OperationId, mem: Journal)
    requires S.Inv(r.escrow) && SignaturesGood(r) && UpTo(r, op, Rank(Redeemed)) && JournalTrue(r, op, mem)
    requires mem.completed != Some(Cancelled)
    requires HasStatus(r, op, E.Released) || Reached(mem, Released)
    ensures UpTo(r, op, Rank(Released))
  {
    if Reached(mem, Released) {
      UpToLess(r, op, Rank(mem.completed.value), Rank(Released));
    } else {
      ReleasedMeansUpToReleased(r, op);
    }
  }

  lemma ReleaseIsTrue(r: State, op: OperationId, mem: Journal)
    requires Rail.Inv(r) && JournalTrue(r, op, mem) && mem.completed != Some(Cancelled) && UpTo(r, op, Rank(Redeemed))
    ensures MoveTrue(r, op, C.AtRelease(r, op, mem))
  {
    var next := C.Refreshed(r, op, mem);
    RefreshKeepsProgress(r, op, mem);
    ReleaseShows(r, op, next);
    if !Reached(mem, Redeemed) || HasStatus(r, op, E.Cancelled) {
      EndingIsTrue(r, op);
    } else if ShouldSubmitRelease(Reached(mem, Released), HasStatus(r, op, E.Released)) {
      GoingOnIsTrue(r, op, next, C.Materials);
    } else {
      ReleaseEndsKnown(r, op, mem);
      GoingOnIsTrue(r, op, next, C.Halt(Released));
    }
  }

  lemma MaterialsKnown(r: State, op: OperationId, mem: Journal, next: Journal)
    requires op in r.terms && OnwardTrue(r, op, mem, C.Materials) && next.completed == mem.completed
    ensures OnwardTrue(r, op, next, C.Decide(C.ReleaseArgs(r.terms[op], op, next)))
  {
  }

  lemma MaterialsIsTrue(r: State, op: OperationId, mem: Journal, durations: C.Durations, proof: Bytes32)
    requires op in r.terms && OnwardTrue(r, op, mem, C.Materials)
    ensures MoveTrue(r, op, C.AtMaterials(r, op, mem, durations.release, proof))
  {
    if C.HasMaterials(mem) {
      MaterialsKnown(r, op, mem, mem);
      GoingOnIsTrue(r, op, mem, C.Decide(C.ReleaseArgs(r.terms[op], op, mem)));
    } else {
      var next := mem.(releaseExpiry := r.escrow.now + durations.release, releaseProof := Some(proof));
      MaterialsKnown(r, op, mem, next);
      GoingOnIsTrue(r, op, next, C.Decide(C.ReleaseArgs(r.terms[op], op, next)));
    }
  }

  lemma ReleasedShows(t: State, op: OperationId, mem: Journal)
    requires UpTo(t, op, Rank(ReleaseApproved)) && HasStatus(t, op, E.Released)
    requires JournalTrue(t, op, mem) && mem.completed != Some(Cancelled)
    ensures OnwardTrue(t, op, mem, C.Halt(Released))
  {
  }

  lemma ReleasingKeeps(r: State, t: State, op: OperationId, mem: Journal, event: E.Event)
    requires Rail.Inv(r) && UpTo(r, op, Rank(ReleaseApproved)) && JournalTrue(r, op, mem)
    requires Pays(r, event, op, true) && t == Take(r, Solana(event))
    ensures Allowed(r, Solana(event)) && UpTo(t, op, Rank(ReleaseApproved)) && JournalTrue(t, op, mem)
    ensures HasStatus(t, op, E.Released)
  {
    ActingKeepsKnowledge(r, Solana(event), t, op, Rank(ReleaseApproved), mem);
    PayingCloses(r, event, op, true);
  }

  lemma SubmitReleaseIsTrue(r: State, op: OperationId, mem: Journal)
    requires Rail.Inv(r) && op in r.terms && JournalTrue(r, op, mem) && mem.completed != Some(Cancelled) && UpTo(r, op, Rank(ReleaseApproved))
    ensures MoveTrue(r, op, C.AtSubmitRelease(r, op, mem))
  {
    var event := C.ReleaseMove(r.terms[op], op, mem);
    if E.ReleaseConfidential(r.escrow, op, E.DIRECTION_RELEASE, event.movement).Ok? {
      var t := Take(r, Solana(event));
      ReleasingKeeps(r, t, op, mem, event);
      ReleasedShows(t, op, mem);
      ActingIsTrue(r, op, Solana(event), t, mem, C.Halt(Released));
    } else {
      EndingIsTrue(r, op);
    }
  }

  lemma RedeemShows(t: State, op: OperationId, mem: Journal)
    requires UpTo(t, op, Rank(Released)) && Reservation(t, op, X.Redeemed)
    requires JournalTrue(t, op, mem) && mem.completed != Some(Cancelled)
    ensures OnwardTrue(t, op, mem, C.Halt(ZamaRedeemed))
  {
  }

  lemma RedeemIsTrue(r: State, op: OperationId, mem: Journal)
    requires Rail.Inv(r) && op in r.terms && JournalTrue(r, op, mem) && mem.completed != Some(Cancelled) && UpTo(r, op, Rank(Released))
    ensures MoveTrue(r, op, C.AtRedeem(r, op, mem))
  {
    if Reached(mem, ZamaRedeemed) {
      SkipIsTrue(r, op, mem, ZamaRedeemed);
      GoingOnIsTrue(r, op, mem, C.Halt(ZamaRedeemed));
    } else if Reservation(r, op, X.Redeemed) {
      RedeemShows(r, op, mem);
      GoingOnIsTrue(r, op, mem, C.Halt(ZamaRedeemed));
    } else if Reservation(r, op, X.Finalized) {
      CallRedeemIsTrue(r, op, mem);
    } else {
      EndingIsTrue(r, op);
    }
  }

  lemma RedeemingKeeps(r: State, t: State, op: OperationId, mem: Journal)
    requires Rail.Inv(r) && op in r.terms && UpTo(r, op, Rank(Released)) && JournalTrue(r, op, mem)
    requires Reservation(r, op, X.Finalized) && t == Take(r, Zama(X.CallRedeem(op)))
    ensures Allowed(r, Zama(X.CallRedeem(op))) && UpTo(t, op, Rank(Released)) && JournalTrue(t, op, mem)
    ensures Reservation(t, op, X.Redeemed)
  {
    ReleasedIsKnown(r, op);
    ActingKeepsKnowledge(r, Zama(X.CallRedeem(op)), t, op, Rank(Released), mem);
  }

  lemma CallRedeemIsTrue(r: State, op: OperationId, mem: Journal)
    requires Rail.Inv(r) && op in r.terms && JournalTrue(r, op, mem) && mem.completed != Some(Cancelled) && UpTo(r, op, Rank(Released)) && Reservation(r, op, X.Finalized)
    ensures MoveTrue(r, op, C.ActThenSave(Zama(X.CallRedeem(op)), mem, C.Halt(ZamaRedeemed)))
  {
    var t := Take(r, Zama(X.CallRedeem(op)));
    RedeemingKeeps(r, t, op, mem);
    RedeemShows(t, op, mem);
    ActingIsTrue(r, op, Zama(X.CallRedeem(op)), t, mem, C.Halt(ZamaRedeemed));
  }

  lemma ReleasedIsKnown(r: State, op: OperationId)
    ensures UpTo(r, op, Rank(Released)) ==> Allowed(r, Zama(X.CallRedeem(op)))
  {
  }

  // Votes ----------------------------------------------------------------------------------------------------

  lemma DecideIsTrue(r: State, op: OperationId, mem: Journal, args: E.ApproveArgs)
    requires OnwardTrue(r, op, mem, C.Decide(args))
    ensures MoveTrue(r, op, C.AtDecide(r, mem, args))
  {
  }

  /** What every point of a vote knows. */
  ghost predicate VotesKnown(r: State, op: OperationId, mem: Journal, args: E.ApproveArgs) {
    && UpTo(r, op, KnownForVotes(args.direction))
    && ArgsTrue(r, op, args)
    && (args.direction != E.DIRECTION_CANCEL ==> mem.completed != Some(Cancelled))
  }

  lemma VotesAreAllowed(r: State, op: OperationId, args: E.ApproveArgs, index: nat)
    requires ArgsTrue(r, op, args) && UpTo(r, op, KnownForVotes(args.direction)) && index < |r.escrow.config.attesters|
    ensures Allowed(r, Solana(E.Sign(Agreement.VoteOf(r.escrow, args, index))))
  {
  }

  lemma VotesShow(t: State, op: OperationId, mem: Journal, args: E.ApproveArgs)
    requires UpTo(t, op, KnownForVotes(args.direction)) && JournalTrue(t, op, mem) && ArgsTrue(t, op, args)
    requires args.direction != E.DIRECTION_CANCEL ==> mem.completed != Some(Cancelled)
    ensures forall index, second :: OnwardTrue(t, op, mem, C.Submitting(args, index, second))
    ensures forall first, second :: OnwardTrue(t, op, mem, C.Voting(args, first, second))
    ensures OnwardTrue(t, op, mem, C.VotesCast(args))
  {
  }

  lemma VotingIsTrue(r: State, op: OperationId, mem: Journal, args: E.ApproveArgs, first: bool, second: bool)
    requires Rail.Inv(r) && JournalTrue(r, op, mem) && VotesKnown(r, op, mem, args)
    ensures MoveTrue(r, op, C.AtVoting(r, mem, args, first, second))
  {
    if |r.escrow.config.attesters| != 3 {
      EndingIsTrue(r, op);
    } else if first || second {
      var index := if first then 0 else 1;
      VotesAreAllowed(r, op, args, index);
      var a := Solana(E.Sign(Agreement.VoteOf(r.escrow, args, index)));
      var t := Take(r, a);
      ActingKeepsKnowledge(r, a, t, op, KnownForVotes(args.direction), mem);
      VotesShow(t, op, mem, args);
      ActingIsTrue(r, op, a, t, mem, C.Submitting(args, index, first && second));
    } else {
      VotesShow(r, op, mem, args);
      GoingOnIsTrue(r, op, mem, C.VotesCast(args));
    }
  }

  lemma SubmittingIsTrue(r: State, op: OperationId, mem: Journal, args: E.ApproveArgs, index: nat, second: bool)
    requires Rail.Inv(r) && JournalTrue(r, op, mem) && VotesKnown(r, op, mem, args)
    ensures MoveTrue(r, op, C.AtSubmitting(r, mem, args, index, second))
  {
    if index < |r.escrow.config.attesters| && Agreement.Accepts(r.escrow, args, index) {
      var a := Solana(E.SubmitApprove(args, Agreement.VoteOf(r.escrow, args, index)));
      var t := Take(r, a);
      ActingKeepsKnowledge(r, a, t, op, KnownForVotes(args.direction), mem);
      VotesShow(t, op, mem, args);
      ActingIsTrue(r, op, a, t, mem, C.Voting(args, false, second));
    } else {
      EndingIsTrue(r, op);
    }
  }

  lemma OnesAreSigners(bitmap: bv8)
    requires E.LowBits(bitmap)
    ensures CountOnes(bitmap) == E.DistinctSigners(bitmap)
  {
  }

  /** A mint approval seen with two votes means the program has authorized the mint. */
  lemma QuorumSeenIsAuthorized(r: State, op: OperationId, args: E.ApproveArgs)
    requires Rail.Inv(r) && args.operation == op && args.direction == E.DIRECTION_MINT && C.TwoOfThree(r.escrow, args)
    ensures MintAuthorized(r, op) && Approved(r, op)
  {
    var slot := E.Slot(op, E.DIRECTION_MINT);
    assert S.ApprovalGood(r.escrow.config, r.escrow.signed, r.escrow.receipts[op], slot, r.escrow.approvals[slot]);
    OnesAreSigners(r.escrow.approvals[slot].bitmap);
    assert S.ReceiptGood(r.escrow, op);
    AuthorizedMintIsReserved(r, op);
  }

  lemma MintQuorumShows(r: State, op: OperationId, mem: Journal, args: E.ApproveArgs)
    requires JournalTrue(r, op, mem) && VotesKnown(r, op, mem, args) && args.direction == E.DIRECTION_MINT && MintAuthorized(r, op)
    ensures OnwardTrue(r, op, mem, C.Halt(MintApproved))
  {
  }

  /** A release approval seen with two votes means two attesters signed that release. */
  lemma QuorumSeenIsSigned(r: State, op: OperationId, args: E.ApproveArgs)
    requires S.Inv(r.escrow) && args.operation == op && args.direction == E.DIRECTION_RELEASE && C.TwoOfThree(r.escrow, args)
    ensures ReleaseSigned(r, op)
  {
    var slot := E.Slot(op, E.DIRECTION_RELEASE);
    assert S.ApprovalGood(r.escrow.config, r.escrow.signed, r.escrow.receipts[op], slot, r.escrow.approvals[slot]);
    OnesAreSigners(r.escrow.approvals[slot].bitmap);
    ReleaseQuorumIsSigned(r, op);
  }

  lemma ReleaseQuorumShows(r: State, op: OperationId, mem: Journal, args: E.ApproveArgs)
    requires JournalTrue(r, op, mem) && VotesKnown(r, op, mem, args) && args.direction == E.DIRECTION_RELEASE && ReleaseSigned(r, op)
    ensures OnwardTrue(r, op, mem, C.Halt(ReleaseApproved))
  {
    assert UpTo(r, op, Rank(Redeemed));
    assert Shows(r, op, Rank(ReleaseApproved));
    assert UpTo(r, op, Rank(ReleaseApproved));
  }

  lemma CancelQuorumShows(r: State, op: OperationId, mem: Journal, args: E.ApproveArgs)
    requires JournalTrue(r, op, mem) && VotesKnown(r, op, mem, args) && args.direction != E.DIRECTION_MINT && args.direction != E.DIRECTION_RELEASE
    ensures OnwardTrue(r, op, mem, C.SubmitCancel(args))
  {
  }

  lemma VotesCastIsTrue(r: State, op: OperationId, mem: Journal, args: E.ApproveArgs)
    requires Rail.Inv(r) && JournalTrue(r, op, mem) && VotesKnown(r, op, mem, args)
    ensures MoveTrue(r, op, C.AtVotesCast(r, mem, args))
  {
    if C.TwoOfThree(r.escrow, args) {
      if args.direction == E.DIRECTION_MINT {
        QuorumSeenIsAuthorized(r, op, args);
        MintQuorumShows(r, op, mem, args);
        GoingOnIsTrue(r, op, mem, C.Halt(MintApproved));
      } else if args.direction == E.DIRECTION_RELEASE {
        QuorumSeenIsSigned(r, op, args);
        ReleaseQuorumShows(r, op, mem, args);
        GoingOnIsTrue(r, op, mem, C.Halt(ReleaseApproved));
      } else {
        CancelQuorumShows(r, op, mem, args);
        GoingOnIsTrue(r, op, mem, C.SubmitCancel(args));
      }
    } else {
      EndingIsTrue(r, op);
    }
  }

  // The cancel path ------------------------------------------------------------------------------------------

  lemma ExpireIsTrue(r: State, op: OperationId, mem: Journal)
    requires op in r.terms && OnwardTrue(r, op, mem, C.Expire)
    ensures MoveTrue(r, op, C.AtExpire(r, op, mem))
  {
    NothingIsNeeded(r, op, mem, C.Cancel);
    GoingOnIsTrue(r, op, mem, C.Cancel);
    GoingOnIsTrue(r, op, mem, C.Expire);
    EndingIsTrue(r, op);
  }

  lemma CancelVotesShow(r: State, op: OperationId, mem: Journal, expiry: int, proof: Bytes32)
    requires op in r.terms && JournalTrue(r, op, mem)
    ensures OnwardTrue(r, op, mem, C.Decide(C.CancelArgs(r.terms[op], op, expiry, proof)))
  {
  }

  lemma CancelIsTrue(r: State, op: OperationId, mem: Journal, proof: Bytes32)
    requires op in r.terms && JournalTrue(r, op, mem)
    ensures MoveTrue(r, op, C.AtCancel(r, op, mem, proof))
  {
    if HasStatus(r, op, E.Cancelled) {
      CancelShows(r, op, mem);
      GoingOnIsTrue(r, op, mem, C.CancelReservation);
    } else if HasStatus(r, op, E.Locked) {
      CancelVotesShow(r, op, mem, C.CancelDeadline(r.escrow.now), proof);
      GoingOnIsTrue(r, op, mem, C.Decide(C.CancelArgs(r.terms[op], op, C.CancelDeadline(r.escrow.now), proof)));
    } else {
      EndingIsTrue(r, op);
    }
  }

  lemma CancelShows(t: State, op: OperationId, mem: Journal)
    requires JournalTrue(t, op, mem) && HasStatus(t, op, E.Cancelled)
    ensures OnwardTrue(t, op, mem, C.CancelReservation)
    ensures Reservation(t, op, X.Cancelled) ==> OnwardTrue(t, op, mem, C.CheckVault)
  {
  }

  lemma SubmitCancelIsTrue(r: State, op: OperationId, mem: Journal, args: E.ApproveArgs)
    requires Rail.Inv(r) && JournalTrue(r, op, mem)
    ensures MoveTrue(r, op, C.AtSubmitCancel(r, op, mem, args))
  {
    var event := E.SubmitMove(op, E.DIRECTION_CANCEL, C.MovementOf(args), false);
    if E.CancelConfidential(r.escrow, op, E.DIRECTION_CANCEL, C.MovementOf(args)).Ok? {
      var t := Take(r, Solana(event));
      ActingKeepsKnowledge(r, Solana(event), t, op, 0, mem);
      PayingCloses(r, event, op, false);
      CancelShows(t, op, mem);
      ActingIsTrue(r, op, Solana(event), t, mem, C.CancelReservation);
    } else {
      EndingIsTrue(r, op);
    }
  }

  lemma CancellingKeeps(r: State, t: State, op: OperationId, mem: Journal)
    requires Rail.Inv(r) && op in r.terms && HasStatus(r, op, E.Cancelled) && JournalTrue(r, op, mem)
    requires Reservation(r, op, X.Reserved) && t == Take(r, Zama(X.CallCancel(op)))
    ensures Allowed(r, Zama(X.CallCancel(op))) && JournalTrue(t, op, mem) && Refunded(t, op)
  {
    FactsOfCancel(r, op);
    RailSafety.StepKeepsInv(r, Zama(X.CallCancel(op)));
    JournalStaysTrue(r, t, op, mem);
  }

  lemma CancelReservationIsTrue(r: State, op: OperationId, mem: Journal)
    requires Rail.Inv(r) && op in r.terms && JournalTrue(r, op, mem) && HasStatus(r, op, E.Cancelled)
    ensures MoveTrue(r, op, C.AtCancelReservation(r, op, mem))
  {
    if Reservation(r, op, X.Reserved) {
      var t := Take(r, Zama(X.CallCancel(op)));
      CancellingKeeps(r, t, op, mem);
      CancelShows(t, op, mem);
      ActingIsTrue(r, op, Zama(X.CallCancel(op)), t, mem, C.CheckVault);
    } else if Reservation(r, op, X.Cancelled) {
      CancelShows(r, op, mem);
      GoingOnIsTrue(r, op, mem, C.CheckVault);
    } else {
      EndingIsTrue(r, op);
    }
  }

  lemma FactsOfCancel(r: State, op: OperationId)
    requires Reservation(r, op, X.Reserved)
    ensures var t := Take(r, Zama(X.CallCancel(op))); Reservation(t, op, X.Cancelled) && t.escrow == r.escrow
  {
  }

  lemma RefundedShows(r: State, op: OperationId, mem: Journal)
    requires JournalTrue(r, op, mem) && Refunded(r, op)
    ensures OnwardTrue(r, op, mem, C.Halt(Cancelled))
  {
  }

  lemma CheckVaultIsTrue(r: State, op: OperationId, mem: Journal)
    requires OnwardTrue(r, op, mem, C.CheckVault)
    ensures MoveTrue(r, op, C.AtCheckVault(r, mem))
  {
    RefundedShows(r, op, mem);
    GoingOnIsTrue(r, op, mem, C.Halt(Cancelled));
    EndingIsTrue(r, op);
  }

  // Runs -----------------------------------------------------------------------------------------------------

  lemma ReassignIsTrue(r: State, op: OperationId, mem: Journal)
    requires JournalTrue(r, op, mem) && mem.completed != Some(Cancelled) && UpTo(r, op, Rank(TradePrepared))
    ensures MoveTrue(r, op, C.Goto(mem, C.Halt(Reassigned)))
  {
    assert UpTo(r, op, Rank(Reassigned));
    HaltIsPlain(r, op, Reassigned);
    OnwardFrom(r, op, mem, C.Halt(Reassigned));
    GoingOnIsTrue(r, op, mem, C.Halt(Reassigned));
  }

  lemma RunMoves(r: State, op: OperationId, mem: Journal, at: C.Point, flags: C.Flags, durations: C.Durations, proof: Bytes32)
    requires Rail.Inv(r) && op in r.terms && JournalTrue(r, op, mem) && mem.completed != Some(Cancelled)
    requires UpTo(r, op, Known(at)) && PointTrue(r, op, at)
    requires at.Reserve? || at.RecordCompleted? || at.SubmitLock? || at.Mint? || at.Finalize? || at.Prepare? || at.Settle? || at.Burn?
      || at.Release? || at.SubmitRelease? || at.Redeem?
    ensures MoveTrue(r, op, C.PointMove(r, op, mem, at, flags, durations, proof))
  {
    match at
    case Reserve => ReserveIsTrue(r, op, mem);
    case RecordCompleted => RecordCompletedIsTrue(r, op, mem);
    case SubmitLock(sent) => SubmitLockIsTrue(r, op, mem, flags, sent);
    case Mint => MintIsTrue(r, op, mem);
    case Finalize => FinalizeIsTrue(r, op, mem);
    case Prepare => PrepareIsTrue(r, op, mem);
    case Settle => SettleIsTrue(r, op, mem, flags);
    case Burn => BurnIsTrue(r, op, mem);
    case Release => ReleaseIsTrue(r, op, mem);
    case SubmitRelease => SubmitReleaseIsTrue(r, op, mem);
    case Redeem => RedeemIsTrue(r, op, mem);
  }

  lemma VoteMoves(r: State, op: OperationId, mem: Journal, at: C.Point, flags: C.Flags, durations: C.Durations, proof: Bytes32)
    requires Rail.Inv(r) && op in r.terms && JournalTrue(r, op, mem) && PointTrue(r, op, at)
    requires at.Voting? || at.Submitting? || at.VotesCast? || at.SubmitCancel? || at.CancelReservation?
    requires (at.Voting? || at.Submitting? || at.VotesCast?) ==> VotesKnown(r, op, mem, at.args)
    ensures MoveTrue(r, op, C.PointMove(r, op, mem, at, flags, durations, proof))
  {
    match at
    case Voting(args, first, second) => VotingIsTrue(r, op, mem, args, first, second);
    case Submitting(args, index, second) => SubmittingIsTrue(r, op, mem, args, index, second);
    case VotesCast(args) => VotesCastIsTrue(r, op, mem, args);
    case SubmitCancel(args) => SubmitCancelIsTrue(r, op, mem, args);
    case CancelReservation => CancelReservationIsTrue(r, op, mem);
  }

  /** The points that only read and write the journal. */
  lemma QuietMoves(r: State, op: OperationId, mem: Journal, at: C.Point, flags: C.Flags, durations: C.Durations, proof: Bytes32)
    requires op in r.terms && OnwardTrue(r, op, mem, at)
    requires at.Load? || at.Deadline? || at.Route? || at.Lock? || at.MintVotes? || at.Decide? || at.Reassign? || at.Materials?
      || at.Expire? || at.Cancel? || at.CheckVault? || at.Halt?
    ensures MoveTrue(r, op, C.PointMove(r, op, mem, at, flags, durations, proof))
  {
    match at
    case Load => LoadIsTrue(r, op, mem);
    case Deadline => DeadlineIsTrue(r, op, mem, durations);
    case Route => RouteIsTrue(r, op, mem, flags);
    case Lock => LockIsTrue(r, op, mem, flags, proof);
    case MintVotes => MintVotesIsTrue(r, op, mem);
    case Decide(args) => DecideIsTrue(r, op, mem, args);
    case Reassign =>
      OnwardMeans(r, op, mem, at);
      ReassignIsTrue(r, op, mem);
    case Materials => MaterialsIsTrue(r, op, mem, durations, proof);
    case Expire => ExpireIsTrue(r, op, mem);
    case Cancel =>
      OnwardMeans(r, op, mem, at);
      CancelIsTrue(r, op, mem, proof);
    case CheckVault => CheckVaultIsTrue(r, op, mem);
    case Halt(step) => HaltIsTrue(r, op, mem, flags, step);
  }

  lemma OnwardMeans(r: State, op: OperationId, mem: Journal, at: C.Point)
    requires OnwardTrue(r, op, mem, at)
    ensures JournalTrue(r, op, mem) && UpTo(r, op, Known(at)) && PointTrue(r, op, at)
    ensures OnRunPath(at) ==> mem.completed != Some(Cancelled)
    ensures (at.Voting? || at.Submitting? || at.VotesCast?) ==> VotesKnown(r, op, mem, at.args)
  {
  }

  /** Every step of the coordinator takes allowed actions only and writes nothing that the chains do not show. */
  lemma EveryMoveIsTrue(r: State, op: OperationId, a: C.Attempt, durations: C.Durations, proof: Bytes32)
    requires Rail.Inv(r) && op in r.terms && OnwardTrue(r, op, a.mem, a.at)
    ensures MoveTrue(r, op, C.MoveOf(r, op, a, durations, proof))
  {
    OnwardMeans(r, op, a.mem, a.at);
    var at := a.at;
    if a.unsaved {
      GoingOnIsTrue(r, op, a.mem, at);
    } else if at.Voting? || at.Submitting? || at.VotesCast? || at.SubmitCancel? || at.CancelReservation? {
      VoteMoves(r, op, a.mem, at, a.flags, durations, proof);
    } else if at.Reserve? || at.RecordCompleted? || at.SubmitLock? || at.Mint? || at.Finalize? || at.Prepare? || at.Settle? || at.Burn?
      || at.Release? || at.SubmitRelease? || at.Redeem? {
      RunMoves(r, op, a.mem, at, a.flags, durations, proof);
    } else {
      QuietMoves(r, op, a.mem, at, a.flags, durations, proof);
    }
  }
}

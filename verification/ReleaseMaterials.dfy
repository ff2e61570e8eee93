/**
 * Release materials are written ahead: whatever crashes, a live release approval on chain is the one the saved
 * journal can finish, exactly as long as every release vote that others bring to the chain is on those materials.
 */
module ReleaseMaterials {
  import opened Outcomes
  import E = Escrow
  import S = EscrowSafety
  import X = Exposure
  import Agreement
  import opened Recovery
  import opened OperationJournal
  import opened Rail
  import RailSafety
  import C = Coordinator
  import Known = CoordinatorSafety
  import Runs = CoordinatorRuns

  function ReleaseSlot(op: OperationId): E.Slot {
    E.Slot(op, E.DIRECTION_RELEASE)
  }

  /** A release approval that could still be used. */
  predicate Live(r: State, op: OperationId) {
    && ReleaseSlot(op) in r.escrow.approvals
    && !r.escrow.approvals[ReleaseSlot(op)].consumed
    && r.escrow.now < r.escrow.approvals[ReleaseSlot(op)].expiry
  }

  /** The live release approval, if any, carries the digest of the materials in this journal. */
  predicate Carried(r: State, op: OperationId, j: Journal)
    requires op in r.terms
  {
    Live(r, op) ==>
      var approval := r.escrow.approvals[ReleaseSlot(op)];
      && C.HasMaterials(j)
      && approval.digest == E.DigestOf(r.escrow.config, C.ReleaseArgs(r.terms[op], op, j))
      && approval.expiry == j.releaseExpiry
  }

  predicate Same(j: Journal, k: Journal) {
    j.releaseExpiry == k.releaseExpiry && j.releaseProof == k.releaseProof
  }

  /** The requests of the vote an attempt is in, if it is in one. */
  function VoteArgs(at: C.Point): Option<E.ApproveArgs> {
    match at
    case Decide(args) => Some(args)
    case Voting(args, _, _) => Some(args)
    case Submitting(args, _, _) => Some(args)
    case VotesCast(args) => Some(args)
    case _ => None
  }

  predicate VotesOnRelease(at: C.Point) {
    VoteArgs(at).Some? && VoteArgs(at).value.direction == E.DIRECTION_RELEASE
  }

  predicate VotesOnReleaseWith(at: C.Point, args: E.ApproveArgs) {
    VotesOnRelease(at) ==> VoteArgs(at).value == args
  }

  /** The attempt works with the saved materials, or is about to save new ones while nothing on chain is live. */
  predicate Works(r: State, op: OperationId, mem: Journal, disk: Journal, at: C.Point)
    requires op in r.terms
  {
    && (Same(mem, disk) || (at.Materials? && !Live(r, op) && !C.HasMaterials(mem)))
    && VotesOnReleaseWith(at, C.ReleaseArgs(r.terms[op], op, mem))
    && (VotesOnRelease(at) ==> C.HasMaterials(mem))
  }

  ghost predicate WrittenAhead(w: C.World) {
    && w.rail.escrow.now > 0
    && (forall op :: op in w.rail.terms ==> Carried(w.rail, op, C.DiskOf(w, op)))
    && (forall op :: op in w.attempts ==>
          op in w.rail.terms && Works(w.rail, op, w.attempts[op].mem, C.DiskOf(w, op), w.attempts[op].at))
  }

  // What leaves release approvals alone ------------------------------------------------------------------------

  /** A live release approval of the operation afterwards is the same as before. */
  predicate NoNewRelease(r: State, t: State, op: OperationId) {
    && t.terms == r.terms && t.escrow.config == r.escrow.config && r.escrow.now <= t.escrow.now
    && (Live(t, op) ==> Live(r, op) && t.escrow.approvals[ReleaseSlot(op)] == r.escrow.approvals[ReleaseSlot(op)])
  }

  predicate IsReleaseVote(a: Action, op: OperationId) {
    a.Solana? && a.event.SubmitApprove? && a.event.approve.operation == op && a.event.approve.direction == E.DIRECTION_RELEASE
  }

  lemma OnlyVotesMakeReleases(r: State, a: Action, op: OperationId)
    requires !IsReleaseVote(a, op)
    ensures NoNewRelease(r, Take(r, a), op)
  {
  }

  lemma CarriedStays(r: State, t: State, op: OperationId, j: Journal, k: Journal)
    requires op in r.terms && Carried(r, op, j) && NoNewRelease(r, t, op) && Same(j, k)
    ensures op in t.terms && Carried(t, op, k)
  {
  }

  lemma WorksStays(r: State, t: State, op: OperationId, mem: Journal, disk: Journal, at: C.Point)
    requires op in r.terms && Works(r, op, mem, disk, at) && NoNewRelease(r, t, op)
    ensures op in t.terms && Works(t, op, mem, disk, at)
  {
  }

  // Moves ------------------------------------------------------------------------------------------------------

  /** The move leaves the journal's materials and the release approval as they are, and enters no release vote. */
  predicate LeavesMaterials(m: C.Move, mem: Journal, op: OperationId) {
    && (m.action.Some? ==> !IsReleaseVote(m.action.value, op))
    && (m.saved.Some? ==> Same(m.saved.value, mem))
    && (m.next.Some? ==>
          && Same(m.next.value.mem, mem)
          && (VoteArgs(m.next.value.at).Some? ==> VoteArgs(m.next.value.at).value.direction != E.DIRECTION_RELEASE))
  }

  /** The points that have to do with release votes and their materials. */
  predicate HandlesMaterials(at: C.Point) {
    at.Release? || at.Materials? || VotesOnRelease(at)
  }

  lemma VotesLeaveMaterials(r: State, op: OperationId, mem: Journal, at: C.Point, flags: C.Flags, durations: C.Durations, proof: Bytes32)
    requires op in r.terms && VoteArgs(at).Some? && VoteArgs(at).value.direction != E.DIRECTION_RELEASE
    ensures LeavesMaterials(C.PointMove(r, op, mem, at, flags, durations, proof), mem, op)
  {
    match at
    case Decide(args) => assert LeavesMaterials(C.AtDecide(r, mem, args), mem, op);
    case Voting(args, first, second) => assert LeavesMaterials(C.AtVoting(r, mem, args, first, second), mem, op);
    case Submitting(args, index, second) => assert LeavesMaterials(C.AtSubmitting(r, mem, args, index, second), mem, op);
    case VotesCast(args) => assert LeavesMaterials(C.AtVotesCast(r, mem, args), mem, op);
  }

  lemma OpeningLeavesMaterials(r: State, op: OperationId, mem: Journal, flags: C.Flags, durations: C.Durations, proof: Bytes32)
    requires op in r.terms
    ensures LeavesMaterials(C.AtLoad(r, op, mem), mem, op)
    ensures LeavesMaterials(C.AtDeadline(r, mem, durations.mint), mem, op)
    ensures LeavesMaterials(C.AtRoute(mem, flags), mem, op)
    ensures LeavesMaterials(C.AtReserve(r, op, mem), mem, op)
    ensures LeavesMaterials(C.AtRecordCompleted(r, op, mem), mem, op)
    ensures LeavesMaterials(C.AtLock(r, op, mem, flags, proof), mem, op)
    ensures LeavesMaterials(C.AtSubmitLock(r, op, mem, flags, proof), mem, op)
    ensures LeavesMaterials(C.AtMintVotes(r, op, mem), mem, op)
  {
  }

  lemma MiddleLeavesMaterials(r: State, op: OperationId, mem: Journal, flags: C.Flags)
    requires op in r.terms
    ensures LeavesMaterials(C.AtMint(op, mem), mem, op)
    ensures LeavesMaterials(C.AtFinalize(r, op, mem), mem, op)
    ensures LeavesMaterials(C.AtPrepare(op, mem), mem, op)
    ensures LeavesMaterials(C.AtSettle(op, mem, flags), mem, op)
    ensures LeavesMaterials(C.AtBurn(op, mem), mem, op)
    ensures LeavesMaterials(C.AtSubmitRelease(r, op, mem), mem, op)
    ensures LeavesMaterials(C.AtRedeem(r, op, mem), mem, op)
  {
  }

  lemma HaltLeavesMaterials(op: OperationId, mem: Journal, flags: C.Flags, step: Step)
    ensures LeavesMaterials(C.AtHalt(mem, flags, step), mem, op)
  {
  }

  lemma CancelLeavesMaterials(r: State, op: OperationId, mem: Journal, args: E.ApproveArgs, proof: Bytes32)
    requires op in r.terms
    ensures LeavesMaterials(C.AtExpire(r, op, mem), mem, op)
    ensures LeavesMaterials(C.AtCancel(r, op, mem, proof), mem, op)
    ensures LeavesMaterials(C.AtSubmitCancel(r, op, mem, args), mem, op)
    ensures LeavesMaterials(C.AtCancelReservation(r, op, mem), mem, op)
    ensures LeavesMaterials(C.AtCheckVault(r, mem), mem, op)
  {
  }

  lemma OpeningPoints(r: State, op: OperationId, mem: Journal, at: C.Point, flags: C.Flags, durations: C.Durations, proof: Bytes32)
    requires op in r.terms
    requires at.Load? || at.Deadline? || at.Route? || at.Reserve? || at.RecordCompleted? || at.Lock? || at.SubmitLock? || at.MintVotes?
    ensures LeavesMaterials(C.PointMove(r, op, mem, at, flags, durations, proof), mem, op)
  {
    OpeningLeavesMaterials(r, op, mem, flags, durations, if at.SubmitLock? then at.proof else proof);
  }

  lemma MiddlePoints(r: State, op: OperationId, mem: Journal, at: C.Point, flags: C.Flags, durations: C.Durations, proof: Bytes32)
    requires op in r.terms
    requires at.Mint? || at.Finalize? || at.Prepare? || at.Reassign? || at.Settle? || at.Burn? || at.SubmitRelease? || at.Redeem?
    ensures LeavesMaterials(C.PointMove(r, op, mem, at, flags, durations, proof), mem, op)
  {
    MiddleLeavesMaterials(r, op, mem, flags);
  }

  lemma HaltPoints(r: State, op: OperationId, mem: Journal, step: Step, flags: C.Flags, durations: C.Durations, proof: Bytes32)
    requires op in r.terms
    ensures LeavesMaterials(C.PointMove(r, op, mem, C.Halt(step), flags, durations, proof), mem, op)
  {
    HaltLeavesMaterials(op, mem, flags, step);
  }

  lemma CancelPoints(r: State, op: OperationId, mem: Journal, at: C.Point, flags: C.Flags, durations: C.Durations, proof: Bytes32)
    requires op in r.terms
    requires at.Expire? || at.Cancel? || at.SubmitCancel? || at.CancelReservation? || at.CheckVault?
    ensures LeavesMaterials(C.PointMove(r, op, mem, at, flags, durations, proof), mem, op)
  {
    CancelLeavesMaterials(r, op, mem, if at.SubmitCancel? then at.args else C.CancelArgs(r.terms[op], op, 0, 0), proof);
  }

  lemma OtherPointsLeaveMaterials(r: State, op: OperationId, mem: Journal, at: C.Point, flags: C.Flags, durations: C.Durations, proof: Bytes32)
    requires op in r.terms && !HandlesMaterials(at)
    ensures LeavesMaterials(C.PointMove(r, op, mem, at, flags, durations, proof), mem, op)
  {
    if VoteArgs(at).Some? {
      VotesLeaveMaterials(r, op, mem, at, flags, durations, proof);
    } else if at.Expire? || at.Cancel? || at.SubmitCancel? || at.CancelReservation? || at.CheckVault? {
      CancelPoints(r, op, mem, at, flags, durations, proof);
    } else if at.Load? || at.Deadline? || at.Route? || at.Reserve? || at.RecordCompleted? || at.Lock? || at.SubmitLock? || at.MintVotes? {
      OpeningPoints(r, op, mem, at, flags, durations, proof);
    } else if at.Halt? {
      HaltPoints(r, op, mem, at.step, flags, durations, proof);
    } else {
      MiddlePoints(r, op, mem, at, flags, durations, proof);
    }
  }

  /** After the move the saved journal still carries the live approval, and the attempt still works with it. */
  predicate MoveCarries(r: State, op: OperationId, m: C.Move, disk: Journal)
    requires op in r.terms
  {
    var t := C.RailAfter(r, m);
    var saved := if m.saved.Some? then m.saved.value else disk;
    && op in t.terms
    && Carried(t, op, saved)
    && (m.next.Some? ==> Works(t, op, m.next.value.mem, saved, m.next.value.at))
  }

  lemma PlainMoveCarries(r: State, op: OperationId, m: C.Move, mem: Journal, disk: Journal)
    requires op in r.terms && Carried(r, op, disk) && Same(mem, disk) && LeavesMaterials(m, mem, op)
    ensures MoveCarries(r, op, m, disk)
  {
    var t := C.RailAfter(r, m);
    if m.action.Some? {
      OnlyVotesMakeReleases(r, m.action.value, op);
    }
    CarriedStays(r, t, op, disk, if m.saved.Some? then m.saved.value else disk);
  }

  /** Clearing happens only when the approval on chain has expired, or when there is none. */
  lemma RefreshedMeansDead(r: State, op: OperationId, mem: Journal)
    ensures C.Refreshed(r, op, mem) == mem || (!Live(r, op) && !C.HasMaterials(C.Refreshed(r, op, mem)))
    ensures HasStatus(r, op, E.Released) ==> C.Refreshed(r, op, mem) == mem
  {
  }

  lemma ReleaseCarries(r: State, op: OperationId, mem: Journal, disk: Journal)
    requires op in r.terms && Carried(r, op, disk) && Same(mem, disk)
    requires Reached(mem, Released) ==> HasStatus(r, op, E.Released)
    ensures MoveCarries(r, op, C.AtRelease(r, op, mem), disk)
  {
    RefreshedMeansDead(r, op, mem);
  }

  lemma MaterialsCarry(r: State, op: OperationId, mem: Journal, disk: Journal, durations: C.Durations, proof: Bytes32)
    requires op in r.terms && r.escrow.now > 0 && Carried(r, op, disk) && Works(r, op, mem, disk, C.Materials)
    ensures MoveCarries(r, op, C.AtMaterials(r, op, mem, durations.release, proof), disk)
  {
  }

  lemma DecidingCarries(r: State, op: OperationId, mem: Journal, disk: Journal, args: E.ApproveArgs)
    requires op in r.terms && Carried(r, op, disk) && Same(mem, disk) && args == C.ReleaseArgs(r.terms[op], op, mem)
    requires C.HasMaterials(mem)
    ensures MoveCarries(r, op, C.AtDecide(r, mem, args), disk)
    ensures MoveCarries(r, op, C.AtVotesCast(r, mem, args), disk)
  {
  }

  lemma SigningCarries(r: State, op: OperationId, mem: Journal, disk: Journal, args: E.ApproveArgs, first: bool, second: bool)
    requires op in r.terms && Carried(r, op, disk) && Same(mem, disk) && args == C.ReleaseArgs(r.terms[op], op, mem)
    requires C.HasMaterials(mem)
    ensures MoveCarries(r, op, C.AtVoting(r, mem, args, first, second), disk)
  {
    var m := C.AtVoting(r, mem, args, first, second);
    if m.action.Some? {
      OnlyVotesMakeReleases(r, m.action.value, op);
      CarriedStays(r, C.RailAfter(r, m), op, disk, disk);
    }
  }

  /** A release vote that lands leaves an approval of exactly the requested digest and expiry. */
  lemma LandedVoteIsTheRequest(s: E.State, args: E.ApproveArgs, index: nat)
    requires S.Inv(s) && index < |s.config.attesters| && Agreement.Accepts(s, args, index)
    ensures var t := E.ApproveOperation(s, args, Agreement.VoteOf(s, args, index)).value;
      var slot := E.Slot(args.operation, args.direction);
      && slot in t.approvals && t.approvals[slot].digest == E.DigestOf(s.config, args) && t.approvals[slot].expiry == args.expiry
      && t.config == s.config && t.now == s.now
  {
    S.VoteTarget(s, args);
  }

  lemma SubmittingCarries(r: State, op: OperationId, mem: Journal, disk: Journal, args: E.ApproveArgs, index: nat, second: bool)
    requires S.Inv(r.escrow) && op in r.terms && Carried(r, op, disk) && Same(mem, disk) && args == C.ReleaseArgs(r.terms[op], op, mem)
    requires C.HasMaterials(mem)
    ensures MoveCarries(r, op, C.AtSubmitting(r, mem, args, index, second), disk)
  {
    if index < |r.escrow.config.attesters| && Agreement.Accepts(r.escrow, args, index) {
      LandedVoteIsTheRequest(r.escrow, args, index);
    }
  }

  // Runs -------------------------------------------------------------------------------------------------------

  lemma ReleasePointsCarry(r: State, op: OperationId, mem: Journal, disk: Journal, at: C.Point, flags: C.Flags, durations: C.Durations, proof: Bytes32)
    requires S.Inv(r.escrow) && op in r.terms && r.escrow.now > 0 && Carried(r, op, disk) && Works(r, op, mem, disk, at)
    requires HandlesMaterials(at) && (at.Release? && Reached(mem, Released) ==> HasStatus(r, op, E.Released))
    ensures MoveCarries(r, op, C.PointMove(r, op, mem, at, flags, durations, proof), disk)
  {
    match at
    case Release => ReleaseCarries(r, op, mem, disk);
    case Materials => MaterialsCarry(r, op, mem, disk, durations, proof);
    case Decide(args) => DecidingCarries(r, op, mem, disk, args);
    case Voting(args, first, second) => SigningCarries(r, op, mem, disk, args, first, second);
    case Submitting(args, index, second) => SubmittingCarries(r, op, mem, disk, args, index, second);
    case VotesCast(args) => DecidingCarries(r, op, mem, disk, args);
  }

  lemma EveryMoveCarries(r: State, op: OperationId, a: C.Attempt, disk: Journal, durations: C.Durations, proof: Bytes32)
    requires S.Inv(r.escrow) && op in r.terms && r.escrow.now > 0 && Carried(r, op, disk) && Works(r, op, a.mem, disk, a.at)
    requires a.at.Release? && Reached(a.mem, Released) ==> HasStatus(r, op, E.Released)
    ensures MoveCarries(r, op, C.MoveOf(r, op, a, durations, proof), disk)
  {
    if HandlesMaterials(a.at) {
      ReleasePointsCarry(r, op, a.mem, disk, a.at, a.flags, durations, proof);
    } else {
      OtherPointsLeaveMaterials(r, op, a.mem, a.at, a.flags, durations, proof);
      PlainMoveCarries(r, op, C.MoveOf(r, op, a, durations, proof), a.mem, disk);
    }
  }

  /** The only votes an attempt submits are on its own operation. */
  lemma VotesAreItsOwn(r: State, op: OperationId, a: C.Attempt, durations: C.Durations, proof: Bytes32, other: OperationId)
    requires op in r.terms && other != op && (a.at.Submitting? ==> a.at.args.operation == op)
    ensures var m := C.MoveOf(r, op, a, durations, proof); m.action.Some? ==> !IsReleaseVote(m.action.value, other)
  {
  }

  lemma SomeMoveCarries(r: State, op: OperationId, a: C.Attempt, disk: Journal, durations: C.Durations, proof: Bytes32, m: C.Move)
    requires S.Inv(r.escrow) && op in r.terms && r.escrow.now > 0 && Carried(r, op, disk) && Works(r, op, a.mem, disk, a.at)
    requires a.at.Release? && Reached(a.mem, Released) ==> HasStatus(r, op, E.Released)
    requires a.at.Submitting? ==> a.at.args.operation == op
    requires m == C.MoveOf(r, op, a, durations, proof)
    ensures MoveCarries(r, op, m, disk)
    ensures m.action.Some? ==> forall other :: other != op ==> !IsReleaseVote(m.action.value, other)
  {
    EveryMoveCarries(r, op, a, disk, durations, proof);
    forall other | other != op ensures m.action.Some? ==> !IsReleaseVote(m.action.value, other) {
      VotesAreItsOwn(r, op, a, durations, proof, other);
    }
  }

  lemma AttemptCarries(w: C.World, op: OperationId, durations: C.Durations) returns (m: C.Move)
    requires S.Inv(w.rail.escrow) && WrittenAhead(w) && op in w.attempts && op in w.rail.terms
    requires w.attempts[op].at.Release? && Reached(w.attempts[op].mem, Released) ==> HasStatus(w.rail, op, E.Released)
    requires w.attempts[op].at.Submitting? ==> w.attempts[op].at.args.operation == op
    ensures C.Advance(w, op, durations) == C.Apply(w, op, m) && MoveCarries(w.rail, op, m, C.DiskOf(w, op))
    ensures m.action.Some? ==> forall other :: other != op ==> !IsReleaseVote(m.action.value, other)
  {
    m := Runs.AdvanceIsAMove(w, op, durations);
    SomeMoveCarries(w.rail, op, w.attempts[op], C.DiskOf(w, op), durations, w.proofs + 1, m);
  }

  lemma CarriedMoveStaysAhead(w: C.World, op: OperationId, m: C.Move)
    requires WrittenAhead(w) && op in w.attempts && op in w.rail.terms && MoveCarries(w.rail, op, m, C.DiskOf(w, op))
    requires m.action.Some? ==> forall other :: other != op ==> !IsReleaseVote(m.action.value, other)
    ensures WrittenAhead(C.Apply(w, op, m))
  {
    var t := C.Apply(w, op, m);
    ActionsKeepTheClock(w.rail, m);
    forall other | other in t.rail.terms && other != op
      ensures Carried(t.rail, other, C.DiskOf(t, other)) && C.DiskOf(t, other) == C.DiskOf(w, other) && NoNewRelease(w.rail, t.rail, other)
    {
      if m.action.Some? {
        OnlyVotesMakeReleases(w.rail, m.action.value, other);
      }
      CarriedStays(w.rail, t.rail, other, C.DiskOf(w, other), C.DiskOf(w, other));
    }
    forall other | other in t.attempts
      ensures other in t.rail.terms && Works(t.rail, other, t.attempts[other].mem, C.DiskOf(t, other), t.attempts[other].at)
    {
      if other != op {
        WorksStays(w.rail, t.rail, other, w.attempts[other].mem, C.DiskOf(w, other), w.attempts[other].at);
      }
    }
  }

  lemma ActionsKeepTheClock(r: State, m: C.Move)
    ensures C.RailAfter(r, m).terms == r.terms && r.escrow.now <= C.RailAfter(r, m).escrow.now
  {
  }

  // What others bring to the chain -----------------------------------------------------------------------------

  /** The event is a release vote by others, for an operation of the coordinator, that the program accepts now. */
  predicate OutsideVote(r: State, e: C.Event) {
    && e.Others? && e.action.Solana? && e.action.event.SubmitApprove?
    && var late := e.action.event.approve;
       && late.operation in r.terms && late.direction == E.DIRECTION_RELEASE
       && E.ApproveOperation(r.escrow, late, e.action.event.vote).Ok?
  }

  /** The request is on the materials of the saved journal, and an attempt that is past clearing still holds them. */
  predicate OnSavedMaterials(w: C.World, late: E.ApproveArgs)
    requires late.operation in w.rail.terms
  {
    var (op, disk) := (late.operation, C.DiskOf(w, late.operation));
    && C.HasMaterials(disk)
    && E.DigestOf(w.rail.escrow.config, late) == E.DigestOf(w.rail.escrow.config, C.ReleaseArgs(w.rail.terms[op], op, disk))
    && (op in w.attempts && w.attempts[op].at.Materials? ==> Same(w.attempts[op].mem, disk))
  }

  /** Whoever submits it, an accepted release vote is on the saved materials. */
  predicate Harmless(w: C.World, e: C.Event) {
    OutsideVote(w.rail, e) ==> OnSavedMaterials(w, e.action.event.approve)
  }

  predicate HarmlessAt(w: C.World, events: seq<C.Event>, k: nat)
    requires k < |events|
  {
    Harmless(C.RunAll(w, events[..k]), events[k])
  }

  predicate AlwaysHarmless(w: C.World, events: seq<C.Event>) {
    forall k: nat :: k < |events| ==> HarmlessAt(w, events, k)
  }

  /** An accepted release vote leaves a live approval of exactly its request. */
  lemma LandedVoteIsLive(r: State, late: E.ApproveArgs, vote: E.Signature)
    requires S.Inv(r.escrow) && late.direction == E.DIRECTION_RELEASE && E.ApproveOperation(r.escrow, late, vote).Ok?
    ensures var t := Take(r, Solana(E.SubmitApprove(late, vote)));
      && t.terms == r.terms && t.escrow.now == r.escrow.now && t.escrow.config == r.escrow.config
      && Live(t, late.operation)
      && t.escrow.approvals[ReleaseSlot(late.operation)].digest == E.DigestOf(r.escrow.config, late)
      && t.escrow.approvals[ReleaseSlot(late.operation)].expiry == late.expiry
  {
    S.VoteTarget(r.escrow, late);
  }

  lemma OnlyAcceptedVotesMakeReleases(r: State, a: Action, op: OperationId)
    requires op in r.terms && !(IsReleaseVote(a, op) && OutsideVote(r, C.Others(a)))
    ensures NoNewRelease(r, Take(r, a), op)
  {
    if !IsReleaseVote(a, op) {
      OnlyVotesMakeReleases(r, a, op);
    }
  }

  lemma OthersStayBehind(w: C.World, a: Action)
    requires WrittenAhead(w) && !OutsideVote(w.rail, C.Others(a))
    ensures WrittenAhead(w.(rail := Take(w.rail, a)))
  {
    var t := w.(rail := Take(w.rail, a));
    assert C.RailAfter(w.rail, C.Move(Some(a), None, None, false)) == t.rail;
    ActionsKeepTheClock(w.rail, C.Move(Some(a), None, None, false));
    forall op | op in t.rail.terms ensures Carried(t.rail, op, C.DiskOf(t, op)) && NoNewRelease(w.rail, t.rail, op) {
      OnlyAcceptedVotesMakeReleases(w.rail, a, op);
      CarriedStays(w.rail, t.rail, op, C.DiskOf(w, op), C.DiskOf(w, op));
    }
    forall op | op in t.attempts
      ensures op in t.rail.terms && Works(t.rail, op, t.attempts[op].mem, C.DiskOf(t, op), t.attempts[op].at)
    {
      WorksStays(w.rail, t.rail, op, w.attempts[op].mem, C.DiskOf(w, op), w.attempts[op].at);
    }
  }

  /** For the operation voted on, journal and attempt fit the new approval exactly if the vote is on the saved materials. */
  lemma LandedVoteFits(w: C.World, late: E.ApproveArgs, vote: E.Signature)
    requires S.Inv(w.rail.escrow) && WrittenAhead(w) && OutsideVote(w.rail, C.Others(Solana(E.SubmitApprove(late, vote))))
    ensures var (op, t, disk) := (late.operation, Take(w.rail, Solana(E.SubmitApprove(late, vote))), C.DiskOf(w, late.operation));
      && op in t.terms
      && (OnSavedMaterials(w, late) <==>
            && Carried(t, op, disk)
            && (op in w.attempts ==> Works(t, op, w.attempts[op].mem, disk, w.attempts[op].at)))
  {
    LandedVoteIsLive(w.rail, late, vote);
    if late.operation in w.attempts {
      assert Works(w.rail, late.operation, w.attempts[late.operation].mem, C.DiskOf(w, late.operation), w.attempts[late.operation].at);
    }
  }

  lemma OutsideVoteExactly(w: C.World, late: E.ApproveArgs, vote: E.Signature)
    requires S.Inv(w.rail.escrow) && WrittenAhead(w) && OutsideVote(w.rail, C.Others(Solana(E.SubmitApprove(late, vote))))
    ensures WrittenAhead(w.(rail := Take(w.rail, Solana(E.SubmitApprove(late, vote))))) <==> OnSavedMaterials(w, late)
  {
    var a := Solana(E.SubmitApprove(late, vote));
    var t := w.(rail := Take(w.rail, a));
    LandedVoteFits(w, late, vote);
    LandedVoteIsLive(w.rail, late, vote);
    forall op | op in t.rail.terms && op != late.operation
      ensures Carried(t.rail, op, C.DiskOf(t, op)) && NoNewRelease(w.rail, t.rail, op)
    {
      OnlyVotesMakeReleases(w.rail, a, op);
      CarriedStays(w.rail, t.rail, op, C.DiskOf(w, op), C.DiskOf(w, op));
    }
    forall op | op in t.attempts && op != late.operation
      ensures op in t.rail.terms && Works(t.rail, op, t.attempts[op].mem, C.DiskOf(t, op), t.attempts[op].at)
    {
      WorksStays(w.rail, t.rail, op, w.attempts[op].mem, C.DiskOf(w, op), w.attempts[op].at);
    }
  }

  lemma ReleasedIsKnown(r: State, op: OperationId, mem: Journal, at: C.Point)
    requires Known.OnwardTrue(r, op, mem, at)
    ensures at.Release? && Reached(mem, Released) ==> HasStatus(r, op, E.Released)
  {
    if at.Release? && Reached(mem, Released) {
      Known.UpToLess(r, op, Rank(mem.completed.value), Rank(Released));
    }
  }

  lemma WhatTheAttemptKnows(w: C.World, op: OperationId)
    requires Known.AttemptsTrue(w) && op in w.attempts
    ensures w.attempts[op].at.Release? && Reached(w.attempts[op].mem, Released) ==> HasStatus(w.rail, op, E.Released)
    ensures w.attempts[op].at.Submitting? ==> w.attempts[op].at.args.operation == op
  {
    var a := w.attempts[op];
    assert Known.OnwardTrue(w.rail, op, a.mem, a.at);
    ReleasedIsKnown(w.rail, op, a.mem, a.at);
  }

  lemma AdvanceStaysAhead(w: C.World, op: OperationId, durations: C.Durations)
    requires Known.Faithful(w) && WrittenAhead(w) && op in w.attempts && op in w.rail.terms
    ensures WrittenAhead(C.Advance(w, op, durations))
  {
    WhatTheAttemptKnows(w, op);
    var m := AttemptCarries(w, op, durations);
    CarriedMoveStaysAhead(w, op, m);
  }

  lemma OwnEventsStayAhead(w: C.World, e: C.Event)
    requires Known.Faithful(w) && WrittenAhead(w) && !e.Others?
    ensures WrittenAhead(C.Next(w, e))
  {
    match e
    case Start(op, flags) =>
    case Crash(op) =>
    case Run(op, durations) =>
      if op in w.attempts && op in w.rail.terms {
        AdvanceStaysAhead(w, op, durations);
      }
  }

  /** An event keeps the materials written ahead exactly if it is harmless. */
  lemma NextStaysAheadExactly(w: C.World, e: C.Event)
    requires Known.Faithful(w) && WrittenAhead(w)
    ensures WrittenAhead(C.Next(w, e)) <==> Harmless(w, e)
  {
    if e.Others? {
      OthersActExactly(w, e.action);
    } else {
      OwnEventsStayAhead(w, e);
    }
  }

  lemma OthersActExactly(w: C.World, a: Action)
    requires S.Inv(w.rail.escrow) && WrittenAhead(w)
    ensures WrittenAhead(C.Next(w, C.Others(a))) <==> Harmless(w, C.Others(a))
  {
    if OutsideVote(w.rail, C.Others(a)) {
      OutsideVoteExactly(w, a.event.approve, a.event.vote);
    } else if C.OthersMay(w.rail, a) {
      OthersStayBehind(w, a);
    }
  }

  lemma OneFurther(w: C.World, events: seq<C.Event>, k: nat)
    requires k < |events|
    ensures C.RunAll(w, events[..k + 1]) == C.Next(C.RunAll(w, events[..k]), events[k])
  {
    assert events[..k + 1][..k] == events[..k];
  }

  /** One event further, the materials are still written ahead exactly if it is harmless. */
  lemma AheadOneFurther(w: C.World, events: seq<C.Event>, k: nat)
    requires Known.Faithful(w) && k < |events| && WrittenAhead(C.RunAll(w, events[..k]))
    ensures WrittenAhead(C.RunAll(w, events[..k + 1])) <==> HarmlessAt(w, events, k)
  {
    Runs.RunsKeepInv(w, events[..k]);
    OneFurther(w, events, k);
    NextStaysAheadExactly(C.RunAll(w, events[..k]), events[k]);
  }

  lemma {:induction false} AheadAllAlong(w: C.World, events: seq<C.Event>, k: nat)
    requires Known.Faithful(w) && WrittenAhead(w) && AlwaysHarmless(w, events) && k <= |events|
    ensures WrittenAhead(C.RunAll(w, events[..k]))
  {
    if k > 0 {
      AheadAllAlong(w, events, k - 1);
      assert HarmlessAt(w, events, k - 1);
      AheadOneFurther(w, events, k - 1);
    }
  }

  /**
   * In every state of every run in which the release votes of others are harmless when they land, a live release
   * approval on chain carries the digest and the expiry of the materials in the saved journal.
   */
  lemma MaterialsAreWrittenAhead(w: C.World, events: seq<C.Event>)
    requires Known.Faithful(w) && WrittenAhead(w) && AlwaysHarmless(w, events)
    ensures WrittenAhead(C.RunAll(w, events))
  {
    AheadAllAlong(w, events, |events|);
    assert events[..|events|] == events;
  }

  /** The materials stay written ahead all the way through a run exactly if every outside vote in it is harmless. */
  lemma WrittenAheadExactly(w: C.World, events: seq<C.Event>)
    requires Known.Faithful(w) && WrittenAhead(w)
    ensures (forall k :: 0 <= k <= |events| ==> WrittenAhead(C.RunAll(w, events[..k]))) <==> AlwaysHarmless(w, events)
  {
    if AlwaysHarmless(w, events) {
      forall k | 0 <= k <= |events| ensures WrittenAhead(C.RunAll(w, events[..k])) {
        AheadAllAlong(w, events, k);
      }
    } else if forall k :: 0 <= k <= |events| ==> WrittenAhead(C.RunAll(w, events[..k])) {
      forall k: nat | k < |events| ensures HarmlessAt(w, events, k) {
        assert WrittenAhead(C.RunAll(w, events[..k])) && WrittenAhead(C.RunAll(w, events[..k + 1]));
        AheadOneFurther(w, events, k);
      }
    }
  }

  /** So no resumed release is ever refused because a live approval carries another digest. */
  lemma NoReleaseIsRefusedForItsDigest(w: C.World, events: seq<C.Event>, op: OperationId)
    requires Known.Faithful(w) && WrittenAhead(w) && AlwaysHarmless(w, events)
    requires var t := C.RunAll(w, events);
      op in t.attempts && t.attempts[op].at.Decide? && t.attempts[op].at.args.direction == E.DIRECTION_RELEASE
    ensures var t := C.RunAll(w, events);
      Agreement.Needed(t.rail.escrow, t.attempts[op].at.args) != Err(DigestMismatchWhileValid)
  {
    MaterialsAreWrittenAhead(w, events);
    var t := C.RunAll(w, events);
    assert Works(t.rail, op, t.attempts[op].mem, C.DiskOf(t, op), t.attempts[op].at);
    assert Carried(t.rail, op, C.DiskOf(t, op));
  }

  /** Others do not submit release votes for the coordinator's operations. */
  predicate LeavesVotesToCoordinator(r: State, e: C.Event) {
    e.Others? && e.action.Solana? && e.action.event.SubmitApprove? ==>
      e.action.event.approve.operation !in r.terms || e.action.event.approve.direction != E.DIRECTION_RELEASE
  }

  lemma {:induction false} TermsStay(w: C.World, events: seq<C.Event>)
    requires Known.Faithful(w)
    ensures C.RunAll(w, events).rail.terms == w.rail.terms
    decreases |events|
  {
    if events != [] {
      var (init, last) := (events[..|events| - 1], events[|events| - 1]);
      TermsStay(w, init);
      Runs.RunsKeepInv(w, init);
      Runs.EventIsItsAction(C.RunAll(w, init), last);
    }
  }

  /** With the coordinator as the sole submitter of its release votes, every run is harmless. */
  lemma SoleSubmitterIsHarmless(w: C.World, events: seq<C.Event>)
    requires Known.Faithful(w)
    requires forall e :: e in events ==> LeavesVotesToCoordinator(w.rail, e)
    ensures AlwaysHarmless(w, events)
  {
    forall k: nat | k < |events| ensures HarmlessAt(w, events, k) {
      TermsStay(w, events[..k]);
      assert events[k] in events && LeavesVotesToCoordinator(w.rail, events[k]);
    }
  }

  lemma FreshIsAhead(terms: map<OperationId, Terms>, escrow: E.State, zama: X.State)
    requires escrow.now > 0 && escrow.approvals == map[]
    ensures WrittenAhead(C.Fresh(terms, escrow, zama))
  {
  }

  // New materials ------------------------------------------------------------------------------------------------

  /** The attempt holds no materials and is about to make new ones. */
  predicate AboutToRenew(w: C.World, op: OperationId) {
    && op in w.rail.terms && op in w.attempts
    && w.attempts[op].at == C.Materials && !w.attempts[op].unsaved && !C.HasMaterials(w.attempts[op].mem)
  }

  predicate RefusedForItsDigest(t: C.World, op: OperationId) {
    && op in t.attempts && t.attempts[op].at.Decide?
    && Agreement.Needed(t.rail.escrow, t.attempts[op].at.args) == Err(DigestMismatchWhileValid)
  }

  /** The proof that the attempt will make is not the one that a live release approval names. */
  predicate NextProofIsNew(w: C.World, op: OperationId) {
    Live(w.rail, op) ==>
      var digest := w.rail.escrow.approvals[ReleaseSlot(op)].digest;
      digest.OperationDigest? ==> digest.proof != w.proofs + 1
  }

  /** An attempt that makes new materials is refused for their digest exactly if a release approval is live. */
  lemma NewMaterialsClashExactly(w: C.World, op: OperationId, durations: C.Durations)
    requires AboutToRenew(w, op) && NextProofIsNew(w, op)
    ensures RefusedForItsDigest(C.Next(w, C.Run(op, durations)), op) <==> Live(w.rail, op)
  {
  }

  /**
   * If a release vote comes to the chain after the attempt has cleared its materials, then the attempt is refused
   * for the digest of its new ones exactly if the program accepted the vote.
   */
  lemma LateVoteIsFatalExactly(w: C.World, op: OperationId, late: E.ApproveArgs, vote: E.Signature, durations: C.Durations)
    requires S.Inv(w.rail.escrow) && WrittenAhead(w) && AboutToRenew(w, op)
    requires late.operation == op && late.direction == E.DIRECTION_RELEASE && late.proof != w.proofs + 1
    ensures var e := C.Others(Solana(E.SubmitApprove(late, vote)));
      && (RefusedForItsDigest(C.Next(C.Next(w, e), C.Run(op, durations)), op) <==> OutsideVote(w.rail, e))
      && (OutsideVote(w.rail, e) <==> !Harmless(w, e))
  {
    var e := C.Others(Solana(E.SubmitApprove(late, vote)));
    var landed := C.Next(w, e);
    assert Works(w.rail, op, w.attempts[op].mem, C.DiskOf(w, op), C.Materials);
    if OutsideVote(w.rail, e) {
      LandedVoteIsLive(w.rail, late, vote);
    }
    NewMaterialsClashExactly(landed, op, durations);
  }
}

/**
 * The coordinator as the bridge runs it, one chain effect or journal write at a time. An attempt holds the journal
 * in memory and the point it is at; a crash drops the attempt and leaves what was saved.
 */
module Coordinator {
  import opened Outcomes
  import E = Escrow
  import X = Exposure
  import opened Recovery
  import Agreement
  import opened OperationJournal
  import ReservationResume
  import opened Rail

  /** How an operator starts an attempt. */
  datatype Flags = Flags(cancelLocked: bool, expiryRecovery: bool, omitSave: bool, stopAfter: Option<Step>)

  /** How far ahead an attempt sets the deadline of a mint and the expiry of its release materials. */
  datatype Durations = Durations(mint: nat, release: nat)

  const AT_ONCE := Durations(0, 0)

  predicate Positive(d: Durations) {
    d.mint > 0 && d.release > 0
  }

  datatype Point =
    | Load
    | Deadline
    | Route
    | Reserve
    | RecordCompleted
    | Lock
    | SubmitLock(proof: Bytes32)
    | MintVotes
    | Decide(args: E.ApproveArgs)
    | Voting(args: E.ApproveArgs, first: bool, second: bool)
    | Submitting(args: E.ApproveArgs, index: nat, second: bool)
    | VotesCast(args: E.ApproveArgs)
    | Mint
    | Finalize
    | Prepare
    | Reassign
    | Settle
    | Burn
    | Release
    | Materials
    | SubmitRelease
    | Redeem
    | Expire
    | Cancel
    | SubmitCancel(args: E.ApproveArgs)
    | CancelReservation
    | CheckVault
    | Halt(step: Step)

  /** `unsaved` says that the attempt has acted on a chain and has yet to write its journal. */
  datatype Attempt = Attempt(mem: Journal, at: Point, flags: Flags, unsaved: bool)

  /**
   * What one step of an attempt does: a chain action or a journal write or neither, and the journal and point it
   * goes on with, unless it ends. `newProof` says that a new transfer proof was made.
   */
  datatype Move = Move(action: Option<Action>, saved: Option<Journal>, next: Option<Onward>, newProof: bool)

  datatype Onward = Onward(mem: Journal, at: Point, unsaved: bool)

  /** `proofs` numbers the transfer proofs made so far: each is new. */
  datatype World = World(rail: State, disks: map<OperationId, Journal>, attempts: map<OperationId, Attempt>, proofs: nat)

  // Building blocks ------------------------------------------------------------------------------------------

  function Goto(mem: Journal, at: Point): Move {
    Move(None, None, Some(Onward(mem, at, false)), false)
  }

  function Save(mem: Journal, at: Point): Move {
    Move(None, Some(mem), Some(Onward(mem, at, false)), false)
  }

  function Act(action: Action, mem: Journal, at: Point): Move {
    Move(Some(action), None, Some(Onward(mem, at, false)), false)
  }

  /** Acts now; the next step of the attempt writes the journal. */
  function ActThenSave(action: Action, mem: Journal, at: Point): Move {
    Move(Some(action), None, Some(Onward(mem, at, true)), false)
  }

  /** The attempt returns or fails. */
  const END := Move(None, None, None, false)

  function RailAfter(r: State, m: Move): State {
    match m.action
    case None => r
    case Some(a) => Take(r, a)
  }

  function Apply(w: World, op: OperationId, m: Move): World
    requires op in w.attempts
  {
    World(RailAfter(w.rail, m),
          if m.saved.Some? then w.disks[op := m.saved.value] else w.disks,
          match m.next {
            case None => w.attempts - {op}
            case Some(onward) => w.attempts[op := Attempt(onward.mem, onward.at, w.attempts[op].flags, onward.unsaved)]
          },
          if m.newProof then w.proofs + 1 else w.proofs)
  }

  function DiskOf(w: World, op: OperationId): Journal {
    if op in w.disks then w.disks[op] else BLANK
  }

  function StatusCode(r: State, op: OperationId): nat {
    if op !in r.zama.reservations then
      ReservationResume.RESERVATION_EMPTY
    else
      match r.zama.reservations[op].status
      case Reserved => ReservationResume.RESERVATION_RESERVED
      case Finalized => ReservationResume.RESERVATION_FINALIZED
      case Cancelled => ReservationResume.RESERVATION_CANCELLED
      case Redeemed => ReservationResume.RESERVATION_REDEEMED
  }

  function ResumeAction(r: State, op: OperationId): Result<ReservationResume.Action, ReservationResume.Refusal> {
    ReservationResume.Resume(Ok(StatusCode(r, op)), Some(Ok(Approved(r, op))))
  }

  function Stored(proof: Option<Bytes32>): Bytes32 {
    if proof.Some? then proof.value else 0
  }

  // The requests ---------------------------------------------------------------------------------------------

  function MintArgs(t: Terms, op: OperationId, j: Journal): E.ApproveArgs {
    E.ApproveArgs(op, E.DIRECTION_MINT, t.source, CommitmentOf(t), op, 0, j.mintExpiry, Stored(j.lockProof))
  }

  function ReleaseArgs(t: Terms, op: OperationId, j: Journal): E.ApproveArgs {
    E.ApproveArgs(op, E.DIRECTION_RELEASE, t.destination, CommitmentOf(t), op, 0, j.releaseExpiry, Stored(j.releaseProof))
  }

  function CancelArgs(t: Terms, op: OperationId, expiry: int, proof: Bytes32): E.ApproveArgs {
    E.ApproveArgs(op, E.DIRECTION_CANCEL, t.source, CommitmentOf(t), op, 0, expiry, proof)
  }

  function LockArgs(t: Terms, op: OperationId, j: Journal, proof: Bytes32): E.LockArgs {
    E.LockArgs(op, t.source, CommitmentOf(t), op, 0, j.mintExpiry, proof)
  }

  function MovementOf(args: E.ApproveArgs): E.MovementArgs {
    E.MovementArgs(args.destination, args.commitment, args.reservation, args.previous, args.expiry, args.proof)
  }

  function CancelDeadline(now: int): int {
    now + 3600
  }

  // The points of a run --------------------------------------------------------------------------------------

  function AtLoad(r: State, op: OperationId, mem: Journal): Move {
    if ResumeAction(r, op) == Ok(ReservationResume.RecordCompleted) then Goto(mem, RecordCompleted) else Save(mem, Halt(Accounts))
  }

  function AtDeadline(r: State, mem: Journal, seconds: nat): Move {
    Save(if mem.mintExpiry == 0 then mem.(mintExpiry := r.escrow.now + seconds) else mem, Route)
  }

  function AtRoute(mem: Journal, flags: Flags): Move {
    Goto(mem, if flags.cancelLocked || mem.completed == Some(Step.Cancelled) then Cancel else Reserve)
  }

  function ReserveCall(r: State, op: OperationId): Action
    requires op in r.terms
  {
    Zama(X.CallReserve(op, r.terms[op].client, r.terms[op].amount))
  }

  function AtReserve(r: State, op: OperationId, mem: Journal): Move
    requires op in r.terms
  {
    match ResumeAction(r, op)
    case Err(_) => END
    case Ok(RecordCompleted) => Goto(mem, RecordCompleted)
    case Ok(ResumeApproved) => Goto(mem, Halt(Step.Reserved))
    case Ok(SubmitReserve) =>
      if Approved(Take(r, ReserveCall(r, op)), op)
      then ActThenSave(ReserveCall(r, op), mem, Halt(Step.Reserved))
      else Move(Some(ReserveCall(r, op)), None, None, false)
  }

  /** The completed operation is recorded once its receipt is seen released. */
  function AtRecordCompleted(r: State, op: OperationId, mem: Journal): Move {
    if HasStatus(r, op, E.Released) then Goto(mem, Halt(ZamaRedeemed)) else END
  }

  function AfterLock(flags: Flags): Point {
    if flags.expiryRecovery then Expire else Halt(Step.Locked)
  }

  function AtLock(r: State, op: OperationId, mem: Journal, flags: Flags, proof: Bytes32): Move {
    if Reached(mem, Step.Locked) then
      Goto(mem, AfterLock(flags))
    else if op in r.escrow.receipts then
      Goto(mem.(completed := Some(MaxCompleted(Step.Locked, mem.completed))), AfterLock(flags))
    else if r.escrow.vault != 0 then
      END
    else
      Save(mem.(lockProof := Some(proof)), SubmitLock(proof)).(newProof := true)
  }

  function AtSubmitLock(r: State, op: OperationId, mem: Journal, flags: Flags, proof: Bytes32): Move
    requires op in r.terms
  {
    var args := LockArgs(r.terms[op], op, mem, proof);
    if E.LockConfidential(r.escrow, args).Ok? then ActThenSave(Solana(E.SubmitLock(args)), mem, AfterLock(flags)) else END
  }

  function AtMintVotes(r: State, op: OperationId, mem: Journal): Move
    requires op in r.terms
  {
    if mem.lockProof.None? then END
    else if MintAuthorized(r, op) then Goto(mem, Halt(Step.MintApproved))
    else Goto(mem, Decide(MintArgs(r.terms[op], op, mem)))
  }

  function AtDecide(r: State, mem: Journal, args: E.ApproveArgs): Move {
    match Agreement.Needed(r.escrow, args)
    case Err(_) => END
    case Ok(needed) => Goto(mem, Voting(args, needed.0, needed.1))
  }

  /** The attester whose turn it is signs the digest. */
  function AtVoting(r: State, mem: Journal, args: E.ApproveArgs, first: bool, second: bool): Move {
    if |r.escrow.config.attesters| != 3 then END
    else if first then Act(Solana(E.Sign(Agreement.VoteOf(r.escrow, args, 0))), mem, Submitting(args, 0, second))
    else if second then Act(Solana(E.Sign(Agreement.VoteOf(r.escrow, args, 1))), mem, Submitting(args, 1, false))
    else Goto(mem, VotesCast(args))
  }

  function AtSubmitting(r: State, mem: Journal, args: E.ApproveArgs, index: nat, second: bool): Move {
    if index < |r.escrow.config.attesters| && Agreement.Accepts(r.escrow, args, index)
    then Act(Solana(E.SubmitApprove(args, Agreement.VoteOf(r.escrow, args, index))), mem, Voting(args, false, second))
    else END
  }

  predicate TwoOfThree(s: E.State, args: E.ApproveArgs) {
    var slot := E.Slot(args.operation, args.direction);
    slot in s.approvals && CountOnes(s.approvals[slot].bitmap) >= 2
  }

  function AtVotesCast(r: State, mem: Journal, args: E.ApproveArgs): Move {
    if !TwoOfThree(r.escrow, args) then END
    else if args.direction == E.DIRECTION_MINT then Save(mem, Halt(Step.MintApproved))
    else if args.direction == E.DIRECTION_RELEASE then Goto(mem, Halt(ReleaseApproved))
    else Goto(mem, SubmitCancel(args))
  }

  function AtMint(op: OperationId, mem: Journal): Move {
    if Reached(mem, CantonMinted) then Goto(mem, Halt(CantonMinted)) else ActThenSave(CantonMint(op), mem, Finalize)
  }

  function AtFinalize(r: State, op: OperationId, mem: Journal): Move {
    if !Approved(r, op) then
      END
    else if Reservation(r, op, X.Reserved) then
      ActThenSave(Zama(X.CallFinalize(op)), mem, Halt(CantonMinted))
    else if Reservation(r, op, X.Finalized) || Reservation(r, op, X.Redeemed) then
      Goto(mem, Halt(CantonMinted))
    else
      END
  }

  function AtPrepare(op: OperationId, mem: Journal): Move {
    if Reached(mem, TradePrepared) then Goto(mem, Halt(TradePrepared)) else Act(CantonPrepare(op), mem, Halt(TradePrepared))
  }

  function AtSettle(op: OperationId, mem: Journal, flags: Flags): Move {
    if flags.omitSave then Act(CantonSettle(op), mem, Halt(Settled)) else ActThenSave(CantonSettle(op), mem, Halt(Settled))
  }

  function AtBurn(op: OperationId, mem: Journal): Move {
    Act(CantonBurn(op), mem, Halt(Step.Redeemed))
  }

  /** The journal as release_once goes on with it: expired materials are cleared. */
  function Refreshed(r: State, op: OperationId, mem: Journal): Journal {
    if ShouldRefreshReleaseMaterials(r.escrow.now, Agreement.ReadApproval(r.escrow, E.Slot(op, E.DIRECTION_RELEASE)),
                                     mem.releaseExpiry, HasStatus(r, op, E.Released))
    then mem.(releaseExpiry := 0, releaseProof := None)
    else mem
  }

  function AtRelease(r: State, op: OperationId, mem: Journal): Move {
    if !Reached(mem, Step.Redeemed) || HasStatus(r, op, E.Cancelled) then
      END
    else if ShouldSubmitRelease(Reached(mem, Released), HasStatus(r, op, E.Released)) then
      Goto(Refreshed(r, op, mem), Materials)
    else
      Goto(Refreshed(r, op, mem), Halt(Released))
  }

  predicate HasMaterials(j: Journal) {
    j.releaseExpiry > 0 && j.releaseProof.Some?
  }

  function AtMaterials(r: State, op: OperationId, mem: Journal, seconds: nat, proof: Bytes32): Move
    requires op in r.terms
  {
    if HasMaterials(mem) then
      Goto(mem, Decide(ReleaseArgs(r.terms[op], op, mem)))
    else
      var next := mem.(releaseExpiry := r.escrow.now + seconds, releaseProof := Some(proof));
      Save(next, Decide(ReleaseArgs(r.terms[op], op, next))).(newProof := true)
  }

  function ReleaseMove(t: Terms, op: OperationId, j: Journal): E.Event {
    E.SubmitMove(op, E.DIRECTION_RELEASE, MovementOf(ReleaseArgs(t, op, j)), true)
  }

  function AtSubmitRelease(r: State, op: OperationId, mem: Journal): Move
    requires op in r.terms
  {
    if E.ReleaseConfidential(r.escrow, op, E.DIRECTION_RELEASE, MovementOf(ReleaseArgs(r.terms[op], op, mem))).Ok?
    then Act(Solana(ReleaseMove(r.terms[op], op, mem)), mem, Halt(Released))
    else END
  }

  function AtRedeem(r: State, op: OperationId, mem: Journal): Move {
    if Reached(mem, ZamaRedeemed) || Reservation(r, op, X.Redeemed) then Goto(mem, Halt(ZamaRedeemed))
    else if Reservation(r, op, X.Finalized) then ActThenSave(Zama(X.CallRedeem(op)), mem, Halt(ZamaRedeemed))
    else END
  }

  // The cancel path ------------------------------------------------------------------------------------------

  /** Waits for the mint deadline; the mint must then be refused. */
  function AtExpire(r: State, op: OperationId, mem: Journal): Move
    requires op in r.terms
  {
    if !ExpiredOnChain(mem.mintExpiry, r.escrow.now) then Goto(mem, Expire)
    else if Agreement.Needed(r.escrow, MintArgs(r.terms[op], op, mem)).Ok? then END
    else Goto(mem, Cancel)
  }

  function AtCancel(r: State, op: OperationId, mem: Journal, proof: Bytes32): Move
    requires op in r.terms
  {
    if HasStatus(r, op, E.Cancelled) then
      Goto(mem, CancelReservation)
    else if HasStatus(r, op, E.Locked) then
      Goto(mem, Decide(CancelArgs(r.terms[op], op, CancelDeadline(r.escrow.now), proof))).(newProof := true)
    else
      END
  }

  function AtSubmitCancel(r: State, op: OperationId, mem: Journal, args: E.ApproveArgs): Move {
    if E.CancelConfidential(r.escrow, op, E.DIRECTION_CANCEL, MovementOf(args)).Ok?
    then Act(Solana(E.SubmitMove(op, E.DIRECTION_CANCEL, MovementOf(args), false)), mem, CancelReservation)
    else END
  }

  function AtCancelReservation(r: State, op: OperationId, mem: Journal): Move {
    if Reservation(r, op, X.Reserved) then ActThenSave(Zama(X.CallCancel(op)), mem, CheckVault)
    else if Reservation(r, op, X.Cancelled) then Goto(mem, CheckVault)
    else END
  }

  function AtCheckVault(r: State, mem: Journal): Move {
    if r.escrow.vault == 0 then Goto(mem, Halt(Step.Cancelled)) else END
  }

  // Halting --------------------------------------------------------------------------------------------------

  /** Where a run goes on after a completed step; the last steps end it. */
  function AfterHalt(step: Step): Option<Point> {
    match step
    case Accounts => Some(Deadline)
    case Reserved => Some(Lock)
    case Locked => Some(MintVotes)
    case MintApproved => Some(Mint)
    case CantonMinted => Some(Prepare)
    case TradePrepared => Some(Reassign)
    case Reassigned => Some(Settle)
    case Settled => Some(Burn)
    case Redeemed => Some(Release)
    case ReleaseApproved => Some(SubmitRelease)
    case Released => Some(Redeem)
    case ZamaRedeemed => None
    case Cancelled => None
  }

  function AtHalt(mem: Journal, flags: Flags, step: Step): Move {
    var done := Complete(mem, step);
    Move(None,
         if Reached(mem, step) || flags.omitSave then None else Some(done),
         if flags.stopAfter == Some(step) || AfterHalt(step).None? then None else Some(Onward(done, AfterHalt(step).value, false)),
         false)
  }

  function PointMove(r: State, op: OperationId, mem: Journal, at: Point, flags: Flags, durations: Durations, proof: Bytes32): Move
    requires op in r.terms
  {
    match at
    case Load => AtLoad(r, op, mem)
    case Deadline => AtDeadline(r, mem, durations.mint)
    case Route => AtRoute(mem, flags)
    case Reserve => AtReserve(r, op, mem)
    case RecordCompleted => AtRecordCompleted(r, op, mem)
    case Lock => AtLock(r, op, mem, flags, proof)
    case SubmitLock(sent) => AtSubmitLock(r, op, mem, flags, sent)
    case MintVotes => AtMintVotes(r, op, mem)
    case Decide(args) => AtDecide(r, mem, args)
    case Voting(args, first, second) => AtVoting(r, mem, args, first, second)
    case Submitting(args, index, second) => AtSubmitting(r, mem, args, index, second)
    case VotesCast(args) => AtVotesCast(r, mem, args)
    case Mint => AtMint(op, mem)
    case Finalize => AtFinalize(r, op, mem)
    case Prepare => AtPrepare(op, mem)
    case Reassign => Goto(mem, Halt(Reassigned))
    case Settle => AtSettle(op, mem, flags)
    case Burn => AtBurn(op, mem)
    case Release => AtRelease(r, op, mem)
    case Materials => AtMaterials(r, op, mem, durations.release, proof)
    case SubmitRelease => AtSubmitRelease(r, op, mem)
    case Redeem => AtRedeem(r, op, mem)
    case Expire => AtExpire(r, op, mem)
    case Cancel => AtCancel(r, op, mem, proof)
    case SubmitCancel(args) => AtSubmitCancel(r, op, mem, args)
    case CancelReservation => AtCancelReservation(r, op, mem)
    case CheckVault => AtCheckVault(r, mem)
    case Halt(step) => AtHalt(mem, flags, step)
  }

  /** The step of an attempt, given the chains and a proof that was never used. */
  function MoveOf(r: State, op: OperationId, attempt: Attempt, durations: Durations, proof: Bytes32): Move
    requires op in r.terms
  {
    if attempt.unsaved then
      Save(attempt.mem, attempt.at)
    else
      PointMove(r, op, attempt.mem, attempt.at, attempt.flags, durations, proof)
  }

  function Advance(w: World, op: OperationId, durations: Durations): World
    requires op in w.attempts && op in w.rail.terms
  {
    Apply(w, op, MoveOf(w.rail, op, w.attempts[op], durations, w.proofs + 1))
  }

  // Runs -----------------------------------------------------------------------------------------------------

  datatype Event =
    | Start(op: OperationId, flags: Flags)
    | Crash(op: OperationId)
    | Run(op: OperationId, durations: Durations)
    | Others(action: Action)

  /**
   * What may happen outside the attempts: anything on Solana but a signature of A or B, and on the other chains any
   * act that is allowed when it lands, so also one that a stopped attempt had sent and that lands late.
   */
  predicate OthersMay(r: State, a: Action) {
    match a
    case Solana(Sign(signature)) => !Honest(r, signature.attester)
    case _ => Allowed(r, a)
  }

  /** An event that cannot happen changes nothing. */
  function Next(w: World, e: Event): World {
    match e
    case Start(op, flags) =>
      if op in w.rail.terms && op !in w.attempts
      then w.(attempts := w.attempts[op := Attempt(DiskOf(w, op), Load, flags, false)])
      else w
    case Crash(op) => w.(attempts := w.attempts - {op})
    case Run(op, durations) => if op in w.attempts && op in w.rail.terms then Advance(w, op, durations) else w
    case Others(a) => if OthersMay(w.rail, a) then w.(rail := Take(w.rail, a)) else w
  }

  function RunAll(w: World, events: seq<Event>): World
    decreases |events|
  {
    if events == [] then w else Next(RunAll(w, events[..|events| - 1]), events[|events| - 1])
  }

  function Fresh(terms: map<OperationId, Terms>, escrow: E.State, zama: X.State): World {
    World(State(terms, escrow, zama, map[]), map[], map[], 0)
  }
}

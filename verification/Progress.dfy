/**
 * An operation can be carried through from the start: an attempt that is left alone reserves, locks, has the mint authorized,
 * mints, settles, burns, releases and redeems, whatever of this was done before.
 */
module Progress {
  import opened Outcomes
  import E = Escrow
  import S = EscrowSafety
  import X = Exposure
  import Agreement
  import ReservationResume
  import opened OperationJournal
  import opened Rail
  import RailSafety
  import C = Coordinator
  import Known = CoordinatorSafety
  import Runs = CoordinatorRuns
  import opened ReleaseMaterials
  import opened Resumption
  import opened LeftAlone
  import opened Voting
  import opened Recoverability

  // The reservation ------------------------------------------------------------------------------------------------

  predicate LiveReservation(r: State, op: OperationId) {
    Approved(r, op) && (Reservation(r, op, X.Reserved) || Reservation(r, op, X.Finalized))
  }

  /** The limits leave room for the operation, in plain sums over the reservations. */
  ghost predicate HasRoom(r: State, op: OperationId)
    requires op in r.terms
  {
    op !in r.zama.reservations && r.terms[op].client in r.zama.limits && X.Admits(r.zama, r.terms[op].client, r.terms[op].amount)
  }

  /** The reservation is live, or will be once it is made. */
  predicate Reservable(r: State, op: OperationId)
    requires op in r.terms
  {
    LiveReservation(r, op) || (op !in r.zama.reservations && LiveReservation(Take(r, C.ReserveCall(r, op)), op))
  }

  lemma RoomIsReservable(r: State, op: OperationId)
    requires op in r.terms && X.Inv(r.zama) && op !in r.zama.reservations
    ensures HasRoom(r, op) <==> Reservable(r, op)
  {
    var (client, amount) := (r.terms[op].client, r.terms[op].amount);
    if client in r.zama.limits {
      assert X.Reserve(r.zama, op, client, amount).Ok?;
      X.ReserveDecidesExactly(r.zama, op, client, amount);
    }
  }

  lemma Loads(w: C.World, op: OperationId, flags: C.Flags, mem: Journal, durations: C.Durations) returns (t: C.World)
    requires WorksAt(w, op, flags, mem, C.Load) && !(Approved(w.rail, op) && Reservation(w.rail, op, X.Redeemed))
    ensures ComesTo(w, op, durations, t) && WorksAt(t, op, flags, mem, C.Halt(Accounts)) && t.rail == w.rail
  {
    Known.ResumeMeans(w.rail, op);
    t := MovesOn(w, op, flags, mem, C.Load, durations, C.Save(mem, C.Halt(Accounts)));
  }

  function DeadlineOf(r: State, mem: Journal, durations: C.Durations): int {
    if mem.mintExpiry == 0 then r.escrow.now + durations.mint else mem.mintExpiry
  }

  lemma SetsDeadline(w: C.World, op: OperationId, flags: C.Flags, mem: Journal, durations: C.Durations) returns (t: C.World)
    requires WorksAt(w, op, flags, mem, C.Deadline)
    ensures ComesTo(w, op, durations, t) && t.rail == w.rail
    ensures WorksAt(t, op, flags, mem.(mintExpiry := DeadlineOf(w.rail, mem, durations)), C.Route)
  {
    t := MovesOn(w, op, flags, mem, C.Deadline, durations, C.AtDeadline(w.rail, mem, durations.mint));
  }

  /** From the start to the route, with the deadline for the mint in the journal. */
  lemma Starts(w: C.World, op: OperationId, flags: C.Flags, mem: Journal, durations: C.Durations) returns (t: C.World, next: Journal)
    requires WorksAt(w, op, flags, mem, C.Load) && !(Approved(w.rail, op) && Reservation(w.rail, op, X.Redeemed))
    requires flags.stopAfter != Some(Accounts)
    ensures ComesTo(w, op, durations, t) && t.rail == w.rail && WorksAt(t, op, flags, next, C.Route)
    ensures next == Complete(mem, Accounts).(mintExpiry := DeadlineOf(w.rail, mem, durations))
  {
    var u := Loads(w, op, flags, mem, durations);
    var v := HaltsOnward(u, op, flags, mem, Accounts, durations);
    t := SetsDeadline(v, op, flags, Complete(mem, Accounts), durations);
    next := Complete(mem, Accounts).(mintExpiry := DeadlineOf(w.rail, mem, durations));
    ComesOn(w, op, durations, u, v);
    ComesOn(w, op, durations, v, t);
  }

  lemma GoesToReserve(w: C.World, op: OperationId, flags: C.Flags, mem: Journal, durations: C.Durations) returns (t: C.World)
    requires WorksAt(w, op, flags, mem, C.Route) && !flags.cancelLocked && mem.completed != Some(Cancelled)
    ensures ComesTo(w, op, durations, t) && WorksAt(t, op, flags, mem, C.Reserve) && t.rail == w.rail
  {
    t := MovesOn(w, op, flags, mem, C.Route, durations, C.Goto(mem, C.Reserve));
  }

  lemma ReserveMove(r: State, op: OperationId, mem: Journal)
    requires op in r.terms && Reservable(r, op)
    ensures C.AtReserve(r, op, mem)
      == if LiveReservation(r, op) then C.Goto(mem, C.Halt(Reserved)) else C.ActThenSave(C.ReserveCall(r, op), mem, C.Halt(Reserved))
  {
    Known.ResumeMeans(r, op);
  }

  lemma ReservesOrResumes(w: C.World, op: OperationId, flags: C.Flags, mem: Journal, durations: C.Durations) returns (t: C.World)
    requires WorksAt(w, op, flags, mem, C.Reserve) && Reservable(w.rail, op)
    ensures ComesTo(w, op, durations, t) && WorksAt(t, op, flags, mem, C.Halt(Reserved))
    ensures LiveReservation(t.rail, op) && t.rail == w.rail.(zama := t.rail.zama)
  {
    ReserveMove(w.rail, op, mem);
    t := MovesOn(w, op, flags, mem, C.Reserve, durations, C.AtReserve(w.rail, op, mem));
  }

  /** From the route to the lock, with a live reservation. */
  lemma Reserves(w: C.World, op: OperationId, flags: C.Flags, mem: Journal, durations: C.Durations) returns (t: C.World)
    requires WorksAt(w, op, flags, mem, C.Route) && !flags.cancelLocked && mem.completed != Some(Cancelled)
    requires Reservable(w.rail, op) && flags.stopAfter != Some(Reserved)
    ensures ComesTo(w, op, durations, t) && WorksAt(t, op, flags, Complete(mem, Reserved), C.Lock)
    ensures LiveReservation(t.rail, op) && t.rail == w.rail.(zama := t.rail.zama)
  {
    var u := GoesToReserve(w, op, flags, mem, durations);
    var v := ReservesOrResumes(u, op, flags, mem, durations);
    t := HaltsOnward(v, op, flags, mem, Reserved, durations);
    ComesOn(w, op, durations, u, v);
    ComesOn(w, op, durations, v, t);
  }

  // The lock -------------------------------------------------------------------------------------------------------

  /** The receipt is the one that this journal's mint request is about, and that request can still be voted on. */
  predicate LockedOnTerms(r: State, op: OperationId, mem: Journal)
    requires op in r.terms
  {
    && HasStatus(r, op, E.Locked)
    && ApprovalFits(r.escrow, C.MintArgs(r.terms[op], op, mem))
    && r.escrow.now < mem.mintExpiry
    && var receipt := r.escrow.receipts[op];
       && receipt.commitment == CommitmentOf(r.terms[op]) && receipt.reservation == op && receipt.previous == 0
       && receipt.expiry == mem.mintExpiry
  }

  predicate MintReady(r: State, op: OperationId, mem: Journal)
    requires op in r.terms
  {
    mem.lockProof.Some? && (MintAuthorized(r, op) || LockedOnTerms(r, op, mem))
  }

  /** There is a receipt to go on with, or one can be made: the vault is empty and the deadline is ahead. */
  predicate Lockable(r: State, op: OperationId, mem: Journal)
    requires op in r.terms
  {
    if op in r.escrow.receipts then
      MintReady(r, op, mem)
    else
      && r.escrow.vault == 0 && r.escrow.now < mem.mintExpiry && !Reached(mem, Locked)
      && E.Slot(op, E.DIRECTION_MINT) !in r.escrow.approvals
  }

  predicate SameButLocked(r: State, t: State) {
    t == r.(escrow := t.escrow)
  }

  /** The journal with the lock that is found or made. */
  function LockedJournal(mem: Journal, proof: Bytes32, found: bool): Journal {
    if Reached(mem, Locked) then mem
    else if found then mem.(completed := Some(MaxCompleted(Locked, mem.completed)))
    else mem.(lockProof := Some(proof))
  }

  lemma FindsReceipt(w: C.World, op: OperationId, mem: Journal, durations: C.Durations) returns (t: C.World)
    requires WorksAt(w, op, PLAIN, mem, C.Lock) && op in w.rail.escrow.receipts
    ensures ComesTo(w, op, durations, t) && WorksAt(t, op, PLAIN, LockedJournal(mem, 0, true), C.Halt(Locked)) && t.rail == w.rail
  {
    t := MovesOn(w, op, PLAIN, mem, C.Lock, durations, C.Goto(LockedJournal(mem, 0, true), C.Halt(Locked)));
  }

  lemma MakesProof(w: C.World, op: OperationId, mem: Journal, durations: C.Durations) returns (t: C.World)
    requires WorksAt(w, op, PLAIN, mem, C.Lock) && op !in w.rail.escrow.receipts && w.rail.escrow.vault == 0 && !Reached(mem, Locked)
    ensures ComesTo(w, op, durations, t) && t.rail == w.rail
    ensures WorksAt(t, op, PLAIN, LockedJournal(mem, w.proofs + 1, false), C.SubmitLock(w.proofs + 1))
  {
    t := MovesOn(w, op, PLAIN, mem, C.Lock, durations, C.AtLock(w.rail, op, mem, PLAIN, w.proofs + 1));
  }

  lemma LockingMove(r: State, op: OperationId, mem: Journal, proof: Bytes32)
    requires op in r.terms && op !in r.escrow.receipts && r.escrow.now < mem.mintExpiry && mem.lockProof == Some(proof)
    requires E.Slot(op, E.DIRECTION_MINT) !in r.escrow.approvals
    ensures var a := Solana(E.SubmitLock(C.LockArgs(r.terms[op], op, mem, proof)));
      && C.AtSubmitLock(r, op, mem, PLAIN, proof) == C.ActThenSave(a, mem, C.Halt(Locked))
      && SameButLocked(r, Take(r, a)) && LockedOnTerms(Take(r, a), op, mem)
  {
  }

  lemma SubmitsLock(w: C.World, op: OperationId, mem: Journal, proof: Bytes32, durations: C.Durations) returns (t: C.World)
    requires WorksAt(w, op, PLAIN, mem, C.SubmitLock(proof)) && op !in w.rail.escrow.receipts && w.rail.escrow.now < mem.mintExpiry
    requires mem.lockProof == Some(proof) && E.Slot(op, E.DIRECTION_MINT) !in w.rail.escrow.approvals
    ensures ComesTo(w, op, durations, t) && WorksAt(t, op, PLAIN, mem, C.Halt(Locked))
    ensures SameButLocked(w.rail, t.rail) && LockedOnTerms(t.rail, op, mem)
  {
    LockingMove(w.rail, op, mem, proof);
    var a := Solana(E.SubmitLock(C.LockArgs(w.rail.terms[op], op, mem, proof)));
    t := MovesOn(w, op, PLAIN, mem, C.SubmitLock(proof), durations, C.ActThenSave(a, mem, C.Halt(Locked)));
  }

  lemma FoundStaysReady(r: State, op: OperationId, mem: Journal, next: Journal)
    requires op in r.terms && MintReady(r, op, mem) && next == mem.(completed := next.completed)
    ensures MintReady(r, op, next)
  {
    assert C.MintArgs(r.terms[op], op, next) == C.MintArgs(r.terms[op], op, mem);
  }

  /** The journal may have got further or got a proof; the rest of it is as before. */
  predicate Furthered(mem: Journal, next: Journal) {
    && next == mem.(completed := next.completed, lockProof := next.lockProof)
    && (mem.completed != Some(Cancelled) ==> next.completed != Some(Cancelled))
  }

  /** The receipt is found or made, and is as the mint request needs it. */
  lemma Locks(w: C.World, op: OperationId, mem: Journal, durations: C.Durations) returns (t: C.World, next: Journal)
    requires WorksAt(w, op, PLAIN, mem, C.Lock) && Lockable(w.rail, op, mem)
    ensures ComesTo(w, op, durations, t) && WorksAt(t, op, PLAIN, next, C.Halt(Locked)) && SameButLocked(w.rail, t.rail)
    ensures MintReady(t.rail, op, next) && Furthered(mem, next)
  {
    if op in w.rail.escrow.receipts {
      next := LockedJournal(mem, 0, true);
      t := FindsReceipt(w, op, mem, durations);
      FoundStaysReady(w.rail, op, mem, next);
    } else {
      next := LockedJournal(mem, w.proofs + 1, false);
      var u := MakesProof(w, op, mem, durations);
      t := SubmitsLock(u, op, next, w.proofs + 1, durations);
      ComesOn(w, op, durations, u, t);
    }
  }
  // The mint is authorized -----------------------------------------------------------------------------------------

  lemma AuthorizedAlready(w: C.World, op: OperationId, mem: Journal, durations: C.Durations) returns (t: C.World)
    requires WorksAt(w, op, PLAIN, mem, C.MintVotes) && mem.lockProof.Some? && MintAuthorized(w.rail, op)
    ensures ComesTo(w, op, durations, t) && WorksAt(t, op, PLAIN, mem, C.Halt(MintApproved)) && t.rail == w.rail
  {
    t := MovesOn(w, op, PLAIN, mem, C.MintVotes, durations, C.Goto(mem, C.Halt(MintApproved)));
  }

  lemma AsksForVotes(w: C.World, op: OperationId, mem: Journal, durations: C.Durations) returns (t: C.World)
    requires WorksAt(w, op, PLAIN, mem, C.MintVotes) && mem.lockProof.Some? && !MintAuthorized(w.rail, op)
    ensures ComesTo(w, op, durations, t) && WorksAt(t, op, PLAIN, mem, C.Decide(C.MintArgs(w.rail.terms[op], op, mem))) && t.rail == w.rail
  {
    t := MovesOn(w, op, PLAIN, mem, C.MintVotes, durations, C.Goto(mem, C.Decide(C.MintArgs(w.rail.terms[op], op, mem))));
  }

  lemma MintCounts(w: C.World, op: OperationId, mem: Journal, args: E.ApproveArgs, durations: C.Durations) returns (t: C.World)
    requires WorksAt(w, op, PLAIN, mem, C.VotesCast(args)) && args.direction == E.DIRECTION_MINT && C.TwoOfThree(w.rail.escrow, args)
    ensures ComesTo(w, op, durations, t) && WorksAt(t, op, PLAIN, mem, C.Halt(MintApproved)) && t.rail == w.rail
  {
    t := MovesOn(w, op, PLAIN, mem, C.VotesCast(args), durations, C.Save(mem, C.Halt(MintApproved)));
  }

  lemma MintIsVotable(r: State, op: OperationId, mem: Journal)
    requires op in r.terms && LockedOnTerms(r, op, mem)
    ensures Votable(r, C.MintArgs(r.terms[op], op, mem))
  {
  }

  /** A locked operation on its terms gets the two votes for its mint. */
  lemma CollectsMintVotes(w: C.World, op: OperationId, mem: Journal, durations: C.Durations) returns (t: C.World)
    requires Known.Faithful(w) && WorksAt(w, op, PLAIN, mem, C.MintVotes) && mem.lockProof.Some? && LockedOnTerms(w.rail, op, mem)
    ensures ComesTo(w, op, durations, t) && WorksAt(t, op, PLAIN, mem, C.Halt(MintApproved)) && t.rail == w.rail.(escrow := t.rail.escrow)
  {
    var args := C.MintArgs(w.rail.terms[op], op, mem);
    MintIsVotable(w.rail, op, mem);
    var u := AsksForVotes(w, op, mem, durations);
    StaysFaithful(w, op, durations, u);
    var v := DecidesAndCollects(u, op, PLAIN, mem, args, durations);
    ComesOn(w, op, durations, u, v);
    StaysFaithful(w, op, durations, v);
    TwoAreThere(v.rail.escrow, args);
    t := MintCounts(v, op, mem, args, durations);
    ComesOn(w, op, durations, v, t);
  }

  lemma AuthorizesMint(w: C.World, op: OperationId, mem: Journal, durations: C.Durations) returns (t: C.World)
    requires Known.Faithful(w) && WorksAt(w, op, PLAIN, mem, C.MintVotes) && MintReady(w.rail, op, mem)
    ensures ComesTo(w, op, durations, t) && WorksAt(t, op, PLAIN, mem, C.Halt(MintApproved)) && t.rail == w.rail.(escrow := t.rail.escrow)
  {
    if MintAuthorized(w.rail, op) {
      t := AuthorizedAlready(w, op, mem, durations);
    } else {
      t := CollectsMintVotes(w, op, mem, durations);
    }
  }

  // From the authorized mint to the burn -------------------------------------------------------------------------------

  /** The points between the authorized mint and the release, and how far they are from it. */
  function ToGo(at: C.Point): nat {
    match at
    case Halt(MintApproved) => 12
    case Mint => 11
    case Finalize => 10
    case Halt(CantonMinted) => 9
    case Prepare => 8
    case Halt(TradePrepared) => 7
    case Reassign => 6
    case Halt(Reassigned) => 5
    case Settle => 4
    case Halt(Settled) => 3
    case Burn => 2
    case Halt(Redeemed) => 1
    case _ => 0
  }

  /** The move goes on, nearer to the release, keeps the reservation live and only furthers the journal. */
  predicate GetsNearer(r: State, op: OperationId, mem: Journal, at: C.Point, m: C.Move) {
    && m.next.Some? && ToGo(m.next.value.at) < ToGo(at)
    && (ToGo(m.next.value.at) == 0 ==> m.next.value.at == C.Release && Reached(m.next.value.mem, Redeemed))
    && LiveReservation(C.RailAfter(r, m), op)
    && Furthered(mem, m.next.value.mem) && m.next.value.mem.lockProof == mem.lockProof
  }

  lemma HaltGetsNearer(r: State, op: OperationId, mem: Journal, step: Step)
    requires LiveReservation(r, op) && ToGo(C.Halt(step)) > 0
    ensures GetsNearer(r, op, mem, C.Halt(step), C.AtHalt(mem, PLAIN, step))
  {
  }

  lemma MintGetsNearer(r: State, op: OperationId, mem: Journal)
    requires LiveReservation(r, op)
    ensures GetsNearer(r, op, mem, C.Mint, C.AtMint(op, mem))
  {
  }

  lemma FinalizeGetsNearer(r: State, op: OperationId, mem: Journal)
    requires LiveReservation(r, op)
    ensures GetsNearer(r, op, mem, C.Finalize, C.AtFinalize(r, op, mem))
  {
  }

  lemma PrepareGetsNearer(r: State, op: OperationId, mem: Journal)
    requires LiveReservation(r, op)
    ensures GetsNearer(r, op, mem, C.Prepare, C.AtPrepare(op, mem))
  {
  }

  lemma ReassignGetsNearer(r: State, op: OperationId, mem: Journal)
    requires LiveReservation(r, op)
    ensures GetsNearer(r, op, mem, C.Reassign, C.Goto(mem, C.Halt(Reassigned)))
  {
  }

  lemma SettleGetsNearer(r: State, op: OperationId, mem: Journal)
    requires LiveReservation(r, op)
    ensures GetsNearer(r, op, mem, C.Settle, C.AtSettle(op, mem, PLAIN))
  {
  }

  lemma BurnGetsNearer(r: State, op: OperationId, mem: Journal)
    requires LiveReservation(r, op)
    ensures GetsNearer(r, op, mem, C.Burn, C.AtBurn(op, mem))
  {
  }

  lemma EveryMoveGetsNearer(r: State, op: OperationId, mem: Journal, at: C.Point, durations: C.Durations, proof: Bytes32)
    requires op in r.terms && LiveReservation(r, op) && ToGo(at) > 0
    ensures GetsNearer(r, op, mem, at, C.PointMove(r, op, mem, at, PLAIN, durations, proof))
  {
    match at
    case Halt(step) => HaltGetsNearer(r, op, mem, step);
    case Mint => MintGetsNearer(r, op, mem);
    case Finalize => FinalizeGetsNearer(r, op, mem);
    case Prepare => PrepareGetsNearer(r, op, mem);
    case Reassign => ReassignGetsNearer(r, op, mem);
    case Settle => SettleGetsNearer(r, op, mem);
    case _ => BurnGetsNearer(r, op, mem);
  }

  lemma FurtheredOn(a: Journal, b: Journal, c: Journal)
    requires Furthered(a, b) && Furthered(b, c)
    ensures Furthered(a, c)
  {
  }

  /** From the authorized mint the attempt gets to the release, past mint, trade, settlement and burn. */
  lemma GetsToTheRelease(w: C.World, op: OperationId, mem: Journal, at: C.Point, durations: C.Durations) returns (t: C.World, next: Journal)
    requires WorksAt(w, op, PLAIN, mem, at) && LiveReservation(w.rail, op) && ToGo(at) > 0
    ensures ComesTo(w, op, durations, t) && WorksAt(t, op, PLAIN, next, C.Release) && LiveReservation(t.rail, op)
    ensures Furthered(mem, next) && next.lockProof == mem.lockProof && Reached(next, Redeemed)
    decreases ToGo(at)
  {
    var m := C.PointMove(w.rail, op, mem, at, PLAIN, durations, w.proofs + 1);
    EveryMoveGetsNearer(w.rail, op, mem, at, durations, w.proofs + 1);
    var u := MovesOn(w, op, PLAIN, mem, at, durations, m);
    if ToGo(m.next.value.at) == 0 {
      t, next := u, m.next.value.mem;
    } else {
      t, next := GetsToTheRelease(u, op, m.next.value.mem, m.next.value.at, durations);
      FurtheredOn(mem, m.next.value.mem, next);
      ComesOn(w, op, durations, u, t);
    }
  }
  // The whole way ------------------------------------------------------------------------------------------------------

  /**
   * At rest nothing is in the way: the journal is not cancelled; a reservation is live or there is room for it; and there is
   * no receipt, the vault is empty and the deadline ahead, or the receipt is authorized, or it is locked as this journal
   * asked and can still be authorized.
   */
  ghost predicate CanProceed(w: C.World, op: OperationId)
    requires op in w.rail.terms
  {
    var (r, j) := (w.rail, C.DiskOf(w, op));
    && j.completed != Some(Cancelled)
    && (LiveReservation(r, op) || HasRoom(r, op))
    && (if op in r.escrow.receipts then MintReady(r, op, j)
        else r.escrow.vault == 0 && (j.mintExpiry == 0 || r.escrow.now < j.mintExpiry))
  }

  lemma NotLockedYet(r: State, op: OperationId, j: Journal)
    requires Known.JournalTrue(r, op, j) && op !in r.escrow.receipts
    ensures !Reached(j, Locked) && j.completed != Some(Cancelled)
  {
    if Reached(j, Locked) && j.completed != Some(Cancelled) {
      Known.UpToLess(r, op, Rank(j.completed.value), Rank(Locked));
    }
  }

  /** The journal as it is when the attempt comes to the lock. */
  function ReservedJournal(r: State, mem: Journal, durations: C.Durations): Journal {
    Complete(Complete(mem, Accounts).(mintExpiry := DeadlineOf(r, mem, durations)), Reserved)
  }

  lemma StillLockable(w: C.World, op: OperationId, durations: C.Durations)
    requires Known.Faithful(w) && w.rail.escrow.now > 0 && op in w.rail.terms && CanProceed(w, op) && durations.mint > 0
    ensures Lockable(w.rail, op, ReservedJournal(w.rail, C.DiskOf(w, op), durations))
  {
    var (r, j) := (w.rail, C.DiskOf(w, op));
    var next := ReservedJournal(r, j, durations);
    if op in r.escrow.receipts {
      if !MintAuthorized(r, op) {
        assert next == j.(completed := next.completed);
        FoundStaysReady(r, op, j, next);
      }
    } else {
      NothingIsRecorded(w, op);
      NotLockedYet(r, op, j);
      assert S.ApprovalsGood(r.escrow);
    }
  }

  lemma NothingIsRecorded(w: C.World, op: OperationId)
    requires Known.Faithful(w)
    ensures Known.JournalTrue(w.rail, op, C.DiskOf(w, op))
  {
  }

  lemma CanReserve(w: C.World, op: OperationId)
    requires Rail.Inv(w.rail) && op in w.rail.terms && CanProceed(w, op)
    ensures Reservable(w.rail, op) && !(Approved(w.rail, op) && Reservation(w.rail, op, X.Redeemed))
  {
    if !LiveReservation(w.rail, op) {
      RoomIsReservable(w.rail, op);
    }
  }

  /** From the start to the receipt. */
  lemma StartsAndLocks(v: C.World, op: OperationId, mem: Journal, durations: C.Durations) returns (t: C.World, next: Journal)
    requires WorksAt(v, op, PLAIN, mem, C.Load) && mem.completed != Some(Cancelled) && v.rail.escrow.now > 0 && durations.mint > 0
    requires Reservable(v.rail, op) && !(Approved(v.rail, op) && Reservation(v.rail, op, X.Redeemed))
    requires Lockable(v.rail, op, ReservedJournal(v.rail, mem, durations))
    ensures ComesTo(v, op, durations, t) && WorksAt(t, op, PLAIN, next, C.Halt(Locked))
    ensures LiveReservation(t.rail, op) && MintReady(t.rail, op, next) && t.rail.canton == v.rail.canton
    ensures Furthered(ReservedJournal(v.rail, mem, durations), next)
  {
    var u, started := Starts(v, op, PLAIN, mem, durations);
    var x := Reserves(u, op, PLAIN, started, durations);
    assert ReservedJournal(v.rail, mem, durations) == Complete(started, Reserved);
    EscrowDecidesLockable(v.rail, x.rail, op, Complete(started, Reserved));
    t, next := Locks(x, op, Complete(started, Reserved), durations);
    ComesOn(v, op, durations, u, x);
    ComesOn(v, op, durations, x, t);
  }

  lemma EscrowDecidesLockable(r: State, t: State, op: OperationId, mem: Journal)
    requires op in r.terms && Lockable(r, op, mem) && t == r.(zama := t.zama)
    ensures Lockable(t, op, mem)
  {
  }
  lemma AuthorizesOnceAtVotes(w: C.World, u: C.World, op: OperationId, mem: Journal, durations: C.Durations) returns (t: C.World)
    requires Known.Faithful(w) && ComesTo(w, op, durations, u) && WorksAt(u, op, PLAIN, mem, C.MintVotes) && MintReady(u.rail, op, mem)
    ensures ComesTo(w, op, durations, t) && WorksAt(t, op, PLAIN, mem, C.Halt(MintApproved)) && t.rail == u.rail.(escrow := t.rail.escrow)
  {
    StaysFaithful(w, op, durations, u);
    t := AuthorizesMint(u, op, mem, durations);
    ComesOn(w, op, durations, u, t);
  }

  lemma LockedGoesToVotes(w: C.World, op: OperationId, mem: Journal, durations: C.Durations) returns (t: C.World)
    requires WorksAt(w, op, PLAIN, mem, C.Halt(Locked)) && MintReady(w.rail, op, mem)
    ensures ComesTo(w, op, durations, t) && WorksAt(t, op, PLAIN, Complete(mem, Locked), C.MintVotes) && t.rail == w.rail
    ensures MintReady(t.rail, op, Complete(mem, Locked))
  {
    FoundStaysReady(w.rail, op, mem, Complete(mem, Locked));
    t := HaltsOnward(w, op, PLAIN, mem, Locked, durations);
  }

  /** The mint of a locked or authorized operation gets authorized, and the attempt goes on. */
  lemma LockedGetsAuthorized(w: C.World, op: OperationId, mem: Journal, durations: C.Durations) returns (t: C.World)
    requires Known.Faithful(w) && WorksAt(w, op, PLAIN, mem, C.Halt(Locked)) && MintReady(w.rail, op, mem)
    ensures ComesTo(w, op, durations, t) && WorksAt(t, op, PLAIN, Complete(mem, Locked), C.Halt(MintApproved))
    ensures t.rail == w.rail.(escrow := t.rail.escrow)
  {
    var u := LockedGoesToVotes(w, op, mem, durations);
    t := AuthorizesOnceAtVotes(w, u, op, Complete(mem, Locked), durations);
  }

  lemma ReservedJournalIsSet(r: State, mem: Journal, durations: C.Durations)
    requires mem.completed != Some(Cancelled) && r.escrow.now > 0
    ensures ReservedJournal(r, mem, durations).mintExpiry != 0 && ReservedJournal(r, mem, durations).completed != Some(Cancelled)
  {
  }

  /** From the start to the authorized mint. */
  lemma StartsAndAuthorizes(v: C.World, op: OperationId, mem: Journal, durations: C.Durations) returns (t: C.World, next: Journal)
    requires Known.Faithful(v)
    requires WorksAt(v, op, PLAIN, mem, C.Load) && mem.completed != Some(Cancelled) && v.rail.escrow.now > 0 && durations.mint > 0
    requires Reservable(v.rail, op) && !(Approved(v.rail, op) && Reservation(v.rail, op, X.Redeemed))
    requires Lockable(v.rail, op, ReservedJournal(v.rail, mem, durations))
    ensures ComesTo(v, op, durations, t) && WorksAt(t, op, PLAIN, next, C.Halt(MintApproved)) && LiveReservation(t.rail, op)
    ensures t.rail.canton == v.rail.canton
    ensures next.mintExpiry != 0 && next.lockProof.Some? && next.completed != Some(Cancelled)
  {
    var u, locked := StartsAndLocks(v, op, mem, durations);
    ReservedJournalIsSet(v.rail, mem, durations);
    StaysFaithful(v, op, durations, u);
    t := LockedGetsAuthorized(u, op, locked, durations);
    next := Complete(locked, Locked);
    ComesOn(v, op, durations, u, t);
  }

  lemma BurnedIsFinalized(r: State, op: OperationId)
    requires Known.UpTo(r, op, Rank(Redeemed)) && LiveReservation(r, op)
    ensures Reservation(r, op, X.Finalized) && StagesOf(r, op).burned
  {
    Known.UpToLess(r, op, Rank(Redeemed), Rank(CantonMinted));
  }

  lemma ReleaseIsAwaited(r: State, op: OperationId)
    requires StagesGood(r) && StagesOf(r, op).burned && Reservation(r, op, X.Finalized) && LiveReservation(r, op)
    ensures AwaitsRelease(r, op)
  {
    Known.BurnedMeansStaged(r, op);
  }

  lemma AwaitedAtRelease(t: C.World, op: OperationId, mem: Journal)
    requires Known.Faithful(t) && WorksAt(t, op, PLAIN, mem, C.Release) && LiveReservation(t.rail, op)
    ensures AwaitsRelease(t.rail, op)
  {
    assert Known.OnwardTrue(t.rail, op, mem, C.Release);
    BurnedIsFinalized(t.rail, op);
    ReleaseIsAwaited(t.rail, op);
  }

  lemma BurnGetsRecorded(mem: Journal, next: Journal)
    requires Furthered(mem, next) && next.lockProof == mem.lockProof && Reached(next, Redeemed)
    requires mem.mintExpiry != 0 && mem.lockProof.Some? && mem.completed != Some(Cancelled)
    ensures BurnIsRecorded(next)
  {
  }

  lemma GetsBurned(w: C.World, op: OperationId, mem: Journal, durations: C.Durations) returns (t: C.World, next: Journal)
    requires WorksAt(w, op, PLAIN, mem, C.Halt(MintApproved)) && LiveReservation(w.rail, op)
    requires mem.mintExpiry != 0 && mem.lockProof.Some? && mem.completed != Some(Cancelled)
    ensures ComesTo(w, op, durations, t) && WorksAt(t, op, PLAIN, next, C.Release) && LiveReservation(t.rail, op) && BurnIsRecorded(next)
  {
    t, next := GetsToTheRelease(w, op, mem, C.Halt(MintApproved), durations);
    BurnGetsRecorded(mem, next);
  }

  lemma EndsAtRelease(w: C.World, op: OperationId, mem: Journal, durations: C.Durations)
    requires Known.Faithful(w) && WrittenAhead(w) && WorksAt(w, op, PLAIN, mem, C.Release) && durations.release > 0
    requires LiveReservation(w.rail, op) && BurnIsRecorded(mem)
    ensures Ends(w, op, durations)
  {
    AwaitedAtRelease(w, op, mem);
    EndsFromRelease(w, op, mem, durations);
  }

  lemma EndsOnceAtRelease(w: C.World, t: C.World, op: OperationId, mem: Journal, durations: C.Durations)
    requires Known.Faithful(w) && WrittenAhead(w) && ComesTo(w, op, durations, t) && WorksAt(t, op, PLAIN, mem, C.Release) && durations.release > 0
    requires LiveReservation(t.rail, op) && BurnIsRecorded(mem)
    ensures Ends(w, op, durations)
  {
    StaysFaithful(w, op, durations, t);
    EndsAtRelease(t, op, mem, durations);
    EndsLater(w, op, durations, t);
  }

  lemma EndsFromAuthorized(w: C.World, op: OperationId, mem: Journal, durations: C.Durations)
    requires Known.Faithful(w) && WrittenAhead(w) && WorksAt(w, op, PLAIN, mem, C.Halt(MintApproved)) && durations.release > 0
    requires LiveReservation(w.rail, op) && mem.mintExpiry != 0 && mem.lockProof.Some? && mem.completed != Some(Cancelled)
    ensures Ends(w, op, durations)
  {
    var t, next := GetsBurned(w, op, mem, durations);
    EndsOnceAtRelease(w, t, op, next, durations);
  }

  lemma StartStaysFaithful(w: C.World, op: OperationId)
    requires Known.Faithful(w) && WrittenAhead(w) && op in w.rail.terms && op !in w.attempts
    ensures Known.Faithful(C.Next(w, C.Start(op, PLAIN))) && WrittenAhead(C.Next(w, C.Start(op, PLAIN)))
  {
    Runs.NextKeepsInv(w, C.Start(op, PLAIN));
    NextStaysAheadExactly(w, C.Start(op, PLAIN));
  }

  lemma StartCanProceed(w: C.World, op: OperationId, durations: C.Durations)
    requires Known.Faithful(w) && WrittenAhead(w) && op in w.rail.terms && op !in w.attempts && CanProceed(w, op) && durations.mint > 0
    ensures var v := C.Next(w, C.Start(op, PLAIN));
      && WorksAt(v, op, PLAIN, C.DiskOf(w, op), C.Load) && v.rail == w.rail && v.rail.escrow.now > 0
      && Reservable(v.rail, op) && !(Approved(v.rail, op) && Reservation(v.rail, op, X.Redeemed))
      && Lockable(v.rail, op, ReservedJournal(v.rail, C.DiskOf(w, op), durations))
  {
    JustStarted(w, op, PLAIN);
    CanReserve(w, op);
    StillLockable(w, op, durations);
  }

  lemma AuthorizedAtHalt(t: C.World, op: OperationId, mem: Journal)
    requires Known.Faithful(t) && WorksAt(t, op, PLAIN, mem, C.Halt(MintApproved))
    ensures MintAuthorized(t.rail, op)
  {
    assert Known.OnwardTrue(t.rail, op, mem, C.Halt(MintApproved));
    assert Known.Shows(t.rail, op, Rank(MintApproved));
  }

  lemma GetsAuthorized(w: C.World, op: OperationId, durations: C.Durations) returns (t: C.World)
    requires Known.Faithful(w) && WrittenAhead(w) && op in w.rail.terms && op !in w.attempts && durations.mint > 0
    requires CanProceed(w, op)
    ensures ComesTo(C.Next(w, C.Start(op, PLAIN)), op, durations, t)
    ensures MintAuthorized(t.rail, op) && LiveReservation(t.rail, op) && t.rail.canton == w.rail.canton
  {
    StartStaysFaithful(w, op);
    StartCanProceed(w, op, durations);
    var mem;
    t, mem := StartsAndAuthorizes(C.Next(w, C.Start(op, PLAIN)), op, C.DiskOf(w, op), durations);
    StaysFaithful(C.Next(w, C.Start(op, PLAIN)), op, durations, t);
    AuthorizedAtHalt(t, op, mem);
  }

  /** A new attempt that is left alone gets two attesters to authorize the mint, over a receipt it finds or makes. */
  lemma EveryOperationGetsAuthorized(w: C.World, op: OperationId, durations: C.Durations) returns (n: nat)
    requires Known.Faithful(w) && WrittenAhead(w) && op in w.rail.terms && op !in w.attempts && durations.mint > 0
    requires CanProceed(w, op)
    ensures var r := C.RunAll(w, [C.Start(op, PLAIN)] + Steps(op, durations, n)).rail;
      MintAuthorized(r, op) && LiveReservation(r, op) && r.canton == w.rail.canton
  {
    var t := GetsAuthorized(w, op, durations);
    n := StartsAndComesTo(w, op, PLAIN, durations, t);
  }

  lemma CarriedThrough(w: C.World, op: OperationId, durations: C.Durations)
    requires Known.Faithful(w) && WrittenAhead(w) && op in w.rail.terms && op !in w.attempts && C.Positive(durations)
    requires CanProceed(w, op)
    ensures Ends(C.Next(w, C.Start(op, PLAIN)), op, durations)
  {
    StartStaysFaithful(w, op);
    StartCanProceed(w, op, durations);
    var v := C.Next(w, C.Start(op, PLAIN));
    var t, mem := StartsAndAuthorizes(v, op, C.DiskOf(w, op), durations);
    StaysFaithful(v, op, durations, t);
    EndsFromAuthorized(t, op, mem, durations);
    EndsLater(v, op, durations, t);
  }

  lemma DoneMeansStaged(r: State, op: OperationId)
    requires Rail.Inv(r) && HasStatus(r, op, E.Released)
    ensures StagesOf(r, op) == Stages(true, true, true, true)
  {
    RailSafety.ReleasedMeansBurned(r, op);
    Known.BurnedMeansStaged(r, op);
  }

  /**
   * From every faithful, written-ahead world at rest in which nothing is in the way, a new attempt that is left alone ends with
   * the operation minted, settled, burned, released and redeemed.
   */
  lemma EveryOperationCanBeCarriedThrough(w: C.World, op: OperationId, durations: C.Durations) returns (n: nat)
    requires Known.Faithful(w) && WrittenAhead(w) && op in w.rail.terms && op !in w.attempts && C.Positive(durations)
    requires CanProceed(w, op)
    ensures var t := C.RunAll(w, [C.Start(op, PLAIN)] + Steps(op, durations, n));
      Done(t, op) && StagesOf(t.rail, op) == Stages(true, true, true, true)
  {
    var v := C.Next(w, C.Start(op, PLAIN));
    CarriedThrough(w, op, durations);
    var t :| ComesTo(v, op, durations, t) && Done(t, op);
    StartStaysFaithful(w, op);
    StaysFaithful(v, op, durations, t);
    DoneMeansStaged(t.rail, op);
    n := StartsAndComesTo(w, op, PLAIN, durations, t);
  }
  // A completed operation ----------------------------------------------------------------------------------------------

  lemma RecordsCompleted(v: C.World, op: OperationId, mem: Journal, durations: C.Durations) returns (t: C.World)
    requires WorksAt(v, op, PLAIN, mem, C.Load) && Approved(v.rail, op) && Reservation(v.rail, op, X.Redeemed)
    requires HasStatus(v.rail, op, E.Released)
    ensures ComesTo(v, op, durations, t) && WorksAt(t, op, PLAIN, mem, C.Halt(ZamaRedeemed)) && t.rail == v.rail
    ensures C.DiskOf(t, op) == C.DiskOf(v, op)
  {
    Known.ResumeMeans(v.rail, op);
    var u := MovesOn(v, op, PLAIN, mem, C.Load, durations, C.Goto(mem, C.RecordCompleted));
    t := MovesOn(u, op, PLAIN, mem, C.RecordCompleted, durations, C.Goto(mem, C.Halt(ZamaRedeemed)));
    ComesOn(v, op, durations, u, t);
  }

  lemma FinishesCompleted(v: C.World, op: OperationId, mem: Journal, durations: C.Durations) returns (t: C.World)
    requires WorksAt(v, op, PLAIN, mem, C.Halt(ZamaRedeemed)) && C.DiskOf(v, op) == mem
    ensures ComesTo(v, op, durations, t) && op !in t.attempts && t.rail == v.rail && C.DiskOf(t, op) == Complete(mem, ZamaRedeemed)
  {
    t := MovesOut(v, op, PLAIN, mem, C.Halt(ZamaRedeemed), durations, C.AtHalt(mem, PLAIN, ZamaRedeemed));
  }

  /** An attempt on a redeemed operation changes nothing on the chains and completes the journal. */
  lemma CompletedOperationIsRecorded(w: C.World, op: OperationId, durations: C.Durations) returns (n: nat)
    requires Known.Faithful(w) && op in w.rail.terms && op !in w.attempts && Approved(w.rail, op) && Reservation(w.rail, op, X.Redeemed)
    ensures var t := C.RunAll(w, [C.Start(op, PLAIN)] + Steps(op, durations, n));
      op !in t.attempts && t.rail == w.rail && C.DiskOf(t, op) == Complete(C.DiskOf(w, op), ZamaRedeemed)
  {
    assert ReservationGood(w.rail, op);
    JustStarted(w, op, PLAIN);
    var v := C.Next(w, C.Start(op, PLAIN));
    var u := RecordsCompleted(v, op, C.DiskOf(w, op), durations);
    var t := FinishesCompleted(u, op, C.DiskOf(w, op), durations);
    ComesOn(v, op, durations, u, t);
    n := StartsAndComesTo(w, op, PLAIN, durations, t);
  }

  /** An attempt that is to stop after a step completes and saves it, and leaves the chains alone. */
  lemma StopsWhereAsked(w: C.World, op: OperationId, flags: C.Flags, mem: Journal, step: Step, durations: C.Durations) returns (t: C.World)
    requires WorksAt(w, op, flags, mem, C.Halt(step)) && flags.stopAfter == Some(step)
    ensures ComesTo(w, op, durations, t) && op !in t.attempts && t.rail == w.rail
    ensures flags.omitSave ==> C.DiskOf(t, op) == C.DiskOf(w, op)
    ensures !flags.omitSave && !Reached(mem, step) ==> Reached(C.DiskOf(t, op), step)
  {
    t := MovesOut(w, op, flags, mem, C.Halt(step), durations, C.AtHalt(mem, flags, step));
  }
}

/** When an attempt locks, and that no attempt ever locks into a vault that holds something. */
module LockDecision {
  import opened Outcomes
  import E = Escrow
  import S = EscrowSafety
  import X = Exposure
  import opened OperationJournal
  import opened Rail
  import C = Coordinator
  import Known = CoordinatorSafety
  import Runs = CoordinatorRuns
  import opened ReleaseMaterials
  import opened Resumption
  import opened LeftAlone
  import opened Progress

  // Before the lock ----------------------------------------------------------------------------------------------------

  predicate BeforeReserve(at: C.Point) {
    at.Load? || at == C.Halt(Accounts) || at.Deadline? || at.Route? || at.Reserve? || at.RecordCompleted? || at.Cancel?
  }

  /** The points an attempt is at before it has decided to lock. */
  predicate BeforeLock(at: C.Point) {
    BeforeReserve(at) || at == C.Halt(Reserved) || at.Lock?
  }

  predicate NotLocked(j: Journal) {
    !Reached(j, Locked) && j.completed != Some(Cancelled)
  }

  /** Without a receipt, why the attempt will not lock: the vault is not empty, the deadline is over, or nothing can be reserved. */
  predicate Blocked(r: State, op: OperationId, mem: Journal, at: C.Point)
    requires op in r.terms
  {
    && NotLocked(mem)
    && (|| (r.escrow.vault != 0 && BeforeLock(at))
        || (mem.mintExpiry != 0 && mem.mintExpiry <= r.escrow.now && (BeforeLock(at) || at.SubmitLock?))
        || (!Reservable(r, op) && BeforeReserve(at)))
  }

  /** The move leaves the escrow alone, and after it the attempt is over or still blocked. */
  predicate StaysBlocked(r: State, op: OperationId, m: C.Move)
    requires op in r.terms
  {
    && (m.action.Some? ==> m.action.value.Zama?)
    && (m.saved.Some? ==> NotLocked(m.saved.value))
    && (m.next.Some? ==> op in C.RailAfter(r, m).terms && Blocked(C.RailAfter(r, m), op, m.next.value.mem, m.next.value.at))
  }

  lemma CompletingEarly(mem: Journal, step: Step)
    requires NotLocked(mem) && (step == Accounts || step == Reserved)
    ensures NotLocked(Complete(mem, step)) && Complete(mem, step).mintExpiry == mem.mintExpiry
  {
  }

  lemma BlockedHalt(r: State, op: OperationId, mem: Journal, flags: C.Flags, step: Step)
    requires op in r.terms && Blocked(r, op, mem, C.Halt(step)) && op !in r.escrow.receipts
    ensures StaysBlocked(r, op, C.AtHalt(mem, flags, step))
  {
    CompletingEarly(mem, step);
  }

  lemma BlockedStart(r: State, op: OperationId, mem: Journal, flags: C.Flags, at: C.Point, durations: C.Durations)
    requires op in r.terms && Blocked(r, op, mem, at) && op !in r.escrow.receipts
    ensures at.Load? ==> StaysBlocked(r, op, C.AtLoad(r, op, mem))
    ensures at.Deadline? ==> StaysBlocked(r, op, C.AtDeadline(r, mem, durations.mint))
    ensures at.Route? ==> StaysBlocked(r, op, C.AtRoute(mem, flags))
    ensures at.RecordCompleted? ==> StaysBlocked(r, op, C.AtRecordCompleted(r, op, mem))
  {
  }

  lemma ReservingLeavesTheEscrow(r: State, op: OperationId)
    requires op in r.terms
    ensures var t := Take(r, C.ReserveCall(r, op)); t == r.(zama := t.zama)
  {
  }

  lemma BlockedReserve(r: State, op: OperationId, mem: Journal)
    requires op in r.terms && Blocked(r, op, mem, C.Reserve) && op !in r.escrow.receipts
    ensures StaysBlocked(r, op, C.AtReserve(r, op, mem))
  {
    Known.ResumeMeans(r, op);
    ReservingLeavesTheEscrow(r, op);
    if op !in r.zama.reservations {
      NewReservationIsOpen(r, op);
    }
  }

  lemma NewReservationIsOpen(r: State, op: OperationId)
    requires op in r.terms && op !in r.zama.reservations
    ensures Approved(Take(r, C.ReserveCall(r, op)), op) ==> LiveReservation(Take(r, C.ReserveCall(r, op)), op)
  {
  }

  lemma BlockedLock(r: State, op: OperationId, mem: Journal, flags: C.Flags, at: C.Point, proof: Bytes32)
    requires op in r.terms && Blocked(r, op, mem, at) && op !in r.escrow.receipts
    ensures at.Lock? ==> StaysBlocked(r, op, C.AtLock(r, op, mem, flags, proof))
    ensures at.SubmitLock? ==> StaysBlocked(r, op, C.AtSubmitLock(r, op, mem, flags, at.proof))
    ensures at.Cancel? ==> StaysBlocked(r, op, C.AtCancel(r, op, mem, proof))
  {
  }

  lemma BlockedMove(r: State, op: OperationId, a: C.Attempt, durations: C.Durations, proof: Bytes32)
    requires op in r.terms && Blocked(r, op, a.mem, a.at) && op !in r.escrow.receipts
    ensures StaysBlocked(r, op, C.MoveOf(r, op, a, durations, proof))
  {
    if !a.unsaved {
      match a.at
      case Halt(step) => BlockedHalt(r, op, a.mem, a.flags, step);
      case Reserve => BlockedReserve(r, op, a.mem);
      case Lock => BlockedLock(r, op, a.mem, a.flags, a.at, proof);
      case SubmitLock(_) => BlockedLock(r, op, a.mem, a.flags, a.at, proof);
      case Cancel => BlockedLock(r, op, a.mem, a.flags, a.at, proof);
      case _ => BlockedStart(r, op, a.mem, a.flags, a.at, durations);
    }
  }

  // Worlds -------------------------------------------------------------------------------------------------------------

  /** There is no receipt, the journal does not speak of one, and an attempt, if there is one, is blocked. */
  predicate WillNotLock(w: C.World, op: OperationId) {
    && op in w.rail.terms && op !in w.rail.escrow.receipts && NotLocked(C.DiskOf(w, op))
    && (op in w.attempts ==> Blocked(w.rail, op, w.attempts[op].mem, w.attempts[op].at))
  }

  lemma StepWillNotLock(w: C.World, op: OperationId, durations: C.Durations)
    requires WillNotLock(w, op)
    ensures var t := C.Next(w, C.Run(op, durations)); WillNotLock(t, op) && t.rail.escrow == w.rail.escrow
  {
    if op in w.attempts {
      BlockedMove(w.rail, op, w.attempts[op], durations, w.proofs + 1);
      TermsDoNotChange(w.rail, C.MoveOf(w.rail, op, w.attempts[op], durations, w.proofs + 1));
    }
  }

  lemma {:induction false} AloneWillNotLock(w: C.World, op: OperationId, durations: C.Durations, n: nat)
    requires WillNotLock(w, op)
    ensures var t := C.RunAll(w, Steps(op, durations, n)); WillNotLock(t, op) && t.rail.escrow == w.rail.escrow
  {
    if n > 0 {
      AloneWillNotLock(w, op, durations, n - 1);
      assert Steps(op, durations, n) == Steps(op, durations, n - 1) + [C.Run(op, durations)];
      OneMore(w, Steps(op, durations, n - 1), C.Run(op, durations));
      StepWillNotLock(C.RunAll(w, Steps(op, durations, n - 1)), op, durations);
    }
  }

  /** Starts, crashes and steps of attempts on this operation, with whatever flags. */
  predicate Own(e: C.Event, op: OperationId) {
    (e.Start? || e.Crash? || e.Run?) && e.op == op
  }

  lemma OwnEventWillNotLock(w: C.World, op: OperationId, e: C.Event)
    requires WillNotLock(w, op) && w.rail.escrow.vault != 0 && Own(e, op)
    ensures var t := C.Next(w, e); WillNotLock(t, op) && t.rail.escrow == w.rail.escrow
  {
    if e.Run? {
      StepWillNotLock(w, op, e.durations);
    }
  }

  lemma {:induction false} OwnEventsWillNotLock(w: C.World, op: OperationId, events: seq<C.Event>)
    requires WillNotLock(w, op) && w.rail.escrow.vault != 0 && forall e :: e in events ==> Own(e, op)
    ensures var t := C.RunAll(w, events); WillNotLock(t, op) && t.rail.escrow == w.rail.escrow
    decreases |events|
  {
    if events != [] {
      OwnEventsWillNotLock(w, op, events[..|events| - 1]);
      OwnEventWillNotLock(C.RunAll(w, events[..|events| - 1]), op, events[|events| - 1]);
    }
  }

  /**
   * While the vault holds something, no number of attempts, with whatever flags and wherever they crash, locks an operation
   * that has no receipt: the escrow stays as it is.
   */
  lemma NoLockOverFunds(w: C.World, op: OperationId, events: seq<C.Event>)
    requires Known.Faithful(w) && op in w.rail.terms && op !in w.attempts && op !in w.rail.escrow.receipts
    requires w.rail.escrow.vault != 0 && forall e :: e in events ==> Own(e, op)
    ensures C.RunAll(w, events).rail.escrow == w.rail.escrow
  {
    NothingIsRecorded(w, op);
    NotLockedYet(w.rail, op, C.DiskOf(w, op));
    OwnEventsWillNotLock(w, op, events);
  }

  // When an attempt locks ------------------------------------------------------------------------------------------------

  /** Something can be reserved, the vault is empty, and the deadline is ahead or not yet set. */
  ghost predicate MayLock(w: C.World, op: OperationId)
    requires op in w.rail.terms
  {
    && (LiveReservation(w.rail, op) || HasRoom(w.rail, op))
    && w.rail.escrow.vault == 0
    && (C.DiskOf(w, op).mintExpiry == 0 || w.rail.escrow.now < C.DiskOf(w, op).mintExpiry)
  }

  ghost predicate Locks(w: C.World, op: OperationId, durations: C.Durations) {
    exists n: nat :: op in C.RunAll(w, [C.Start(op, PLAIN)] + Steps(op, durations, n)).rail.escrow.receipts
  }

  lemma BlockedAtStart(w: C.World, op: OperationId)
    requires Known.Faithful(w) && op in w.rail.terms && op !in w.attempts && op !in w.rail.escrow.receipts && !MayLock(w, op)
    ensures WillNotLock(C.Next(w, C.Start(op, PLAIN)), op)
  {
    NothingIsRecorded(w, op);
    NotLockedYet(w.rail, op, C.DiskOf(w, op));
    JustStarted(w, op, PLAIN);
    if op !in w.rail.zama.reservations {
      RoomIsReservable(w.rail, op);
    }
  }

  lemma NeverLocks(w: C.World, op: OperationId, durations: C.Durations, n: nat)
    requires Known.Faithful(w) && op in w.rail.terms && op !in w.attempts && op !in w.rail.escrow.receipts && !MayLock(w, op)
    ensures op !in C.RunAll(w, [C.Start(op, PLAIN)] + Steps(op, durations, n)).rail.escrow.receipts
  {
    BlockedAtStart(w, op);
    var v := C.Next(w, C.Start(op, PLAIN));
    AloneWillNotLock(v, op, durations, n);
    OneMore(w, [], C.Start(op, PLAIN));
    assert [] + [C.Start(op, PLAIN)] == [C.Start(op, PLAIN)];
    RunsAppend(w, [C.Start(op, PLAIN)], Steps(op, durations, n));
  }

  /** An operation without a receipt gets one from an attempt that is left alone exactly when it may be locked. */
  lemma LocksExactlyWhenItMay(w: C.World, op: OperationId, durations: C.Durations)
    requires Known.Faithful(w) && WrittenAhead(w) && op in w.rail.terms && op !in w.attempts && durations.mint > 0
    requires op !in w.rail.escrow.receipts
    ensures Locks(w, op, durations) <==> MayLock(w, op)
  {
    if MayLock(w, op) {
      NothingIsRecorded(w, op);
      NotLockedYet(w.rail, op, C.DiskOf(w, op));
      var n := EveryOperationGetsAuthorized(w, op, durations);
    } else {
      forall n: nat ensures op !in C.RunAll(w, [C.Start(op, PLAIN)] + Steps(op, durations, n)).rail.escrow.receipts {
        NeverLocks(w, op, durations, n);
      }
    }
  }
}

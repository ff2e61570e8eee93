/**
 * The coordinator as one sequential program. After each of its steps, which act on a chain, write the journal or
 * only decide, other parties act and the program may be stopped. Every method is a part of the run that Coordinator
 * describes point by point, so the theorems of CoordinatorRuns and ReleaseMaterials are about every state this
 * program leaves behind.
 */
module Workflow {
  import opened Outcomes
  import E = Escrow
  import X = Exposure
  import opened Recovery
  import Agreement
  import opened OperationJournal
  import ReservationResume
  import opened Rail
  import C = Coordinator
  import Known = CoordinatorSafety
  import Runs = CoordinatorRuns
  import RailSafety
  import Sums

  /** First the start, then steps of this attempt, acts of others unless it is quiet, and a stop only once the budget is used up. */
  predicate Expected(op: OperationId, flags: C.Flags, durations: C.Durations, quiet: bool, budget: nat, i: nat, e: C.Event) {
    if i == 0 then e == C.Start(op, flags)
    else e == C.Run(op, durations) || (e == C.Crash(op) && i > budget) || (e.Others? && !quiet)
  }

  ghost predicate Shaped(op: OperationId, flags: C.Flags, durations: C.Durations, quiet: bool, budget: nat, events: seq<C.Event>) {
    forall i {:trigger events[i]} :: 0 <= i < |events| ==> Expected(op, flags, durations, quiet, budget, i, events[i])
  }

  class Workflow {
    const op: OperationId
    const flags: C.Flags
    const durations: C.Durations

    // The chains and the files, as far as this attempt sees them.
    var rail: State
    var disks: map<OperationId, Journal>
    var proofs: nat

    // What other parties are about to do, and after how many events the attempt is stopped.
    var pending: seq<Action>
    const budget: nat
    var happened: nat

    // This attempt: whether it is still running, its journal, where it is, and whether it has acted and not yet saved.
    var running: bool
    var journal: Journal
    var at: C.Point
    var unsaved: bool

    // The attempts of other operations, and the events and worlds since the start.
    ghost const others: map<OperationId, C.Attempt>
    ghost const start: C.World
    ghost const quiet: bool
    ghost var trace: seq<C.Event>
    ghost var worlds: seq<C.World>

    ghost function View(): C.World
      reads this
    {
      C.World(rail, disks, if running then others[op := C.Attempt(journal, at, flags, unsaved)] else others, proofs)
    }

    /** Every event so far is recorded, and the attempt was not stopped before its budget of steps was used up. */
    ghost predicate Recording()
      reads this
    {
      && op !in others && op in rail.terms
      && Runs.Leads(worlds, trace) && worlds[0] == start
      && Shaped(op, flags, durations, quiet, budget, trace) && |trace| == happened + 1
      && (quiet ==> pending == [])
    }

    /** The state is what the recorded events lead to. */
    ghost predicate Consistent()
      reads this
    {
      Recording() && worlds[|worlds| - 1] == View()
    }

    /** What the attempt had to save is saved, if it is still running. */
    ghost predicate Clean()
      reads this
    {
      Consistent() && (running ==> !unsaved)
    }

    /** The attempt is running and has come to this point. */
    ghost predicate Ready(point: C.Point)
      reads this
    {
      Consistent() && running && !unsaved && at == point
    }

    constructor (w: C.World, op: OperationId, flags: C.Flags, durations: C.Durations, pending: seq<Action>, budget: nat)
      requires op in w.rail.terms && op !in w.attempts
      ensures Ready(C.Load) && start == w && this.op == op && this.flags == flags && this.durations == durations
      ensures this.budget == budget && happened == 0 && quiet == (pending == [])
      ensures View() == C.Next(w, C.Start(op, flags))
    {
      this.op, this.flags, this.durations := op, flags, durations;
      this.rail, this.disks, this.proofs, this.pending := w.rail, w.disks, w.proofs, pending;
      this.running, this.journal, this.at, this.unsaved := true, C.DiskOf(w, op), C.Load, false;
      this.others, this.start, this.trace := w.attempts, w, [C.Start(op, flags)];
      this.worlds := [w, C.Next(w, C.Start(op, flags))];
      this.budget, this.happened, this.quiet := budget, 0, pending == [];
    }

    // Recording ----------------------------------------------------------------------------------------------

    /** Records one event that led to the present state. */
    method Recorded(ghost e: C.Event)
      requires Recording() && View() == C.Next(worlds[|worlds| - 1], e)
      requires Expected(op, flags, durations, quiet, budget, happened + 1, e)
      modifies this`trace, this`worlds, this`happened
      ensures Consistent()
    {
      Runs.LeadsOneFurther(worlds, trace, e);
      happened := happened + 1;
      trace := trace + [e];
      worlds := worlds + [View()];
    }

    /** Records that the attempt took one step. */
    method Advanced(ghost before: C.World)
      requires Recording() && worlds[|worlds| - 1] == before
      requires op in before.attempts && op in before.rail.terms && View() == C.Advance(before, op, durations)
      modifies this`trace, this`worlds, this`happened
      ensures Consistent()
    {
      Recorded(C.Run(op, durations));
    }

    /** Others act for a while, and the attempt is stopped once its budget is used up. */
    method Pause()
      requires Consistent()
      modifies this`rail, this`pending, this`running, this`trace, this`worlds, this`happened
      ensures Consistent() && (running ==> old(running)) && rail.terms == old(rail.terms) && |pending| <= old(|pending|)
    {
      var count: nat :| count <= |pending|;
      var actions := pending[..count];
      pending := pending[count..];
      for i := 0 to |actions|
        invariant Consistent() && running == old(running) && rail.terms == old(rail.terms)
        modifies this`rail, this`trace, this`worlds, this`happened
      {
        OthersAct(actions[i]);
      }
      if happened >= budget && running {
        running := false;
        assert others[op := C.Attempt(journal, at, flags, unsaved)] - {op} == others;
        Recorded(C.Crash(op));
      }
    }

    /** The fields are as a move leaves them. */
    ghost predicate Applied(before: C.World, m: C.Move)
      reads this
    {
      && rail == C.RailAfter(before.rail, m)
      && disks == (if m.saved.Some? then before.disks[op := m.saved.value] else before.disks)
      && proofs == (if m.newProof then before.proofs + 1 else before.proofs)
      && (if m.next.Some?
          then running && journal == m.next.value.mem && at == m.next.value.at && unsaved == m.next.value.unsaved
          else !running)
    }

    /** The attempt was at work before, beside the attempts of other operations. */
    ghost predicate WasAtWork(before: C.World) {
      && op in before.attempts && op in before.rail.terms
      && before.attempts == others[op := before.attempts[op]] && before.attempts[op].flags == flags
    }

    ghost method AppliedIsView(before: C.World, m: C.Move)
      requires op !in others && WasAtWork(before) && Applied(before, m)
      ensures View() == C.Apply(before, op, m)
    {
      assert others[op := before.attempts[op]] - {op} == others;
    }

    /** The attempt has taken one step; others act, and it may be stopped. */
    method Took(ghost before: C.World, ghost m: C.Move)
      requires Recording() && worlds[|worlds| - 1] == before
      requires WasAtWork(before) && m == C.MoveOf(before.rail, op, before.attempts[op], durations, before.proofs + 1)
      requires Applied(before, m)
      modifies this`rail, this`pending, this`running, this`trace, this`worlds, this`happened
      ensures Consistent() && (running ==> old(running)) && rail.terms == old(rail.terms) && |pending| <= old(|pending|)
    {
      AppliedIsView(before, m);
      Advanced(before);
      Pause();
    }

    method OthersAct(a: Action)
      requires Consistent() && !quiet
      modifies this`rail, this`trace, this`worlds, this`happened
      ensures Consistent() && rail.terms == old(rail.terms)
    {
      if C.OthersMay(rail, a) {
        rail := Take(rail, a);
        Recorded(C.Others(a));
      }
    }

    method Save()
      modifies this`disks
      ensures disks == old(disks)[op := journal]
    {
      disks := disks[op := journal];
    }

    /** The journal write that follows a chain action. */
    method SaveAfterActing()
      requires Consistent() && running && unsaved
      modifies this`rail, this`disks, this`pending, this`running, this`unsaved, this`trace, this`worlds, this`happened
      ensures Clean() && rail.terms == old(rail.terms)
    {
      ghost var before := View();
      ghost var m := C.Save(journal, at);
      Save();
      unsaved := false;
      Took(before, m);
    }

    method NewProof() returns (proof: Bytes32)
      modifies this`proofs
      ensures proofs == old(proofs) + 1 && proof == proofs
    {
      proofs := proofs + 1;
      proof := proofs;
    }

    /** The attempt returns or fails. */
    method End()
      modifies this`running
      ensures !running
    {
      running := false;
    }

    method CompleteStep(step: Step)
      modifies this`disks, this`journal
      ensures journal == Complete(old(journal), step)
      ensures disks == if Reached(old(journal), step) || flags.omitSave then old(disks) else old(disks)[op := journal]
    {
      if !Reached(journal, step) {
        journal := journal.(completed := Some(step));
        if !flags.omitSave {
          Save();
        }
      }
    }

    /** The attempt ends where it was asked to stop and after the last step. */
    method StopOrGoOn(step: Step)
      modifies this`running, this`at
      ensures flags.stopAfter == Some(step) || C.AfterHalt(step).None? ==> !running && at == old(at)
      ensures flags.stopAfter != Some(step) && C.AfterHalt(step).Some? ==> running == old(running) && C.AfterHalt(step) == Some(at)
    {
      if flags.stopAfter == Some(step) || C.AfterHalt(step).None? {
        End();
      } else {
        at := C.AfterHalt(step).value;
      }
    }

    /** Completes a step: answers whether the attempt goes on. */
    method Halt(step: Step) returns (stop: bool)
      requires Ready(C.Halt(step))
      modifies this`rail, this`disks, this`journal, this`pending, this`running, this`at, this`trace, this`worlds, this`happened
      ensures Clean() && stop == !running
      ensures running ==> C.AfterHalt(step) == Some(at)
    {
      ghost var before := View();
      ghost var m := C.AtHalt(journal, flags, step);
      CompleteStep(step);
      StopOrGoOn(step);
      Took(before, m);
      stop := !running;
    }

    // The start of a run -------------------------------------------------------------------------------------

    method LoadAccounts()
      requires Ready(C.Load)
      modifies this`rail, this`disks, this`pending, this`running, this`at, this`trace, this`worlds, this`happened
      ensures Clean() && (running ==> at == C.RecordCompleted || at == C.Halt(Accounts))
    {
      ghost var before := View();
      ghost var m := C.AtLoad(rail, op, journal);
      if C.ResumeAction(rail, op) == Ok(ReservationResume.RecordCompleted) {
        at := C.RecordCompleted;
      } else {
        Save();
        at := C.Halt(Accounts);
      }
      Took(before, m);
    }

    method FixMintDeadline()
      requires Ready(C.Deadline)
      modifies this`rail, this`disks, this`journal, this`pending, this`running, this`at, this`trace, this`worlds, this`happened
      ensures Clean() && (running ==> at == C.Route)
    {
      ghost var before := View();
      ghost var m := C.AtDeadline(rail, journal, durations.mint);
      if journal.mintExpiry == 0 {
        journal := journal.(mintExpiry := rail.escrow.now + durations.mint);
      }
      Save();
      at := C.Route;
      Took(before, m);
    }

    method ChooseRoute()
      requires Ready(C.Route)
      modifies this`rail, this`pending, this`running, this`at, this`trace, this`worlds, this`happened
      ensures Clean() && (running ==> at == C.Cancel || at == C.Reserve)
    {
      ghost var before := View();
      ghost var m := C.AtRoute(journal, flags);
      at := if flags.cancelLocked || journal.completed == Some(Step.Cancelled) then C.Cancel else C.Reserve;
      Took(before, m);
    }

    /** Resumes an approved reservation, or submits one that is not there; a rejected one ends the attempt. */
    method ReserveOnce()
      requires Ready(C.Reserve)
      modifies this`rail, this`disks, this`pending, this`running, this`at, this`unsaved, this`trace, this`worlds, this`happened
      ensures Clean() && (running ==> at == C.RecordCompleted || at == C.Halt(Step.Reserved))
    {
      ghost var before := View();
      ghost var m := C.AtReserve(rail, op, journal);
      var action := C.ResumeAction(rail, op);
      match action {
        case Err(_) => End();
        case Ok(RecordCompleted) => at := C.RecordCompleted;
        case Ok(ResumeApproved) => at := C.Halt(Step.Reserved);
        case Ok(SubmitReserve) =>
          rail := Take(rail, Zama(X.CallReserve(op, rail.terms[op].client, rail.terms[op].amount)));
          if Approved(rail, op) {
            unsaved := true;
            at := C.Halt(Step.Reserved);
          } else {
            End();
          }
      }
      Took(before, m);
      if running && unsaved {
        SaveAfterActing();
      }
    }

    method RecordCompletedOperation()
      requires Ready(C.RecordCompleted)
      modifies this`rail, this`pending, this`running, this`at, this`trace, this`worlds, this`happened
      ensures Clean() && (running ==> at == C.Halt(ZamaRedeemed))
    {
      ghost var before := View();
      ghost var m := C.AtRecordCompleted(rail, op, journal);
      if HasStatus(rail, op, E.Released) {
        at := C.Halt(ZamaRedeemed);
      } else {
        End();
      }
      Took(before, m);
    }

    // Locking ------------------------------------------------------------------------------------------------

    /** New proofs: their commitment is saved before the lock is sent. */
    method SaveLockProof()
      requires Ready(C.Lock) && !Reached(journal, Step.Locked) && op !in rail.escrow.receipts && rail.escrow.vault == 0
      modifies this`rail, this`disks, this`journal, this`proofs, this`pending, this`running, this`at, this`trace, this`worlds, this`happened
      ensures Clean() && (running ==> at.SubmitLock?)
    {
      ghost var before := View();
      ghost var next := journal.(lockProof := Some(proofs + 1));
      ghost var m := C.Save(next, C.SubmitLock(proofs + 1)).(newProof := true);
      assert m == C.AtLock(rail, op, journal, flags, proofs + 1);
      var proof := NewProof();
      journal := journal.(lockProof := Some(proof));
      Save();
      at := C.SubmitLock(proof);
      Took(before, m);
    }

    /** Looks for the receipt; without one the vault must be empty. */
    method PrepareLock()
      requires Ready(C.Lock)
      modifies this`rail, this`disks, this`journal, this`proofs, this`pending, this`running, this`at, this`trace, this`worlds, this`happened
      ensures Clean() && (running ==> at == C.AfterLock(flags) || at.SubmitLock?)
    {
      if !Reached(journal, Step.Locked) && op !in rail.escrow.receipts && rail.escrow.vault == 0 {
        SaveLockProof();
      } else {
        ghost var before := View();
        ghost var m := C.AtLock(rail, op, journal, flags, proofs + 1);
        if Reached(journal, Step.Locked) {
          at := C.AfterLock(flags);
        } else if op in rail.escrow.receipts {
          journal := journal.(completed := Some(MaxCompleted(Step.Locked, journal.completed)));
          at := C.AfterLock(flags);
        } else {
          End();
        }
        Took(before, m);
      }
    }

    method SendLock(proof: Bytes32)
      requires Ready(C.SubmitLock(proof))
      modifies this`rail, this`disks, this`pending, this`running, this`at, this`unsaved, this`trace, this`worlds, this`happened
      ensures Clean() && (running ==> at == C.AfterLock(flags))
    {
      ghost var before := View();
      ghost var m := C.AtSubmitLock(rail, op, journal, flags, proof);
      var args := C.LockArgs(rail.terms[op], op, journal, proof);
      if E.LockConfidential(rail.escrow, args).Ok? {
        rail := Take(rail, Solana(E.SubmitLock(args)));
        unsaved := true;
        at := C.AfterLock(flags);
      } else {
        End();
      }
      Took(before, m);
      if running && unsaved {
        SaveAfterActing();
      }
    }

    method LockOnce()
      requires Ready(C.Lock)
      modifies this
      ensures Clean() && (running ==> at == C.AfterLock(flags))
    {
      PrepareLock();
      if running && at.SubmitLock? {
        SendLock(at.proof);
      }
    }

    // Votes --------------------------------------------------------------------------------------------------

    method DecideVotes(args: E.ApproveArgs) returns (first: bool, second: bool)
      requires Ready(C.Decide(args))
      modifies this`rail, this`pending, this`running, this`at, this`trace, this`worlds, this`happened
      ensures Clean() && (running ==> at == C.Voting(args, first, second))
    {
      ghost var before := View();
      ghost var m := C.AtDecide(rail, journal, args);
      first, second := false, false;
      var needed := Agreement.Needed(rail.escrow, args);
      match needed {
        case Err(_) => End();
        case Ok(votes) =>
          first, second := votes.0, votes.1;
          at := C.Voting(args, first, second);
      }
      Took(before, m);
    }

    method SignVote(args: E.ApproveArgs, first: bool, second: bool)
      requires Ready(C.Voting(args, first, second)) && (first || second)
      modifies this`rail, this`pending, this`running, this`at, this`trace, this`worlds, this`happened
      ensures Clean()
      ensures running ==> at == C.Submitting(args, if first then 0 else 1, first && second)
    {
      ghost var before := View();
      ghost var m := C.AtVoting(rail, journal, args, first, second);
      if |rail.escrow.config.attesters| != 3 {
        End();
      } else {
        var index := if first then 0 else 1;
        rail := Take(rail, Solana(E.Sign(Agreement.VoteOf(rail.escrow, args, index))));
        at := C.Submitting(args, index, first && second);
      }
      Took(before, m);
    }

    method SubmitVote(args: E.ApproveArgs, index: nat, second: bool)
      requires Ready(C.Submitting(args, index, second))
      modifies this`rail, this`pending, this`running, this`at, this`trace, this`worlds, this`happened
      ensures Clean() && (running ==> at == C.Voting(args, false, second))
    {
      ghost var before := View();
      ghost var m := C.AtSubmitting(rail, journal, args, index, second);
      if index < |rail.escrow.config.attesters| && Agreement.Accepts(rail.escrow, args, index) {
        rail := Take(rail, Solana(E.SubmitApprove(args, Agreement.VoteOf(rail.escrow, args, index))));
        at := C.Voting(args, false, second);
      } else {
        End();
      }
      Took(before, m);
    }

    method FinishVotes(args: E.ApproveArgs)
      requires Ready(C.Voting(args, false, false))
      modifies this`rail, this`pending, this`running, this`at, this`trace, this`worlds, this`happened
      ensures Clean() && (running ==> at == C.VotesCast(args))
    {
      ghost var before := View();
      ghost var m := C.AtVoting(rail, journal, args, false, false);
      if |rail.escrow.config.attesters| != 3 {
        End();
      } else {
        at := C.VotesCast(args);
      }
      Took(before, m);
    }

    method CheckVotes(args: E.ApproveArgs)
      requires Ready(C.VotesCast(args))
      modifies this`rail, this`disks, this`pending, this`running, this`at, this`trace, this`worlds, this`happened
      ensures Clean() && (running ==> at == AfterVotes(args))
    {
      ghost var before := View();
      ghost var m := C.AtVotesCast(rail, journal, args);
      if !C.TwoOfThree(rail.escrow, args) {
        End();
      } else {
        if args.direction == E.DIRECTION_MINT {
          Save();
        }
        at := AfterVotes(args);
      }
      Took(before, m);
    }

    static function AfterVotes(args: E.ApproveArgs): C.Point {
      if args.direction == E.DIRECTION_MINT then C.Halt(Step.MintApproved)
      else if args.direction == E.DIRECTION_RELEASE then C.Halt(ReleaseApproved)
      else C.SubmitCancel(args)
    }

    /** Signs and submits one vote, if it is wanted. */
    method VoteIfNeeded(args: E.ApproveArgs, index: nat, a: bool, b: bool)
      requires index < 2 && Ready(C.Voting(args, index < 1 && a, b))
      modifies this
      ensures Clean() && (running ==> at == C.Voting(args, false, index < 1 && b))
    {
      if if index == 0 then a else b {
        SignVote(args, index == 0, b);
        if running {
          SubmitVote(args, index, index == 0 && b);
        }
      }
    }

    /** Submits the votes of A and B that are missing, one after the other, and checks that two are there. */
    method ApproveNeeded(args: E.ApproveArgs)
      requires Ready(C.Decide(args))
      modifies this
      ensures Clean() && (running ==> at == AfterVotes(args))
    {
      var a, b := DecideVotes(args);
      for index := 0 to 2
        invariant Clean()
        invariant running ==> at == C.Voting(args, index < 1 && a, index < 2 && b)
      {
        if running {
          VoteIfNeeded(args, index, a, b);
        }
      }
      if running {
        FinishVotes(args);
      }
      if running {
        CheckVotes(args);
      }
    }

    method StartMintVotes()
      requires Ready(C.MintVotes)
      modifies this`rail, this`pending, this`running, this`at, this`trace, this`worlds, this`happened
      ensures Clean() && (running ==> at == C.Halt(Step.MintApproved) || at == C.Decide(C.MintArgs(rail.terms[op], op, journal)))
    {
      ghost var before := View();
      ghost var m := C.AtMintVotes(rail, op, journal);
      if journal.lockProof.None? {
        End();
      } else if MintAuthorized(rail, op) {
        at := C.Halt(Step.MintApproved);
      } else {
        at := C.Decide(C.MintArgs(rail.terms[op], op, journal));
      }
      Took(before, m);
    }

    // Canton -------------------------------------------------------------------------------------------------

    method MintOnce()
      requires Ready(C.Mint)
      modifies this`rail, this`disks, this`pending, this`running, this`at, this`unsaved, this`trace, this`worlds, this`happened
      ensures Clean() && (running ==> at == C.Halt(CantonMinted) || at == C.Finalize)
    {
      ghost var before := View();
      ghost var m := C.AtMint(op, journal);
      if Reached(journal, CantonMinted) {
        at := C.Halt(CantonMinted);
      } else {
        rail := Take(rail, CantonMint(op));
        unsaved := true;
        at := C.Finalize;
      }
      Took(before, m);
      if running && unsaved {
        SaveAfterActing();
      }
    }

    method FinalizeOnce()
      requires Ready(C.Finalize)
      modifies this`rail, this`disks, this`pending, this`running, this`at, this`unsaved, this`trace, this`worlds, this`happened
      ensures Clean() && (running ==> at == C.Halt(CantonMinted))
    {
      ghost var before := View();
      ghost var m := C.AtFinalize(rail, op, journal);
      if !Approved(rail, op) {
        End();
      } else if Reservation(rail, op, X.Reserved) {
        rail := Take(rail, Zama(X.CallFinalize(op)));
        unsaved := true;
        at := C.Halt(CantonMinted);
      } else if Reservation(rail, op, X.Finalized) || Reservation(rail, op, X.Redeemed) {
        at := C.Halt(CantonMinted);
      } else {
        End();
      }
      Took(before, m);
      if running && unsaved {
        SaveAfterActing();
      }
    }

    method PrepareTrade()
      requires Ready(C.Prepare)
      modifies this`rail, this`pending, this`running, this`at, this`trace, this`worlds, this`happened
      ensures Clean() && (running ==> at == C.Halt(TradePrepared))
    {
      ghost var before := View();
      ghost var m := C.AtPrepare(op, journal);
      if !Reached(journal, TradePrepared) {
        rail := Take(rail, CantonPrepare(op));
      }
      at := C.Halt(TradePrepared);
      Took(before, m);
    }

    method Reassign()
      requires Ready(C.Reassign)
      modifies this`rail, this`pending, this`running, this`at, this`trace, this`worlds, this`happened
      ensures Clean() && (running ==> at == C.Halt(Reassigned))
    {
      ghost var before := View();
      ghost var m := C.Goto(journal, C.Halt(Reassigned));
      at := C.Halt(Reassigned);
      Took(before, m);
    }

    method Settle()
      requires Ready(C.Settle)
      modifies this`rail, this`disks, this`pending, this`running, this`at, this`unsaved, this`trace, this`worlds, this`happened
      ensures Clean() && (running ==> at == C.Halt(Settled))
    {
      ghost var before := View();
      ghost var m := C.AtSettle(op, journal, flags);
      rail := Take(rail, CantonSettle(op));
      unsaved := !flags.omitSave;
      at := C.Halt(Settled);
      Took(before, m);
      if running && unsaved {
        SaveAfterActing();
      }
    }

    method RedeemOnCanton()
      requires Ready(C.Burn)
      modifies this`rail, this`pending, this`running, this`at, this`trace, this`worlds, this`happened
      ensures Clean() && (running ==> at == C.Halt(Step.Redeemed))
    {
      ghost var before := View();
      ghost var m := C.AtBurn(op, journal);
      rail := Take(rail, CantonBurn(op));
      at := C.Halt(Step.Redeemed);
      Took(before, m);
    }

    // Release ------------------------------------------------------------------------------------------------

    method StartRelease()
      requires Ready(C.Release)
      modifies this`rail, this`journal, this`pending, this`running, this`at, this`trace, this`worlds, this`happened
      ensures Clean() && (running ==> at == C.Materials || at == C.Halt(Released))
    {
      ghost var before := View();
      ghost var m := C.AtRelease(rail, op, journal);
      if !Reached(journal, Step.Redeemed) || HasStatus(rail, op, E.Cancelled) {
        End();
      } else {
        var released := HasStatus(rail, op, E.Released);
        var onChain := Agreement.ReadApproval(rail.escrow, E.Slot(op, E.DIRECTION_RELEASE));
        if ShouldRefreshReleaseMaterials(rail.escrow.now, onChain, journal.releaseExpiry, released) {
          journal := journal.(releaseExpiry := 0, releaseProof := None);
        }
        at := if ShouldSubmitRelease(Reached(journal, Released), released) then C.Materials else C.Halt(Released);
      }
      Took(before, m);
    }

    /** Reuses the saved materials, or makes new ones and saves them before anything is signed. */
    method MakeMaterials()
      requires Ready(C.Materials)
      modifies this`rail, this`disks, this`journal, this`proofs, this`pending, this`running, this`at, this`trace, this`worlds, this`happened
      ensures Clean() && (running ==> at == C.Decide(C.ReleaseArgs(rail.terms[op], op, journal)))
    {
      if C.HasMaterials(journal) {
        ghost var before := View();
        ghost var m := C.AtMaterials(rail, op, journal, durations.release, proofs + 1);
        at := C.Decide(C.ReleaseArgs(rail.terms[op], op, journal));
        Took(before, m);
      } else {
        MakeNewMaterials();
      }
    }

    method MakeNewMaterials()
      requires Ready(C.Materials) && !C.HasMaterials(journal)
      modifies this`rail, this`disks, this`journal, this`proofs, this`pending, this`running, this`at, this`trace, this`worlds, this`happened
      ensures Clean() && (running ==> at == C.Decide(C.ReleaseArgs(rail.terms[op], op, journal)))
    {
      ghost var before := View();
      ghost var next := journal.(releaseExpiry := rail.escrow.now + durations.release, releaseProof := Some(proofs + 1));
      ghost var m := C.Save(next, C.Decide(C.ReleaseArgs(rail.terms[op], op, next))).(newProof := true);
      assert m == C.AtMaterials(rail, op, journal, durations.release, proofs + 1);
      var proof := NewProof();
      journal := journal.(releaseExpiry := rail.escrow.now + durations.release, releaseProof := Some(proof));
      Save();
      at := C.Decide(C.ReleaseArgs(rail.terms[op], op, journal));
      Took(before, m);
    }

    method SendRelease()
      requires Ready(C.SubmitRelease)
      modifies this`rail, this`pending, this`running, this`at, this`trace, this`worlds, this`happened
      ensures Clean() && (running ==> at == C.Halt(Released))
    {
      ghost var before := View();
      ghost var m := C.AtSubmitRelease(rail, op, journal);
      var movement := C.MovementOf(C.ReleaseArgs(rail.terms[op], op, journal));
      if E.ReleaseConfidential(rail.escrow, op, E.DIRECTION_RELEASE, movement).Ok? {
        rail := Take(rail, Solana(E.SubmitMove(op, E.DIRECTION_RELEASE, movement, true)));
        at := C.Halt(Released);
      } else {
        End();
      }
      Took(before, m);
    }

    method RedeemReservation()
      requires Ready(C.Redeem)
      modifies this`rail, this`disks, this`pending, this`running, this`at, this`unsaved, this`trace, this`worlds, this`happened
      ensures Clean() && (running ==> at == C.Halt(ZamaRedeemed))
    {
      ghost var before := View();
      ghost var m := C.AtRedeem(rail, op, journal);
      if Reached(journal, ZamaRedeemed) || Reservation(rail, op, X.Redeemed) {
        at := C.Halt(ZamaRedeemed);
      } else if Reservation(rail, op, X.Finalized) {
        rail := Take(rail, Zama(X.CallRedeem(op)));
        unsaved := true;
        at := C.Halt(ZamaRedeemed);
      } else {
        End();
      }
      Took(before, m);
      if running && unsaved {
        SaveAfterActing();
      }
    }

    /** New votes on the release if they are missing. */
    method ApproveRelease()
      requires Ready(C.Materials)
      modifies this
      ensures Clean() && (running ==> at == C.Halt(ReleaseApproved))
    {
      MakeMaterials();
      if running {
        ApproveNeeded(at.args);
      }
    }

    method SendApprovedRelease()
      requires Ready(C.Halt(ReleaseApproved))
      modifies this
      ensures Clean() && (running ==> at == C.Halt(Released))
    {
      var stopped := Halt(ReleaseApproved);
      if !stopped {
        SendRelease();
      }
    }

    /** The votes and the release itself. */
    method SubmitReleaseOnce()
      requires Ready(C.Materials)
      modifies this
      ensures Clean() && (running ==> at == C.Halt(Released))
    {
      ApproveRelease();
      if running {
        SendApprovedRelease();
      }
    }

    method RedeemAndRecord()
      requires Ready(C.Redeem)
      modifies this
      ensures Clean() && !running
    {
      RedeemReservation();
      if running {
        var stopped := Halt(ZamaRedeemed);
      }
    }

    method FinishRelease()
      requires Ready(C.Halt(Released))
      modifies this
      ensures Clean() && !running
    {
      var stopped := Halt(Released);
      if !stopped {
        RedeemAndRecord();
      }
    }

    method ReleaseOnce()
      requires Ready(C.Release)
      modifies this
      ensures Clean() && !running
    {
      StartRelease();
      if running && at.Materials? {
        SubmitReleaseOnce();
      }
      if running {
        FinishRelease();
      }
    }

    // The cancel path ----------------------------------------------------------------------------------------

    static function AfterWaiting(waiting: bool): C.Point {
      if waiting then C.Expire else C.Cancel
    }

    /** After the lock: once the mint deadline has passed the mint must be refused, and the lock is cancelled. */
    method ExpireMint() returns (waiting: bool)
      requires Ready(C.Expire)
      modifies this`rail, this`pending, this`running, this`at, this`trace, this`worlds, this`happened
      ensures Clean() && (running ==> at == AfterWaiting(waiting)) && |pending| <= old(|pending|)
    {
      ghost var before := View();
      ghost var m := C.AtExpire(rail, op, journal);
      waiting := !ExpiredOnChain(journal.mintExpiry, rail.escrow.now);
      if !waiting {
        if Agreement.Needed(rail.escrow, C.MintArgs(rail.terms[op], op, journal)).Ok? {
          End();
        } else {
          at := C.Cancel;
        }
      }
      Took(before, m);
    }

    method StartCancel()
      requires Ready(C.Cancel)
      modifies this`rail, this`proofs, this`pending, this`running, this`at, this`trace, this`worlds, this`happened
      ensures Clean()
      ensures running ==> at == C.CancelReservation || (at.Decide? && at.args.direction == E.DIRECTION_CANCEL)
    {
      ghost var before := View();
      ghost var m := C.AtCancel(rail, op, journal, proofs + 1);
      if HasStatus(rail, op, E.Cancelled) {
        at := C.CancelReservation;
      } else if HasStatus(rail, op, E.Locked) {
        var proof := NewProof();
        at := C.Decide(C.CancelArgs(rail.terms[op], op, C.CancelDeadline(rail.escrow.now), proof));
      } else {
        End();
      }
      Took(before, m);
    }

    method SendCancel(args: E.ApproveArgs)
      requires Ready(C.SubmitCancel(args))
      modifies this`rail, this`pending, this`running, this`at, this`trace, this`worlds, this`happened
      ensures Clean() && (running ==> at == C.CancelReservation)
    {
      ghost var before := View();
      ghost var m := C.AtSubmitCancel(rail, op, journal, args);
      if E.CancelConfidential(rail.escrow, op, E.DIRECTION_CANCEL, C.MovementOf(args)).Ok? {
        rail := Take(rail, Solana(E.SubmitMove(op, E.DIRECTION_CANCEL, C.MovementOf(args), false)));
        at := C.CancelReservation;
      } else {
        End();
      }
      Took(before, m);
    }

    method CancelZamaIfReserved()
      requires Ready(C.CancelReservation)
      modifies this`rail, this`disks, this`pending, this`running, this`at, this`unsaved, this`trace, this`worlds, this`happened
      ensures Clean() && (running ==> at == C.CheckVault)
    {
      if Reservation(rail, op, X.Reserved) {
        SendZamaCancel();
      } else {
        ghost var before := View();
        ghost var m := C.AtCancelReservation(rail, op, journal);
        if Reservation(rail, op, X.Cancelled) {
          at := C.CheckVault;
        } else {
          End();
        }
        Took(before, m);
      }
    }

    method SendZamaCancel()
      requires Ready(C.CancelReservation) && Reservation(rail, op, X.Reserved)
      modifies this`rail, this`disks, this`pending, this`running, this`at, this`unsaved, this`trace, this`worlds, this`happened
      ensures Clean() && (running ==> at == C.CheckVault)
    {
      ghost var before := View();
      ghost var m := C.AtCancelReservation(rail, op, journal);
      rail := Take(rail, Zama(X.CallCancel(op)));
      unsaved := true;
      at := C.CheckVault;
      Took(before, m);
      if running && unsaved {
        SaveAfterActing();
      }
    }

    method ProveVaultUnlocked()
      requires Ready(C.CheckVault)
      modifies this`rail, this`pending, this`running, this`at, this`trace, this`worlds, this`happened
      ensures Clean() && (running ==> at == C.Halt(Step.Cancelled))
    {
      ghost var before := View();
      ghost var m := C.AtCheckVault(rail, journal);
      if rail.escrow.vault == 0 {
        at := C.Halt(Step.Cancelled);
      } else {
        End();
      }
      Took(before, m);
    }

    /** Votes on the cancel and the movement back to the source. */
    method CancelReceipt()
      requires Ready(C.Cancel)
      modifies this
      ensures Clean() && (running ==> at == C.CancelReservation)
    {
      StartCancel();
      if !running || at.CancelReservation? { return; }
      ApproveNeeded(at.args);
      if running {
        SendCancel(at.args);
      }
    }

    /** Nothing of the operation is left in the vault, and the journal says so. */
    method CloseCancel()
      requires Ready(C.CheckVault)
      modifies this
      ensures Clean() && !running
    {
      ProveVaultUnlocked();
      if running {
        var stopped := Halt(Step.Cancelled);
      }
    }

    /** The reservation is cancelled too. */
    method CancelRest()
      requires Ready(C.CancelReservation)
      modifies this
      ensures Clean() && !running
    {
      CancelZamaIfReserved();
      if running {
        CloseCancel();
      }
    }

    method CancelLockedOperation()
      requires Ready(C.Cancel)
      modifies this
      ensures Clean() && !running
    {
      CancelReceipt();
      if running {
        CancelRest();
      }
    }

    /** Lets others act before looking at the deadline. */
    method WaitOnce() returns (waiting: bool)
      requires Ready(C.Expire) && pending != []
      modifies this`rail, this`pending, this`running, this`at, this`trace, this`worlds, this`happened
      ensures Clean() && (running ==> at == AfterWaiting(waiting)) && |pending| < old(|pending|)
    {
      var next := pending[0];
      pending := pending[1..];
      OthersAct(next);
      waiting := ExpireMint();
    }

    /** Waits for the deadline as long as others let time pass, then cancels. */
    method RunExpiryRecovery()
      requires Ready(C.Expire)
      modifies this
      ensures Clean()
      ensures running ==> at == C.Expire
    {
      var waiting := true;
      while running && waiting && pending != []
        invariant Clean() && (running ==> at == AfterWaiting(waiting))
        decreases |pending|
      {
        waiting := WaitOnce();
      }
      if running && !waiting {
        CancelLockedOperation();
      }
    }

    // The run ------------------------------------------------------------------------------------------------

    /** The mint on Canton and the finalized reservation. */
    method MintOnCanton()
      requires Ready(C.Mint)
      modifies this
      ensures Clean() && (running ==> at == C.Prepare)
    {
      MintOnce();
      if running && at.Finalize? {
        FinalizeOnce();
      }
      if running {
        var stopped := Halt(CantonMinted);
      }
    }

    method PrepareOnCanton()
      requires Ready(C.Prepare)
      modifies this
      ensures Clean() && (running ==> at == C.Reassign)
    {
      PrepareTrade();
      if running {
        var stopped := Halt(TradePrepared);
      }
    }

    method ReassignOnCanton()
      requires Ready(C.Reassign)
      modifies this
      ensures Clean() && (running ==> at == C.Settle)
    {
      Reassign();
      if running {
        var stopped := Halt(Reassigned);
      }
    }

    method TradeOnCanton()
      requires Ready(C.Prepare)
      modifies this
      ensures Clean() && (running ==> at == C.Settle)
    {
      PrepareOnCanton();
      if running {
        ReassignOnCanton();
      }
    }

    method SettleOnCanton()
      requires Ready(C.Settle)
      modifies this
      ensures Clean() && (running ==> at == C.Burn)
    {
      Settle();
      if running {
        var stopped := Halt(Settled);
      }
    }

    method BurnOnCanton()
      requires Ready(C.Burn)
      modifies this
      ensures Clean() && (running ==> at == C.Release)
    {
      RedeemOnCanton();
      if running {
        var stopped := Halt(Step.Redeemed);
      }
    }

    /** From the authorized mint to the burn on Canton. */
    method RunOnCanton()
      requires Ready(C.Mint)
      modifies this
      ensures Clean() && (running ==> at == C.Release)
    {
      MintOnCanton();
      if !running { return; }
      TradeOnCanton();
      if !running { return; }
      SettleOnCanton();
      if running {
        BurnOnCanton();
      }
    }

    /** The mint votes, unless the program has authorized the mint already. */
    method AuthorizeMint()
      requires Ready(C.MintVotes)
      modifies this
      ensures Clean() && (running ==> at == C.Mint)
    {
      StartMintVotes();
      if running && at.Decide? {
        ApproveNeeded(at.args);
      }
      if running {
        var stopped := Halt(Step.MintApproved);
      }
    }

    /** From the reservation to the authorized mint; an attempt that recovers from expiry ends here. */
    method RunToMint()
      requires Ready(C.Lock)
      modifies this
      ensures Clean() && (running ==> at == C.Mint || (at == C.Expire && flags.expiryRecovery))
    {
      LockOnce();
      if !running { return; }
      if flags.expiryRecovery {
        RunExpiryRecovery();
        return;
      }
      var stopped := Halt(Step.Locked);
      if stopped { return; }
      AuthorizeMint();
    }

    method RecordAndFinish()
      requires Ready(C.RecordCompleted)
      modifies this
      ensures Clean() && !running
    {
      RecordCompletedOperation();
      if running {
        var stopped := Halt(ZamaRedeemed);
      }
    }

    /** The accounts, the deadline and the choice between running and cancelling. */
    method RunToRoute()
      requires Ready(C.Load)
      modifies this
      ensures Clean()
      ensures running ==> at == C.RecordCompleted || at == C.Cancel || at == C.Reserve
    {
      LoadAccounts();
      if !running || at.RecordCompleted? { return; }
      var stopped := Halt(Accounts);
      if stopped { return; }
      FixMintDeadline();
      if running {
        ChooseRoute();
      }
    }

    method RunFromReserve()
      requires Ready(C.Reserve)
      modifies this
      ensures Clean()
      ensures running ==> at == C.RecordCompleted || at == C.Mint || (at == C.Expire && flags.expiryRecovery)
    {
      ReserveOnce();
      if !running || at.RecordCompleted? { return; }
      var stopped := Halt(Step.Reserved);
      if stopped { return; }
      RunToMint();
    }

    /** One whole attempt: afterwards the chains and the files are in a state that the modelled events lead to. */
    method RunFull()
      requires Ready(C.Load)
      modifies this
      ensures Clean()
      ensures running ==> at == C.Expire && flags.expiryRecovery
    {
      RunToRoute();
      if running && at.Cancel? {
        CancelLockedOperation();
      }
      if running && at.Reserve? {
        RunFromReserve();
      }
      if running && at.RecordCompleted? {
        RecordAndFinish();
      }
      if running && at.Mint? {
        RunOnCanton();
        if running {
          ReleaseOnce();
        }
      }
    }
  }

  /** Wherever the program stopped, its state keeps the promises of the coordinator, so every coin is backed. */
  lemma WhereverItStops(p: Workflow)
    requires p.Consistent() && Known.Faithful(p.start)
    ensures Known.Faithful(p.View())
    ensures forall operation :: RailSafety.BackedOperation(p.rail, operation)
    ensures Sums.Sum(RailSafety.OutstandingAmounts(p.rail), RailSafety.Identity) <= p.rail.escrow.vault
  {
    Runs.LeadsToTheRun(p.worlds, p.trace);
    Runs.RunsKeepInv(p.start, p.trace);
    Runs.BackingSurvivesCrashes(p.start, p.trace);
    assert p.View().rail == p.rail;
  }
}

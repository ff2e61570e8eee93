/** An attempt that is left alone collects exactly the votes that a request still lacks. */
module Voting {
  import opened Outcomes
  import E = Escrow
  import S = EscrowSafety
  import Agreement
  import opened OperationJournal
  import opened Rail
  import C = Coordinator
  import Known = CoordinatorSafety
  import opened LeftAlone

  function SlotOf(args: E.ApproveArgs): E.Slot {
    E.Slot(args.operation, args.direction)
  }

  /**
   * The approval on chain is on this very request and lacks exactly the votes that are still wanted; or none is live,
   * and both are wanted.
   */
  predicate VotesLack(s: E.State, args: E.ApproveArgs, first: bool, second: bool) {
    var slot := SlotOf(args);
    if slot in s.approvals && s.now < s.approvals[slot].expiry then
      var a := s.approvals[slot];
      && !a.consumed && a.digest == E.DigestOf(s.config, args) && a.expiry == args.expiry
      && (E.HasBit(a.bitmap, 0) <==> !first) && (E.HasBit(a.bitmap, 1) <==> !second)
    else
      first && second && (slot in s.approvals ==> !s.approvals[slot].consumed)
  }

  /** An approval on chain is unused and on this request; an expired one can only be replaced for a release. */
  predicate ApprovalFits(s: E.State, args: E.ApproveArgs) {
    var slot := SlotOf(args);
    slot in s.approvals ==>
      && !s.approvals[slot].consumed
      && (if s.now < s.approvals[slot].expiry
          then s.approvals[slot].digest == E.DigestOf(s.config, args) && s.approvals[slot].expiry == args.expiry
          else args.direction == E.DIRECTION_RELEASE)
  }

  lemma NeededIsWhatLacks(s: E.State, args: E.ApproveArgs)
    requires ApprovalFits(s, args) && s.now < args.expiry
    ensures Agreement.Needed(s, args).Ok?
    ensures VotesLack(s, args, Agreement.Needed(s, args).value.0, Agreement.Needed(s, args).value.1)
  {
  }

  /** Only approvals and signatures differ, and at the second mint vote the status of the receipt. */
  predicate OnlyVotes(s: E.State, t: E.State, args: E.ApproveArgs) {
    && t == s.(approvals := t.approvals, signed := t.signed, receipts := t.receipts)
    && t.receipts.Keys == s.receipts.Keys
    && (args.direction != E.DIRECTION_MINT ==> t.receipts == s.receipts)
  }

  lemma OnlyVotesAdds(s: E.State, t: E.State, u: E.State, args: E.ApproveArgs)
    requires OnlyVotes(s, t, args) && OnlyVotes(t, u, args)
    ensures OnlyVotes(s, u, args)
  {
  }

  lemma WantedVoteIsAccepted(s: E.State, args: E.ApproveArgs, index: nat, second: bool)
    requires S.Inv(s) && Agreement.Matches(s, args) && index < 2 && s.now < args.expiry
    requires Agreement.VoteOf(s, args, index) in s.signed
    requires VotesLack(s, args, index == 0, if index == 0 then second else true)
    ensures Agreement.Accepts(s, args, index)
  {
    Agreement.WhenAVoteLands(s, args, index);
  }

  lemma AcceptedVoteIsOnlyThat(s: E.State, args: E.ApproveArgs, index: nat)
    requires S.Inv(s) && index < 2 && index < |s.config.attesters| && Agreement.Accepts(s, args, index)
    ensures OnlyVotes(s, E.ApproveOperation(s, args, Agreement.VoteOf(s, args, index)).value, args)
  {
    S.ApproveOutcome(s, args, Agreement.VoteOf(s, args, index));
  }

  /** Submitting a wanted vote leaves only the other one wanted. */
  lemma VoteFillsIn(s: E.State, args: E.ApproveArgs, index: nat, second: bool)
    requires S.Inv(s) && Agreement.Matches(s, args) && index < 2 && s.now < args.expiry
    requires Agreement.VoteOf(s, args, index) in s.signed
    requires VotesLack(s, args, index == 0, if index == 0 then second else true) && (index == 1 ==> !second)
    ensures Agreement.Accepts(s, args, index)
    ensures var t := E.ApproveOperation(s, args, Agreement.VoteOf(s, args, index)).value;
      VotesLack(t, args, false, second) && Agreement.Matches(t, args) && OnlyVotes(s, t, args)
  {
    WantedVoteIsAccepted(s, args, index, second);
    AcceptedVoteIsOnlyThat(s, args, index);
    Agreement.AfterAVote(s, args, index);
  }

  lemma TwoAreThere(s: E.State, args: E.ApproveArgs)
    requires S.Inv(s) && VotesLack(s, args, false, false)
    ensures C.TwoOfThree(s, args) && S.Votes(s, SlotOf(args)) >= 2
  {
    var slot := SlotOf(args);
    assert S.ApprovalGood(s.config, s.signed, s.receipts[slot.operation], slot, s.approvals[slot]);
    Known.OnesAreSigners(s.approvals[slot].bitmap);
  }

  /** The request can be voted on: it is on the receipt's terms and has not expired. */
  predicate Votable(r: State, args: E.ApproveArgs) {
    Agreement.Matches(r.escrow, args) && r.escrow.now < args.expiry
  }

  /** Nothing but votes changed on the chains. */
  predicate VotedFrom(r: State, t: State, args: E.ApproveArgs) {
    t == r.(escrow := t.escrow) && OnlyVotes(r.escrow, t.escrow, args)
  }

  lemma SigningLeaves(s: E.State, args: E.ApproveArgs, index: nat, first: bool, second: bool)
    requires index < |s.config.attesters| && VotesLack(s, args, first, second) && Agreement.Matches(s, args)
    ensures var t := E.Step(s, E.Sign(Agreement.VoteOf(s, args, index)));
      && VotesLack(t, args, first, second) && Agreement.Matches(t, args) && OnlyVotes(s, t, args)
      && Agreement.VoteOf(t, args, index) in t.signed && Agreement.VoteOf(t, args, index) == Agreement.VoteOf(s, args, index)
  {
  }

  /** The attester whose turn it is signs. */
  lemma Signs(w: C.World, op: OperationId, flags: C.Flags, mem: Journal, args: E.ApproveArgs, first: bool, second: bool, durations: C.Durations)
    returns (t: C.World)
    requires WorksAt(w, op, flags, mem, C.Voting(args, first, second)) && (first || second) && |w.rail.escrow.config.attesters| == 3
    requires VotesLack(w.rail.escrow, args, first, second) && Votable(w.rail, args)
    ensures ComesTo(w, op, durations, t)
    ensures var index := if first then 0 else 1;
      && WorksAt(t, op, flags, mem, C.Submitting(args, index, first && second))
      && Agreement.VoteOf(w.rail.escrow, args, index) in t.rail.escrow.signed
    ensures VotesLack(t.rail.escrow, args, first, second) && Votable(t.rail, args) && VotedFrom(w.rail, t.rail, args)
    ensures C.DiskOf(t, op) == C.DiskOf(w, op)
  {
    var index := if first then 0 else 1;
    var m := C.Act(Solana(E.Sign(Agreement.VoteOf(w.rail.escrow, args, index))), mem, C.Submitting(args, index, first && second));
    SigningLeaves(w.rail.escrow, args, index, first, second);
    t := MovesOn(w, op, flags, mem, C.Voting(args, first, second), durations, m);
  }

  lemma AcceptedVoteIsTaken(r: State, args: E.ApproveArgs, vote: E.Signature)
    requires E.ApproveOperation(r.escrow, args, vote).Ok?
    ensures Take(r, Solana(E.SubmitApprove(args, vote))) == r.(escrow := E.ApproveOperation(r.escrow, args, vote).value)
  {
  }

  /** The vote lands, and the attempt goes on to the other one. */
  lemma Submits(w: C.World, op: OperationId, flags: C.Flags, mem: Journal, args: E.ApproveArgs, index: nat, second: bool, durations: C.Durations)
    returns (t: C.World)
    requires WorksAt(w, op, flags, mem, C.Submitting(args, index, second)) && index < 2 && (index == 1 ==> !second)
    requires S.Inv(w.rail.escrow) && Votable(w.rail, args)
    requires Agreement.VoteOf(w.rail.escrow, args, index) in w.rail.escrow.signed
    requires VotesLack(w.rail.escrow, args, index == 0, if index == 0 then second else true)
    ensures ComesTo(w, op, durations, t) && WorksAt(t, op, flags, mem, C.Voting(args, false, second))
    ensures VotesLack(t.rail.escrow, args, false, second) && Votable(t.rail, args) && VotedFrom(w.rail, t.rail, args)
    ensures C.DiskOf(t, op) == C.DiskOf(w, op)
  {
    VoteFillsIn(w.rail.escrow, args, index, second);
    var vote := Agreement.VoteOf(w.rail.escrow, args, index);
    AcceptedVoteIsTaken(w.rail, args, vote);
    var m := C.Act(Solana(E.SubmitApprove(args, vote)), mem, C.Voting(args, false, second));
    t := MovesOn(w, op, flags, mem, C.Submitting(args, index, second), durations, m);
  }

  lemma Casts(w: C.World, op: OperationId, flags: C.Flags, mem: Journal, args: E.ApproveArgs, durations: C.Durations) returns (t: C.World)
    requires WorksAt(w, op, flags, mem, C.Voting(args, false, false)) && |w.rail.escrow.config.attesters| == 3
    ensures ComesTo(w, op, durations, t) && WorksAt(t, op, flags, mem, C.VotesCast(args)) && t.rail == w.rail
    ensures C.DiskOf(t, op) == C.DiskOf(w, op)
  {
    t := MovesOn(w, op, flags, mem, C.Voting(args, false, false), durations, C.Goto(mem, C.VotesCast(args)));
  }

  /** One vote: signed, submitted, landed. */
  lemma CastsOne(w: C.World, op: OperationId, flags: C.Flags, mem: Journal, args: E.ApproveArgs, first: bool, second: bool, durations: C.Durations)
    returns (t: C.World)
    requires Known.Faithful(w) && WorksAt(w, op, flags, mem, C.Voting(args, first, second)) && (first || second)
    requires VotesLack(w.rail.escrow, args, first, second) && Votable(w.rail, args)
    ensures ComesTo(w, op, durations, t) && WorksAt(t, op, flags, mem, C.Voting(args, false, first && second))
    ensures VotesLack(t.rail.escrow, args, false, first && second) && Votable(t.rail, args) && VotedFrom(w.rail, t.rail, args)
    ensures C.DiskOf(t, op) == C.DiskOf(w, op)
  {
    var v := Signs(w, op, flags, mem, args, first, second, durations);
    StaysFaithful(w, op, durations, v);
    t := Submits(v, op, flags, mem, args, if first then 0 else 1, first && second, durations);
    OnlyVotesAdds(w.rail.escrow, v.rail.escrow, t.rail.escrow, args);
    ComesOn(w, op, durations, v, t);
  }

  /** From the flags to the votes: each one that is wanted is collected, A before B, and nothing else changes. */
  lemma CollectsVotes(w: C.World, op: OperationId, flags: C.Flags, mem: Journal, args: E.ApproveArgs, first: bool, second: bool, durations: C.Durations)
    returns (t: C.World)
    requires Known.Faithful(w) && WorksAt(w, op, flags, mem, C.Voting(args, first, second))
    requires VotesLack(w.rail.escrow, args, first, second) && Votable(w.rail, args)
    ensures ComesTo(w, op, durations, t) && WorksAt(t, op, flags, mem, C.VotesCast(args))
    ensures VotesLack(t.rail.escrow, args, false, false) && Votable(t.rail, args) && VotedFrom(w.rail, t.rail, args)
    ensures C.DiskOf(t, op) == C.DiskOf(w, op)
    decreases first, second
  {
    if !first && !second {
      t := Casts(w, op, flags, mem, args, durations);
    } else {
      var v := CastsOne(w, op, flags, mem, args, first, second, durations);
      StaysFaithful(w, op, durations, v);
      t := CollectsVotes(v, op, flags, mem, args, false, first && second, durations);
      OnlyVotesAdds(w.rail.escrow, v.rail.escrow, t.rail.escrow, args);
      ComesOn(w, op, durations, v, t);
    }
  }

  /** From the decision to the votes. */
  lemma DecidesAndCollects(w: C.World, op: OperationId, flags: C.Flags, mem: Journal, args: E.ApproveArgs, durations: C.Durations) returns (t: C.World)
    requires Known.Faithful(w) && WorksAt(w, op, flags, mem, C.Decide(args))
    requires ApprovalFits(w.rail.escrow, args) && Votable(w.rail, args)
    ensures ComesTo(w, op, durations, t) && WorksAt(t, op, flags, mem, C.VotesCast(args))
    ensures VotesLack(t.rail.escrow, args, false, false) && Votable(t.rail, args) && VotedFrom(w.rail, t.rail, args)
    ensures C.DiskOf(t, op) == C.DiskOf(w, op)
  {
    NeededIsWhatLacks(w.rail.escrow, args);
    var (first, second) := Agreement.Needed(w.rail.escrow, args).value;
    var v := MovesOn(w, op, flags, mem, C.Decide(args), durations, C.Goto(mem, C.Voting(args, first, second)));
    StaysFaithful(w, op, durations, v);
    t := CollectsVotes(v, op, flags, mem, args, first, second, durations);
    ComesOn(w, op, durations, v, t);
  }
}

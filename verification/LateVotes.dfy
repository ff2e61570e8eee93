/**
 * How a release vote that lands late stops an operation: a run in which new materials are made, signed and saved, the
 * attempt crashes, the next one clears them, and only then the signed vote reaches the chain.
 */
module LateVotes {
  import opened Outcomes
  import opened Sums
  import E = Escrow
  import S = EscrowSafety
  import X = Exposure
  import Agreement
  import opened Recovery
  import opened OperationJournal
  import opened Rail
  import C = Coordinator
  import Known = CoordinatorSafety
  import Runs = CoordinatorRuns
  import opened ReleaseMaterials
  import opened Resumption

  // New materials are signed, and lost sight of ------------------------------------------------------------------

  lemma Reaches(w: C.World, events: seq<C.Event>, v: C.World, e: C.Event, t: C.World)
    requires C.RunAll(w, events) == v && C.Next(v, e) == t
    ensures C.RunAll(w, events + [e]) == t
  {
    OneMore(w, events, e);
  }

  predicate ExpiredUnused(s: E.State, slot: E.Slot) {
    slot in s.approvals && !s.approvals[slot].consumed && s.approvals[slot].expiry <= s.now
  }

  /** The first release approval has expired unused, and the receipt is as the coordinator's requests say. */
  predicate Stalled(w: C.World, op: OperationId) {
    && Rests(w, op) && HasStatus(w.rail, op, E.MintAuthorized) && !Reached(w.disks[op], Released)
    && |w.rail.escrow.config.attesters| == 3
    && ExpiredUnused(w.rail.escrow, ReleaseSlot(op))
    && var receipt := w.rail.escrow.receipts[op];
       && receipt.operation == op && receipt.commitment == CommitmentOf(w.rail.terms[op])
       && receipt.reservation == op && receipt.previous == 0
  }

  function Cleared(j: Journal): Journal {
    j.(releaseExpiry := 0, releaseProof := None)
  }

  function Renewed(w: C.World, op: OperationId, durations: C.Durations): Journal
    requires op in w.disks
  {
    w.disks[op].(releaseExpiry := w.rail.escrow.now + durations.release, releaseProof := Some(w.proofs + 1))
  }

  function Request(w: C.World, op: OperationId, durations: C.Durations): E.ApproveArgs
    requires op in w.disks && op in w.rail.terms
  {
    C.ReleaseArgs(w.rail.terms[op], op, Renewed(w, op, durations))
  }

  function VoteOfA(w: C.World, op: OperationId, durations: C.Durations): E.Signature
    requires op in w.disks && op in w.rail.terms && |w.rail.escrow.config.attesters| == 3
  {
    Agreement.VoteOf(w.rail.escrow, Request(w, op, durations), 0)
  }

  /** Clearing, making materials, deciding, signing; then the attempt crashes before its vote is submitted. */
  function Signing(op: OperationId, durations: C.Durations): seq<C.Event> {
    [C.Run(op, C.AT_ONCE)] + [C.Run(op, durations)] + [C.Run(op, C.AT_ONCE)] + [C.Run(op, C.AT_ONCE)] + [C.Crash(op)]
  }

  /** The new materials are on disk and signed by A, and no attempt is at work. */
  function SignedAndLost(w: C.World, op: OperationId, durations: C.Durations): C.World
    requires Stalled(w, op)
  {
    C.World(Take(w.rail, Solana(E.Sign(VoteOfA(w, op, durations)))), w.disks[op := Renewed(w, op, durations)], w.attempts, w.proofs + 1)
  }

  /** Expired materials are cleared from the attempt, not from the disk. */
  lemma ClearsAtRelease(w: C.World, op: OperationId)
    requires Stalled(w, op)
    ensures C.Next(WithAttempt(w, op, C.Attempt(w.disks[op], C.Release, PLAIN, false)), C.Run(op, C.AT_ONCE))
      == WithAttempt(w, op, C.Attempt(Cleared(w.disks[op]), C.Materials, PLAIN, false))
  {
    var v := WithAttempt(w, op, C.Attempt(w.disks[op], C.Release, PLAIN, false));
    assert C.MoveOf(w.rail, op, v.attempts[op], C.AT_ONCE, w.proofs + 1) == C.Goto(Cleared(w.disks[op]), C.Materials);
    assert v.attempts[op := C.Attempt(Cleared(w.disks[op]), C.Materials, PLAIN, false)]
      == w.attempts[op := C.Attempt(Cleared(w.disks[op]), C.Materials, PLAIN, false)];
  }

  lemma RenewsAndSaves(w: C.World, op: OperationId, durations: C.Durations)
    requires Stalled(w, op)
    ensures C.Next(WithAttempt(w, op, C.Attempt(Cleared(w.disks[op]), C.Materials, PLAIN, false)), C.Run(op, durations))
      == C.World(w.rail, w.disks[op := Renewed(w, op, durations)],
                 w.attempts[op := C.Attempt(Renewed(w, op, durations), C.Decide(Request(w, op, durations)), PLAIN, false)], w.proofs + 1)
  {
    var v := WithAttempt(w, op, C.Attempt(Cleared(w.disks[op]), C.Materials, PLAIN, false));
    var next := C.Attempt(Renewed(w, op, durations), C.Decide(Request(w, op, durations)), PLAIN, false);
    assert v.attempts[op := next] == w.attempts[op := next];
  }

  lemma DecidesOnBoth(v: C.World, op: OperationId, a: C.Attempt)
    requires op in v.rail.terms && op in v.attempts && v.attempts[op] == a && a.at.Decide? && !a.unsaved
    requires a.at.args.operation == op && a.at.args.direction == E.DIRECTION_RELEASE && ExpiredUnused(v.rail.escrow, ReleaseSlot(op))
    ensures C.Next(v, C.Run(op, C.AT_ONCE)) == WithAttempt(v, op, C.Attempt(a.mem, C.Voting(a.at.args, true, true), a.flags, false))
  {
  }

  lemma SignsForA(v: C.World, op: OperationId, a: C.Attempt, args: E.ApproveArgs)
    requires op in v.rail.terms && op in v.attempts && v.attempts[op] == a && a.at == C.Voting(args, true, true) && !a.unsaved
    requires |v.rail.escrow.config.attesters| == 3
    ensures C.Next(v, C.Run(op, C.AT_ONCE)) == WithAttempt(v, op, C.Attempt(a.mem, C.Submitting(args, 0, true), a.flags, false))
      .(rail := Take(v.rail, Solana(E.Sign(Agreement.VoteOf(v.rail.escrow, args, 0)))))
  {
  }

  lemma SignsAndCrashes(w: C.World, op: OperationId, durations: C.Durations)
    requires Stalled(w, op)
    ensures C.RunAll(WithAttempt(w, op, C.Attempt(w.disks[op], C.Release, PLAIN, false)), Signing(op, durations))
      == SignedAndLost(w, op, durations)
  {
    var (j, args) := (Renewed(w, op, durations), Request(w, op, durations));
    var v0 := WithAttempt(w, op, C.Attempt(w.disks[op], C.Release, PLAIN, false));
    var v1 := WithAttempt(w, op, C.Attempt(Cleared(w.disks[op]), C.Materials, PLAIN, false));
    var v2 := C.World(w.rail, w.disks[op := j], w.attempts[op := C.Attempt(j, C.Decide(args), PLAIN, false)], w.proofs + 1);
    var events := [C.Run(op, C.AT_ONCE)] + [C.Run(op, durations)];
    ClearsAtRelease(w, op);
    Reaches(v0, [], v0, C.Run(op, C.AT_ONCE), v1);
    assert [] + [C.Run(op, C.AT_ONCE)] == [C.Run(op, C.AT_ONCE)];
    RenewsAndSaves(w, op, durations);
    Reaches(v0, [C.Run(op, C.AT_ONCE)], v1, C.Run(op, durations), v2);
    SignsThenCrashes(w, op, durations, v2);
    RunsAppend(v0, events, [C.Run(op, C.AT_ONCE)] + [C.Run(op, C.AT_ONCE)] + [C.Crash(op)]);
    assert Signing(op, durations) == events + ([C.Run(op, C.AT_ONCE)] + [C.Run(op, C.AT_ONCE)] + [C.Crash(op)]);
  }

  lemma SignsThenCrashes(w: C.World, op: OperationId, durations: C.Durations, v: C.World)
    requires Stalled(w, op)
    requires v == C.World(w.rail, w.disks[op := Renewed(w, op, durations)],
      w.attempts[op := C.Attempt(Renewed(w, op, durations), C.Decide(Request(w, op, durations)), PLAIN, false)], w.proofs + 1)
    ensures C.RunAll(v, [C.Run(op, C.AT_ONCE)] + [C.Run(op, C.AT_ONCE)] + [C.Crash(op)]) == SignedAndLost(w, op, durations)
  {
    var (j, args) := (Renewed(w, op, durations), Request(w, op, durations));
    DecidesOnBoth(v, op, v.attempts[op]);
    var v1 := WithAttempt(v, op, C.Attempt(j, C.Voting(args, true, true), PLAIN, false));
    Reaches(v, [], v, C.Run(op, C.AT_ONCE), v1);
    assert [] + [C.Run(op, C.AT_ONCE)] == [C.Run(op, C.AT_ONCE)];
    SignsForA(v1, op, v1.attempts[op], args);
    var v2 := WithAttempt(v1, op, C.Attempt(j, C.Submitting(args, 0, true), PLAIN, false))
      .(rail := Take(w.rail, Solana(E.Sign(VoteOfA(w, op, durations)))));
    Reaches(v, [C.Run(op, C.AT_ONCE)], v1, C.Run(op, C.AT_ONCE), v2);
    assert v2.attempts - {op} == w.attempts;
    Reaches(v, [C.Run(op, C.AT_ONCE)] + [C.Run(op, C.AT_ONCE)], v2, C.Crash(op), SignedAndLost(w, op, durations));
  }

  lemma StillStalled(w: C.World, op: OperationId, durations: C.Durations)
    requires Stalled(w, op)
    ensures Stalled(SignedAndLost(w, op, durations), op)
  {
  }

  // The late vote ------------------------------------------------------------------------------------------------

  /** The first attempt renews, signs and crashes; the second clears the renewed materials. */
  function BeforeTheVote(op: OperationId, durations: C.Durations): seq<C.Event> {
    Returning(op, C.AT_ONCE) + Signing(op, durations) + Returning(op, C.AT_ONCE) + [C.Run(op, C.AT_ONCE)]
  }

  function TheVote(w: C.World, op: OperationId, durations: C.Durations): C.Event
    requires Stalled(w, op)
  {
    C.Others(Solana(E.SubmitApprove(Request(w, op, durations), VoteOfA(w, op, durations))))
  }

  lemma LeadsToTheVote(w: C.World, op: OperationId, durations: C.Durations)
    requires Stalled(w, op)
    ensures var lost := SignedAndLost(w, op, durations);
      C.RunAll(w, BeforeTheVote(op, durations))
      == WithAttempt(lost, op, C.Attempt(Cleared(Renewed(w, op, durations)), C.Materials, PLAIN, false))
  {
    var lost := SignedAndLost(w, op, durations);
    ReturnsToTheRelease(w, op, C.AT_ONCE);
    SignsAndCrashes(w, op, durations);
    StillStalled(w, op, durations);
    ReturnsToTheRelease(lost, op, C.AT_ONCE);
    ClearsAtRelease(lost, op);
    RunsAppend(w, Returning(op, C.AT_ONCE), Signing(op, durations));
    RunsAppend(w, Returning(op, C.AT_ONCE) + Signing(op, durations), Returning(op, C.AT_ONCE));
    OneMore(w, Returning(op, C.AT_ONCE) + Signing(op, durations) + Returning(op, C.AT_ONCE), C.Run(op, C.AT_ONCE));
  }

  lemma TheVoteIsAccepted(w: C.World, op: OperationId, durations: C.Durations)
    requires Stalled(w, op) && S.Inv(w.rail.escrow) && durations.release > 0
    ensures var lost := SignedAndLost(w, op, durations);
      E.ApproveOperation(lost.rail.escrow, Request(w, op, durations), VoteOfA(w, op, durations)).Ok?
  {
    S.IndexOfAttester(w.rail.escrow.config, 0);
    var approval := w.rail.escrow.approvals[ReleaseSlot(op)];
    assert S.ApprovalGood(w.rail.escrow.config, w.rail.escrow.signed, w.rail.escrow.receipts[op], ReleaseSlot(op), approval);
    assert !E.HasBit(0, 0);
  }

  /**
   * From every faithful world in which a release has stalled on an expired approval there is a run, without any act
   * of others, to an attempt that has cleared the materials A has signed. If that signature lands now, which the
   * program accepts, then the attempt is refused for the digest of its newer materials.
   */
  lemma LateVoteStopsARelease(w: C.World, op: OperationId, durations: C.Durations)
    requires Known.Faithful(w) && WrittenAhead(w) && Stalled(w, op) && durations.release > 0
    ensures var (events, vote) := (BeforeTheVote(op, durations), TheVote(w, op, durations));
      var cleared := C.RunAll(w, events);
      && Known.Faithful(cleared) && WrittenAhead(cleared) && AboutToRenew(cleared, op)
      && OutsideVote(cleared.rail, vote) && !Harmless(cleared, vote)
      && RefusedForItsDigest(C.RunAll(w, events + [vote] + [C.Run(op, C.AT_ONCE)]), op)
  {
    var (events, vote) := (BeforeTheVote(op, durations), TheVote(w, op, durations));
    var cleared := C.RunAll(w, events);
    AheadUntilTheVote(w, op, durations);
    LeadsToTheVote(w, op, durations);
    TheVoteIsAccepted(w, op, durations);
    assert OutsideVote(cleared.rail, vote);
    LateVoteIsFatalExactly(cleared, op, Request(w, op, durations), VoteOfA(w, op, durations), C.AT_ONCE);
    Reaches(w, events, cleared, vote, C.Next(cleared, vote));
    Reaches(w, events + [vote], C.Next(cleared, vote), C.Run(op, C.AT_ONCE), C.Next(C.Next(cleared, vote), C.Run(op, C.AT_ONCE)));
  }

  lemma AheadUntilTheVote(w: C.World, op: OperationId, durations: C.Durations)
    requires Known.Faithful(w) && WrittenAhead(w)
    ensures Known.Faithful(C.RunAll(w, BeforeTheVote(op, durations))) && WrittenAhead(C.RunAll(w, BeforeTheVote(op, durations)))
  {
    var events := BeforeTheVote(op, durations);
    SoleSubmitterIsHarmless(w, events);
    MaterialsAreWrittenAhead(w, events);
    Runs.RunsKeepInv(w, events);
  }

  // Such a world --------------------------------------------------------------------------------------------------

  const OP: OperationId := 7
  const TERMS := Terms(5, 3, 21, 22, 31)
  const CONFIG := E.Config(1, [11, 12, 13])
  const RECORD := Journal(Some(Redeemed), 50, Some(1), 90, Some(2))

  function MintDigest(): E.Digest {
    E.DigestOf(CONFIG, C.MintArgs(TERMS, OP, RECORD))
  }

  function FirstReleaseDigest(): E.Digest {
    E.DigestOf(CONFIG, C.ReleaseArgs(TERMS, OP, RECORD))
  }

  /** Minted with the votes of A and B; A has also voted on a release, which expired at 90. */
  function StalledEscrow(): E.State {
    E.State(CONFIG, 100,
            map[OP := E.Receipt(OP, 21, E.Commitment(5, 3), OP, 0, 50, 1, E.MintAuthorized)],
            map[E.Slot(OP, E.DIRECTION_MINT) := E.Approval(OP, E.DIRECTION_MINT, MintDigest(), 3, false, 50),
                E.Slot(OP, E.DIRECTION_RELEASE) := E.Approval(OP, E.DIRECTION_RELEASE, FirstReleaseDigest(), 1, false, 90)],
            5, [],
            {E.Signature(11, MintDigest()), E.Signature(12, MintDigest()), E.Signature(11, FirstReleaseDigest())})
  }

  function StalledExposure(): X.State {
    X.State(9, 0, 5, map[31 := 9], map[31 := 5], map[OP := X.Reservation(X.Finalized, 31, 5, true)])
  }

  function StalledWorld(): C.World {
    C.World(State(map[OP := TERMS], StalledEscrow(), StalledExposure(), map[OP := Stages(true, true, true, true)]),
            map[OP := RECORD], map[], 2)
  }

  lemma SumOfOne<K(!new), V>(k: K, v: V, f: V -> int)
    ensures Sum(map[k := v], f) == f(v)
  {
    SumInsert(map[], f, k, v);
    assert map[][k := v] == map[k := v];
  }

  lemma StalledEscrowIsGood()
    ensures S.Inv(StalledEscrow())
  {
    var s := StalledEscrow();
    SumOfOne(OP, s.receipts[OP], S.HeldPart);
    assert S.ReceiptGood(s, OP);
  }

  lemma StalledExposureIsGood()
    ensures X.Inv(StalledExposure())
  {
    var z := StalledExposure();
    SumOfOne(OP, z.reservations[OP], X.ReservedPart);
    SumOfOne(OP, z.reservations[OP], X.ActivePart);
    SumOfOne(OP, z.reservations[OP], X.ClientPart(31));
    SumOfOne(31, z.usage[31], X.Amount);
  }

  lemma StalledRailIsGood()
    ensures Rail.Inv(StalledWorld().rail)
  {
    var r := StalledWorld().rail;
    StalledEscrowIsGood();
    StalledExposureIsGood();
    forall s | s in r.escrow.signed && Honest(r, s.attester) ensures SignAllowed(r, s.digest) {
    }
  }

  lemma StalledJournalIsTrue()
    ensures Known.JournalTrue(StalledWorld().rail, OP, RECORD)
  {
    var r := StalledWorld().rail;
    forall k: nat | k <= Rank(Redeemed) ensures Known.Shows(r, OP, k) {
    }
    Known.UpToFrom(r, OP, Rank(Redeemed));
  }

  /** A release can stall, so a late vote can stop one. */
  lemma SomeReleaseStalls()
    ensures Known.Faithful(StalledWorld()) && WrittenAhead(StalledWorld()) && Stalled(StalledWorld(), OP)
  {
    StalledRailIsGood();
    StalledJournalIsTrue();
    StalledWorldIsStalled();
  }

  lemma StalledWorldIsStalled()
    ensures WrittenAhead(StalledWorld()) && Stalled(StalledWorld(), OP)
  {
  }
}

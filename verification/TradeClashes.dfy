/**
 * What a root that is not free leads to: two trades with one settlement reference. So free roots are not only enough
 * to keep trades apart, as long as the deadlines to allocate are open they are needed.
 */
module TradeClashes {
  import opened Outcomes
  import opened CantonLedger
  import opened CantonRuns
  import opened CantonBacking
  import opened TradeIsolation

  lemma {:induction false} RunsAppend(s: State, first: seq<Event>, second: seq<Event>)
    ensures Run(s, first + second) == Run(Run(s, first), second)
    decreases |second|
  {
    if second == [] {
      assert first + second == first;
    } else {
      var init := second[..|second| - 1];
      assert (first + second)[..|first + second| - 1] == first + init;
      RunsAppend(s, first, init);
    }
  }

  lemma FirstThen(s: State, e: Event, rest: seq<Event>)
    ensures Run(s, [e] + rest) == Run(After(s, e), rest)
  {
    RunsAppend(s, [e], rest);
    assert [e][..0] == [];
    assert Run(s, [e]) == After(s, e);
  }

  // A proposal can become a trade ----------------------------------------------------------------------------------

  function Missing(p: Proposal): nat {
    (if p.terms.seller in p.approvers then 0 else 1) + (if p.terms.buyer in p.approvers then 0 else 1)
  }

  /** The trade of this root and no other fact came, and no other contract went. */
  ghost predicate OnlyTrades(s: State, t: State, cid: Cid, terms: Terms, root: Cid) {
    && t.now == s.now && s.next <= t.next
    && (exists made :: t.log == s.log + [Trading(made, Trade(terms, root))])
    && (forall other :: other in s.active && other != cid ==> other in t.active && t.active[other] == s.active[other])
  }

  predicate StillOpen(s: State, cid: Cid) {
    ProposalAt(s, cid) && s.now < s.active[cid].proposal.terms.allocateBefore
  }

  predicate NothingIsPublished(events: seq<Event>) {
    forall e :: e in events ==> !e.Publishing?
  }

  /** The missing party approves. */
  lemma ApproveNext(s: State, cid: Cid) returns (e: Event)
    requires IdsAreOld(s) && ContractsAreEnsured(s.active) && StillOpen(s, cid) && Missing(s.active[cid].proposal) > 0
    ensures !e.Publishing?
    ensures var t := After(s, e);
      && IdsAreOld(t) && ContractsAreEnsured(t.active) && StillOpen(t, s.next)
      && t.now == s.now && t.next == s.next + 1 && t.log == s.log
      && t.active[s.next].proposal.terms == s.active[cid].proposal.terms && RootAt(t, s.next) == RootAt(s, cid)
      && Missing(t.active[s.next].proposal) < Missing(s.active[cid].proposal)
      && (forall other :: other in s.active && other != cid ==> other in t.active && t.active[other] == s.active[other])
  {
    var p := s.active[cid].proposal;
    var approver := if p.terms.seller in p.approvers then p.terms.buyer else p.terms.seller;
    e := Dvp(DoAccept(cid, approver), {approver});
    assert Ensured(Proposed(p));
    assert Accept(s, cid, approver, {approver}).Ok?;
  }

  lemma InitiateNow(s: State, cid: Cid) returns (e: Event)
    requires IdsAreOld(s) && ContractsAreEnsured(s.active) && StillOpen(s, cid) && Missing(s.active[cid].proposal) == 0
    ensures !e.Publishing? && OnlyTrades(s, After(s, e), cid, s.active[cid].proposal.terms, RootAt(s, cid))
  {
    var p := s.active[cid].proposal;
    e := Dvp(DoInitiate(cid), {p.terms.venue});
    assert Ensured(Proposed(p));
    assert Initiate(s, cid, {p.terms.venue}).Ok?;
    assert After(s, e).log == s.log + [Trading(s.next, Trade(p.terms, RootOf(cid, p)))];
  }

  lemma {:induction false} BecomesATrade(s: State, cid: Cid) returns (events: seq<Event>)
    requires IdsAreOld(s) && ContractsAreEnsured(s.active) && StillOpen(s, cid)
    ensures NothingIsPublished(events)
    ensures OnlyTrades(s, Run(s, events), cid, s.active[cid].proposal.terms, RootAt(s, cid))
    decreases Missing(s.active[cid].proposal)
  {
    if Missing(s.active[cid].proposal) == 0 {
      var e := InitiateNow(s, cid);
      events := [e];
      FirstThen(s, e, []);
      assert [e] + [] == [e];
    } else {
      var e := ApproveNext(s, cid);
      var rest := BecomesATrade(After(s, e), s.next);
      events := [e] + rest;
      FirstThen(s, e, rest);
    }
  }

  // Clashes ----------------------------------------------------------------------------------------------------------

  lemma TwoOfOneRoot(log: seq<Fact>, i: nat, j: nat)
    requires i < j < |log| && log[i].Trading? && log[j].Trading? && log[i].trade.proposal == log[j].trade.proposal
    ensures !TradesAreApart(log)
  {
  }

  /** A proposal whose root a trade already has becomes a second trade of that root. */
  lemma UsedRootClashes(s: State, cid: Cid, f: Fact) returns (events: seq<Event>)
    requires Inv(s) && StillOpen(s, cid) && f in s.log && f.Trading? && f.trade.proposal == RootAt(s, cid)
    ensures NothingIsPublished(events) && !TradesAreApart(Run(s, events).log)
  {
    events := BecomesATrade(s, cid);
    var i :| 0 <= i < |s.log| && s.log[i] == f;
    TwoOfOneRoot(Run(s, events).log, i, |s.log|);
  }

  /** Two proposals of one root become two trades of it. */
  lemma SharedRootClashes(s: State, cid: Cid, other: Cid) returns (events: seq<Event>)
    requires Inv(s) && cid != other && StillOpen(s, cid) && StillOpen(s, other) && RootAt(s, cid) == RootAt(s, other)
    ensures NothingIsPublished(events) && !TradesAreApart(Run(s, events).log)
  {
    var first := BecomesATrade(s, cid);
    var t := Run(s, first);
    RunKeepsInv(s, first);
    var second := UsedRootClashes(t, other, t.log[|s.log|]);
    events := first + second;
    RunsAppend(s, first, second);
  }

  // Roots that are later ids -----------------------------------------------------------------------------------------

  function Filler(): Event {
    Publishing(Rules(Treasury, InstrumentId(0, "")), {0})
  }

  function Fill(k: nat): seq<Event> {
    seq(k, _ => Filler())
  }

  lemma FillingOnce(s: State)
    ensures After(s, Filler()) == s.(active := s.active[s.next := Rules(Treasury, InstrumentId(0, ""))], next := s.next + 1)
  {
  }

  /** Publishing other contracts moves the next id on and touches nothing. */
  lemma {:induction false} Filling(s: State, k: nat)
    requires IdsAreOld(s)
    ensures var t := Run(s, Fill(k));
      && t.next == s.next + k && t.now == s.now
      && (forall cid :: cid in s.active ==> cid in t.active && t.active[cid] == s.active[cid])
  {
    if k == 0 {
      assert Fill(0) == [];
    } else {
      Filling(s, k - 1);
      assert Fill(k)[..k - 1] == Fill(k - 1);
      FillingOnce(Run(s, Fill(k - 1)));
    }
  }

  predicate AllUnmarked(events: seq<Event>) {
    forall e :: e in events ==> StartsUnmarked(e)
  }

  /** The same terms proposed anew, by the seller. */
  lemma ProposeAnew(s: State, cid: Cid) returns (e: Event)
    requires Inv(s) && StillOpen(s, cid)
    ensures StartsUnmarked(e)
    ensures var t := After(s, e);
      && StillOpen(t, s.next) && RootAt(t, s.next) == s.next
      && (cid < s.next ==> StillOpen(t, cid) && RootAt(t, cid) == RootAt(s, cid))
  {
    var p := Proposal(s.active[cid].proposal.terms, [], None);
    e := Publishing(Proposed(p), {p.terms.seller});
    assert Ensured(s.active[cid]) && Ensured(Proposed(p));
    assert Publish(s, Proposed(p), {p.terms.seller}).Ok?;
  }

  /** A proposal whose root is an id still to come clashes with the one that will get that id. */
  lemma LaterRootClashes(s: State, cid: Cid) returns (events: seq<Event>)
    requires Inv(s) && StillOpen(s, cid) && s.next <= RootAt(s, cid)
    ensures AllUnmarked(events) && !TradesAreApart(Run(s, events).log)
  {
    var root := RootAt(s, cid);
    var fill := Fill(root - s.next);
    Filling(s, root - s.next);
    RunKeepsInv(s, fill);
    var filled := Run(s, fill);
    var e := ProposeAnew(filled, cid);
    StepKeepsInv(filled, e);
    var rest := SharedRootClashes(After(filled, e), root, cid);
    events := fill + ([e] + rest);
    FirstThen(filled, e, rest);
    RunsAppend(s, fill, [e] + rest);
  }

  // The exact condition ----------------------------------------------------------------------------------------------

  /** The deadlines to allocate of the new proposal and of those it shares its root with are still ahead. */
  ghost predicate DeadlinesAreOpen(s: State, p: Proposal) {
    && s.now < p.terms.allocateBefore
    && forall cid :: ProposalAt(s, cid) && RootAt(s, cid) == RootOf(s.next, p) ==> StillOpen(s, cid)
  }

  lemma TakenRootClashes(s: State, p: Proposal) returns (events: seq<Event>)
    requires Inv(s) && Isolated(s) && Create(s, Proposed(p)).Ok? && DeadlinesAreOpen(s, p) && !RootIsFree(s, p)
    ensures AllUnmarked(events) && !TradesAreApart(Run(Create(s, Proposed(p)).value, events).log)
  {
    var t := Create(s, Proposed(p)).value;
    var root := RootOf(s.next, p);
    PublishedKeepsInv(s, p);
    assert StillOpen(t, s.next) && RootAt(t, s.next) == root;
    if root > s.next {
      events := LaterRootClashes(t, s.next);
    } else if exists cid: Cid :: ProposalAt(s, cid) && RootAt(s, cid) == root {
      var cid: Cid :| ProposalAt(s, cid) && RootAt(s, cid) == root;
      assert StillOpen(s, cid) && cid < s.next;
      events := SharedRootClashes(t, s.next, cid);
    } else {
      var f :| f in s.log && f.Trading? && f.trade.proposal == root;
      events := UsedRootClashes(t, s.next, f);
    }
  }

  lemma PublishedKeepsInv(s: State, p: Proposal)
    requires Inv(s) && Create(s, Proposed(p)).Ok?
    ensures Inv(Create(s, Proposed(p)).value)
  {
    var e := Publishing(Proposed(p), Signatories(Proposed(p)));
    StepKeepsInv(s, e);
    assert After(s, e) == Create(s, Proposed(p)).value;
  }

  /**
   * As long as its deadlines are open, a proposal has a free root if and only if no run after it, in which later
   * proposals start without a trade id, ever makes two trades of one root.
   */
  lemma FreeRootsAreNeeded(s: State, p: Proposal)
    requires Inv(s) && Isolated(s) && Create(s, Proposed(p)).Ok? && DeadlinesAreOpen(s, p)
    ensures RootIsFree(s, p) <==>
      forall events: seq<Event> :: AllUnmarked(events) ==> TradesAreApart(Run(Create(s, Proposed(p)).value, events).log)
  {
    var t := Create(s, Proposed(p)).value;
    if RootIsFree(s, p) {
      ProposingKeepsIsolation(s, p);
      PublishedKeepsInv(s, p);
      forall events: seq<Event> | AllUnmarked(events) ensures TradesAreApart(Run(t, events).log) {
        UnmarkedProposalsJoinApart(t, events);
        RunKeepsIsolation(t, events);
      }
    } else {
      var events := TakenRootClashes(s, p);
      assert AllUnmarked(events) && !TradesAreApart(Run(t, events).log);
    }
  }

  /** Two trades of one root and the same terms expect the same allocations. */
  lemma SameTermsSameAllocation(t: Trade, u: Trade, legId: LegId)
    requires t.proposal == u.proposal
    ensures SettlementInfo(t).reference == SettlementInfo(u).reference
    ensures t.terms == u.terms ==> ExpectedAllocation(t, legId) == ExpectedAllocation(u, legId)
  {
  }
}

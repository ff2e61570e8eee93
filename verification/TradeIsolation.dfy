/** Trades stay apart: one per root proposal, none sharing an allocation, and both legs of each move together. */
module TradeIsolation {
  import opened Outcomes
  import opened CantonLedger
  import opened CantonRuns
  import opened CantonBacking
  import opened CantonGrowth
  import opened DvpSettlement

  /** Transfers are executed by settlements only. */
  predicate ExecutesBySettlement(e: Event) {
    e.Token? ==> !e.token.DoExecute?
  }

  predicate ProposalAt(s: State, cid: Cid) {
    cid in s.active && s.active[cid].Proposed?
  }

  function RootAt(s: State, cid: Cid): Cid
    requires ProposalAt(s, cid)
  {
    RootOf(cid, s.active[cid].proposal)
  }

  /** The stream records that this trade was made. */
  predicate Made(log: seq<Fact>, cid: Cid, t: Trade) {
    Trading(cid, t) in log
  }

  ghost predicate RootsAreOld(s: State) {
    && (forall cid :: ProposalAt(s, cid) ==> RootAt(s, cid) < s.next)
    && (forall f :: f in s.log && f.Trading? ==> f.trade.proposal < s.next)
  }

  ghost predicate RootsAreDistinct(s: State) {
    forall cid, other :: (ProposalAt(s, cid) && ProposalAt(s, other) && RootAt(s, cid) == RootAt(s, other)) ==> cid == other
  }

  ghost predicate RootsAreUnused(s: State) {
    forall cid, f :: ProposalAt(s, cid) && f in s.log && f.Trading? ==> f.trade.proposal != RootAt(s, cid)
  }

  /** No two trades of the stream come from the same root. */
  predicate TradesAreApart(log: seq<Fact>) {
    forall i, j :: 0 <= i < j < |log| && log[i].Trading? && log[j].Trading? ==> log[i].trade.proposal != log[j].trade.proposal
  }

  ghost predicate TradesAreMade(s: State) {
    forall cid :: cid in s.active && s.active[cid].Agreed? ==> Made(s.log, cid, s.active[cid].trade)
  }

  ghost predicate Isolated(s: State) {
    && IdsAreOld(s)
    && RootsAreOld(s)
    && RootsAreDistinct(s)
    && RootsAreUnused(s)
    && TradesAreApart(s.log)
    && TradesAreMade(s)
  }

  // Which proposals may join -------------------------------------------------------------------------------------

  /** No active proposal and no trade made has the root that this proposal would get, and the root is no later id. */
  ghost predicate RootIsFree(s: State, p: Proposal) {
    var root := RootOf(s.next, p);
    && root <= s.next
    && (forall cid :: ProposalAt(s, cid) ==> RootAt(s, cid) != root)
    && (forall f :: f in s.log && f.Trading? ==> f.trade.proposal != root)
  }

  /** A proposal that this transaction would publish has a free root. */
  ghost predicate JoinsApart(s: State, e: Event) {
    e.Publishing? && e.contract.Proposed? && Step(s, e).Ok? ==> RootIsFree(s, e.contract.proposal)
  }

  ghost predicate AlwaysJoinsApart(s: State, events: seq<Event>) {
    forall k :: 0 <= k < |events| ==> JoinsApart(Run(s, events[..k]), events[k])
  }

  /** A proposal without a trade id of its own always has a free root. */
  lemma OwnRootIsFree(s: State, p: Proposal)
    requires Isolated(s) && p.root.None?
    ensures RootIsFree(s, p)
  {
  }

  // Steps ------------------------------------------------------------------------------------------------------

  lemma OtherKindsKeepIsolation(s: State, t: State, kinds: set<Kind>)
    requires Isolated(s) && Touches(s, t, kinds) && DealKind !in kinds
    ensures Isolated(t)
  {
    forall cid | ProposalAt(t, cid) ensures ProposalAt(s, cid) && RootAt(t, cid) == RootAt(s, cid) {
      assert KindOf(t.active[cid]) == DealKind;
    }
    forall f | f in t.log && f.Trading? ensures f in s.log {
      var i :| 0 <= i < |t.log| && t.log[i] == f;
      assert FactKind(f) == DealKind;
      assert i < |s.log|;
    }
    forall i | 0 <= i < |t.log| && t.log[i].Trading? ensures i < |s.log| && t.log[i] == s.log[i] {
      assert FactKind(t.log[i]) == DealKind;
    }
    forall cid | cid in t.active && t.active[cid].Agreed? ensures Made(t.log, cid, t.active[cid].trade) {
      assert KindOf(t.active[cid]) == DealKind;
      assert cid in s.active && Made(s.log, cid, s.active[cid].trade);
    }
  }

  lemma ConsumingKeepsIsolation(s: State, cid: Cid)
    requires Isolated(s)
    ensures Isolated(Consume(s, cid))
  {
    var t := Consume(s, cid);
    forall other | ProposalAt(t, other) ensures ProposalAt(s, other) && RootAt(t, other) == RootAt(s, other) {
    }
  }

  lemma ProposingKeepsIsolation(s: State, p: Proposal)
    requires Isolated(s) && Create(s, Proposed(p)).Ok? && RootIsFree(s, p)
    ensures Isolated(Create(s, Proposed(p)).value)
  {
    var t := Create(s, Proposed(p)).value;
    forall cid | ProposalAt(t, cid) && cid != s.next ensures ProposalAt(s, cid) && RootAt(t, cid) == RootAt(s, cid) {
    }
  }

  /** A proposal may join exactly when its root is free. */
  lemma ProposingIsApartExactly(s: State, p: Proposal)
    requires Isolated(s) && Create(s, Proposed(p)).Ok?
    ensures Isolated(Create(s, Proposed(p)).value) <==> RootIsFree(s, p)
  {
    var t := Create(s, Proposed(p)).value;
    if RootIsFree(s, p) {
      ProposingKeepsIsolation(s, p);
    } else if Isolated(t) {
      assert ProposalAt(t, s.next) && RootAt(t, s.next) == RootOf(s.next, p);
      forall cid | ProposalAt(s, cid) ensures RootAt(s, cid) != RootOf(s.next, p) {
        assert ProposalAt(t, cid) && RootAt(t, cid) == RootAt(s, cid);
      }
    }
  }

  lemma AcceptKeepsIsolation(s: State, cid: Cid, approver: Party, authority: set<Party>)
    requires Isolated(s) && Accept(s, cid, approver, authority).Ok?
    ensures Isolated(Accept(s, cid, approver, authority).value)
  {
    var p := s.active[cid].proposal;
    ConsumingKeepsIsolation(s, cid);
    assert ProposalAt(s, cid) && RootAt(s, cid) == RootOf(cid, p);
    var s1 := Consume(s, cid);
    forall other | ProposalAt(s1, other) ensures RootAt(s1, other) != RootOf(cid, p) {
      assert ProposalAt(s, other) && RootAt(s1, other) == RootAt(s, other);
    }
    ProposingKeepsIsolation(s1, p.(approvers := p.approvers + [approver], root := Some(RootOf(cid, p))));
  }

  lemma RecordingATrade(s: State, cid: Cid, t: Trade)
    requires Isolated(s) && t.proposal < s.next
    requires forall f :: f in s.log && f.Trading? ==> f.trade.proposal != t.proposal
    requires forall other :: ProposalAt(s, other) ==> RootAt(s, other) != t.proposal
    ensures Isolated(Record(s, Trading(cid, t)))
  {
    var u := Record(s, Trading(cid, t));
    forall other | ProposalAt(u, other) ensures ProposalAt(s, other) && RootAt(u, other) == RootAt(s, other) {
    }
    forall other | other in u.active && u.active[other].Agreed? ensures Made(u.log, other, u.active[other].trade) {
      assert Made(s.log, other, s.active[other].trade);
    }
  }

  lemma AgreeingKeepsIsolation(s: State, t: Trade)
    requires Isolated(s) && Made(s.log, s.next, t) && Create(s, Agreed(t)).Ok?
    ensures Isolated(Create(s, Agreed(t)).value)
  {
    var u := Create(s, Agreed(t)).value;
    forall cid | ProposalAt(u, cid) ensures ProposalAt(s, cid) && RootAt(u, cid) == RootAt(s, cid) {
    }
  }

  lemma InitiateKeepsIsolation(s: State, cid: Cid, authority: set<Party>)
    requires Isolated(s) && Initiate(s, cid, authority).Ok?
    ensures Isolated(Initiate(s, cid, authority).value)
  {
    var p := s.active[cid].proposal;
    var trade := Trade(p.terms, RootOf(cid, p));
    ConsumingKeepsIsolation(s, cid);
    assert ProposalAt(s, cid) && RootAt(s, cid) == trade.proposal;
    var s1 := Consume(s, cid);
    forall other | ProposalAt(s1, other) ensures RootAt(s1, other) != trade.proposal {
      assert ProposalAt(s, other) && RootAt(s1, other) == RootAt(s, other);
    }
    RecordingATrade(s1, s.next, trade);
    AgreeingKeepsIsolation(Record(s1, Trading(s.next, trade)), trade);
    assert Initiate(s, cid, authority).value == Create(Record(s1, Trading(s.next, trade)), Agreed(trade)).value;
  }

  lemma PublishingIsApartExactly(s: State, c: Contract, authority: set<Party>)
    requires Isolated(s) && Publish(s, c, authority).Ok?
    ensures Isolated(Publish(s, c, authority).value) <==> (c.Proposed? ==> RootIsFree(s, c.proposal))
  {
    if c.Proposed? {
      ProposingIsApartExactly(s, c.proposal);
    } else {
      CreateTouches(s, c);
      OtherKindsKeepIsolation(s, Create(s, c).value, {KindOf(c)});
    }
  }

  lemma TradeStepKeepsIsolation(s: State, c: TradeChoice, authority: set<Party>)
    requires Inv(s) && Isolated(s) && TradeStep(s, c, authority).Ok?
    ensures Isolated(TradeStep(s, c, authority).value)
  {
    match c
    case DoAccept(cid, approver) => AcceptKeepsIsolation(s, cid, approver, authority);
    case DoInitiate(cid) => InitiateKeepsIsolation(s, cid, authority);
    case DoSettle(cid, supplied) =>
      ConsumingKeepsIsolation(s, cid);
      SettleTouches(s, cid, supplied, authority);
      OtherKindsKeepIsolation(Consume(s, cid), Settle(s, cid, supplied, authority).value, {HoldingKind, AllocationKind});
    case DoReject(cid, _) => ConsumingKeepsIsolation(s, cid);
    case DoRejectRequest(cid, _) => ConsumingKeepsIsolation(s, cid);
    case DoWithdrawRequest(cid) => ConsumingKeepsIsolation(s, cid);
  }

  /** A transaction keeps trades apart exactly if it publishes no proposal with a root already taken. */
  lemma StepIsApartExactly(s: State, e: Event)
    requires Inv(s) && Isolated(s)
    ensures Isolated(After(s, e)) <==> JoinsApart(s, e)
  {
    if Step(s, e).Ok? {
      var t := After(s, e);
      match e
      case Passing(_) => OtherKindsKeepIsolation(s, t, {});
      case Token(c, authority) =>
        TokensTouch(s, c, authority, t);
        OtherKindsKeepIsolation(s, t, {HoldingKind, AllocationKind});
      case Dvp(c, authority) => TradeStepKeepsIsolation(s, c, authority);
      case Bridge(c, authority) =>
        BridgeTouches(s, c, authority, t);
        OtherKindsKeepIsolation(s, t, {HoldingKind, GatewayKind});
      case Publishing(c, authority) => PublishingIsApartExactly(s, c, authority);
      case Revoking(cid, _) => ConsumingKeepsIsolation(s, cid);
    }
  }

  lemma {:induction false} RunKeepsIsolation(s: State, events: seq<Event>)
    requires Inv(s) && Isolated(s) && AlwaysJoinsApart(s, events)
    ensures Isolated(Run(s, events))
    decreases |events|
  {
    if events != [] {
      var init := events[..|events| - 1];
      PrefixJoinsApart(s, events);
      RunKeepsIsolation(s, init);
      RunKeepsInv(s, init);
      StepIsApartExactly(Run(s, init), events[|events| - 1]);
    }
  }

  lemma PrefixJoinsApart(s: State, events: seq<Event>)
    requires events != [] && AlwaysJoinsApart(s, events)
    ensures AlwaysJoinsApart(s, events[..|events| - 1])
    ensures JoinsApart(Run(s, events[..|events| - 1]), events[|events| - 1])
  {
    var init := events[..|events| - 1];
    forall k | 0 <= k < |init| ensures JoinsApart(Run(s, init[..k]), init[k]) {
      assert init[..k] == events[..k];
    }
  }

  /** The ledger stays isolated all the way through a run exactly if every proposal had a free root when it came. */
  lemma RunIsApartExactly(s: State, events: seq<Event>)
    requires Inv(s) && Isolated(s)
    ensures (forall k :: 0 <= k <= |events| ==> Isolated(Run(s, events[..k]))) <==> AlwaysJoinsApart(s, events)
  {
    if AlwaysJoinsApart(s, events) {
      forall k | 0 <= k <= |events| ensures Isolated(Run(s, events[..k])) {
        forall i | 0 <= i < k ensures JoinsApart(Run(s, events[..k][..i]), events[..k][i]) {
          assert events[..k][..i] == events[..i];
        }
        RunKeepsIsolation(s, events[..k]);
      }
    } else if forall k :: 0 <= k <= |events| ==> Isolated(Run(s, events[..k])) {
      forall k | 0 <= k < |events| ensures JoinsApart(Run(s, events[..k]), events[k]) {
        RunOne(s, events, k);
        RunKeepsInv(s, events[..k]);
        assert Isolated(Run(s, events[..k])) && Isolated(Run(s, events[..k + 1]));
        StepIsApartExactly(Run(s, events[..k]), events[k]);
      }
    }
  }

  lemma RunOne(s: State, events: seq<Event>, k: nat)
    requires k < |events|
    ensures Run(s, events[..k + 1]) == After(Run(s, events[..k]), events[k])
  {
    assert events[..k + 1][..k] == events[..k];
  }

  predicate StartsUnmarked(e: Event) {
    e.Publishing? && e.contract.Proposed? ==> e.contract.proposal.root.None?
  }

  lemma UnmarkedJoinsApart(s: State, e: Event)
    requires Isolated(s) && StartsUnmarked(e)
    ensures JoinsApart(s, e)
  {
    if e.Publishing? && e.contract.Proposed? {
      OwnRootIsFree(s, e.contract.proposal);
    }
  }

  /** If no proposal starts with a trade id, every proposal of the run has a free root. */
  lemma {:induction false} UnmarkedProposalsJoinApart(s: State, events: seq<Event>)
    requires Inv(s) && Isolated(s) && forall e :: e in events ==> StartsUnmarked(e)
    ensures AlwaysJoinsApart(s, events)
    decreases |events|
  {
    if events != [] {
      var (init, last) := (events[..|events| - 1], events[|events| - 1]);
      assert events == init + [last];
      UnmarkedProposalsJoinApart(s, init);
      RunKeepsIsolation(s, init);
      assert last in events;
      UnmarkedJoinsApart(Run(s, init), last);
      JoiningOneMore(s, init, last);
    }
  }

  lemma JoiningOneMore(s: State, events: seq<Event>, e: Event)
    requires AlwaysJoinsApart(s, events) && JoinsApart(Run(s, events), e)
    ensures AlwaysJoinsApart(s, events + [e])
  {
    forall k | 0 <= k <= |events| ensures JoinsApart(Run(s, (events + [e])[..k]), (events + [e])[k]) {
      assert (events + [e])[..k] == events[..k];
      if k == |events| {
        assert events[..k] == events;
      }
    }
  }

  /** Then over every run each root yields at most one trade, and no allocation is the expected one of two trades. */
  lemma NoAllocationMatchesTwoTrades(s: State, events: seq<Event>, i: nat, j: nat, legId: LegId, other: LegId)
    requires Inv(s) && Isolated(s) && AlwaysJoinsApart(s, events)
    requires var log := Run(s, events).log; i < j < |log| && log[i].Trading? && log[j].Trading?
    ensures var log := Run(s, events).log;
      && log[i].trade.proposal != log[j].trade.proposal
      && SettlementInfo(log[i].trade) != SettlementInfo(log[j].trade)
      && ExpectedAllocation(log[i].trade, legId) != ExpectedAllocation(log[j].trade, other)
  {
    RunKeepsIsolation(s, events);
    assert TradesAreApart(Run(s, events).log);
  }

  // Both legs or neither ---------------------------------------------------------------------------------------

  predicate Executed(log: seq<Fact>, spec: Spec) {
    exists f :: f in log && f.Executing? && f.spec == spec
  }

  predicate LegsTogether(log: seq<Fact>) {
    forall f :: f in log && f.Trading? ==>
      (Executed(log, ExpectedAllocation(f.trade, TreasuryDelivery)) <==> Executed(log, ExpectedAllocation(f.trade, StablecoinPayment)))
  }

  /** Whatever was executed was a leg of a trade that had been made. */
  predicate ExecutionsAreOfTrades(log: seq<Fact>) {
    forall f :: f in log && f.Executing? ==>
      exists g :: g in log && g.Trading? && f.spec.settlement.reference == SettlementInfo(g.trade).reference
  }

  lemma ExecutedGrows(log: seq<Fact>, more: seq<Fact>, spec: Spec)
    requires forall f :: f in more && f.Executing? ==> f.spec != spec
    ensures Executed(log + more, spec) <==> Executed(log, spec)
  {
    if Executed(log, spec) {
      var f :| f in log && f.Executing? && f.spec == spec;
      assert f in log + more;
    }
  }

  /** Facts that are neither trades nor executions change nothing. */
  lemma OtherFactsKeepLegs(log: seq<Fact>, more: seq<Fact>)
    requires LegsTogether(log) && ExecutionsAreOfTrades(log)
    requires forall f :: f in more ==> !f.Trading? && !f.Executing?
    ensures LegsTogether(log + more) && ExecutionsAreOfTrades(log + more)
  {
    forall f | f in log + more && f.Trading?
      ensures Executed(log + more, ExpectedAllocation(f.trade, TreasuryDelivery)) <==>
              Executed(log + more, ExpectedAllocation(f.trade, StablecoinPayment))
    {
      assert f in log;
      ExecutedGrows(log, more, ExpectedAllocation(f.trade, TreasuryDelivery));
      ExecutedGrows(log, more, ExpectedAllocation(f.trade, StablecoinPayment));
    }
    forall f | f in log + more && f.Executing?
      ensures exists g :: g in log + more && g.Trading? && f.spec.settlement.reference == SettlementInfo(g.trade).reference
    {
      assert f in log;
      var g :| g in log && g.Trading? && f.spec.settlement.reference == SettlementInfo(g.trade).reference;
      assert g in log + more;
    }
  }

  lemma NewTradeKeepsLegs(log: seq<Fact>, cid: Cid, t: Trade)
    requires LegsTogether(log) && ExecutionsAreOfTrades(log)
    requires forall f :: f in log && f.Trading? ==> f.trade.proposal != t.proposal
    ensures LegsTogether(log + [Trading(cid, t)]) && ExecutionsAreOfTrades(log + [Trading(cid, t)])
  {
    var fact := Trading(cid, t);
    forall f | f in log + [fact] && f.Trading?
      ensures Executed(log + [fact], ExpectedAllocation(f.trade, TreasuryDelivery)) <==>
              Executed(log + [fact], ExpectedAllocation(f.trade, StablecoinPayment))
    {
      ExecutedGrows(log, [fact], ExpectedAllocation(f.trade, TreasuryDelivery));
      ExecutedGrows(log, [fact], ExpectedAllocation(f.trade, StablecoinPayment));
      if f !in log {
        NotYetExecuted(log, t, TreasuryDelivery);
        NotYetExecuted(log, t, StablecoinPayment);
      }
    }
    forall f | f in log + [fact] && f.Executing?
      ensures exists g :: g in log + [fact] && g.Trading? && f.spec.settlement.reference == SettlementInfo(g.trade).reference
    {
      assert f in log;
      var g :| g in log && g.Trading? && f.spec.settlement.reference == SettlementInfo(g.trade).reference;
      assert g in log + [fact];
    }
  }

  lemma NotYetExecuted(log: seq<Fact>, t: Trade, legId: LegId)
    requires ExecutionsAreOfTrades(log)
    requires forall f :: f in log && f.Trading? ==> f.trade.proposal != t.proposal
    ensures !Executed(log, ExpectedAllocation(t, legId))
  {
    forall f | f in log && f.Executing? ensures f.spec != ExpectedAllocation(t, legId) {
      var g :| g in log && g.Trading? && f.spec.settlement.reference == SettlementInfo(g.trade).reference;
    }
  }

  lemma SettlingKeepsLegs(log: seq<Fact>, cid: Cid, t: Trade, treasury: Cid, payment: Cid, at: Time)
    requires LegsTogether(log) && ExecutionsAreOfTrades(log) && TradesAreApart(log) && Made(log, cid, t)
    ensures var more := [Executing(treasury, ExpectedAllocation(t, TreasuryDelivery), at),
                         Executing(payment, ExpectedAllocation(t, StablecoinPayment), at)];
      LegsTogether(log + more) && ExecutionsAreOfTrades(log + more)
  {
    var one := Executing(treasury, ExpectedAllocation(t, TreasuryDelivery), at);
    var two := Executing(payment, ExpectedAllocation(t, StablecoinPayment), at);
    var more := [one, two];
    assert one in log + more && two in log + more;
    forall f | f in log + more && f.Trading?
      ensures Executed(log + more, ExpectedAllocation(f.trade, TreasuryDelivery)) <==>
              Executed(log + more, ExpectedAllocation(f.trade, StablecoinPayment))
    {
      assert f in log;
      if f.trade != t {
        SameRootSameTrade(log, f, Trading(cid, t));
        ExecutedGrows(log, more, ExpectedAllocation(f.trade, TreasuryDelivery));
        ExecutedGrows(log, more, ExpectedAllocation(f.trade, StablecoinPayment));
      }
    }
    forall f | f in log + more && f.Executing?
      ensures exists g :: g in log + more && g.Trading? && f.spec.settlement.reference == SettlementInfo(g.trade).reference
    {
      if f in log {
        var g :| g in log && g.Trading? && f.spec.settlement.reference == SettlementInfo(g.trade).reference;
        assert g in log + more;
      } else {
        assert Trading(cid, t) in log + more;
      }
    }
  }

  lemma SameRootSameTrade(log: seq<Fact>, f: Fact, g: Fact)
    requires TradesAreApart(log) && f in log && g in log && f.Trading? && g.Trading? && f != g
    ensures f.trade.proposal != g.trade.proposal
  {
    forall i, j | 0 <= i < |log| && 0 <= j < |log| && log[i] == f && log[j] == g
      ensures f.trade.proposal != g.trade.proposal
    {
      assert i != j;
    }
  }

  ghost predicate Paired(s: State) {
    LegsTogether(s.log) && ExecutionsAreOfTrades(s.log)
  }

  lemma QuietStepsKeepPairs(s: State, t: State, kinds: set<Kind>)
    requires Paired(s) && Touches(s, t, kinds)
    requires forall i :: |s.log| <= i < |t.log| ==> !t.log[i].Trading? && !t.log[i].Executing?
    ensures Paired(t)
  {
    OtherFactsKeepLegs(s.log, t.log[|s.log|..]);
    assert t.log == s.log + t.log[|s.log|..];
  }

  lemma TokensKeepPairs(s: State, c: TokenChoice, authority: set<Party>)
    requires Paired(s) && TokenStep(s, c, authority).Ok? && !c.DoExecute?
    ensures Paired(TokenStep(s, c, authority).value)
  {
    var t := TokenStep(s, c, authority).value;
    if t.log != s.log {
      assert |t.log| == |s.log| + 1 && t.log[..|s.log|] == s.log;
      var f := t.log[|s.log|];
      assert t.log == s.log + [f];
      assert !f.Trading? && !f.Executing?;
      OtherFactsKeepLegs(s.log, [f]);
    }
  }

  lemma InitiateKeepsPairs(s: State, cid: Cid, authority: set<Party>)
    requires Isolated(s) && Paired(s) && Initiate(s, cid, authority).Ok?
    ensures Paired(Initiate(s, cid, authority).value)
  {
    var p := s.active[cid].proposal;
    assert ProposalAt(s, cid) && RootAt(s, cid) == RootOf(cid, p);
    NewTradeKeepsLegs(s.log, s.next, Trade(p.terms, RootOf(cid, p)));
  }

  lemma SettleKeepsPairs(s: State, cid: Cid, supplied: seq<Supplied>, authority: set<Party>)
    requires Inv(s) && Isolated(s) && Paired(s) && Settle(s, cid, supplied, authority).Ok?
    ensures Paired(Settle(s, cid, supplied, authority).value)
  {
    SettlementMovesBothLegs(s, cid, supplied, authority);
    var t := s.active[cid].trade;
    assert Made(s.log, cid, t);
    SettlingKeepsLegs(s.log, cid, t, SuppliedLeg(TreasuryDelivery, supplied).value.allocation,
                      SuppliedLeg(StablecoinPayment, supplied).value.allocation, s.now);
  }

  lemma StepKeepsPairs(s: State, e: Event)
    requires Inv(s) && Isolated(s) && Paired(s) && ExecutesBySettlement(e)
    ensures Paired(After(s, e))
  {
    if Step(s, e).Ok? {
      match e
      case Token(c, authority) => TokensKeepPairs(s, c, authority);
      case Dvp(c, authority) =>
        if c.DoInitiate? {
          InitiateKeepsPairs(s, c.cid, authority);
        } else if c.DoSettle? {
          SettleKeepsPairs(s, c.cid, c.supplied, authority);
        }
      case Bridge(c, authority) =>
        BridgeTouches(s, c, authority, After(s, e));
        QuietStepsKeepPairs(s, After(s, e), {HoldingKind, GatewayKind});
      case _ =>
    }
  }

  /**
   * Over every run whose proposals have free roots and that executes by settlement only, one leg of a trade has
   * been executed exactly if the other has.
   */
  lemma {:induction false} OneLegExactlyIfTheOther(s: State, events: seq<Event>)
    requires Inv(s) && Isolated(s) && Paired(s) && AlwaysJoinsApart(s, events)
    requires forall e :: e in events ==> ExecutesBySettlement(e)
    ensures Paired(Run(s, events))
    decreases |events|
  {
    if events != [] {
      var init := events[..|events| - 1];
      assert events == init + [events[|events| - 1]];
      PrefixJoinsApart(s, events);
      OneLegExactlyIfTheOther(s, init);
      RunKeepsInv(s, init);
      RunKeepsIsolation(s, init);
      StepKeepsPairs(Run(s, init), events[|events| - 1]);
    }
  }

  lemma NothingIsMixed(now: Time)
    ensures Isolated(State(map[], 0, now, [])) && Paired(State(map[], 0, now, []))
  {
  }

  // Proposals that start with a trade id ------------------------------------------------------------------------

  /** The guard matters: two proposals that both start with the trade id 9 become two trades with the same settlement reference. */
  function SharedReferenceRun(terms: Terms): seq<Event> {
    var p := Proposed(Proposal(terms, [terms.seller, terms.buyer], Some(9)));
    var parties := {terms.venue, terms.seller, terms.buyer};
    [Publishing(p, parties), Publishing(p, parties), Dvp(DoInitiate(0), parties), Dvp(DoInitiate(1), parties)]
  }

  lemma StartingWithATradeIdBreaksIsolation(terms: Terms, now: Time)
    requires WellFormed(terms) && now < terms.allocateBefore
    ensures var end := Run(State(map[], 0, now, []), SharedReferenceRun(terms));
      && |end.log| == 2
      && end.log[0].Trading? && end.log[1].Trading?
      && end.log[0].cid != end.log[1].cid
      && ExpectedAllocation(end.log[0].trade, TreasuryDelivery) == ExpectedAllocation(end.log[1].trade, TreasuryDelivery)
    ensures !AlwaysJoinsApart(State(map[], 0, now, []), SharedReferenceRun(terms))
  {
    SharedReferenceIsReached(terms, now);
    NothingIsMixed(now);
    if AlwaysJoinsApart(State(map[], 0, now, []), SharedReferenceRun(terms)) {
      NoAllocationMatchesTwoTrades(State(map[], 0, now, []), SharedReferenceRun(terms), 0, 1, TreasuryDelivery, TreasuryDelivery);
    }
  }

  lemma SharedReferenceIsReached(terms: Terms, now: Time)
    requires WellFormed(terms) && now < terms.allocateBefore
    ensures var (p, t) := (Proposed(Proposal(terms, [terms.seller, terms.buyer], Some(9))), Trade(terms, 9));
      Run(State(map[], 0, now, []), SharedReferenceRun(terms)).log == [Trading(2, t), Trading(3, t)]
  {
    var events := SharedReferenceRun(terms);
    var p := Proposed(Proposal(terms, [terms.seller, terms.buyer], Some(9)));
    var t := Trade(terms, 9);
    var s0 := State(map[], 0, now, []);
    var s1 := State(map[0 := p], 1, now, []);
    var s2 := State(map[0 := p, 1 := p], 2, now, []);
    var s3 := State(map[1 := p, 2 := Agreed(t)], 3, now, [Trading(2, t)]);
    assert Distinct([terms.seller, terms.buyer]);
    assert Signatories(p) <= {terms.venue, terms.seller, terms.buyer};
    assert After(s0, events[0]) == s1;
    assert After(s1, events[1]) == s2;
    assert s2.active - {0} == map[1 := p];
    assert After(s2, events[2]) == s3;
    RunOne(s0, events, 0);
    RunOne(s0, events, 1);
    RunOne(s0, events, 2);
    RunOne(s0, events, 3);
    assert events[..4] == events;
  }
}

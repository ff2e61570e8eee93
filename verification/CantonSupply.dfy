/** If only the gateway mints and burns an instrument, what circulates is exactly the minted, unredeemed locks. */
module CantonSupply {
  import opened Outcomes
  import opened Sums
  import opened CantonLedger
  import G = CantonGateway
  import opened CantonRuns
  import opened CantonBacking
  import opened CantonGrowth
  import opened CantonTotals
  import opened CantonAccounting

  /** The gateway mints and burns the instrument it names, through an issuer of that very instrument. */
  ghost predicate Configured(s: State, issuer: Cid, instrument: InstrumentId) {
    && issuer in s.active && s.active[issuer] == Issuer(Stablecoin, instrument)
    && forall cid :: GatewayOf(s, cid, instrument.admin) ==>
      s.active[cid].gateway.issuer == issuer && s.active[cid].gateway.instrument == instrument
  }

  /** The transaction does not mint or burn the instrument except through a gateway. */
  predicate LeavesSupplyToGateway(s: State, e: Event, instrument: InstrumentId) {
    match e
    case Token(DoIssue(issuer, _, _), _) => issuer in s.active ==> s.active[issuer] != Issuer(Stablecoin, instrument)
    case Token(DoBurn(cid), _) => cid in s.active && s.active[cid].Held? ==> s.active[cid].holding.instrument != instrument
    case _ => true
  }

  ghost predicate SupplyIsTheGateways(s: State, events: seq<Event>, instrument: InstrumentId) {
    forall k :: 0 <= k < |events| ==> LeavesSupplyToGateway(Run(s, events[..k]), events[k], instrument)
  }

  /** The part of the supply that did not come through the gateway. */
  function Gap(log: seq<Fact>, instrument: InstrumentId): int {
    Net(log, Stablecoin, instrument) - GatewayNet(log, instrument.admin)
  }

  lemma GapOfOne(log: seq<Fact>, fact: Fact, instrument: InstrumentId)
    ensures Gap(log + [fact], instrument) == Gap(log, instrument) + Flow(fact, Stablecoin, instrument)
      - (if MintFact(fact, instrument.admin) then fact.amount else if BurnFact(fact, instrument.admin) then -fact.amount else 0)
  {
    assert (log + [fact])[..|log|] == log;
  }

  lemma MintKeepsGap(s: State, cid: Cid, firstCid: Cid, secondCid: Cid, authority: set<Party>, issuer: Cid, instrument: InstrumentId)
    requires Configured(s, issuer, instrument) && G.Mint(s, cid, firstCid, secondCid, authority).Ok?
    ensures Gap(G.Mint(s, cid, firstCid, secondCid, authority).value.log, instrument) == Gap(s.log, instrument)
  {
    MintParts(s, cid, firstCid, secondCid, authority);
    var (g, first) := (G.FetchGateway(s, cid).value, G.FetchAttestation(s, firstCid).value);
    var s1 := Consume(s, cid);
    IssuerSigns(s1, g.issuer, first.beneficiary, first.amount, {g.registry});
    var issued := Minting(s1.active[g.issuer].issuerRegistry, s1.active[g.issuer].issued, first.amount);
    var s2 := Issue(s1, g.issuer, first.beneficiary, first.amount, {g.registry}).value;
    LeavingsLog(s2, g, first, s.next);
    GapOfOne(s.log, issued, instrument);
    GapOfOne(s.log + [issued], GatewayMinting(g.registry, first.lock, first.amount), instrument);
    if g.registry == instrument.admin {
      assert GatewayOf(s, cid, instrument.admin);
    }
  }

  lemma IssuerSigns(s: State, cid: Cid, owner: Party, amount: int, authority: set<Party>)
    requires Issue(s, cid, owner, amount, authority).Ok?
    ensures cid in s.active && s.active[cid].Issuer? && s.active[cid].issued.admin in authority
    ensures Issue(s, cid, owner, amount, authority).value.log
      == s.log + [Minting(s.active[cid].issuerRegistry, s.active[cid].issued, amount)]
  {
  }

  lemma LeavingsLog(s: State, g: Gateway, a: Attestation, holding: Cid)
    requires G.LeaveMint(s, g, a, holding).Ok?
    ensures G.LeaveMint(s, g, a, holding).value.log == s.log + [GatewayMinting(g.registry, a.lock, a.amount)]
  {
  }

  lemma RedeemKeepsGap(s: State, cid: Cid, args: G.RedeemArgs, authority: set<Party>, issuer: Cid, instrument: InstrumentId)
    requires Configured(s, issuer, instrument) && G.Redeem(s, cid, args, authority).Ok?
    ensures Gap(G.Redeem(s, cid, args, authority).value.log, instrument) == Gap(s.log, instrument)
  {
    RedeemParts(s, cid, args, authority);
    var g := G.FetchGateway(s, cid).value;
    var request := G.MayRedeem(s, g, args).value;
    RedeemNeeds(s, g, args, request);
    var s1 := Consume(s, cid);
    BurnIs(s1, request.holding, {g.registry});
    var s2 := Burn(s1, request.holding, {g.registry}).value;
    RedeemingsLog(s2, g, request);
    var burned := Burning(Stablecoin, g.instrument, request.amount);
    GapOfOne(s.log, burned, instrument);
    GapOfOne(s.log + [burned], GatewayBurning(g.registry, request.lock, request.amount), instrument);
    if g.registry == instrument.admin {
      assert GatewayOf(s, cid, instrument.admin);
    }
  }

  lemma RedeemingsLog(s: State, g: Gateway, request: Request)
    requires G.LeaveRedeem(s, g, request).Ok?
    ensures G.LeaveRedeem(s, g, request).value.log == s.log + [GatewayBurning(g.registry, request.lock, request.amount)]
  {
  }

  lemma OtherTokensKeepGap(s: State, c: TokenChoice, authority: set<Party>, t: State, instrument: InstrumentId)
    requires Inv(s) && TokenStep(s, c, authority) == Ok(t) && !c.DoIssue? && !c.DoBurn?
    ensures Gap(t.log, instrument) == Gap(s.log, instrument)
  {
    QuietTokens(s, c, authority, Stablecoin, instrument);
    TokensTouch(s, c, authority, t);
    TouchingOthersLeavesAlone(s, t, {HoldingKind, AllocationKind}, instrument.admin);
    ForeignFactsChangeNothing(s.log, t.log[|s.log|..], instrument.admin);
    assert t.log == s.log + t.log[|s.log|..];
  }

  lemma TokensKeepGap(s: State, c: TokenChoice, authority: set<Party>, t: State, instrument: InstrumentId)
    requires Inv(s) && TokenStep(s, c, authority) == Ok(t)
    requires LeavesSupplyToGateway(s, Token(c, authority), instrument)
    ensures Gap(t.log, instrument) == Gap(s.log, instrument)
  {
    match c
    case DoIssue(cid, owner, amount) =>
      IssuerSigns(s, cid, owner, amount, authority);
      GapOfOne(s.log, Minting(s.active[cid].issuerRegistry, s.active[cid].issued, amount), instrument);
    case DoBurn(cid) =>
      BurnIs(s, cid, authority);
      GapOfOne(s.log, Burning(Stablecoin, s.active[cid].holding.instrument, s.active[cid].holding.amount), instrument);
    case _ => OtherTokensKeepGap(s, c, authority, t, instrument);
  }

  lemma StepKeepsGap(s: State, e: Event, issuer: Cid, instrument: InstrumentId)
    requires Inv(s) && Configured(s, issuer, instrument) && LeavesSupplyToGateway(s, e, instrument)
    ensures Gap(After(s, e).log, instrument) == Gap(s.log, instrument)
  {
    if Step(s, e).Ok? {
      var t := After(s, e);
      match e
      case Token(c, authority) => TokensKeepGap(s, c, authority, t, instrument);
      case Dvp(c, authority) =>
        QuietTrades(s, c, authority, Stablecoin, instrument);
        TradesLeaveGatewaysAlone(s, c, authority, t, instrument.admin);
        assert t.log == s.log + t.log[|s.log|..];
        ForeignFactsChangeNothing(s.log, t.log[|s.log|..], instrument.admin);
      case Bridge(DoMint(cid, first, second), authority) => MintKeepsGap(s, cid, first, second, authority, issuer, instrument);
      case Bridge(DoRedeem(cid, args), authority) => RedeemKeepsGap(s, cid, args, authority, issuer, instrument);
      case _ =>
    }
  }

  // The configuration stays ----------------------------------------------------------------------------------------

  lemma TouchingKeepsConfiguration(s: State, t: State, kinds: set<Kind>, issuer: Cid, instrument: InstrumentId)
    requires Configured(s, issuer, instrument) && Touches(s, t, kinds) && PaperKind !in kinds
    requires forall cid :: GatewayOf(t, cid, instrument.admin) && cid !in s.active ==>
      t.active[cid].gateway.issuer == issuer && t.active[cid].gateway.instrument == instrument
    ensures Configured(t, issuer, instrument)
  {
    assert KindOf(s.active[issuer]) == PaperKind;
    forall cid | GatewayOf(t, cid, instrument.admin)
      ensures t.active[cid].gateway.issuer == issuer && t.active[cid].gateway.instrument == instrument
    {
      if cid in s.active {
        assert GatewayOf(s, cid, instrument.admin);
      }
    }
  }

  lemma BridgeKeepsConfiguration(s: State, c: BridgeChoice, authority: set<Party>, t: State, issuer: Cid, instrument: InstrumentId)
    requires Inv(s) && Balanced(s, instrument.admin) && Configured(s, issuer, instrument) && BridgeStep(s, c, authority) == Ok(t)
    ensures Configured(t, issuer, instrument)
  {
    BridgeTouches(s, c, authority, t);
    var r := instrument.admin;
    match c {
      case DoMint(cid, first, second) =>
        var g := G.FetchGateway(s, cid).value;
        if g.registry == r {
          assert GatewayOf(s, cid, r);
          MintEffect(s, cid, first, second, authority);
        } else {
          MintLeavesOthersAlone(s, cid, first, second, authority, r);
        }
      case DoRedeem(cid, args) =>
        var g := G.FetchGateway(s, cid).value;
        if g.registry == r {
          assert GatewayOf(s, cid, r);
          RedeemEffect(s, cid, args, authority);
        } else {
          RedeemLeavesOthersAlone(s, cid, args, authority, r);
        }
      case _ => BindingsLeaveGatewaysAlone(s, c, authority, r);
    }
    TouchingKeepsConfiguration(s, t, {HoldingKind, GatewayKind}, issuer, instrument);
  }

  lemma StepKeepsConfiguration(s: State, e: Event, issuer: Cid, instrument: InstrumentId)
    requires Inv(s) && Balanced(s, instrument.admin) && Configured(s, issuer, instrument)
    ensures Configured(After(s, e), issuer, instrument)
  {
    if Step(s, e).Ok? {
      var t := After(s, e);
      match e
      case Token(c, authority) =>
        TokensTouch(s, c, authority, t);
        TouchingKeepsConfiguration(s, t, {HoldingKind, AllocationKind}, issuer, instrument);
      case Dvp(c, authority) => TradesKeepConfiguration(s, c, authority, t, issuer, instrument);
      case Bridge(c, authority) => BridgeKeepsConfiguration(s, c, authority, t, issuer, instrument);
      case _ =>
        forall cid | GatewayOf(t, cid, instrument.admin) ensures GatewayOf(s, cid, instrument.admin) && t.active[cid] == s.active[cid] {
        }
    }
  }

  lemma TradesKeepConfiguration(s: State, c: TradeChoice, authority: set<Party>, t: State, issuer: Cid, instrument: InstrumentId)
    requires Inv(s) && Configured(s, issuer, instrument) && TradeStep(s, c, authority) == Ok(t)
    ensures Configured(t, issuer, instrument)
  {
    TradesLeaveGatewaysAlone(s, c, authority, t, instrument.admin);
    if c.DoSettle? {
      var s1 := Consume(s, c.cid);
      assert Touches(s, s1, {DealKind});
      TouchingKeepsConfiguration(s, s1, {DealKind}, issuer, instrument);
      SettleTouches(s, c.cid, c.supplied, authority);
      TouchingKeepsConfiguration(s1, t, {HoldingKind, AllocationKind}, issuer, instrument);
    } else {
      DealsTouch(s, c, authority, t);
      TouchingKeepsConfiguration(s, t, {DealKind}, issuer, instrument);
    }
  }

  lemma {:induction false} RunKeepsGap(s: State, events: seq<Event>, issuer: Cid, instrument: InstrumentId)
    requires Inv(s) && Balanced(s, instrument.admin) && Configured(s, issuer, instrument)
    requires SupplyIsTheGateways(s, events, instrument)
    ensures Configured(Run(s, events), issuer, instrument)
    ensures Gap(Run(s, events).log, instrument) == Gap(s.log, instrument)
    decreases |events|
  {
    if events != [] {
      var (init, last) := (events[..|events| - 1], events[|events| - 1]);
      forall k | 0 <= k < |init| ensures LeavesSupplyToGateway(Run(s, init[..k]), init[k], instrument) {
        assert init[..k] == events[..k];
      }
      RunKeepsGap(s, init, issuer, instrument);
      RunKeepsInv(s, init);
      BooksAlwaysBalance(s, init, instrument.admin);
      StepKeepsGap(Run(s, init), last, issuer, instrument);
      StepKeepsConfiguration(Run(s, init), last, issuer, instrument);
    }
  }

  /**
   * Over every run in which only the gateway mints and burns the instrument, the stablecoins in circulation, in
   * whatever holdings trading has left them, change exactly as the sum of the minted, unredeemed locks does.
   */
  lemma CirculationIsOutstandingLocks(s: State, events: seq<Event>, issuer: Cid, instrument: InstrumentId, cid: Cid, gateway: Cid)
    requires Inv(s) && Balanced(s, instrument.admin) && Configured(s, issuer, instrument)
    requires SupplyIsTheGateways(s, events, instrument)
    requires GatewayOf(s, cid, instrument.admin) && GatewayOf(Run(s, events), gateway, instrument.admin)
    ensures var (g, h) := (s.active[cid].gateway, Run(s, events).active[gateway].gateway);
      Total(Run(s, events), Stablecoin, instrument) - Outstanding(h.minted, h.redeemed, Run(s, events).log, instrument.admin)
      == Total(s, Stablecoin, instrument) - Outstanding(g.minted, g.redeemed, s.log, instrument.admin)
  {
    RunKeepsGap(s, events, issuer, instrument);
    TotalsAreConserved(s, events, Stablecoin, instrument);
    BooksAlwaysBalance(s, events, instrument.admin);
    assert BooksOf(s.active[cid].gateway, s.log);
    assert BooksOf(Run(s, events).active[gateway].gateway, Run(s, events).log);
  }

  lemma {:induction false} NothingIsWorth(m: map<Cid, Contract>, registry: Registry, instrument: InstrumentId)
    requires forall cid :: cid in m ==> Worth(registry, instrument)(m[cid]) == 0
    ensures Sum(m, Worth(registry, instrument)) == 0
    decreases |m|
  {
    if m != map[] {
      var cid :| cid in m;
      SumRemove(m, Worth(registry, instrument), cid);
      NothingIsWorth(m - {cid}, registry, instrument);
    }
  }

  /** So if a gateway starts with empty lists and nothing in circulation, its outstanding locks are all that circulates. */
  lemma FromNothingOnlyLocksCirculate(s: State, events: seq<Event>, issuer: Cid, instrument: InstrumentId, cid: Cid, gateway: Cid)
    requires Inv(s) && Balanced(s, instrument.admin) && Configured(s, issuer, instrument)
    requires SupplyIsTheGateways(s, events, instrument)
    requires GatewayOf(s, cid, instrument.admin) && GatewayOf(Run(s, events), gateway, instrument.admin)
    requires s.active[cid].gateway.minted == []
    requires forall c :: c in s.active && s.active[c].Held? ==> s.active[c].holding.instrument != instrument
    ensures var h := Run(s, events).active[gateway].gateway;
      Total(Run(s, events), Stablecoin, instrument) == Outstanding(h.minted, h.redeemed, Run(s, events).log, instrument.admin)
  {
    CirculationIsOutstandingLocks(s, events, issuer, instrument, cid, gateway);
    NothingIsWorth(s.active, Stablecoin, instrument);
  }
}

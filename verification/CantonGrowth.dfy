/** Which kinds of contracts and facts a transaction may touch. */
module CantonGrowth {
  import opened Outcomes
  import opened CantonLedger
  import G = CantonGateway
  import opened CantonRuns
  import opened CantonBacking

  datatype Kind = HoldingKind | AllocationKind | DealKind | GatewayKind | PaperKind

  function KindOf(c: Contract): Kind {
    match c
    case Held(_) => HoldingKind
    case Allocated(_) => AllocationKind
    case Proposed(_) => DealKind
    case Agreed(_) => DealKind
    case Guarded(_) => GatewayKind
    case LockMinted(_) => GatewayKind
    case LockRedeemed(_) => GatewayKind
    case Referenced(_) => GatewayKind
    case Bound(_) => GatewayKind
    case _ => PaperKind
  }

  function FactKind(f: Fact): Kind {
    match f
    case Minting(_, _, _) => HoldingKind
    case Burning(_, _, _) => HoldingKind
    case Allocating(_, _, _, _, _) => AllocationKind
    case Executing(_, _, _) => AllocationKind
    case Trading(_, _) => DealKind
    case GatewayMinting(_, _, _) => GatewayKind
    case GatewayBurning(_, _, _) => GatewayKind
  }

  /** Contracts keep their contents, new ones get new ids, and time and the stream only go forward. */
  ghost predicate Grows(s: State, t: State) {
    && s.next <= t.next
    && s.now <= t.now
    && s.log <= t.log
    && (forall cid :: cid in t.active && cid in s.active ==> t.active[cid] == s.active[cid])
    && (forall cid :: cid in t.active && cid !in s.active ==> s.next <= cid < t.next)
  }

  /** Whatever comes or goes is of one of these kinds. */
  ghost predicate Touches(s: State, t: State, kinds: set<Kind>) {
    && Grows(s, t)
    && (forall cid :: cid in t.active && cid !in s.active ==> KindOf(t.active[cid]) in kinds)
    && (forall cid :: cid in s.active && cid !in t.active ==> KindOf(s.active[cid]) in kinds)
    && (forall i :: |s.log| <= i < |t.log| ==> FactKind(t.log[i]) in kinds)
  }

  lemma TouchesThenTouches(s: State, t: State, u: State, kinds: set<Kind>)
    requires IdsAreOld(s) && Touches(s, t, kinds) && Touches(t, u, kinds)
    ensures Touches(s, u, kinds)
  {
  }

  lemma TouchingMore(s: State, t: State, kinds: set<Kind>, more: set<Kind>)
    requires Touches(s, t, kinds) && kinds <= more
    ensures Touches(s, t, more)
  {
  }

  lemma ConsumeTouches(s: State, cid: Cid)
    requires cid in s.active
    ensures Touches(s, Consume(s, cid), {KindOf(s.active[cid])})
  {
  }

  lemma CreateTouches(s: State, c: Contract)
    requires IdsAreOld(s) && Create(s, c).Ok?
    ensures Touches(s, Create(s, c).value, {KindOf(c)})
  {
  }

  lemma RecordTouches(s: State, f: Fact)
    ensures Touches(s, Record(s, f), {FactKind(f)})
  {
  }

  lemma LockInputsTouches(s: State, registry: Registry, spec: Spec, inputs: seq<Cid>)
    requires IdsAreOld(s)
    requires forall cid :: cid in inputs ==> UsableInput(s, registry, spec.leg.instrument, spec.leg.sender, cid)
    requires LockInputs(s, registry, spec, inputs).Ok?
    ensures Touches(s, LockInputs(s, registry, spec, inputs).value, {HoldingKind, AllocationKind})
  {
    LockInputsLocks(s, registry, spec, inputs);
    forall cid | cid in inputs ensures cid in s.active && s.active[cid].Held? {
      assert UsableInput(s, registry, spec.leg.instrument, spec.leg.sender, cid);
    }
  }

  lemma AllocateTouches(s: State, rules: Cid, args: AllocateArgs, authority: set<Party>)
    requires IdsAreOld(s) && Allocate(s, rules, args, authority).Ok?
    ensures Touches(s, Allocate(s, rules, args, authority).value, {HoldingKind, AllocationKind})
  {
    InputsAreUsable(s, rules, args, authority);
    var registry := s.active[rules].rulesRegistry;
    LockInputsTouches(s, registry, args.spec, args.inputs);
    var s1 := LockInputs(s, registry, args.spec, args.inputs).value;
    var (sender, receiver) := MayAllocate(s, rules, args, authority).value;
    RecordTouches(s1, Allocating(s1.next - 1, args.spec, sender, receiver, s.now));
    TouchesThenTouches(s, s1, Allocate(s, rules, args, authority).value, {HoldingKind, AllocationKind});
  }

  lemma ReleasingTouches(s: State, t: State, cid: Cid, a: Allocation, to: Party)
    requires IdsAreOld(s) && Backs(s.active, a) && Releases(s, t, cid, a, to)
    requires t.log == s.log && t.now == s.now
    ensures Touches(s, t, {HoldingKind, AllocationKind})
  {
  }

  lemma ExecuteTouches(s: State, cid: Cid, authority: set<Party>)
    requires Inv(s) && Execute(s, cid, authority).Ok?
    ensures Touches(s, Execute(s, cid, authority).value, {HoldingKind, AllocationKind})
  {
    ExecuteReleases(s, cid, authority);
    var a := s.active[cid].allocation;
    assert Backs(s.active, a);
    var t := Execute(s, cid, authority).value;
    ReleasingTouches(s, t.(log := s.log), cid, a, a.spec.leg.receiver);
    assert t == Record(t.(log := s.log), Executing(cid, a.spec, s.now));
  }

  lemma ReturnsTouch(s: State, cid: Cid, authority: set<Party>)
    requires Inv(s)
    ensures Cancel(s, cid, authority).Ok? ==> Touches(s, Cancel(s, cid, authority).value, {HoldingKind, AllocationKind})
    ensures Withdraw(s, cid, authority).Ok? ==> Touches(s, Withdraw(s, cid, authority).value, {HoldingKind, AllocationKind})
  {
    if Cancel(s, cid, authority).Ok? {
      CancelReleases(s, cid, authority);
      assert Backs(s.active, s.active[cid].allocation);
      ReleasingTouches(s, Cancel(s, cid, authority).value, cid, s.active[cid].allocation, s.active[cid].allocation.spec.leg.sender);
    }
    if Withdraw(s, cid, authority).Ok? {
      WithdrawReleases(s, cid, authority);
      assert Backs(s.active, s.active[cid].allocation);
      ReleasingTouches(s, Withdraw(s, cid, authority).value, cid, s.active[cid].allocation, s.active[cid].allocation.spec.leg.sender);
    }
  }

  lemma HoldingsTouch(s: State, c: TokenChoice, authority: set<Party>)
    requires IdsAreOld(s) && TokenStep(s, c, authority).Ok?
    requires c.DoIssue? || c.DoBurn? || c.DoSplit? || c.DoMerge?
    ensures Touches(s, TokenStep(s, c, authority).value, {HoldingKind})
  {
  }

  lemma TokensTouch(s: State, c: TokenChoice, authority: set<Party>, t: State)
    requires Inv(s) && TokenStep(s, c, authority) == Ok(t)
    ensures Touches(s, t, {HoldingKind, AllocationKind})
  {
    match c
    case DoAllocate(rules, args) => AllocateTouches(s, rules, args, authority);
    case DoExecute(cid) => ExecuteTouches(s, cid, authority);
    case DoCancel(cid) => ReturnsTouch(s, cid, authority);
    case DoWithdraw(cid) => ReturnsTouch(s, cid, authority);
    case _ => HoldingsTouch(s, c, authority);
  }

  lemma DealsTouch(s: State, c: TradeChoice, authority: set<Party>, t: State)
    requires IdsAreOld(s) && TradeStep(s, c, authority) == Ok(t) && !c.DoSettle?
    ensures Touches(s, t, {DealKind})
  {
  }

  lemma SettleTouches(s: State, cid: Cid, supplied: seq<Supplied>, authority: set<Party>)
    requires Inv(s) && Settle(s, cid, supplied, authority).Ok?
    ensures Touches(Consume(s, cid), Settle(s, cid, supplied, authority).value, {HoldingKind, AllocationKind})
  {
    SettleParts(s, cid, supplied, authority);
    var t := FetchTrade(s, cid).value;
    var power := {t.terms.venue, t.terms.seller, t.terms.buyer};
    var s1 := Consume(s, cid);
    ConsumingIsPlain(s, cid);
    PlainStepsKeepInv(s, s1);
    var treasury := SuppliedLeg(TreasuryDelivery, supplied).value.allocation;
    var s2 := Execute(s1, treasury, power).value;
    ExecuteTouches(s1, treasury, power);
    ExecuteKeepsInv(s1, treasury, power);
    ExecuteTouches(s2, SuppliedLeg(StablecoinPayment, supplied).value.allocation, power);
    TouchesThenTouches(s1, s2, Settle(s, cid, supplied, authority).value, {HoldingKind, AllocationKind});
  }

  lemma LeaveMintTouches(s: State, g: Gateway, a: Attestation, holding: Cid)
    requires IdsAreOld(s) && G.LeaveMint(s, g, a, holding).Ok?
    ensures Touches(s, G.LeaveMint(s, g, a, holding).value, {GatewayKind})
  {
  }

  lemma IssueTouches(s: State, cid: Cid, owner: Party, amount: int, authority: set<Party>)
    requires IdsAreOld(s) && Issue(s, cid, owner, amount, authority).Ok?
    ensures Touches(s, Issue(s, cid, owner, amount, authority).value, {HoldingKind})
  {
  }

  lemma MintTouches(s: State, cid: Cid, firstCid: Cid, secondCid: Cid, authority: set<Party>)
    requires IdsAreOld(s) && G.Mint(s, cid, firstCid, secondCid, authority).Ok?
    ensures Touches(s, G.Mint(s, cid, firstCid, secondCid, authority).value, {HoldingKind, GatewayKind})
  {
    MintParts(s, cid, firstCid, secondCid, authority);
    var (g, first) := (G.FetchGateway(s, cid).value, G.FetchAttestation(s, firstCid).value);
    var s1 := Consume(s, cid);
    var s2 := Issue(s1, g.issuer, first.beneficiary, first.amount, {g.registry}).value;
    var s3 := G.LeaveMint(s2, g, first, s.next).value;
    ConsumeTouches(s, cid);
    IssueTouches(s1, g.issuer, first.beneficiary, first.amount, {g.registry});
    LeaveMintTouches(s2, g, first, s.next);
    BridgeChain(s, s1, s2, s3);
  }

  /** A gateway goes, holdings change, and gateway contracts and facts come. */
  lemma BridgeChain(s: State, s1: State, s2: State, s3: State)
    requires IdsAreOld(s)
    requires Touches(s, s1, {GatewayKind}) && Touches(s1, s2, {HoldingKind})
    requires Touches(s2, s3, {GatewayKind})
    ensures Touches(s, s3, {HoldingKind, GatewayKind})
  {
    var kinds := {HoldingKind, GatewayKind};
    TouchingMore(s, s1, {GatewayKind}, kinds);
    TouchingMore(s1, s2, {HoldingKind}, kinds);
    TouchingMore(s2, s3, {GatewayKind}, kinds);
    TouchesThenTouches(s, s1, s2, kinds);
    TouchesThenTouches(s, s2, s3, kinds);
  }

  lemma LeaveRedeemTouches(s: State, g: Gateway, request: Request)
    requires IdsAreOld(s) && G.LeaveRedeem(s, g, request).Ok?
    ensures Touches(s, G.LeaveRedeem(s, g, request).value, {GatewayKind})
  {
  }

  lemma BurnTouches(s: State, cid: Cid, authority: set<Party>)
    requires Burn(s, cid, authority).Ok?
    ensures Touches(s, Burn(s, cid, authority).value, {HoldingKind})
  {
  }

  lemma RedeemTouches(s: State, cid: Cid, args: G.RedeemArgs, authority: set<Party>)
    requires IdsAreOld(s) && G.Redeem(s, cid, args, authority).Ok?
    ensures Touches(s, G.Redeem(s, cid, args, authority).value, {HoldingKind, GatewayKind})
  {
    RedeemParts(s, cid, args, authority);
    var g := G.FetchGateway(s, cid).value;
    var request := G.MayRedeem(s, g, args).value;
    var s1 := Consume(s, cid);
    var s2 := Burn(s1, request.holding, {g.registry}).value;
    var s3 := G.LeaveRedeem(s2, g, request).value;
    ConsumeTouches(s, cid);
    BurnTouches(s1, request.holding, {g.registry});
    LeaveRedeemTouches(s2, g, request);
    BridgeChain(s, s1, s2, s3);
  }

  lemma BindingsTouch(s: State, c: BridgeChoice, authority: set<Party>, t: State)
    requires IdsAreOld(s) && BridgeStep(s, c, authority) == Ok(t) && !c.DoMint? && !c.DoRedeem?
    ensures Touches(s, t, {GatewayKind})
  {
  }

  lemma BridgeTouches(s: State, c: BridgeChoice, authority: set<Party>, t: State)
    requires IdsAreOld(s) && BridgeStep(s, c, authority) == Ok(t)
    ensures Touches(s, t, {HoldingKind, GatewayKind})
  {
    match c
    case DoMint(cid, first, second) => MintTouches(s, cid, first, second, authority);
    case DoRedeem(cid, args) => RedeemTouches(s, cid, args, authority);
    case _ =>
      BindingsTouch(s, c, authority, t);
      TouchingMore(s, t, {GatewayKind}, {HoldingKind, GatewayKind});
  }
}

/** What each instrument adds up to: only mints, issues and burns change it. */
module CantonTotals {
  import opened Outcomes
  import opened Sums
  import opened CantonLedger
  import G = CantonGateway
  import opened CantonRuns
  import opened CantonBacking

  /** What one contract contributes to the total of an instrument. */
  ghost function Worth(registry: Registry, instrument: InstrumentId): Contract -> int {
    (c: Contract) =>
      if c.Held? && c.holding.registry == registry && c.holding.instrument == instrument then c.holding.amount else 0
  }

  ghost function Total(s: State, registry: Registry, instrument: InstrumentId): int {
    Sum(s.active, Worth(registry, instrument))
  }

  /** What a fact of the transaction stream brings into circulation. */
  function Flow(fact: Fact, registry: Registry, instrument: InstrumentId): int {
    match fact
    case Minting(r, i, amount) => if r == registry && i == instrument then amount else 0
    case Burning(r, i, amount) => if r == registry && i == instrument then -amount else 0
    case _ => 0
  }

  /** Mints minus burns of an instrument over the transaction stream. */
  function Net(log: seq<Fact>, registry: Registry, instrument: InstrumentId): int {
    if log == [] then 0 else Net(log[..|log| - 1], registry, instrument) + Flow(log[|log| - 1], registry, instrument)
  }

  lemma NetOfRecord(s: State, fact: Fact, registry: Registry, instrument: InstrumentId)
    ensures Net(Record(s, fact).log, registry, instrument) == Net(s.log, registry, instrument) + Flow(fact, registry, instrument)
    ensures Total(Record(s, fact), registry, instrument) == Total(s, registry, instrument)
  {
    assert (s.log + [fact])[..|s.log|] == s.log;
  }

  /** The total and the transaction stream moved by the same amount. */
  ghost predicate Conserves(s: State, t: State, registry: Registry, instrument: InstrumentId) {
    Total(t, registry, instrument) - Total(s, registry, instrument) == Net(t.log, registry, instrument) - Net(s.log, registry, instrument)
  }

  lemma TotalAfterConsume(s: State, cid: Cid, registry: Registry, instrument: InstrumentId)
    requires cid in s.active
    ensures Total(Consume(s, cid), registry, instrument) == Total(s, registry, instrument) - Worth(registry, instrument)(s.active[cid])
  {
    SumRemove(s.active, Worth(registry, instrument), cid);
  }

  lemma TotalAfterCreate(s: State, c: Contract, registry: Registry, instrument: InstrumentId)
    requires IdsAreOld(s) && Create(s, c).Ok?
    ensures Total(Create(s, c).value, registry, instrument) == Total(s, registry, instrument) + Worth(registry, instrument)(c)
    ensures Create(s, c).value.log == s.log && IdsAreOld(Create(s, c).value)
  {
    SumInsert(s.active, Worth(registry, instrument), s.next, c);
  }

  // Holdings --------------------------------------------------------------------------------------------------

  lemma IssueConserves(s: State, cid: Cid, owner: Party, amount: int, authority: set<Party>, r: Registry, i: InstrumentId)
    requires IdsAreOld(s) && Issue(s, cid, owner, amount, authority).Ok?
    ensures Conserves(s, Issue(s, cid, owner, amount, authority).value, r, i)
  {
    var issuer := s.active[cid];
    var h := Held(Holding(issuer.issuerRegistry, issuer.issued, owner, amount, None));
    TotalAfterCreate(s, h, r, i);
    NetOfRecord(Create(s, h).value, Minting(issuer.issuerRegistry, issuer.issued, amount), r, i);
  }

  lemma BurnConserves(s: State, cid: Cid, authority: set<Party>, r: Registry, i: InstrumentId)
    requires Burn(s, cid, authority).Ok?
    ensures Conserves(s, Burn(s, cid, authority).value, r, i)
  {
    var h := s.active[cid].holding;
    TotalAfterConsume(s, cid, r, i);
    NetOfRecord(Consume(s, cid), Burning(h.registry, h.instrument, h.amount), r, i);
  }

  lemma SplitConserves(s: State, registry: Registry, cid: Cid, amount: int, authority: set<Party>, r: Registry, i: InstrumentId)
    requires IdsAreOld(s) && Split(s, registry, cid, amount, authority).Ok?
    ensures Conserves(s, Split(s, registry, cid, amount, authority).value, r, i)
  {
    var h := s.active[cid].holding;
    var (one, two) := (Held(h.(amount := amount)), Held(h.(amount := h.amount - amount)));
    TotalAfterConsume(s, cid, r, i);
    TotalAfterCreate(Consume(s, cid), one, r, i);
    TotalAfterCreate(Create(Consume(s, cid), one).value, two, r, i);
  }

  lemma MergeConserves(s: State, registry: Registry, cid: Cid, other: Cid, authority: set<Party>, r: Registry, i: InstrumentId)
    requires IdsAreOld(s) && Merge(s, registry, cid, other, authority).Ok?
    ensures Conserves(s, Merge(s, registry, cid, other, authority).value, r, i)
  {
    var (h, o) := (s.active[cid].holding, s.active[other].holding);
    TotalAfterConsume(s, cid, r, i);
    TotalAfterConsume(Consume(s, cid), other, r, i);
    TotalAfterCreate(Consume(Consume(s, cid), other), Held(h.(amount := h.amount + o.amount)), r, i);
  }

  // Allocations ------------------------------------------------------------------------------------------------

  lemma ReleasingKeepsTotals(s: State, t: State, cid: Cid, a: Allocation, to: Party, r: Registry, i: InstrumentId)
    requires Inv(s) && Releases(s, t, cid, a, to)
    ensures Total(t, r, i) == Total(s, r, i)
  {
    assert Backs(s.active, a);
    var w := Worth(r, i);
    SumRemove(s.active, w, cid);
    SumRemove(s.active - {cid}, w, a.locked);
    SumInsert(s.active - {cid} - {a.locked}, w, s.next,
              Held(Holding(a.registry, a.spec.leg.instrument, to, a.spec.leg.amount, None)));
  }

  lemma {:induction false} RemovingInputs(s: State, inputs: seq<Cid>, registry: Registry, instrument: InstrumentId, owner: Party,
                                          r: Registry, i: InstrumentId)
    requires Distinct(inputs)
    requires forall cid :: cid in inputs ==> UsableInput(s, registry, instrument, owner, cid)
    ensures Sum(s.active - (set cid | cid in inputs), Worth(r, i))
      == Total(s, r, i) - (if r == registry && i == instrument then InputTotal(s, inputs) else 0)
    decreases |inputs|
  {
    if inputs == [] {
      assert s.active - (set cid | cid in inputs) == s.active;
    } else {
      var (init, last) := (inputs[..|inputs| - 1], inputs[|inputs| - 1]);
      RemovingInputs(s, init, registry, instrument, owner, r, i);
      assert UsableInput(s, registry, instrument, owner, last);
      assert inputs == init + [last] && last !in init;
      var rest := s.active - (set cid | cid in init);
      SumRemove(rest, Worth(r, i), last);
      assert rest - {last} == s.active - (set cid | cid in inputs);
    }
  }

  lemma LockingKeepsTotals(s: State, registry: Registry, spec: Spec, inputs: seq<Cid>, r: Registry, i: InstrumentId)
    requires IdsAreOld(s) && LockInputs(s, registry, spec, inputs).Ok?
    requires Distinct(inputs) && InputTotal(s, inputs) >= spec.leg.amount
    requires forall cid :: cid in inputs ==> UsableInput(s, registry, spec.leg.instrument, spec.leg.sender, cid)
    ensures Total(LockInputs(s, registry, spec, inputs).value, r, i) == Total(s, r, i)
    ensures LockInputs(s, registry, spec, inputs).value.log == s.log
  {
    var change := InputTotal(s, inputs) - spec.leg.amount;
    RemovingInputs(s, inputs, registry, spec.leg.instrument, spec.leg.sender, r, i);
    var s1 := s.(active := s.active - (set cid | cid in inputs));
    var s2 := Create(s1, Held(LockedFor(registry, spec))).value;
    TotalAfterCreate(s1, Held(LockedFor(registry, spec)), r, i);
    var s3 := GiveChange(s2, registry, spec.leg, change).value;
    if change > 0 {
      TotalAfterCreate(s2, Held(Holding(registry, spec.leg.instrument, spec.leg.sender, change, None)), r, i);
    }
    TotalAfterCreate(s3, Allocated(Allocation(registry, spec, s1.next)), r, i);
  }

  lemma AllocateConserves(s: State, rules: Cid, args: AllocateArgs, authority: set<Party>, r: Registry, i: InstrumentId)
    requires Inv(s) && Allocate(s, rules, args, authority).Ok?
    ensures Conserves(s, Allocate(s, rules, args, authority).value, r, i)
  {
    InputsAreUsable(s, rules, args, authority);
    var registry := s.active[rules].rulesRegistry;
    LockingKeepsTotals(s, registry, args.spec, args.inputs, r, i);
    var s1 := LockInputs(s, registry, args.spec, args.inputs).value;
    var (sender, receiver) := MayAllocate(s, rules, args, authority).value;
    NetOfRecord(s1, Allocating(s1.next - 1, args.spec, sender, receiver, s.now), r, i);
  }

  lemma ExecuteConserves(s: State, cid: Cid, authority: set<Party>, r: Registry, i: InstrumentId)
    requires Inv(s) && Execute(s, cid, authority).Ok?
    ensures Conserves(s, Execute(s, cid, authority).value, r, i)
  {
    var t := Execute(s, cid, authority).value;
    ExecuteReleases(s, cid, authority);
    var a := s.active[cid].allocation;
    ReleasingKeepsTotals(s, t, cid, a, a.spec.leg.receiver, r, i);
    NetOfRecord(s, Executing(cid, a.spec, s.now), r, i);
    assert t.log == s.log + [Executing(cid, a.spec, s.now)];
  }

  lemma ReturnsConserve(s: State, cid: Cid, authority: set<Party>, r: Registry, i: InstrumentId)
    requires Inv(s)
    ensures Cancel(s, cid, authority).Ok? ==> Conserves(s, Cancel(s, cid, authority).value, r, i)
    ensures Withdraw(s, cid, authority).Ok? ==> Conserves(s, Withdraw(s, cid, authority).value, r, i)
  {
    if Cancel(s, cid, authority).Ok? {
      CancelReleases(s, cid, authority);
      ReleasingKeepsTotals(s, Cancel(s, cid, authority).value, cid, s.active[cid].allocation, s.active[cid].allocation.spec.leg.sender, r, i);
    }
    if Withdraw(s, cid, authority).Ok? {
      WithdrawReleases(s, cid, authority);
      ReleasingKeepsTotals(s, Withdraw(s, cid, authority).value, cid, s.active[cid].allocation, s.active[cid].allocation.spec.leg.sender, r, i);
    }
  }

  lemma TokenStepConserves(s: State, c: TokenChoice, authority: set<Party>, r: Registry, i: InstrumentId)
    requires Inv(s) && TokenStep(s, c, authority).Ok?
    ensures Conserves(s, TokenStep(s, c, authority).value, r, i)
  {
    match c
    case DoIssue(issuer, owner, amount) => IssueConserves(s, issuer, owner, amount, authority, r, i);
    case DoBurn(cid) => BurnConserves(s, cid, authority, r, i);
    case DoSplit(registry, cid, amount) => SplitConserves(s, registry, cid, amount, authority, r, i);
    case DoMerge(registry, cid, other) => MergeConserves(s, registry, cid, other, authority, r, i);
    case DoAllocate(rules, args) => AllocateConserves(s, rules, args, authority, r, i);
    case DoExecute(cid) => ExecuteConserves(s, cid, authority, r, i);
    case DoCancel(cid) => ReturnsConserve(s, cid, authority, r, i);
    case DoWithdraw(cid) => ReturnsConserve(s, cid, authority, r, i);
  }

  // Everything else --------------------------------------------------------------------------------------------

  lemma ConsumingOtherConserves(s: State, cid: Cid, r: Registry, i: InstrumentId)
    requires cid in s.active && !s.active[cid].Held?
    ensures Conserves(s, Consume(s, cid), r, i)
  {
    TotalAfterConsume(s, cid, r, i);
  }

  lemma CreatingOtherConserves(s: State, c: Contract, r: Registry, i: InstrumentId)
    requires IdsAreOld(s) && !c.Held? && Create(s, c).Ok?
    ensures Conserves(s, Create(s, c).value, r, i) && IdsAreOld(Create(s, c).value)
  {
    TotalAfterCreate(s, c, r, i);
  }

  lemma ReplacingConserves(s: State, cid: Cid, c: Contract, r: Registry, i: InstrumentId)
    requires IdsAreOld(s) && cid in s.active && !s.active[cid].Held? && !c.Held? && Create(Consume(s, cid), c).Ok?
    ensures Conserves(s, Create(Consume(s, cid), c).value, r, i)
  {
    ConsumingOtherConserves(s, cid, r, i);
    CreatingOtherConserves(Consume(s, cid), c, r, i);
  }

  lemma SettleConserves(s: State, cid: Cid, supplied: seq<Supplied>, authority: set<Party>, r: Registry, i: InstrumentId)
    requires Inv(s) && Settle(s, cid, supplied, authority).Ok?
    ensures Conserves(s, Settle(s, cid, supplied, authority).value, r, i)
  {
    SettleParts(s, cid, supplied, authority);
    var t := FetchTrade(s, cid).value;
    var power := {t.terms.venue, t.terms.seller, t.terms.buyer};
    var s1 := Consume(s, cid);
    ConsumingOtherConserves(s, cid, r, i);
    ConsumingIsPlain(s, cid);
    PlainStepsKeepInv(s, s1);
    var treasury := SuppliedLeg(TreasuryDelivery, supplied).value.allocation;
    ExecuteConserves(s1, treasury, power, r, i);
    ExecuteKeepsInv(s1, treasury, power);
    ExecuteConserves(Execute(s1, treasury, power).value, SuppliedLeg(StablecoinPayment, supplied).value.allocation, power, r, i);
  }

  lemma InitiateConserves(s: State, cid: Cid, authority: set<Party>, r: Registry, i: InstrumentId)
    requires IdsAreOld(s) && Initiate(s, cid, authority).Ok?
    ensures Conserves(s, Initiate(s, cid, authority).value, r, i)
  {
    var p := s.active[cid].proposal;
    var trade := Trade(p.terms, RootOf(cid, p));
    ReplacingConserves(s, cid, Agreed(trade), r, i);
    NetOfRecord(Create(Consume(s, cid), Agreed(trade)).value, Trading(s.next, trade), r, i);
  }

  lemma TradeStepConserves(s: State, c: TradeChoice, authority: set<Party>, r: Registry, i: InstrumentId)
    requires Inv(s) && TradeStep(s, c, authority).Ok?
    ensures Conserves(s, TradeStep(s, c, authority).value, r, i)
  {
    match c
    case DoAccept(cid, approver) =>
      var p := s.active[cid].proposal;
      ReplacingConserves(s, cid, Proposed(p.(approvers := p.approvers + [approver], root := Some(RootOf(cid, p)))), r, i);
    case DoReject(cid, _) => ConsumingOtherConserves(s, cid, r, i);
    case DoInitiate(cid) => InitiateConserves(s, cid, authority, r, i);
    case DoSettle(cid, supplied) => SettleConserves(s, cid, supplied, authority, r, i);
    case DoRejectRequest(cid, _) => ConsumingOtherConserves(s, cid, r, i);
    case DoWithdrawRequest(cid) => ConsumingOtherConserves(s, cid, r, i);
  }

  lemma LeaveMintConserves(s: State, g: Gateway, a: Attestation, holding: Cid, r: Registry, i: InstrumentId)
    requires IdsAreOld(s) && G.LeaveMint(s, g, a, holding).Ok?
    ensures Conserves(s, G.LeaveMint(s, g, a, holding).value, r, i)
  {
    var minted := LockMinted(MintedLock(g.registry, a.lock, holding, a.amount, a.beneficiary));
    var reference := Referenced(MintRef(g.registry, a.beneficiary, a.lock, holding));
    CreatingOtherConserves(s, minted, r, i);
    var s1 := Create(s, minted).value;
    CreatingOtherConserves(s1, reference, r, i);
    var s2 := Create(s1, reference).value;
    var next := Guarded(g.(minted := [a.lock] + g.minted));
    CreatingOtherConserves(s2, next, r, i);
    NetOfRecord(Create(s2, next).value, GatewayMinting(g.registry, a.lock, a.amount), r, i);
  }

  lemma MintConserves(s: State, cid: Cid, firstCid: Cid, secondCid: Cid, authority: set<Party>, r: Registry, i: InstrumentId)
    requires IdsAreOld(s) && G.Mint(s, cid, firstCid, secondCid, authority).Ok?
    ensures Conserves(s, G.Mint(s, cid, firstCid, secondCid, authority).value, r, i)
  {
    MintParts(s, cid, firstCid, secondCid, authority);
    var (g, first) := (G.FetchGateway(s, cid).value, G.FetchAttestation(s, firstCid).value);
    var s1 := Consume(s, cid);
    var s2 := Issue(s1, g.issuer, first.beneficiary, first.amount, {g.registry}).value;
    ConsumingOtherConserves(s, cid, r, i);
    IssueConserves(s1, g.issuer, first.beneficiary, first.amount, {g.registry}, r, i);
    LeaveMintConserves(s2, g, first, s.next, r, i);
  }

  lemma LeaveRedeemConserves(s: State, g: Gateway, request: Request, r: Registry, i: InstrumentId)
    requires IdsAreOld(s) && G.LeaveRedeem(s, g, request).Ok?
    ensures Conserves(s, G.LeaveRedeem(s, g, request).value, r, i)
  {
    var redeemed := LockRedeemed(RedeemedLock(g.registry, request.lock, request.amount, request.holder));
    CreatingOtherConserves(s, redeemed, r, i);
    var s1 := Create(s, redeemed).value;
    var next := Guarded(g.(redeemed := [request.lock] + g.redeemed));
    CreatingOtherConserves(s1, next, r, i);
    NetOfRecord(Create(s1, next).value, GatewayBurning(g.registry, request.lock, request.amount), r, i);
  }

  lemma RedeemConserves(s: State, cid: Cid, args: G.RedeemArgs, authority: set<Party>, r: Registry, i: InstrumentId)
    requires IdsAreOld(s) && G.Redeem(s, cid, args, authority).Ok?
    ensures Conserves(s, G.Redeem(s, cid, args, authority).value, r, i)
  {
    RedeemParts(s, cid, args, authority);
    var g := G.FetchGateway(s, cid).value;
    var request := G.MayRedeem(s, g, args).value;
    var s1 := Consume(s, cid);
    var s2 := Burn(s1, request.holding, {g.registry}).value;
    ConsumingOtherConserves(s, cid, r, i);
    BurnConserves(s1, request.holding, {g.registry}, r, i);
    LeaveRedeemConserves(s2, g, request, r, i);
  }

  lemma BindConserves(s: State, cid: Cid, seller: Party, venue: Party, trade: string, authority: set<Party>, r: Registry, i: InstrumentId)
    requires IdsAreOld(s) && G.Bind(s, cid, seller, venue, trade, authority).Ok?
    ensures Conserves(s, G.Bind(s, cid, seller, venue, trade, authority).value, r, i)
  {
    var m := s.active[cid].reference;
    ReplacingConserves(s, cid, Bound(Binding(m.registry, m.buyer, seller, venue, m.lock, m.holding, trade, None, None)), r, i);
  }

  lemma BridgeStepConserves(s: State, c: BridgeChoice, authority: set<Party>, t: State, r: Registry, i: InstrumentId)
    requires IdsAreOld(s) && BridgeStep(s, c, authority) == Ok(t)
    ensures Conserves(s, t, r, i)
  {
    match c
    case DoMint(cid, first, second) => MintConserves(s, cid, first, second, authority, r, i);
    case DoRedeem(cid, args) => RedeemConserves(s, cid, args, authority, r, i);
    case DoBind(cid, seller, venue, trade) => BindConserves(s, cid, seller, venue, trade, authority, r, i);
    case DoRecordTreasury(cid, treasury) =>
      ReplacingConserves(s, cid, Bound(s.active[cid].binding.(treasury := Some(treasury))), r, i);
    case DoRecordPayment(cid, payment) =>
      ReplacingConserves(s, cid, Bound(s.active[cid].binding.(payment := Some(payment))), r, i);
  }

  lemma StepConserves(s: State, e: Event, r: Registry, i: InstrumentId)
    requires Inv(s)
    ensures Conserves(s, After(s, e), r, i)
  {
    if Step(s, e).Ok? {
      match e
      case Passing(_) =>
      case Token(c, authority) => TokenStepConserves(s, c, authority, r, i);
      case Dvp(c, authority) => TradeStepConserves(s, c, authority, r, i);
      case Bridge(c, authority) => BridgeStepConserves(s, c, authority, After(s, e), r, i);
      case Publishing(contract, _) => CreatingOtherConserves(s, contract, r, i);
      case Revoking(cid, _) => ConsumingOtherConserves(s, cid, r, i);
    }
  }

  /**
   * Over every run, the total of every instrument changes by exactly what was minted or issued minus what was
   * burned; nothing else, in any order, creates or loses value.
   */
  lemma {:induction false} TotalsAreConserved(s: State, events: seq<Event>, r: Registry, i: InstrumentId)
    requires Inv(s)
    ensures Conserves(s, Run(s, events), r, i)
    decreases |events|
  {
    if events != [] {
      var before := Run(s, events[..|events| - 1]);
      TotalsAreConserved(s, events[..|events| - 1], r, i);
      RunKeepsInv(s, events[..|events| - 1]);
      StepConserves(before, events[|events| - 1], r, i);
    }
  }

  /** The only transactions that may change a total. */
  predicate MintsOrBurns(e: Event) {
    match e
    case Token(c, _) => c.DoIssue? || c.DoBurn?
    case Bridge(c, _) => c.DoMint? || c.DoRedeem?
    case _ => false
  }

  lemma ExecuteRecords(s: State, cid: Cid, authority: set<Party>, r: Registry, i: InstrumentId)
    requires Execute(s, cid, authority).Ok?
    ensures Execute(s, cid, authority).value.log == s.log + [Executing(cid, FetchAllocation(s, cid).value.spec, s.now)]
    ensures Net(Execute(s, cid, authority).value.log, r, i) == Net(s.log, r, i)
  {
    NetOfRecord(s, Executing(cid, FetchAllocation(s, cid).value.spec, s.now), r, i);
  }

  lemma QuietTokens(s: State, c: TokenChoice, authority: set<Party>, r: Registry, i: InstrumentId)
    requires TokenStep(s, c, authority).Ok? && !c.DoIssue? && !c.DoBurn?
    ensures Net(TokenStep(s, c, authority).value.log, r, i) == Net(s.log, r, i)
  {
    match c
    case DoAllocate(rules, args) =>
      var (sender, receiver) := MayAllocate(s, rules, args, authority).value;
      var s1 := LockInputs(s, s.active[rules].rulesRegistry, args.spec, args.inputs).value;
      NetOfRecord(s1, Allocating(s1.next - 1, args.spec, sender, receiver, s.now), r, i);
    case DoExecute(cid) => ExecuteRecords(s, cid, authority, r, i);
    case _ =>
  }

  lemma QuietTrades(s: State, c: TradeChoice, authority: set<Party>, r: Registry, i: InstrumentId)
    requires TradeStep(s, c, authority).Ok?
    ensures Net(TradeStep(s, c, authority).value.log, r, i) == Net(s.log, r, i)
  {
    match c
    case DoInitiate(cid) =>
      var p := s.active[cid].proposal;
      var trade := Trade(p.terms, RootOf(cid, p));
      NetOfRecord(Create(Consume(s, cid), Agreed(trade)).value, Trading(s.next, trade), r, i);
    case DoSettle(cid, supplied) =>
      SettleParts(s, cid, supplied, authority);
      var t := FetchTrade(s, cid).value;
      var power := {t.terms.venue, t.terms.seller, t.terms.buyer};
      var treasury := SuppliedLeg(TreasuryDelivery, supplied).value.allocation;
      ExecuteRecords(Consume(s, cid), treasury, power, r, i);
      ExecuteRecords(Execute(Consume(s, cid), treasury, power).value, SuppliedLeg(StablecoinPayment, supplied).value.allocation, power, r, i);
    case _ =>
  }

  /** Allocating, executing, cancelling, withdrawing, splitting, merging and settling keep every total. */
  lemma OtherStepsKeepTotals(s: State, e: Event, r: Registry, i: InstrumentId)
    requires Inv(s) && !MintsOrBurns(e)
    ensures Total(After(s, e), r, i) == Total(s, r, i)
  {
    StepConserves(s, e, r, i);
    if Step(s, e).Ok? {
      match e
      case Token(c, authority) => QuietTokens(s, c, authority, r, i);
      case Dvp(c, authority) => QuietTrades(s, c, authority, r, i);
      case _ =>
    }
  }
}

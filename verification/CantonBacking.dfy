/** Every locked holding stands behind exactly one active allocation, in every reachable ledger. */
module CantonBacking {
  import opened Outcomes
  import opened CantonLedger
  import G = CantonGateway
  import opened CantonRuns

  type Contracts = map<Cid, Contract>

  predicate LockedHolding(c: Contract) {
    c.Held? && c.holding.lock.Some?
  }

  /** The contract is the holding that this allocation locked. */
  predicate Backs(m: Contracts, a: Allocation) {
    a.locked in m && m[a.locked] == Held(LockedFor(a.registry, a.spec))
  }

  predicate AllocationsAreBacked(m: Contracts) {
    forall cid :: cid in m && m[cid].Allocated? ==> Backs(m, m[cid].allocation)
  }

  predicate BackingIsExclusive(m: Contracts) {
    forall cid, other ::
      (cid in m && other in m && m[cid].Allocated? && m[other].Allocated?
       && m[cid].allocation.locked == m[other].allocation.locked) ==> cid == other
  }

  ghost predicate LocksAreUsed(m: Contracts) {
    forall cid :: cid in m && LockedHolding(m[cid]) ==> exists claim :: LockedBy(m, cid, claim)
  }

  predicate LockedBy(m: Contracts, cid: Cid, claim: Cid) {
    claim in m && m[claim].Allocated? && m[claim].allocation.locked == cid
  }

  predicate ContractsAreEnsured(m: Contracts) {
    forall cid :: cid in m ==> Ensured(m[cid])
  }

  ghost predicate IdsAreOld(s: State) {
    forall cid :: cid in s.active ==> cid < s.next
  }

  /** One-to-one between locked holdings and allocations, with equal registry, instrument, sender and amount. */
  ghost predicate Backed(m: Contracts) {
    AllocationsAreBacked(m) && BackingIsExclusive(m) && LocksAreUsed(m)
  }

  ghost predicate Inv(s: State) {
    IdsAreOld(s) && Backed(s.active) && ContractsAreEnsured(s.active)
  }

  lemma NothingIsBacked(now: Time)
    ensures Inv(State(map[], 0, now, []))
  {
  }

  // Steps that touch neither allocations nor locked holdings -------------------------------------------------

  predicate Plain(c: Contract) {
    !c.Allocated? && !LockedHolding(c)
  }

  /** Only plain contracts go, only plain ones come, and those get new ids. */
  ghost predicate Plainly(s: State, t: State) {
    && s.next <= t.next
    && (forall cid :: cid in s.active && cid !in t.active ==> Plain(s.active[cid]))
    && (forall cid :: cid in t.active && cid !in s.active ==> s.next <= cid < t.next && Plain(t.active[cid]) && Ensured(t.active[cid]))
    && (forall cid :: cid in s.active && cid in t.active ==> t.active[cid] == s.active[cid])
  }

  lemma PlainStepsKeepBacking(s: State, t: State)
    requires Backed(s.active) && Plainly(s, t)
    ensures Backed(t.active)
  {
    var (m, n) := (s.active, t.active);
    forall cid | cid in n && n[cid].Allocated? ensures cid in m && Backs(n, n[cid].allocation) {
      assert cid in m && Backs(m, m[cid].allocation);
      assert LockedHolding(m[m[cid].allocation.locked]);
    }
    forall cid | cid in n && LockedHolding(n[cid]) ensures exists claim :: LockedBy(n, cid, claim) {
      var claim :| LockedBy(m, cid, claim);
      assert LockedBy(n, cid, claim);
    }
  }

  lemma PlainStepsKeepInv(s: State, t: State)
    requires Inv(s) && Plainly(s, t)
    ensures Inv(t)
  {
    PlainStepsKeepBacking(s, t);
  }

  lemma ConsumingIsPlain(s: State, cid: Cid)
    requires cid in s.active ==> Plain(s.active[cid])
    ensures Plainly(s, Consume(s, cid))
  {
  }

  lemma PlainlyThenPlainly(s: State, t: State, u: State)
    requires IdsAreOld(s) && Plainly(s, t) && Plainly(t, u)
    ensures Plainly(s, u)
  {
  }

  // Steps on allocations ----------------------------------------------------------------------------------------

  /** The allocation and its locked holding go; one unlocked holding of the same instrument and amount comes. */
  ghost predicate Releases(s: State, t: State, cid: Cid, a: Allocation, to: Party) {
    && cid in s.active
    && s.active[cid] == Allocated(a)
    && t.next == s.next + 1
    && t.active == (s.active - {cid} - {a.locked})[s.next := Held(Holding(a.registry, a.spec.leg.instrument, to, a.spec.leg.amount, None))]
  }

  lemma ReleasingKeepsInv(s: State, t: State, cid: Cid, a: Allocation, to: Party)
    requires Inv(s) && Releases(s, t, cid, a, to)
    ensures Inv(t)
  {
    var (m, n) := (s.active, t.active);
    assert Backs(m, a);
    forall other | other in n && n[other].Allocated? ensures Backs(n, n[other].allocation) {
      assert other in m && Backs(m, m[other].allocation);
      assert m[other].allocation.locked != a.locked;
      assert m[m[other].allocation.locked].Held?;
    }
    forall held | held in n && LockedHolding(n[held]) ensures exists claim :: LockedBy(n, held, claim) {
      assert held in m && LockedHolding(m[held]);
      var claim :| LockedBy(m, held, claim);
      assert claim != cid && m[claim].Allocated? && !m[a.locked].Allocated?;
      assert LockedBy(n, held, claim);
    }
  }

  lemma ReleaseReleases(s: State, cid: Cid, to: Party, authority: set<Party>)
    requires FetchAllocation(s, cid).Ok?
    requires Release(Consume(s, cid), FetchAllocation(s, cid).value, to, authority).Ok?
    ensures var a := FetchAllocation(s, cid).value;
      Releases(s, Release(Consume(s, cid), a, to, authority).value, cid, a, to)
  {
  }

  lemma ExecuteReleases(s: State, cid: Cid, authority: set<Party>)
    requires Execute(s, cid, authority).Ok?
    ensures FetchAllocation(s, cid).Ok?
    ensures var a := FetchAllocation(s, cid).value;
      Releases(s, Execute(s, cid, authority).value, cid, a, a.spec.leg.receiver)
  {
    var a := FetchAllocation(s, cid).value;
    ReleaseReleases(s, cid, a.spec.leg.receiver, authority + {a.spec.leg.instrument.admin});
  }

  lemma CancelReleases(s: State, cid: Cid, authority: set<Party>)
    requires Cancel(s, cid, authority).Ok?
    ensures FetchAllocation(s, cid).Ok?
    ensures var a := FetchAllocation(s, cid).value;
      Releases(s, Cancel(s, cid, authority).value, cid, a, a.spec.leg.sender)
  {
    var a := FetchAllocation(s, cid).value;
    ReleaseReleases(s, cid, a.spec.leg.sender, authority + {a.spec.leg.instrument.admin});
  }

  lemma WithdrawReleases(s: State, cid: Cid, authority: set<Party>)
    requires Withdraw(s, cid, authority).Ok?
    ensures FetchAllocation(s, cid).Ok?
    ensures var a := FetchAllocation(s, cid).value;
      Releases(s, Withdraw(s, cid, authority).value, cid, a, a.spec.leg.sender)
  {
    var a := FetchAllocation(s, cid).value;
    ReleaseReleases(s, cid, a.spec.leg.sender, authority + {a.spec.leg.instrument.admin});
  }

  /** Unlocked inputs go; a locked holding, its allocation and possibly change come. */
  ghost predicate Locks(s: State, t: State, inputs: set<Cid>, registry: Registry, spec: Spec, change: int) {
    var rest := (s.active - inputs)[s.next := Held(LockedFor(registry, spec))];
    var changed := if change > 0 then rest[s.next + 1 := Held(Holding(registry, spec.leg.instrument, spec.leg.sender, change, None))] else rest;
    var a := if change > 0 then s.next + 2 else s.next + 1;
    && (forall cid :: cid in inputs ==> cid in s.active && Plain(s.active[cid]))
    && 0 < spec.leg.amount
    && t.next == a + 1
    && t.active == changed[a := Allocated(Allocation(registry, spec, s.next))]
  }

  lemma RemovingPlainKeepsBacking(m: Contracts, gone: set<Cid>)
    requires Backed(m)
    requires forall cid :: cid in gone && cid in m ==> Plain(m[cid])
    ensures Backed(m - gone)
  {
    var n := m - gone;
    forall cid | cid in n && n[cid].Allocated? ensures Backs(n, n[cid].allocation) {
      assert Backs(m, m[cid].allocation);
      assert LockedHolding(m[m[cid].allocation.locked]);
    }
    forall held | held in n && LockedHolding(n[held]) ensures exists claim :: LockedBy(n, held, claim) {
      var claim :| LockedBy(m, held, claim);
      assert LockedBy(n, held, claim);
    }
  }

  lemma AddingPlainKeepsBacking(m: Contracts, id: Cid, c: Contract)
    requires Backed(m) && id !in m && Plain(c)
    ensures Backed(m[id := c])
  {
    var n := m[id := c];
    forall cid | cid in n && n[cid].Allocated? ensures Backs(n, n[cid].allocation) {
      assert Backs(m, m[cid].allocation);
    }
    forall held | held in n && LockedHolding(n[held]) ensures exists claim :: LockedBy(n, held, claim) {
      var claim :| LockedBy(m, held, claim);
      assert LockedBy(n, held, claim);
    }
  }

  lemma AddingALockKeepsBacking(m: Contracts, id: Cid, claim: Cid, registry: Registry, spec: Spec)
    requires Backed(m) && id !in m && claim !in m && id != claim
    ensures Backed(m[id := Held(LockedFor(registry, spec))][claim := Allocated(Allocation(registry, spec, id))])
  {
    var n := m[id := Held(LockedFor(registry, spec))][claim := Allocated(Allocation(registry, spec, id))];
    forall cid | cid in n && n[cid].Allocated?
      ensures Backs(n, n[cid].allocation) && (cid != claim ==> cid in m && n[cid] == m[cid] && n[cid].allocation.locked != id)
    {
      if cid != claim {
        assert Backs(m, m[cid].allocation);
      }
    }
    forall held | held in n && LockedHolding(n[held]) ensures exists other :: LockedBy(n, held, other) {
      if held == id {
        assert LockedBy(n, held, claim);
      } else {
        var other :| LockedBy(m, held, other);
        assert LockedBy(n, held, other);
      }
    }
  }

  lemma LockingKeepsInv(s: State, t: State, inputs: set<Cid>, registry: Registry, spec: Spec, change: int)
    requires Inv(s) && Locks(s, t, inputs, registry, spec, change)
    ensures Inv(t)
  {
    var rest: Contracts := s.active - inputs;
    var locked := Held(LockedFor(registry, spec));
    var claim := Allocated(Allocation(registry, spec, s.next));
    RemovingPlainKeepsBacking(s.active, inputs);
    if change > 0 {
      var second: Cid := s.next + 1;
      var third: Cid := s.next + 2;
      var back := Held(Holding(registry, spec.leg.instrument, spec.leg.sender, change, None));
      AddingPlainKeepsBacking(rest, second, back);
      AddingALockKeepsBacking(rest[second := back], s.next, third, registry, spec);
      assert t.active == rest[second := back][s.next := locked][third := claim];
    } else {
      AddingALockKeepsBacking(rest, s.next, s.next + 1, registry, spec);
    }
  }

  lemma InputsAreUsable(s: State, rules: Cid, args: AllocateArgs, authority: set<Party>)
    requires MayAllocate(s, rules, args, authority).Ok?
    ensures forall cid :: cid in args.inputs ==>
      UsableInput(s, s.active[rules].rulesRegistry, args.spec.leg.instrument, args.spec.leg.sender, cid)
    ensures 0 < args.spec.leg.amount <= InputTotal(s, args.inputs) && Distinct(args.inputs)
  {
  }

  lemma LockInputsLocks(s: State, registry: Registry, spec: Spec, inputs: seq<Cid>)
    requires forall cid :: cid in inputs ==> UsableInput(s, registry, spec.leg.instrument, spec.leg.sender, cid)
    requires LockInputs(s, registry, spec, inputs).Ok?
    ensures Locks(s, LockInputs(s, registry, spec, inputs).value, (set cid | cid in inputs), registry, spec,
                  InputTotal(s, inputs) - spec.leg.amount)
  {
    forall cid | cid in inputs ensures cid in s.active && Plain(s.active[cid]) {
      assert UsableInput(s, registry, spec.leg.instrument, spec.leg.sender, cid);
    }
  }

  lemma AllocateKeepsInv(s: State, rules: Cid, args: AllocateArgs, authority: set<Party>)
    requires Inv(s) && Allocate(s, rules, args, authority).Ok?
    ensures Inv(Allocate(s, rules, args, authority).value)
  {
    InputsAreUsable(s, rules, args, authority);
    var registry := s.active[rules].rulesRegistry;
    LockInputsLocks(s, registry, args.spec, args.inputs);
    LockingKeepsInv(s, LockInputs(s, registry, args.spec, args.inputs).value, (set cid | cid in args.inputs), registry, args.spec,
                    InputTotal(s, args.inputs) - args.spec.leg.amount);
  }

  // Every choice --------------------------------------------------------------------------------------------------

  lemma IssueIsPlain(s: State, cid: Cid, owner: Party, amount: int, authority: set<Party>)
    requires IdsAreOld(s) && Issue(s, cid, owner, amount, authority).Ok?
    ensures Plainly(s, Issue(s, cid, owner, amount, authority).value)
  {
  }

  lemma SplitIsPlain(s: State, registry: Registry, cid: Cid, amount: int, authority: set<Party>)
    requires IdsAreOld(s) && Split(s, registry, cid, amount, authority).Ok?
    ensures Plainly(s, Split(s, registry, cid, amount, authority).value)
  {
  }

  lemma MergeIsPlain(s: State, registry: Registry, cid: Cid, other: Cid, authority: set<Party>)
    requires IdsAreOld(s) && Merge(s, registry, cid, other, authority).Ok?
    ensures Plainly(s, Merge(s, registry, cid, other, authority).value)
  {
  }

  lemma TokenStepKeepsInv(s: State, c: TokenChoice, authority: set<Party>)
    requires Inv(s) && TokenStep(s, c, authority).Ok?
    ensures Inv(TokenStep(s, c, authority).value)
  {
    var t := TokenStep(s, c, authority).value;
    match c
    case DoIssue(issuer, owner, amount) =>
      IssueIsPlain(s, issuer, owner, amount, authority);
      PlainStepsKeepInv(s, t);
    case DoBurn(cid) =>
      assert Plainly(s, t);
      PlainStepsKeepInv(s, t);
    case DoSplit(registry, cid, amount) =>
      SplitIsPlain(s, registry, cid, amount, authority);
      PlainStepsKeepInv(s, t);
    case DoMerge(registry, cid, other) =>
      MergeIsPlain(s, registry, cid, other, authority);
      PlainStepsKeepInv(s, t);
    case DoAllocate(rules, args) =>
      AllocateKeepsInv(s, rules, args, authority);
    case DoExecute(cid) =>
      ExecuteReleases(s, cid, authority);
      ReleasingKeepsInv(s, t, cid, s.active[cid].allocation, s.active[cid].allocation.spec.leg.receiver);
    case DoCancel(cid) =>
      CancelReleases(s, cid, authority);
      ReleasingKeepsInv(s, t, cid, s.active[cid].allocation, s.active[cid].allocation.spec.leg.sender);
    case DoWithdraw(cid) =>
      WithdrawReleases(s, cid, authority);
      ReleasingKeepsInv(s, t, cid, s.active[cid].allocation, s.active[cid].allocation.spec.leg.sender);
  }

  /** A settlement is the end of the trade followed by two executions. */
  lemma SettleParts(s: State, cid: Cid, supplied: seq<Supplied>, authority: set<Party>)
    requires Settle(s, cid, supplied, authority).Ok?
    ensures FetchTrade(s, cid).Ok?
    ensures SuppliedLeg(TreasuryDelivery, supplied).Ok? && SuppliedLeg(StablecoinPayment, supplied).Ok?
    ensures var t := FetchTrade(s, cid).value;
      var treasury := SuppliedLeg(TreasuryDelivery, supplied).value.allocation;
      var payment := SuppliedLeg(StablecoinPayment, supplied).value.allocation;
      var power := {t.terms.venue, t.terms.seller, t.terms.buyer};
      && MatchingAllocation(Consume(s, cid), t, TreasuryDelivery, treasury).Ok?
      && MatchingAllocation(Consume(s, cid), t, StablecoinPayment, payment).Ok?
      && Execute(Consume(s, cid), treasury, power).Ok?
      && Execute(Execute(Consume(s, cid), treasury, power).value, payment, power) == Settle(s, cid, supplied, authority)
  {
  }

  lemma ExecuteKeepsInv(s: State, cid: Cid, authority: set<Party>)
    requires Inv(s) && Execute(s, cid, authority).Ok?
    ensures Inv(Execute(s, cid, authority).value)
  {
    ExecuteReleases(s, cid, authority);
    var a := s.active[cid].allocation;
    ReleasingKeepsInv(s, Execute(s, cid, authority).value, cid, a, a.spec.leg.receiver);
  }

  lemma SettleKeepsInv(s: State, cid: Cid, supplied: seq<Supplied>, authority: set<Party>)
    requires Inv(s) && Settle(s, cid, supplied, authority).Ok?
    ensures Inv(Settle(s, cid, supplied, authority).value)
  {
    SettleParts(s, cid, supplied, authority);
    var t := FetchTrade(s, cid).value;
    var power := {t.terms.venue, t.terms.seller, t.terms.buyer};
    ConsumingIsPlain(s, cid);
    PlainStepsKeepInv(s, Consume(s, cid));
    ExecuteKeepsInv(Consume(s, cid), SuppliedLeg(TreasuryDelivery, supplied).value.allocation, power);
    ExecuteKeepsInv(Execute(Consume(s, cid), SuppliedLeg(TreasuryDelivery, supplied).value.allocation, power).value,
                    SuppliedLeg(StablecoinPayment, supplied).value.allocation, power);
  }

  lemma TradeStepKeepsInv(s: State, c: TradeChoice, authority: set<Party>)
    requires Inv(s) && TradeStep(s, c, authority).Ok?
    ensures Inv(TradeStep(s, c, authority).value)
  {
    match c
    case DoSettle(cid, supplied) =>
      SettleKeepsInv(s, cid, supplied, authority);
    case _ =>
      assert Plainly(s, TradeStep(s, c, authority).value);
      PlainStepsKeepInv(s, TradeStep(s, c, authority).value);
  }

  lemma LeaveMintIsPlain(s: State, g: Gateway, a: Attestation, holding: Cid)
    requires IdsAreOld(s) && G.LeaveMint(s, g, a, holding).Ok?
    ensures Plainly(s, G.LeaveMint(s, g, a, holding).value)
  {
  }

  /** A gateway mint is the end of the gateway, an issue, and the contracts it leaves. */
  lemma MintParts(s: State, cid: Cid, firstCid: Cid, secondCid: Cid, authority: set<Party>)
    requires G.Mint(s, cid, firstCid, secondCid, authority).Ok?
    ensures G.FetchGateway(s, cid).Ok? && G.FetchAttestation(s, firstCid).Ok? && G.FetchAttestation(s, secondCid).Ok?
    ensures var g := G.FetchGateway(s, cid).value;
      var first := G.FetchAttestation(s, firstCid).value;
      var issued := Issue(Consume(s, cid), g.issuer, first.beneficiary, first.amount, {g.registry});
      && first.lock !in g.minted
      && issued.Ok?
      && G.LeaveMint(issued.value, g, first, s.next) == G.Mint(s, cid, firstCid, secondCid, authority)
  {
  }

  lemma MintIsPlain(s: State, cid: Cid, firstCid: Cid, secondCid: Cid, authority: set<Party>)
    requires IdsAreOld(s) && G.Mint(s, cid, firstCid, secondCid, authority).Ok?
    ensures Plainly(s, G.Mint(s, cid, firstCid, secondCid, authority).value)
  {
    MintParts(s, cid, firstCid, secondCid, authority);
    var (g, first) := (G.FetchGateway(s, cid).value, G.FetchAttestation(s, firstCid).value);
    var s1 := Consume(s, cid);
    var s2 := Issue(s1, g.issuer, first.beneficiary, first.amount, {g.registry}).value;
    var s3 := G.LeaveMint(s2, g, first, s.next).value;
    ConsumingIsPlain(s, cid);
    IssueIsPlain(s1, g.issuer, first.beneficiary, first.amount, {g.registry});
    LeaveMintIsPlain(s2, g, first, s.next);
    PlainlyThenPlainly(s, s1, s2);
    PlainlyThenPlainly(s, s2, s3);
  }

  lemma LeaveRedeemIsPlain(s: State, g: Gateway, request: Request)
    requires IdsAreOld(s) && G.LeaveRedeem(s, g, request).Ok?
    ensures Plainly(s, G.LeaveRedeem(s, g, request).value)
  {
  }

  lemma BurnIsPlain(s: State, cid: Cid, authority: set<Party>)
    requires IdsAreOld(s) && Burn(s, cid, authority).Ok?
    ensures Plainly(s, Burn(s, cid, authority).value)
  {
  }

  /** A gateway redemption is the end of the gateway, a burn, and the contracts it leaves. */
  lemma RedeemParts(s: State, cid: Cid, args: G.RedeemArgs, authority: set<Party>)
    requires G.Redeem(s, cid, args, authority).Ok?
    ensures G.FetchGateway(s, cid).Ok? && G.MayRedeem(s, G.FetchGateway(s, cid).value, args).Ok?
    ensures var g := G.FetchGateway(s, cid).value;
      var request := G.MayRedeem(s, g, args).value;
      var burned := Burn(Consume(s, cid), request.holding, {g.registry});
      && burned.Ok?
      && G.LeaveRedeem(burned.value, g, request) == G.Redeem(s, cid, args, authority)
  {
  }

  lemma RedeemIsPlain(s: State, cid: Cid, args: G.RedeemArgs, authority: set<Party>)
    requires IdsAreOld(s) && G.Redeem(s, cid, args, authority).Ok?
    ensures Plainly(s, G.Redeem(s, cid, args, authority).value)
  {
    RedeemParts(s, cid, args, authority);
    var g := G.FetchGateway(s, cid).value;
    var request := G.MayRedeem(s, g, args).value;
    var s1 := Consume(s, cid);
    var s2 := Burn(s1, request.holding, {g.registry}).value;
    var s3 := G.LeaveRedeem(s2, g, request).value;
    ConsumingIsPlain(s, cid);
    BurnIsPlain(s1, request.holding, {g.registry});
    LeaveRedeemIsPlain(s2, g, request);
    PlainlyThenPlainly(s, s1, s2);
    PlainlyThenPlainly(s, s2, s3);
  }

  lemma BindIsPlain(s: State, cid: Cid, seller: Party, venue: Party, trade: string, authority: set<Party>)
    requires IdsAreOld(s) && G.Bind(s, cid, seller, venue, trade, authority).Ok?
    ensures Plainly(s, G.Bind(s, cid, seller, venue, trade, authority).value)
  {
  }

  lemma RecordsArePlain(s: State, c: BridgeChoice, authority: set<Party>)
    requires IdsAreOld(s) && (c.DoRecordTreasury? || c.DoRecordPayment?) && BridgeStep(s, c, authority).Ok?
    ensures Plainly(s, BridgeStep(s, c, authority).value)
  {
  }

  lemma BridgeStepIsPlain(s: State, c: BridgeChoice, authority: set<Party>, t: State)
    requires IdsAreOld(s) && BridgeStep(s, c, authority) == Ok(t)
    ensures Plainly(s, t)
  {
    match c
    case DoMint(cid, first, second) => MintIsPlain(s, cid, first, second, authority);
    case DoRedeem(cid, args) => RedeemIsPlain(s, cid, args, authority);
    case DoBind(cid, seller, venue, trade) => BindIsPlain(s, cid, seller, venue, trade, authority);
    case _ => RecordsArePlain(s, c, authority);
  }

  lemma StepKeepsInv(s: State, e: Event)
    requires Inv(s)
    ensures Inv(After(s, e))
  {
    if Step(s, e).Ok? {
      match e
      case Token(c, authority) => TokenStepKeepsInv(s, c, authority);
      case Dvp(c, authority) => TradeStepKeepsInv(s, c, authority);
      case Bridge(c, authority) =>
        BridgeStepIsPlain(s, c, authority, After(s, e));
        PlainStepsKeepInv(s, After(s, e));
      case _ =>
        assert Plainly(s, After(s, e));
        PlainStepsKeepInv(s, After(s, e));
    }
  }

  /** In every state of every run, locked holdings and active allocations are one-to-one, with equal contents. */
  lemma {:induction false} RunKeepsInv(s: State, events: seq<Event>)
    requires Inv(s)
    ensures Inv(Run(s, events))
    decreases |events|
  {
    if events != [] {
      RunKeepsInv(s, events[..|events| - 1]);
      StepKeepsInv(Run(s, events[..|events| - 1]), events[|events| - 1]);
    }
  }
}

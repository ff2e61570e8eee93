/** The reference that a mint leaves becomes one binding, and that binding never changes what it says. */
module CantonBindings {
  import opened Outcomes
  import opened CantonLedger
  import G = CantonGateway
  import opened CantonRuns
  import opened CantonBacking
  import opened CantonGrowth
  import opened CantonTotals
  import opened CantonAccounting

  /** A mint reference or a binding of this registry, for this lock and minted holding. */
  predicate Carries(s: State, cid: Cid, registry: Party, lock: string, holding: Cid) {
    && cid in s.active
    && match s.active[cid]
       case Referenced(r) => r.registry == registry && r.lock == lock && r.holding == holding
       case Bound(b) => b.registry == registry && b.lock == lock && b.holding == holding
       case _ => false
  }

  predicate RecordsMint(s: State, cid: Cid, registry: Party, lock: string, holding: Cid) {
    && cid in s.active && s.active[cid].LockMinted?
    && s.active[cid].minted.registry == registry && s.active[cid].minted.lock == lock && s.active[cid].minted.holding == holding
  }

  ghost predicate Recorded(s: State, registry: Party, lock: string, holding: Cid) {
    exists cid :: RecordsMint(s, cid, registry, lock, holding)
  }

  ghost predicate OneCarrierPerLock(s: State, registry: Party) {
    forall cid, other, lock, h, k ::
      Carries(s, cid, registry, lock, h) && Carries(s, other, registry, lock, k) ==> cid == other
  }

  ghost predicate CarriersAreMinted(s: State, registry: Party) {
    forall cid, lock, h :: Carries(s, cid, registry, lock, h) ==> MintedIn(s.log, registry, lock) && Recorded(s, registry, lock, h)
  }

  ghost predicate Bindings(s: State, registry: Party) {
    OneCarrierPerLock(s, registry) && CarriersAreMinted(s, registry)
  }

  /** The second binding is the first with nothing taken back: only missing records were filled in. */
  predicate Follows(b: Binding, c: Binding) {
    && c.registry == b.registry && c.buyer == b.buyer && c.seller == b.seller && c.venue == b.venue
    && c.lock == b.lock && c.holding == b.holding && c.trade == b.trade
    && (b.treasury.Some? ==> c.treasury == b.treasury)
    && (b.payment.Some? ==> c.payment == b.payment)
  }

  predicate FollowsAt(s: State, cid: Cid, b: Binding) {
    cid in s.active && s.active[cid].Bound? && Follows(b, s.active[cid].binding)
  }

  // Steps that leave references and bindings in place -----------------------------------------------------------------

  /** No reference or binding comes or goes, no minted lock goes, and the stream grows. */
  ghost predicate LeavesCarriersAlone(s: State, t: State) {
    && Grows(s, t)
    && (forall cid :: cid in s.active && cid !in t.active ==> !s.active[cid].Referenced? && !s.active[cid].Bound? && !s.active[cid].LockMinted?)
    && (forall cid :: cid in t.active && cid !in s.active ==> !t.active[cid].Referenced? && !t.active[cid].Bound?)
  }

  lemma MintedStays(log: seq<Fact>, more: seq<Fact>, registry: Party, lock: string)
    requires log <= more && MintedIn(log, registry, lock)
    ensures MintedIn(more, registry, lock)
  {
    var f :| f in log && MintFact(f, registry) && f.lock == lock;
    assert f in more;
  }

  lemma LeavingAloneKeepsBindings(s: State, t: State, registry: Party)
    requires Bindings(s, registry) && LeavesCarriersAlone(s, t)
    ensures Bindings(t, registry)
  {
    forall cid, lock, h | Carries(t, cid, registry, lock, h)
      ensures Carries(s, cid, registry, lock, h) && MintedIn(t.log, registry, lock) && Recorded(t, registry, lock, h)
    {
      assert Carries(s, cid, registry, lock, h);
      MintedStays(s.log, t.log, registry, lock);
      var m :| RecordsMint(s, m, registry, lock, h);
      assert RecordsMint(t, m, registry, lock, h);
    }
  }

  lemma TouchingOthersLeavesCarriers(s: State, t: State, kinds: set<Kind>)
    requires Touches(s, t, kinds) && GatewayKind !in kinds
    ensures LeavesCarriersAlone(s, t)
  {
    forall cid | cid in t.active && cid !in s.active ensures KindOf(t.active[cid]) != GatewayKind {
    }
    forall cid | cid in s.active && cid !in t.active ensures KindOf(s.active[cid]) != GatewayKind {
    }
  }

  lemma CarriersThenCarriers(s: State, t: State, u: State)
    requires IdsAreOld(s) && LeavesCarriersAlone(s, t) && LeavesCarriersAlone(t, u)
    ensures LeavesCarriersAlone(s, u)
  {
  }

  // Binding and recording ---------------------------------------------------------------------------------------------

  /** One carrier is replaced by a binding of the same lock and holding. */
  ghost predicate Replaces(s: State, t: State, cid: Cid, b: Binding) {
    && Carries(s, cid, b.registry, b.lock, b.holding)
    && t.next == s.next + 1 && t.log == s.log && t.now == s.now
    && t.active == (s.active - {cid})[s.next := Bound(b)]
  }

  lemma ReplacingKeepsBindings(s: State, t: State, cid: Cid, b: Binding, registry: Party)
    requires IdsAreOld(s) && Bindings(s, registry) && Replaces(s, t, cid, b)
    ensures Bindings(t, registry)
  {
    forall other, lock, h | Carries(t, other, registry, lock, h)
      ensures Carries(s, if other == s.next then cid else other, registry, lock, h)
      ensures MintedIn(t.log, registry, lock) && Recorded(t, registry, lock, h)
    {
      var origin := if other == s.next then cid else other;
      assert Carries(s, origin, registry, lock, h);
      var m :| RecordsMint(s, m, registry, lock, h);
      assert RecordsMint(t, m, registry, lock, h);
    }
    forall c, other, lock, h, k | Carries(t, c, registry, lock, h) && Carries(t, other, registry, lock, k) ensures c == other {
      assert Carries(s, if c == s.next then cid else c, registry, lock, h);
      assert Carries(s, if other == s.next then cid else other, registry, lock, k);
    }
  }

  lemma BindReplaces(s: State, cid: Cid, seller: Party, venue: Party, trade: string, authority: set<Party>)
    requires G.Bind(s, cid, seller, venue, trade, authority).Ok?
    ensures cid in s.active && s.active[cid].Referenced?
    ensures var r := s.active[cid].reference;
      Replaces(s, G.Bind(s, cid, seller, venue, trade, authority).value, cid,
               Binding(r.registry, r.buyer, seller, venue, r.lock, r.holding, trade, None, None))
  {
  }

  lemma RecordsReplace(s: State, cid: Cid, treasury: string, payment: Cid, authority: set<Party>)
    ensures G.RecordTreasury(s, cid, treasury, authority).Ok? ==>
      cid in s.active && s.active[cid].Bound? && s.active[cid].binding.treasury.None?
      && Replaces(s, G.RecordTreasury(s, cid, treasury, authority).value, cid, s.active[cid].binding.(treasury := Some(treasury)))
    ensures G.RecordPayment(s, cid, payment, authority).Ok? ==>
      cid in s.active && s.active[cid].Bound? && s.active[cid].binding.payment.None?
      && Replaces(s, G.RecordPayment(s, cid, payment, authority).value, cid, s.active[cid].binding.(payment := Some(payment)))
  {
  }

  // Minting and redeeming -----------------------------------------------------------------------------------------------

  lemma LeaveMintCarries(s: State, g: Gateway, a: Attestation, holding: Cid)
    requires IdsAreOld(s) && G.LeaveMint(s, g, a, holding).Ok?
    ensures var t := G.LeaveMint(s, g, a, holding).value;
      && t.active == s.active[s.next := LockMinted(MintedLock(g.registry, a.lock, holding, a.amount, a.beneficiary))]
                             [s.next + 1 := Referenced(MintRef(g.registry, a.beneficiary, a.lock, holding))]
                             [s.next + 2 := Guarded(g.(minted := [a.lock] + g.minted))]
      && t.log == s.log + [GatewayMinting(g.registry, a.lock, a.amount)]
  {
  }

  lemma LeavingKeepsBindings(s: State, g: Gateway, a: Attestation, holding: Cid, registry: Party)
    requires IdsAreOld(s) && Bindings(s, registry) && G.LeaveMint(s, g, a, holding).Ok?
    requires g.registry == registry ==> !MintedIn(s.log, registry, a.lock)
    ensures Bindings(G.LeaveMint(s, g, a, holding).value, registry)
  {
    LeaveMintCarries(s, g, a, holding);
    var t := G.LeaveMint(s, g, a, holding).value;
    forall cid, lock, h | Carries(t, cid, registry, lock, h)
      ensures cid != s.next + 1 ==> Carries(s, cid, registry, lock, h)
      ensures cid == s.next + 1 ==> lock == a.lock && g.registry == registry && h == holding
      ensures MintedIn(t.log, registry, lock) && Recorded(t, registry, lock, h)
    {
      if cid == s.next + 1 {
        assert GatewayMinting(g.registry, a.lock, a.amount) in t.log;
        assert RecordsMint(t, s.next, registry, lock, h);
      } else {
        assert Carries(s, cid, registry, lock, h);
        MintedStays(s.log, t.log, registry, lock);
        var m :| RecordsMint(s, m, registry, lock, h);
        assert RecordsMint(t, m, registry, lock, h);
      }
    }
  }

  lemma GatewayGoesAlone(s: State, cid: Cid)
    requires cid in s.active && s.active[cid].Guarded?
    ensures LeavesCarriersAlone(s, Consume(s, cid))
  {
  }

  lemma MintKeepsBindings(s: State, cid: Cid, firstCid: Cid, secondCid: Cid, authority: set<Party>, registry: Party)
    requires IdsAreOld(s) && Balanced(s, registry) && Bindings(s, registry)
    requires G.Mint(s, cid, firstCid, secondCid, authority).Ok?
    ensures Bindings(G.Mint(s, cid, firstCid, secondCid, authority).value, registry)
  {
    MintParts(s, cid, firstCid, secondCid, authority);
    var (g, first) := (G.FetchGateway(s, cid).value, G.FetchAttestation(s, firstCid).value);
    var s1 := Consume(s, cid);
    var s2 := Issue(s1, g.issuer, first.beneficiary, first.amount, {g.registry}).value;
    GatewayGoesAlone(s, cid);
    IssueTouches(s1, g.issuer, first.beneficiary, first.amount, {g.registry});
    TouchingOthersLeavesCarriers(s1, s2, {HoldingKind});
    LeavingAloneKeepsBindings(s, s1, registry);
    LeavingAloneKeepsBindings(s1, s2, registry);
    if g.registry == registry {
      assert GatewayOf(s, cid, registry) && BooksOf(g, s.log);
      IssueIs(s1, g.issuer, first.beneficiary, first.amount, {g.registry});
      var fact := Minting(s1.active[g.issuer].issuerRegistry, s1.active[g.issuer].issued, first.amount);
      MembersOfExtension(s.log, [fact], registry);
    }
    LeavingKeepsBindings(s2, g, first, s.next, registry);
  }

  lemma LeaveRedeemLeavesCarriers(s: State, g: Gateway, request: Request)
    requires IdsAreOld(s) && G.LeaveRedeem(s, g, request).Ok?
    ensures LeavesCarriersAlone(s, G.LeaveRedeem(s, g, request).value)
  {
  }

  lemma RedeemLeavesCarriers(s: State, cid: Cid, args: G.RedeemArgs, authority: set<Party>)
    requires IdsAreOld(s) && G.Redeem(s, cid, args, authority).Ok?
    ensures LeavesCarriersAlone(s, G.Redeem(s, cid, args, authority).value)
  {
    RedeemParts(s, cid, args, authority);
    var g := G.FetchGateway(s, cid).value;
    var request := G.MayRedeem(s, g, args).value;
    var s1 := Consume(s, cid);
    var s2 := Burn(s1, request.holding, {g.registry}).value;
    GatewayGoesAlone(s, cid);
    BurnTouches(s1, request.holding, {g.registry});
    TouchingOthersLeavesCarriers(s1, s2, {HoldingKind});
    LeaveRedeemLeavesCarriers(s2, g, request);
    CarriersThenCarriers(s, s1, s2);
    CarriersThenCarriers(s, s2, G.LeaveRedeem(s2, g, request).value);
  }

  lemma MintLeavesBindings(s: State, cid: Cid, firstCid: Cid, secondCid: Cid, authority: set<Party>, bound: Cid)
    requires IdsAreOld(s) && G.Mint(s, cid, firstCid, secondCid, authority).Ok?
    requires bound in s.active && s.active[bound].Bound?
    ensures var t := G.Mint(s, cid, firstCid, secondCid, authority).value; bound in t.active && t.active[bound] == s.active[bound]
  {
    MintParts(s, cid, firstCid, secondCid, authority);
    var (g, first) := (G.FetchGateway(s, cid).value, G.FetchAttestation(s, firstCid).value);
    var s1 := Consume(s, cid);
    IssueTouches(s1, g.issuer, first.beneficiary, first.amount, {g.registry});
    var s2 := Issue(s1, g.issuer, first.beneficiary, first.amount, {g.registry}).value;
    TouchingOthersLeavesCarriers(s1, s2, {HoldingKind});
    LeaveMintCarries(s2, g, first, s.next);
  }

  // Runs ---------------------------------------------------------------------------------------------------------------

  lemma QuietEventsLeaveCarriers(s: State, e: Event)
    requires Inv(s) && !e.Bridge?
    ensures LeavesCarriersAlone(s, After(s, e))
  {
    if Step(s, e).Ok? {
      var t := After(s, e);
      match e
      case Token(c, authority) =>
        TokensTouch(s, c, authority, t);
        TouchingOthersLeavesCarriers(s, t, {HoldingKind, AllocationKind});
      case Dvp(c, authority) =>
        TradesLeaveCarriers(s, c, authority, t);
      case Publishing(c, _) =>
        CreateTouches(s, c);
        TouchingOthersLeavesCarriers(s, t, {KindOf(c)});
      case _ =>
    }
  }

  lemma TradesLeaveCarriers(s: State, c: TradeChoice, authority: set<Party>, t: State)
    requires Inv(s) && TradeStep(s, c, authority) == Ok(t)
    ensures LeavesCarriersAlone(s, t)
  {
    if c.DoSettle? {
      SettleTouches(s, c.cid, c.supplied, authority);
      TouchingOthersLeavesCarriers(Consume(s, c.cid), t, {HoldingKind, AllocationKind});
      assert LeavesCarriersAlone(s, Consume(s, c.cid));
      CarriersThenCarriers(s, Consume(s, c.cid), t);
    } else {
      DealsTouch(s, c, authority, t);
      TouchingOthersLeavesCarriers(s, t, {DealKind});
    }
  }

  lemma BridgeKeepsBindings(s: State, c: BridgeChoice, authority: set<Party>, t: State, registry: Party)
    requires IdsAreOld(s) && Balanced(s, registry) && Bindings(s, registry) && BridgeStep(s, c, authority) == Ok(t)
    ensures Bindings(t, registry)
  {
    match c
    case DoMint(cid, first, second) => MintKeepsBindings(s, cid, first, second, authority, registry);
    case DoRedeem(cid, args) =>
      RedeemLeavesCarriers(s, cid, args, authority);
      LeavingAloneKeepsBindings(s, t, registry);
    case DoBind(cid, seller, venue, trade) =>
      BindReplaces(s, cid, seller, venue, trade, authority);
      var r := s.active[cid].reference;
      ReplacingKeepsBindings(s, t, cid, Binding(r.registry, r.buyer, seller, venue, r.lock, r.holding, trade, None, None), registry);
    case DoRecordTreasury(cid, treasury) =>
      RecordsReplace(s, cid, treasury, 0, authority);
      ReplacingKeepsBindings(s, t, cid, s.active[cid].binding.(treasury := Some(treasury)), registry);
    case DoRecordPayment(cid, payment) =>
      RecordsReplace(s, cid, "", payment, authority);
      ReplacingKeepsBindings(s, t, cid, s.active[cid].binding.(payment := Some(payment)), registry);
  }

  /** In every run, each lock has at most one reference or binding, and it names the holding that was minted. */
  lemma {:induction false} RunKeepsBindings(s: State, events: seq<Event>, registry: Party)
    requires Inv(s) && Balanced(s, registry) && Bindings(s, registry)
    ensures Bindings(Run(s, events), registry)
    decreases |events|
  {
    if events != [] {
      var (init, last) := (events[..|events| - 1], events[|events| - 1]);
      RunKeepsBindings(s, init, registry);
      RunKeepsInv(s, init);
      BooksAlwaysBalance(s, init, registry);
      var before := Run(s, init);
      if last.Bridge? && Step(before, last).Ok? {
        BridgeKeepsBindings(before, last.bridge, last.authority, After(before, last), registry);
      } else if !last.Bridge? {
        QuietEventsLeaveCarriers(before, last);
        LeavingAloneKeepsBindings(before, After(before, last), registry);
      }
    }
  }

  lemma ReplacedBindingFollows(s: State, t: State, cid: Cid, b: Binding, bound: Cid) returns (later: Cid)
    requires IdsAreOld(s) && Replaces(s, t, cid, b) && bound in s.active && s.active[bound].Bound?
    requires cid == bound ==> Follows(s.active[bound].binding, b)
    ensures FollowsAt(t, later, s.active[bound].binding)
  {
    later := if cid == bound then s.next else bound;
  }

  lemma BridgeKeepsBinding(s: State, c: BridgeChoice, authority: set<Party>, t: State, bound: Cid) returns (later: Cid)
    requires IdsAreOld(s) && BridgeStep(s, c, authority) == Ok(t) && bound in s.active && s.active[bound].Bound?
    ensures FollowsAt(t, later, s.active[bound].binding)
  {
    later := bound;
    match c
    case DoMint(cid, first, second) => MintLeavesBindings(s, cid, first, second, authority, bound);
    case DoRedeem(cid, args) => RedeemLeavesCarriers(s, cid, args, authority);
    case DoBind(cid, seller, venue, trade) =>
      BindReplaces(s, cid, seller, venue, trade, authority);
    case DoRecordTreasury(cid, treasury) =>
      RecordsReplace(s, cid, treasury, 0, authority);
      later := ReplacedBindingFollows(s, t, cid, s.active[cid].binding.(treasury := Some(treasury)), bound);
    case DoRecordPayment(cid, payment) =>
      RecordsReplace(s, cid, "", payment, authority);
      later := ReplacedBindingFollows(s, t, cid, s.active[cid].binding.(payment := Some(payment)), bound);
  }

  /**
   * A binding never goes and never changes its lock, its minted holding, its parties or its trade; a recorded
   * payment or treasury holding stays recorded for ever.
   */
  lemma {:induction false} BindingsAreForEver(s: State, events: seq<Event>, bound: Cid) returns (later: Cid)
    requires Inv(s) && bound in s.active && s.active[bound].Bound?
    ensures FollowsAt(Run(s, events), later, s.active[bound].binding)
    decreases |events|
  {
    later := bound;
    if events != [] {
      var (init, last) := (events[..|events| - 1], events[|events| - 1]);
      var middle := BindingsAreForEver(s, init, bound);
      RunKeepsInv(s, init);
      var before := Run(s, init);
      later := middle;
      if last.Bridge? && Step(before, last).Ok? {
        later := BridgeKeepsBinding(before, last.bridge, last.authority, After(before, last), middle);
      } else if !last.Bridge? {
        QuietEventsLeaveCarriers(before, last);
      }
    }
  }
}

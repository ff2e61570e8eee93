/**
 * When the bridge gateway mints and burns, in terms of the active contracts alone: two different configured attesters
 * have each signed exactly that mint or that redemption.
 */
module GatewayDecisions {
  import opened Outcomes
  import opened CantonLedger
  import G = CantonGateway
  import opened CantonRuns
  import opened CantonBacking
  import opened CantonGrowth
  import opened CantonTotals
  import opened CantonAccounting
  import Supply = CantonSupply

  predicate IsGateway(s: State, cid: Cid, g: Gateway) {
    cid in s.active && s.active[cid] == Guarded(g)
  }

  // Minting ----------------------------------------------------------------------------------------------------------

  /** This contract is a mint attestation of a configured attester for exactly this mint. */
  predicate AttestsMint(s: State, cid: Cid, g: Gateway, lock: string, amount: int, beneficiary: Party, digest: string) {
    && cid in s.active && s.active[cid].Signed?
    && var a := s.active[cid].attestation;
       && a.attester in g.attesters && Signatories(s.active[cid]) == {a.attester}
       && a.registry == g.registry && a.direction == MintDirection && a.instrument == g.instrument
       && a.lock == lock && a.amount == amount && a.beneficiary == beneficiary && a.digest == digest
  }

  /** Two contracts of two different attesters attest the same mint, namely that of the first contract. */
  predicate TwoAttestMint(s: State, g: Gateway, first: Cid, second: Cid) {
    && first in s.active && s.active[first].Signed? && second in s.active && s.active[second].Signed?
    && s.active[first].attestation.attester != s.active[second].attestation.attester
    && var a := s.active[first].attestation;
       && AttestsMint(s, first, g, a.lock, a.amount, a.beneficiary, a.digest)
       && AttestsMint(s, second, g, a.lock, a.amount, a.beneficiary, a.digest)
  }

  /** The gateway's issuer is active, is the registry's own, and can issue so much to this owner. */
  predicate CanIssue(s: State, g: Gateway, amount: int, owner: Party) {
    && g.issuer in s.active && s.active[g.issuer].Issuer? && s.active[g.issuer].issued.admin == g.registry
    && amount < DECIMAL_LIMIT && owner != g.registry
  }

  lemma MintsExactlyWhenAttested(s: State, cid: Cid, first: Cid, second: Cid, authority: set<Party>)
    requires Inv(s)
    ensures G.Mint(s, cid, first, second, authority).Ok? <==>
      exists g :: IsGateway(s, cid, g) && g.registry in authority && TwoAttestMint(s, g, first, second)
        && var a := s.active[first].attestation; a.lock !in g.minted && CanIssue(s, g, a.amount, a.beneficiary)
  {
    if cid in s.active && s.active[cid].Guarded? {
      var g := s.active[cid].gateway;
      assert Ensured(s.active[cid]) && IsGateway(s, cid, g);
      MintDecides(s, cid, g, first, second, authority);
    }
  }

  lemma QuorumIsTwoAttesting(s: State, g: Gateway, first: Cid, second: Cid)
    ensures TwoAttestMint(s, g, first, second) <==>
      && G.FetchAttestation(s, first).Ok? && G.FetchAttestation(s, second).Ok?
      && G.Quorum(g, first, G.FetchAttestation(s, first).value, second, G.FetchAttestation(s, second).value, MintDirection)
  {
  }

  /** Apart from the two keys, a mint needs the registry, an unused lock and an issuer. */
  predicate MayMint(s: State, g: Gateway, first: Cid, authority: set<Party>) {
    && g.registry in authority && first in s.active && s.active[first].Signed?
    && var a := s.active[first].attestation; a.lock !in g.minted && CanIssue(s, g, a.amount, a.beneficiary)
  }

  lemma MintNeeds(s: State, cid: Cid, g: Gateway, first: Cid, second: Cid, authority: set<Party>)
    requires IsGateway(s, cid, g) && G.Mint(s, cid, first, second, authority).Ok?
    ensures TwoAttestMint(s, g, first, second) && MayMint(s, g, first, authority)
  {
    QuorumIsTwoAttesting(s, g, first, second);
    var a := s.active[first].attestation;
    assert Issue(Consume(s, cid), g.issuer, a.beneficiary, a.amount, {g.registry}).Ok?;
    assert G.LeaveMint(Issue(Consume(s, cid), g.issuer, a.beneficiary, a.amount, {g.registry}).value, g, a, s.next).Ok?;
  }

  lemma MintSucceeds(s: State, cid: Cid, g: Gateway, first: Cid, second: Cid, authority: set<Party>)
    requires Inv(s) && IsGateway(s, cid, g) && TwoAttestMint(s, g, first, second) && MayMint(s, g, first, authority)
    ensures G.Mint(s, cid, first, second, authority).Ok?
  {
    QuorumIsTwoAttesting(s, g, first, second);
    var a := s.active[first].attestation;
    assert Ensured(s.active[first]) && Ensured(s.active[cid]);
    IssueDecides(Consume(s, cid), g, a.amount, a.beneficiary);
    LeavingSucceeds(Issue(Consume(s, cid), g.issuer, a.beneficiary, a.amount, {g.registry}).value, g, a, s.next);
  }

  lemma LeavingSucceeds(s: State, g: Gateway, a: Attestation, holding: Cid)
    requires Ensured(Guarded(g)) && Ensured(Signed(a)) && a.beneficiary != g.registry
    ensures G.LeaveMint(s, g, a, holding).Ok?
  {
  }

  lemma MintDecides(s: State, cid: Cid, g: Gateway, first: Cid, second: Cid, authority: set<Party>)
    requires Inv(s) && IsGateway(s, cid, g)
    ensures G.Mint(s, cid, first, second, authority).Ok? <==> TwoAttestMint(s, g, first, second) && MayMint(s, g, first, authority)
  {
    if G.Mint(s, cid, first, second, authority).Ok? {
      MintNeeds(s, cid, g, first, second, authority);
    } else if TwoAttestMint(s, g, first, second) && MayMint(s, g, first, authority) {
      MintSucceeds(s, cid, g, first, second, authority);
    }
  }

  lemma IssueDecides(s: State, g: Gateway, amount: int, owner: Party)
    requires amount > 0
    ensures Issue(s, g.issuer, owner, amount, {g.registry}).Ok? <==>
      g.issuer in s.active && s.active[g.issuer].Issuer? && s.active[g.issuer].issued.admin == g.registry && amount < DECIMAL_LIMIT
  {
  }

  /** A mint leaves the holding, the minted lock, the reference and the next gateway, and two facts. */
  lemma AMintWrites(s: State, cid: Cid, g: Gateway, first: Cid, second: Cid, authority: set<Party>)
    requires IsGateway(s, cid, g) && G.Mint(s, cid, first, second, authority).Ok?
    ensures first in s.active && s.active[first].Signed? && g.issuer in s.active && s.active[g.issuer].Issuer?
    ensures var (t, a, issuer) := (G.Mint(s, cid, first, second, authority).value, s.active[first].attestation, s.active[g.issuer]);
      && t.active == (s.active - {cid})[s.next := Held(Holding(issuer.issuerRegistry, issuer.issued, a.beneficiary, a.amount, None))]
           [s.next + 1 := LockMinted(MintedLock(g.registry, a.lock, s.next, a.amount, a.beneficiary))]
           [s.next + 2 := Referenced(MintRef(g.registry, a.beneficiary, a.lock, s.next))]
           [s.next + 3 := Guarded(Gateway(g.registry, g.attesters, g.issuer, g.instrument, [a.lock] + g.minted, g.redeemed))]
      && t.log == s.log + [Minting(issuer.issuerRegistry, issuer.issued, a.amount), GatewayMinting(g.registry, a.lock, a.amount)]
      && t.next == s.next + 4 && t.now == s.now
  {
  }

  // Redeeming --------------------------------------------------------------------------------------------------------

  /** This contract is a redemption attestation of a configured attester for exactly this request. */
  predicate AttestsRedemption(s: State, cid: Cid, g: Gateway, r: Request) {
    && cid in s.active && s.active[cid].Signed?
    && var a := s.active[cid].attestation;
       && a.attester in g.attesters && Signatories(s.active[cid]) == {a.attester}
       && a.registry == g.registry && a.direction == RedeemDirection && a.instrument == g.instrument
       && a.lock == r.lock && a.amount == r.amount && a.beneficiary == r.holder && a.digest == r.digest && a.payout == r.payout
  }

  predicate TwoAttestRedemption(s: State, g: Gateway, first: Cid, second: Cid, r: Request) {
    && AttestsRedemption(s, first, g, r) && AttestsRedemption(s, second, g, r)
    && s.active[first].attestation.attester != s.active[second].attestation.attester
  }

  /** The request is of this gateway's instrument and names where to pay out. */
  predicate Asks(s: State, cid: Cid, g: Gateway, r: Request) {
    && cid in s.active && s.active[cid] == Requested(r)
    && r.registry == g.registry && r.instrument == g.instrument && r.payout != ""
  }

  /** The holding is the requester's own unlocked coins of exactly the requested amount. */
  predicate Offers(s: State, g: Gateway, r: Request) {
    && r.holding in s.active && s.active[r.holding].Held?
    && s.active[r.holding].holding == Holding(Stablecoin, g.instrument, r.holder, r.amount, None)
  }

  /** The lock was minted for this amount by this gateway and not redeemed. */
  predicate LockAllows(s: State, cid: Cid, g: Gateway, r: Request) {
    && cid in s.active && s.active[cid].LockMinted?
    && s.active[cid].minted.registry == g.registry && s.active[cid].minted.lock == r.lock && s.active[cid].minted.amount == r.amount
    && r.lock in g.minted && r.lock !in g.redeemed
  }

  /** The lock's trade paid the requester with this very holding. */
  predicate TradePaid(s: State, cid: Cid, g: Gateway, r: Request) {
    && cid in s.active && s.active[cid].Bound?
    && s.active[cid].binding.registry == g.registry && s.active[cid].binding.lock == r.lock
    && s.active[cid].binding.seller == r.holder && s.active[cid].binding.payment == Some(r.holding)
  }

  predicate Redeemable(s: State, g: Gateway, args: G.RedeemArgs, r: Request) {
    && Asks(s, args.request, g, r) && Offers(s, g, r)
    && TwoAttestRedemption(s, g, args.first, args.second, r)
    && LockAllows(s, args.minted, g, r) && TradePaid(s, args.binding, g, r)
  }

  lemma AnswersTheRequest(s: State, g: Gateway, args: G.RedeemArgs)
    requires G.MayRedeem(s, g, args).Ok?
    ensures G.FetchRequest(s, args.request) == G.MayRedeem(s, g, args)
    ensures G.FetchAttestation(s, args.first).Ok? && G.FetchAttestation(s, args.second).Ok? && G.FetchMinted(s, args.minted).Ok?
    ensures G.FetchBinding(s, args.binding).Ok?
    ensures var (r, first, second) := (G.MayRedeem(s, g, args).value, G.FetchAttestation(s, args.first).value, G.FetchAttestation(s, args.second).value);
      && FetchHolding(s, Stablecoin, r.holding).Ok?
      && G.HoldingRedeemable(g, r, FetchHolding(s, Stablecoin, r.holding).value)
      && G.Quorum(g, args.first, first, args.second, second, RedeemDirection) && G.AttestsRequest(r, first, second)
      && G.LockRedeemable(g, r, G.FetchMinted(s, args.minted).value, FetchHolding(s, Stablecoin, r.holding).value)
      && G.BindingRedeemable(g, r, G.FetchBinding(s, args.binding).value)
  {
  }

  lemma RedeemableIsRedeemed(s: State, g: Gateway, args: G.RedeemArgs, r: Request)
    requires Redeemable(s, g, args, r)
    ensures G.MayRedeem(s, g, args) == Ok(r)
  {
  }

  lemma RedeemedIsRedeemable(s: State, g: Gateway, args: G.RedeemArgs)
    requires G.MayRedeem(s, g, args).Ok?
    ensures Redeemable(s, g, args, G.MayRedeem(s, g, args).value)
  {
    AnswersTheRequest(s, g, args);
  }

  lemma RedeemsExactlyWhenAttested(s: State, cid: Cid, args: G.RedeemArgs, authority: set<Party>)
    requires Inv(s)
    ensures G.Redeem(s, cid, args, authority).Ok? <==>
      exists g, r :: IsGateway(s, cid, g) && g.registry in authority && g.instrument.admin == g.registry && Redeemable(s, g, args, r)
  {
    if cid in s.active && s.active[cid].Guarded? {
      assert Ensured(s.active[cid]) && IsGateway(s, cid, s.active[cid].gateway);
      RedeemDecides(s, cid, s.active[cid].gateway, args, authority);
    }
  }

  lemma RedeemDecides(s: State, cid: Cid, g: Gateway, args: G.RedeemArgs, authority: set<Party>)
    requires Ensured(Guarded(g)) && IsGateway(s, cid, g)
    ensures G.Redeem(s, cid, args, authority).Ok? <==>
      g.registry in authority && g.instrument.admin == g.registry && exists r :: Redeemable(s, g, args, r)
  {
    if G.MayRedeem(s, g, args).Ok? {
      RedeemedIsRedeemable(s, g, args);
      BurnDecides(s, cid, g, args, authority, G.MayRedeem(s, g, args).value);
    }
    if exists r :: Redeemable(s, g, args, r) {
      var r :| Redeemable(s, g, args, r);
      RedeemableIsRedeemed(s, g, args, r);
    } else if G.Redeem(s, cid, args, authority).Ok? {
      RedeemParts(s, cid, args, authority);
    }
  }

  lemma BurnDecides(s: State, cid: Cid, g: Gateway, args: G.RedeemArgs, authority: set<Party>, r: Request)
    requires Ensured(Guarded(g)) && IsGateway(s, cid, g) && G.MayRedeem(s, g, args) == Ok(r) && Offers(s, g, r)
    ensures G.Redeem(s, cid, args, authority).Ok? <==> g.registry in authority && g.instrument.admin == g.registry
  {
  }

  /** A redemption takes the holding and leaves the redeemed lock and the next gateway, and two facts. */
  lemma ARedemptionWrites(s: State, cid: Cid, g: Gateway, args: G.RedeemArgs, authority: set<Party>, r: Request)
    requires IsGateway(s, cid, g) && G.Redeem(s, cid, args, authority).Ok? && Redeemable(s, g, args, r)
    ensures var t := G.Redeem(s, cid, args, authority).value;
      && t.active == (s.active - {cid} - {r.holding})[s.next := LockRedeemed(RedeemedLock(g.registry, r.lock, r.amount, r.holder))]
           [s.next + 1 := Guarded(Gateway(g.registry, g.attesters, g.issuer, g.instrument, g.minted, [r.lock] + g.redeemed))]
      && t.log == s.log + [Burning(Stablecoin, g.instrument, r.amount), GatewayBurning(g.registry, r.lock, r.amount)]
      && t.next == s.next + 2 && t.now == s.now
  {
    RedeemableIsRedeemed(s, g, args, r);
    assert s.active - {cid} - {r.holding} == (s.active - {cid}) - {r.holding};
  }

  // Over runs ----------------------------------------------------------------------------------------------------------

  /** Two attesters of a gateway of this registry attest a mint of this lock for this amount. */
  ghost predicate MintOnTwoKeys(s: State, registry: Party, lock: string, amount: int) {
    exists cid, g, first, second ::
      && IsGateway(s, cid, g) && g.registry == registry && TwoAttestMint(s, g, first, second) && lock !in g.minted
      && s.active[first].attestation.lock == lock && s.active[first].attestation.amount == amount
  }

  /** Two attesters of a gateway of this registry attest a redemption of this lock, which was minted for this amount. */
  ghost predicate BurnOnTwoKeys(s: State, registry: Party, lock: string, amount: int) {
    exists cid, g, args, r ::
      && IsGateway(s, cid, g) && g.registry == registry && Redeemable(s, g, args, r) && r.lock == lock && r.amount == amount
  }

  predicate OfGateway(f: Fact) {
    f.GatewayMinting? || f.GatewayBurning?
  }

  ghost predicate OnTwoKeys(s: State, f: Fact) {
    && (f.GatewayMinting? ==> MintOnTwoKeys(s, f.gateway, f.lock, f.amount))
    && (f.GatewayBurning? ==> BurnOnTwoKeys(s, f.gateway, f.lock, f.amount))
  }

  lemma MintFactHasTwoKeys(s: State, cid: Cid, first: Cid, second: Cid, authority: set<Party>, i: nat)
    requires Inv(s) && G.Mint(s, cid, first, second, authority).Ok?
    requires var t := G.Mint(s, cid, first, second, authority).value; |s.log| <= i < |t.log| && OfGateway(t.log[i])
    ensures OnTwoKeys(s, G.Mint(s, cid, first, second, authority).value.log[i])
  {
    MintsExactlyWhenAttested(s, cid, first, second, authority);
    var g :| IsGateway(s, cid, g) && g.registry in authority && TwoAttestMint(s, g, first, second)
      && var a := s.active[first].attestation; a.lock !in g.minted && CanIssue(s, g, a.amount, a.beneficiary);
    AMintWrites(s, cid, g, first, second, authority);
  }

  lemma BurnFactHasTwoKeys(s: State, cid: Cid, args: G.RedeemArgs, authority: set<Party>, i: nat)
    requires Inv(s) && G.Redeem(s, cid, args, authority).Ok?
    requires var t := G.Redeem(s, cid, args, authority).value; |s.log| <= i < |t.log| && OfGateway(t.log[i])
    ensures OnTwoKeys(s, G.Redeem(s, cid, args, authority).value.log[i])
  {
    RedeemsExactlyWhenAttested(s, cid, args, authority);
    var g, r :| IsGateway(s, cid, g) && g.registry in authority && g.instrument.admin == g.registry && Redeemable(s, g, args, r);
    ARedemptionWrites(s, cid, g, args, authority, r);
  }

  lemma StepFactHasTwoKeys(s: State, e: Event, i: nat)
    requires Inv(s) && |s.log| <= i < |After(s, e).log| && OfGateway(After(s, e).log[i])
    ensures OnTwoKeys(s, After(s, e).log[i])
  {
    var registry := After(s, e).log[i].gateway;
    if UsesGateway(s, e, registry) {
      match e.bridge
      case DoMint(cid, first, second) => MintFactHasTwoKeys(s, cid, first, second, e.authority, i);
      case DoRedeem(cid, args) => BurnFactHasTwoKeys(s, cid, args, e.authority, i);
    } else {
      OtherStepsLeaveGatewayAlone(s, e, registry);
    }
  }

  lemma PrefixOfPrefix(s: State, events: seq<Event>, k: nat)
    requires k < |events|
    ensures events[..|events| - 1][..k] == events[..k]
  {
  }

  lemma EarlierFact(s: State, events: seq<Event>, i: nat)
    requires Inv(s) && events != [] && i < |Run(s, events[..|events| - 1]).log|
    ensures i < |Run(s, events).log| && Run(s, events).log[i] == Run(s, events[..|events| - 1]).log[i]
  {
    RunKeepsInv(s, events[..|events| - 1]);
    LogsGrow(Run(s, events[..|events| - 1]), events[|events| - 1]);
  }

  lemma LastFactHasTwoKeys(s: State, events: seq<Event>, i: nat)
    requires Inv(s) && events != [] && |Run(s, events[..|events| - 1]).log| <= i < |Run(s, events).log| && OfGateway(Run(s, events).log[i])
    ensures OnTwoKeys(Run(s, events[..|events| - 1]), Run(s, events).log[i])
  {
    RunKeepsInv(s, events[..|events| - 1]);
    StepFactHasTwoKeys(Run(s, events[..|events| - 1]), events[|events| - 1], i);
  }

  /** Over every run, each mint and each burn of a gateway was made in a state in which two keys stood for it. */
  lemma {:induction false} EveryMintAndBurnHadTwoKeys(s: State, events: seq<Event>, i: nat) returns (k: nat)
    requires Inv(s) && |s.log| <= i < |Run(s, events).log| && OfGateway(Run(s, events).log[i])
    ensures k < |events| && OnTwoKeys(Run(s, events[..k]), Run(s, events).log[i])
    decreases |events|
  {
    if i < |Run(s, events[..|events| - 1]).log| {
      EarlierFact(s, events, i);
      k := EveryMintAndBurnHadTwoKeys(s, events[..|events| - 1], i);
      PrefixOfPrefix(s, events, k);
    } else {
      LastFactHasTwoKeys(s, events, i);
      k := |events| - 1;
    }
  }

  lemma LogsGrow(s: State, e: Event)
    requires Inv(s)
    ensures s.log <= After(s, e).log
  {
    if Step(s, e).Ok? {
      match e
      case Bridge(c, authority) => BridgeTouches(s, c, authority, After(s, e));
      case Token(c, authority) => TokensTouch(s, c, authority, After(s, e));
      case Dvp(c, authority) => TradesLeaveGatewaysAlone(s, c, authority, After(s, e), 0);
      case _ =>
    }
  }

  // Bindings -----------------------------------------------------------------------------------------------------------

  predicate IsReference(s: State, cid: Cid, r: MintRef) {
    cid in s.active && s.active[cid] == Referenced(r)
  }

  predicate IsBinding(s: State, cid: Cid, b: Binding) {
    cid in s.active && s.active[cid] == Bound(b)
  }

  /** The buyer binds the lock to a trade with two parties that are neither the buyer nor the registry, nor each other. */
  predicate CanBind(s: State, cid: Cid, seller: Party, venue: Party, trade: string, authority: set<Party>, r: MintRef) {
    && IsReference(s, cid, r) && r.buyer in authority && trade != ""
    && Distinct([r.registry, r.buyer, seller, venue])
  }

  /** In a reachable ledger a reference can be bound exactly so; the binding names its lock and holding, and nothing recorded yet. */
  lemma BindsExactlyWhen(s: State, cid: Cid, seller: Party, venue: Party, trade: string, authority: set<Party>)
    requires Inv(s)
    ensures G.Bind(s, cid, seller, venue, trade, authority).Ok? <==> exists r :: CanBind(s, cid, seller, venue, trade, authority, r)
    ensures forall r :: IsReference(s, cid, r) && G.Bind(s, cid, seller, venue, trade, authority).Ok? ==>
      G.Bind(s, cid, seller, venue, trade, authority).value
      == s.(active := (s.active - {cid})[s.next := Bound(Binding(r.registry, r.buyer, seller, venue, r.lock, r.holding, trade, None, None))],
            next := s.next + 1)
  {
    if cid in s.active && s.active[cid].Referenced? {
      var r := s.active[cid].reference;
      assert IsReference(s, cid, r) && Ensured(s.active[cid]);
      FourParties(r.registry, r.buyer, seller, venue);
      assert G.Bind(s, cid, seller, venue, trade, authority).Ok? <==> CanBind(s, cid, seller, venue, trade, authority, r);
    }
  }

  lemma FourParties(a: Party, b: Party, c: Party, d: Party)
    ensures Distinct([a, b, c, d]) <==> a != b && a != c && a != d && b != c && b != d && c != d
  {
    var all := [a, b, c, d];
    assert Distinct(all) ==> all[0] != all[1] && all[0] != all[2] && all[0] != all[3] && all[1] != all[2] && all[1] != all[3] && all[2] != all[3];
  }

  /** The buyer records the treasury holding once, the seller the payment once; the rest of the binding stays. */
  lemma RecordsExactlyWhen(s: State, cid: Cid, treasury: string, payment: Cid, authority: set<Party>)
    requires Inv(s)
    ensures G.RecordTreasury(s, cid, treasury, authority).Ok? <==>
      exists b :: IsBinding(s, cid, b) && b.buyer in authority && b.treasury.None? && treasury != ""
    ensures G.RecordPayment(s, cid, payment, authority).Ok? <==>
      exists b :: IsBinding(s, cid, b) && b.seller in authority && b.payment.None?
    ensures forall b :: IsBinding(s, cid, b) && G.RecordTreasury(s, cid, treasury, authority).Ok? ==>
      G.RecordTreasury(s, cid, treasury, authority).value
      == s.(active := (s.active - {cid})[s.next := Bound(Binding(b.registry, b.buyer, b.seller, b.venue, b.lock, b.holding, b.trade,
                                                                 Some(treasury), b.payment))], next := s.next + 1)
    ensures forall b :: IsBinding(s, cid, b) && G.RecordPayment(s, cid, payment, authority).Ok? ==>
      G.RecordPayment(s, cid, payment, authority).value
      == s.(active := (s.active - {cid})[s.next := Bound(Binding(b.registry, b.buyer, b.seller, b.venue, b.lock, b.holding, b.trade,
                                                                 b.treasury, Some(payment)))], next := s.next + 1)
  {
    if cid in s.active && s.active[cid].Bound? {
      assert IsBinding(s, cid, s.active[cid].binding) && Ensured(s.active[cid]);
    }
  }
}

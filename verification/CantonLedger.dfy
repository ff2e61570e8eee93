/** The Canton contracts of the rail over one set of active contracts: tokens, allocations and trades. */
module CantonLedger {
  import opened Outcomes

  type Party = nat
  type Cid = nat
  type Time = int

  /** A Daml Decimal is a multiple of 10^-10 of at most 38 digits; amounts count these multiples. */
  const DECIMAL_LIMIT: int := 100000000000000000000000000000000000000

  /** The treasury and the stablecoin registry have the same templates, except that only stablecoins burn. */
  datatype Registry = Treasury | Stablecoin

  datatype InstrumentId = InstrumentId(admin: Party, id: string)

  datatype Lock = Lock(holder: Party, expiresAt: Time)

  datatype Holding = Holding(registry: Registry, instrument: InstrumentId, owner: Party, amount: int, lock: Option<Lock>)

  datatype LegId = TreasuryDelivery | StablecoinPayment | OtherLeg(text: string)

  datatype Leg = Leg(sender: Party, receiver: Party, amount: int, instrument: InstrumentId)

  datatype Reference = Reference(id: string, cid: Option<Cid>)

  datatype Settlement = Settlement(
    executor: Party, reference: Reference, requestedAt: Time, allocateBefore: Time, settleBefore: Time)

  datatype Spec = Spec(settlement: Settlement, legId: LegId, leg: Leg)

  datatype Allocation = Allocation(registry: Registry, spec: Spec, locked: Cid)

  datatype Eligibility = Eligibility(
    registry: Registry, instrument: InstrumentId, investor: Party, suspended: bool, validFrom: Time, validUntil: Time,
    attestation: string)

  datatype Terms = Terms(
    venue: Party, seller: Party, buyer: Party, treasuryLeg: Leg, paymentLeg: Leg, requestedAt: Time, allocateBefore: Time,
    settleBefore: Time)

  datatype Proposal = Proposal(terms: Terms, approvers: seq<Party>, root: Option<Cid>)

  datatype Trade = Trade(terms: Terms, proposal: Cid)

  datatype Direction = MintDirection | RedeemDirection

  datatype Attestation = Attestation(
    attester: Party, registry: Party, lock: string, amount: int, beneficiary: Party, digest: string, direction: Direction,
    instrument: InstrumentId, payout: string)

  datatype Request = Request(
    holder: Party, registry: Party, lock: string, holding: Cid, amount: int, digest: string, instrument: InstrumentId,
    payout: string)

  datatype Gateway = Gateway(
    registry: Party, attesters: seq<Party>, issuer: Cid, instrument: InstrumentId, minted: seq<string>, redeemed: seq<string>)

  datatype MintedLock = MintedLock(registry: Party, lock: string, holding: Cid, amount: int, beneficiary: Party)

  datatype RedeemedLock = RedeemedLock(registry: Party, lock: string, amount: int, holder: Party)

  datatype MintRef = MintRef(registry: Party, buyer: Party, lock: string, holding: Cid)

  datatype Binding = Binding(
    registry: Party, buyer: Party, seller: Party, venue: Party, lock: string, holding: Cid, trade: string,
    treasury: Option<string>, payment: Option<Cid>)

  datatype Contract =
    | Held(holding: Holding)
    | Allocated(allocation: Allocation)
    | Attested(eligibility: Eligibility)
    | Rules(rulesRegistry: Registry, rulesInstrument: InstrumentId)
    | Issuer(issuerRegistry: Registry, issued: InstrumentId)
    | Proposed(proposal: Proposal)
    | Agreed(trade: Trade)
    | Signed(attestation: Attestation)
    | Requested(request: Request)
    | Guarded(gateway: Gateway)
    | LockMinted(minted: MintedLock)
    | LockRedeemed(redeemed: RedeemedLock)
    | Referenced(reference: MintRef)
    | Bound(binding: Binding)

  /** What the transaction stream remembers of the updates that matter here. */
  datatype Fact =
    | Minting(registry: Registry, instrument: InstrumentId, amount: int)
    | Burning(registry: Registry, instrument: InstrumentId, amount: int)
    | Allocating(allocation: Cid, spec: Spec, sender: Eligibility, receiver: Eligibility, at: Time)
    | Executing(allocation: Cid, spec: Spec, at: Time)
    | Trading(cid: Cid, trade: Trade)
    | GatewayMinting(gateway: Party, lock: string, amount: int)
    | GatewayBurning(gateway: Party, lock: string, amount: int)

  datatype State = State(active: map<Cid, Contract>, next: Cid, now: Time, log: seq<Fact>)

  datatype Error = NotActive | Unauthorized | Rejected | Overflow

  // Create, fetch and archive ------------------------------------------------------------------------------

  predicate Distinct<T(==)>(items: seq<T>) {
    forall i, j :: 0 <= i < j < |items| ==> items[i] != items[j]
  }

  predicate WellFormed(t: Terms) {
    && t.venue != t.seller
    && t.venue != t.buyer
    && t.seller != t.buyer
    && t.treasuryLeg.amount > 0
    && t.paymentLeg.amount > 0
    && t.treasuryLeg.instrument != t.paymentLeg.instrument
    && t.treasuryLeg.sender == t.seller
    && t.treasuryLeg.receiver == t.buyer
    && t.paymentLeg.sender == t.buyer
    && t.paymentLeg.receiver == t.seller
    && t.allocateBefore < t.settleBefore
  }

  /** The `ensure` clause of each template. */
  predicate Ensured(c: Contract) {
    match c
    case Held(h) => 0 < h.amount
    case Attested(e) => e.validFrom < e.validUntil && e.attestation != ""
    case Issuer(_, instrument) => instrument.id != ""
    case Proposed(p) => WellFormed(p.terms) && Distinct(p.approvers)
    case Agreed(t) => WellFormed(t.terms)
    case Signed(a) =>
      a.lock != "" && a.amount > 0 && a.digest != "" && a.attester != a.registry && a.attester != a.beneficiary
    case Requested(r) => r.lock != "" && r.amount > 0 && r.digest != "" && r.payout != ""
    case Guarded(g) => |g.attesters| == 3 && Distinct(g.attesters)
    case Referenced(r) => r.lock != "" && r.buyer != r.registry
    case Bound(b) =>
      && b.lock != "" && b.trade != ""
      && b.buyer != b.registry && b.seller != b.buyer && b.seller != b.registry
      && b.venue != b.buyer && b.venue != b.seller && b.venue != b.registry
    case _ => true
  }

  /** The parties whose authority creating a contract needs. */
  function Signatories(c: Contract): set<Party> {
    match c
    case Held(h) => {h.instrument.admin}
    case Allocated(a) => {a.spec.leg.instrument.admin}
    case Attested(e) => {e.instrument.admin}
    case Rules(_, instrument) => {instrument.admin}
    case Issuer(_, instrument) => {instrument.admin}
    case Proposed(p) => {p.terms.seller} + set party | party in p.approvers
    case Agreed(t) => {t.terms.venue, t.terms.seller, t.terms.buyer}
    case Signed(a) => {a.attester}
    case Requested(r) => {r.holder}
    case Guarded(g) => {g.registry}
    case LockMinted(m) => {m.registry}
    case LockRedeemed(r) => {r.registry}
    case Referenced(r) => {r.registry}
    case Bound(b) => {b.registry, b.buyer}
  }

  function Create(s: State, c: Contract): (r: Result<State, Error>)
    ensures r.Ok? <==> Ensured(c)
    ensures r.Ok? ==> r.value.next == s.next + 1
  {
    if !Ensured(c) then
      Err(Rejected)
    else
      Ok(s.(active := s.active[s.next := c], next := s.next + 1))
  }

  /** Archiving needs the signatories of the contract. */
  function Archive(s: State, cid: Cid, authority: set<Party>): Result<State, Error> {
    if cid !in s.active then
      Err(NotActive)
    else
      :- Need(Signatories(s.active[cid]) <= authority, Unauthorized);
      Ok(Consume(s, cid))
  }

  /** What exercising a consuming choice does before its body runs. */
  function Consume(s: State, cid: Cid): State {
    s.(active := s.active - {cid})
  }

  function Record(s: State, fact: Fact): State {
    s.(log := s.log + [fact])
  }

  function FetchHolding(s: State, registry: Registry, cid: Cid): Result<Holding, Error> {
    if cid in s.active && s.active[cid].Held? && s.active[cid].holding.registry == registry
    then Ok(s.active[cid].holding) else Err(NotActive)
  }

  function FetchAllocation(s: State, cid: Cid): Result<Allocation, Error> {
    if cid in s.active && s.active[cid].Allocated? then Ok(s.active[cid].allocation) else Err(NotActive)
  }

  function FetchEligibility(s: State, registry: Registry, cid: Option<Cid>): Result<Eligibility, Error> {
    match cid
    case None => Err(Rejected)
    case Some(c) =>
      if c in s.active && s.active[c].Attested? && s.active[c].eligibility.registry == registry
      then Ok(s.active[c].eligibility) else Err(NotActive)
  }

  // Holdings -----------------------------------------------------------------------------------------------

  /** `Mint` of a stablecoin instrument and `Issue` of a treasury instrument. */
  function Issue(s: State, cid: Cid, owner: Party, amount: int, authority: set<Party>): Result<State, Error> {
    if !(cid in s.active && s.active[cid].Issuer?) then
      Err(NotActive)
    else
      var issuer := s.active[cid];
      :- Need(issuer.issued.admin in authority, Unauthorized);
      :- Need(amount < DECIMAL_LIMIT, Overflow);
      var s1 :- Create(s, Held(Holding(issuer.issuerRegistry, issuer.issued, owner, amount, None)));
      Ok(Record(s1, Minting(issuer.issuerRegistry, issuer.issued, amount)))
  }

  function Burn(s: State, cid: Cid, authority: set<Party>): Result<State, Error> {
    var h :- FetchHolding(s, Stablecoin, cid);
    :- Need(h.instrument.admin in authority, Unauthorized);
    :- Need(h.lock.None?, Rejected);
    Ok(Record(Consume(s, cid), Burning(h.registry, h.instrument, h.amount)))
  }

  function Split(s: State, registry: Registry, cid: Cid, amount: int, authority: set<Party>): Result<State, Error> {
    var h :- FetchHolding(s, registry, cid);
    :- Need(h.owner in authority, Unauthorized);
    :- Need(h.lock.None? && 0 < amount < h.amount, Rejected);
    var s1 :- Create(Consume(s, cid), Held(h.(amount := amount)));
    Create(s1, Held(h.(amount := h.amount - amount)))
  }

  function Merge(s: State, registry: Registry, cid: Cid, other: Cid, authority: set<Party>): Result<State, Error> {
    var h :- FetchHolding(s, registry, cid);
    :- Need(h.owner in authority, Unauthorized);
    :- Need(h.lock.None?, Rejected);
    var s1 := Consume(s, cid);
    var o :- FetchHolding(s1, registry, other);
    :- Need(o.instrument == h.instrument && o.owner == h.owner && o.lock.None?, Rejected);
    var s2 :- Archive(s1, other, authority + {h.instrument.admin});
    :- Need(h.amount + o.amount < DECIMAL_LIMIT, Overflow);
    Create(s2, Held(h.(amount := h.amount + o.amount)))
  }

  // Allocations --------------------------------------------------------------------------------------------

  datatype AllocateArgs = AllocateArgs(
    expectedAdmin: Party, spec: Spec, inputs: seq<Cid>, senderEligibility: Option<Cid>, receiverEligibility: Option<Cid>)

  predicate UsableInput(s: State, registry: Registry, instrument: InstrumentId, owner: Party, cid: Cid) {
    match FetchHolding(s, registry, cid)
    case Ok(h) => h.owner == owner && h.instrument == instrument && h.lock.None?
    case Err(_) => false
  }

  /** What the inputs hold together; a contract that is no holding counts for nothing. */
  function InputTotal(s: State, inputs: seq<Cid>): int {
    if inputs == [] then
      0
    else
      var last := inputs[|inputs| - 1];
      InputTotal(s, inputs[..|inputs| - 1]) + (if last in s.active && s.active[last].Held? then s.active[last].holding.amount else 0)
  }

  predicate RequireEligible(instrument: InstrumentId, party: Party, now: Time, settleBefore: Time, e: Eligibility) {
    && e.instrument == instrument
    && e.investor == party
    && !e.suspended
    && e.validFrom <= now < e.validUntil
    && settleBefore <= e.validUntil
  }

  function LockedFor(registry: Registry, spec: Spec): Holding {
    Holding(registry, spec.leg.instrument, spec.leg.sender, spec.leg.amount,
            Some(Lock(spec.leg.instrument.admin, spec.settlement.settleBefore)))
  }

  /** The checks before anything is archived. */
  function MayAllocate(s: State, rules: Cid, args: AllocateArgs, authority: set<Party>): (r: Result<(Eligibility, Eligibility), Error>)
    ensures r.Ok? ==> rules in s.active && s.active[rules].Rules?
  {
    if !(rules in s.active && s.active[rules].Rules?) then
      Err(NotActive)
    else
      var (registry, instrument) := (s.active[rules].rulesRegistry, s.active[rules].rulesInstrument);
      var (leg, settlement) := (args.spec.leg, args.spec.settlement);
      :- Need(leg.sender in authority, Unauthorized);
      :- Need(args.expectedAdmin == instrument.admin, Rejected);
      :- Need(leg.instrument == instrument, Rejected);
      :- Need(leg.amount > 0, Rejected);
      :- Need(s.now < settlement.allocateBefore, Rejected);
      :- Need(settlement.allocateBefore < settlement.settleBefore, Rejected);
      :- Need(args.inputs != [] && Distinct(args.inputs), Rejected);
      :- Need(forall cid :: cid in args.inputs ==> UsableInput(s, registry, instrument, leg.sender, cid), Rejected);
      :- Need(InputTotal(s, args.inputs) < DECIMAL_LIMIT, Overflow);
      :- Need(InputTotal(s, args.inputs) >= leg.amount, Rejected);
      var sender :- FetchEligibility(s, registry, args.senderEligibility);
      var receiver :- FetchEligibility(s, registry, args.receiverEligibility);
      :- Need(RequireEligible(instrument, leg.sender, s.now, settlement.settleBefore, sender), Rejected);
      :- Need(RequireEligible(instrument, leg.receiver, s.now, settlement.settleBefore, receiver), Rejected);
      Ok((sender, receiver))
  }

  /** The sender gets back what the inputs hold beyond the leg, if anything. */
  function GiveChange(s: State, registry: Registry, leg: Leg, change: int): (r: Result<State, Error>)
    ensures r.Ok?
  {
    if change > 0 then Create(s, Held(Holding(registry, leg.instrument, leg.sender, change, None))) else Ok(s)
  }

  /** Archives the inputs and creates the locked holding, the change and the allocation. */
  function LockInputs(s: State, registry: Registry, spec: Spec, inputs: seq<Cid>): Result<State, Error> {
    var change := InputTotal(s, inputs) - spec.leg.amount;
    var s1 := s.(active := s.active - (set cid | cid in inputs));
    var s2 :- Create(s1, Held(LockedFor(registry, spec)));
    var s3 :- GiveChange(s2, registry, spec.leg, change);
    Create(s3, Allocated(Allocation(registry, spec, s1.next)))
  }

  function Allocate(s: State, rules: Cid, args: AllocateArgs, authority: set<Party>): Result<State, Error> {
    var (sender, receiver) :- MayAllocate(s, rules, args, authority);
    var s1 :- LockInputs(s, s.active[rules].rulesRegistry, args.spec, args.inputs);
    Ok(Record(s1, Allocating(s1.next - 1, args.spec, sender, receiver, s.now)))
  }

  function Controllers(spec: Spec): set<Party> {
    {spec.settlement.executor, spec.leg.sender, spec.leg.receiver}
  }

  /** Archives the locked holding and gives its amount, unlocked, to a party. */
  function Release(s: State, a: Allocation, to: Party, authority: set<Party>): Result<State, Error> {
    var _ :- FetchHolding(s, a.registry, a.locked);
    var s1 :- Archive(s, a.locked, authority);
    Create(s1, Held(Holding(a.registry, a.spec.leg.instrument, to, a.spec.leg.amount, None)))
  }

  function Execute(s: State, cid: Cid, authority: set<Party>): Result<State, Error> {
    var a :- FetchAllocation(s, cid);
    :- Need(Controllers(a.spec) <= authority, Unauthorized);
    :- Need(s.now < a.spec.settlement.settleBefore, Rejected);
    var s1 :- Release(Consume(s, cid), a, a.spec.leg.receiver, authority + {a.spec.leg.instrument.admin});
    Ok(Record(s1, Executing(cid, a.spec, s.now)))
  }

  function Cancel(s: State, cid: Cid, authority: set<Party>): Result<State, Error> {
    var a :- FetchAllocation(s, cid);
    :- Need(Controllers(a.spec) <= authority, Unauthorized);
    Release(Consume(s, cid), a, a.spec.leg.sender, authority + {a.spec.leg.instrument.admin})
  }

  function Withdraw(s: State, cid: Cid, authority: set<Party>): Result<State, Error> {
    var a :- FetchAllocation(s, cid);
    :- Need(a.spec.leg.sender in authority, Unauthorized);
    Release(Consume(s, cid), a, a.spec.leg.sender, authority + {a.spec.leg.instrument.admin})
  }

  // Proposals and trades -----------------------------------------------------------------------------------

  function FetchProposal(s: State, cid: Cid): Result<Proposal, Error> {
    if cid in s.active && s.active[cid].Proposed? then Ok(s.active[cid].proposal) else Err(NotActive)
  }

  function FetchTrade(s: State, cid: Cid): Result<Trade, Error> {
    if cid in s.active && s.active[cid].Agreed? then Ok(s.active[cid].trade) else Err(NotActive)
  }

  /** The proposal that a chain of approvals started from. */
  function RootOf(cid: Cid, p: Proposal): Cid {
    match p.root
    case None => cid
    case Some(root) => root
  }

  function Accept(s: State, cid: Cid, approver: Party, authority: set<Party>): Result<State, Error> {
    var p :- FetchProposal(s, cid);
    :- Need(approver in authority, Unauthorized);
    :- Need(approver == p.terms.seller || approver == p.terms.buyer, Rejected);
    :- Need(approver !in p.approvers, Rejected);
    Create(Consume(s, cid), Proposed(p.(approvers := p.approvers + [approver], root := Some(RootOf(cid, p)))))
  }

  function Reject(s: State, cid: Cid, rejector: Party, authority: set<Party>): Result<State, Error> {
    var p :- FetchProposal(s, cid);
    :- Need(rejector in authority, Unauthorized);
    :- Need(rejector == p.terms.seller || rejector == p.terms.buyer, Rejected);
    Ok(Consume(s, cid))
  }

  function Initiate(s: State, cid: Cid, authority: set<Party>): Result<State, Error> {
    var p :- FetchProposal(s, cid);
    :- Need(p.terms.venue in authority, Unauthorized);
    :- Need(p.terms.seller in p.approvers && p.terms.buyer in p.approvers, Rejected);
    :- Need(s.now < p.terms.allocateBefore, Rejected);
    var trade := Trade(p.terms, RootOf(cid, p));
    var s1 :- Create(Consume(s, cid), Agreed(trade));
    Ok(Record(s1, Trading(s.next, trade)))
  }

  function SettlementInfo(t: Trade): Settlement {
    Settlement(t.terms.venue, Reference("", Some(t.proposal)), t.terms.requestedAt, t.terms.allocateBefore, t.terms.settleBefore)
  }

  function LegOf(t: Trade, legId: LegId): Leg {
    if legId == TreasuryDelivery then t.terms.treasuryLeg else t.terms.paymentLeg
  }

  function ExpectedAllocation(t: Trade, legId: LegId): Spec {
    Spec(SettlementInfo(t), legId, LegOf(t, legId))
  }

  datatype Supplied = Supplied(legId: LegId, allocation: Cid)

  function LegIds(supplied: seq<Supplied>): multiset<LegId> {
    if supplied == [] then multiset{} else multiset{supplied[0].legId} + LegIds(supplied[1..])
  }

  function LegsNamed(legId: LegId, supplied: seq<Supplied>): seq<Supplied> {
    if supplied == [] then
      []
    else
      (if supplied[0].legId == legId then [supplied[0]] else []) + LegsNamed(legId, supplied[1..])
  }

  function SuppliedLeg(legId: LegId, supplied: seq<Supplied>): Result<Supplied, Error> {
    var found := LegsNamed(legId, supplied);
    if |found| == 1 then Ok(found[0]) else Err(Rejected)
  }

  /** The allocation supplied for a leg must be exactly the one the trade expects. */
  function MatchingAllocation(s: State, t: Trade, legId: LegId, cid: Cid): Result<Allocation, Error> {
    var a :- FetchAllocation(s, cid);
    :- Need(a.spec == ExpectedAllocation(t, legId), Rejected);
    Ok(a)
  }

  /** The body of the settlement, which runs after the trade was consumed. */
  function SettleBody(s: State, t: Trade, supplied: seq<Supplied>): Result<State, Error> {
    if t.terms.settleBefore <= s.now then
      Err(Rejected)
    else
      :- Need(LegIds(supplied) == multiset{TreasuryDelivery, StablecoinPayment}, Rejected);
      var treasury :- SuppliedLeg(TreasuryDelivery, supplied);
      var payment :- SuppliedLeg(StablecoinPayment, supplied);
      :- Need(treasury.allocation != payment.allocation, Rejected);
      var _ :- MatchingAllocation(s, t, TreasuryDelivery, treasury.allocation);
      var _ :- MatchingAllocation(s, t, StablecoinPayment, payment.allocation);
      var power := {t.terms.venue, t.terms.seller, t.terms.buyer};
      var s1 :- Execute(s, treasury.allocation, power);
      Execute(s1, payment.allocation, power)
  }

  function Settle(s: State, cid: Cid, supplied: seq<Supplied>, authority: set<Party>): Result<State, Error> {
    var t :- FetchTrade(s, cid);
    :- Need(t.terms.venue in authority, Unauthorized);
    SettleBody(Consume(s, cid), t, supplied)
  }

  /** A trade is also the request for its allocations: a sender may reject it. */
  function RejectRequest(s: State, cid: Cid, actor: Party, authority: set<Party>): Result<State, Error> {
    var t :- FetchTrade(s, cid);
    :- Need(actor in authority, Unauthorized);
    :- Need(actor == t.terms.treasuryLeg.sender || actor == t.terms.paymentLeg.sender, Rejected);
    Ok(Consume(s, cid))
  }

  function WithdrawRequest(s: State, cid: Cid, authority: set<Party>): Result<State, Error> {
    var t :- FetchTrade(s, cid);
    :- Need(t.terms.venue in authority, Unauthorized);
    Ok(Consume(s, cid))
  }

  // Publishing ---------------------------------------------------------------------------------------------

  /**
   * The contracts that parties create themselves. Holdings, allocations, trades, gateways and what a gateway
   * leaves behind come from choices only.
   */
  predicate MayPublish(c: Contract) {
    c.Attested? || c.Rules? || c.Issuer? || c.Proposed? || c.Signed? || c.Requested?
  }

  function Publish(s: State, c: Contract, authority: set<Party>): Result<State, Error> {
    if !(MayPublish(c) && Signatories(c) <= authority) then
      Err(Unauthorized)
    else
      Create(s, c)
  }

  function Revoke(s: State, cid: Cid, authority: set<Party>): Result<State, Error> {
    if !(cid in s.active && s.active[cid].Attested?) then
      Err(NotActive)
    else
      :- Need(s.active[cid].eligibility.instrument.admin in authority, Unauthorized);
      Ok(Consume(s, cid))
  }
}

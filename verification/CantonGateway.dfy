/** The mint and burn gateway of the bridge and the bindings that tie a lock to its trade. */
module CantonGateway {
  import opened Outcomes
  import opened CantonLedger

  function FetchAttestation(s: State, cid: Cid): Result<Attestation, Error> {
    if cid in s.active && s.active[cid].Signed? then Ok(s.active[cid].attestation) else Err(NotActive)
  }

  function FetchGateway(s: State, cid: Cid): Result<Gateway, Error> {
    if cid in s.active && s.active[cid].Guarded? then Ok(s.active[cid].gateway) else Err(NotActive)
  }

  function FetchRequest(s: State, cid: Cid): Result<Request, Error> {
    if cid in s.active && s.active[cid].Requested? then Ok(s.active[cid].request) else Err(NotActive)
  }

  function FetchMinted(s: State, cid: Cid): Result<MintedLock, Error> {
    if cid in s.active && s.active[cid].LockMinted? then Ok(s.active[cid].minted) else Err(NotActive)
  }

  function FetchMintRef(s: State, cid: Cid): Result<MintRef, Error> {
    if cid in s.active && s.active[cid].Referenced? then Ok(s.active[cid].reference) else Err(NotActive)
  }

  function FetchBinding(s: State, cid: Cid): Result<Binding, Error> {
    if cid in s.active && s.active[cid].Bound? then Ok(s.active[cid].binding) else Err(NotActive)
  }

  /** Two attestations of different configured attesters that say the same. */
  predicate Quorum(g: Gateway, firstCid: Cid, first: Attestation, secondCid: Cid, second: Attestation, direction: Direction) {
    && firstCid != secondCid
    && first.attester != second.attester
    && first.attester in g.attesters
    && second.attester in g.attesters
    && first.registry == g.registry && second.registry == g.registry
    && first.direction == direction && second.direction == direction
    && first.lock == second.lock
    && first.amount == second.amount
    && first.beneficiary == second.beneficiary
    && first.digest == second.digest
    && first.instrument == g.instrument && second.instrument == g.instrument
  }

  /** The three contracts that a mint leaves behind: the minted lock, the reference and the next gateway. */
  function LeaveMint(s: State, g: Gateway, a: Attestation, holding: Cid): Result<State, Error> {
    var s1 :- Create(s, LockMinted(MintedLock(g.registry, a.lock, holding, a.amount, a.beneficiary)));
    var s2 :- Create(s1, Referenced(MintRef(g.registry, a.beneficiary, a.lock, holding)));
    var s3 :- Create(s2, Guarded(g.(minted := [a.lock] + g.minted)));
    Ok(Record(s3, GatewayMinting(g.registry, a.lock, a.amount)))
  }

  function Mint(s: State, cid: Cid, firstCid: Cid, secondCid: Cid, authority: set<Party>): Result<State, Error> {
    var g :- FetchGateway(s, cid);
    :- Need(g.registry in authority, Unauthorized);
    var first :- FetchAttestation(s, firstCid);
    var second :- FetchAttestation(s, secondCid);
    :- Need(Quorum(g, firstCid, first, secondCid, second, MintDirection), Rejected);
    :- Need(first.lock !in g.minted, Rejected);
    var s1 :- Issue(Consume(s, cid), g.issuer, first.beneficiary, first.amount, {g.registry});
    LeaveMint(s1, g, first, s.next)
  }

  datatype RedeemArgs = RedeemArgs(request: Cid, first: Cid, second: Cid, minted: Cid, binding: Cid)

  /** The holding must be the requester's, unlocked, of this instrument and of the requested amount. */
  predicate HoldingRedeemable(g: Gateway, request: Request, holding: Holding) {
    && request.registry == g.registry
    && holding.owner == request.holder
    && holding.instrument == g.instrument
    && request.instrument == g.instrument
    && holding.lock.None?
    && holding.amount == request.amount
  }

  predicate AttestsRequest(request: Request, first: Attestation, second: Attestation) {
    && first.lock == request.lock
    && first.amount == request.amount
    && first.beneficiary == request.holder && second.beneficiary == request.holder
    && first.digest == request.digest
    && request.instrument == first.instrument
    && first.payout == second.payout == request.payout
    && request.payout != ""
  }

  predicate LockRedeemable(g: Gateway, request: Request, minted: MintedLock, holding: Holding) {
    && minted.registry == g.registry
    && minted.lock == request.lock
    && minted.lock in g.minted
    && minted.amount == request.amount
    && minted.amount == holding.amount
    && request.lock !in g.redeemed
  }

  predicate BindingRedeemable(g: Gateway, request: Request, binding: Binding) {
    && binding.registry == g.registry
    && binding.lock == request.lock
    && binding.seller == request.holder
    && binding.payment == Some(request.holding)
  }

  /** The checks before the burn; answers the request. */
  function MayRedeem(s: State, g: Gateway, args: RedeemArgs): Result<Request, Error> {
    var request :- FetchRequest(s, args.request);
    var first :- FetchAttestation(s, args.first);
    var second :- FetchAttestation(s, args.second);
    var minted :- FetchMinted(s, args.minted);
    var binding :- FetchBinding(s, args.binding);
    var holding :- FetchHolding(s, Stablecoin, request.holding);
    :- Need(HoldingRedeemable(g, request, holding), Rejected);
    :- Need(Quorum(g, args.first, first, args.second, second, RedeemDirection), Rejected);
    :- Need(AttestsRequest(request, first, second), Rejected);
    :- Need(LockRedeemable(g, request, minted, holding), Rejected);
    :- Need(BindingRedeemable(g, request, binding), Rejected);
    Ok(request)
  }

  /** The redeemed lock and the next gateway. */
  function LeaveRedeem(s: State, g: Gateway, request: Request): Result<State, Error> {
    var s1 :- Create(s, LockRedeemed(RedeemedLock(g.registry, request.lock, request.amount, request.holder)));
    var s2 :- Create(s1, Guarded(g.(redeemed := [request.lock] + g.redeemed)));
    Ok(Record(s2, GatewayBurning(g.registry, request.lock, request.amount)))
  }

  function Redeem(s: State, cid: Cid, args: RedeemArgs, authority: set<Party>): Result<State, Error> {
    var g :- FetchGateway(s, cid);
    :- Need(g.registry in authority, Unauthorized);
    var request :- MayRedeem(s, g, args);
    var s1 :- Burn(Consume(s, cid), request.holding, {g.registry});
    LeaveRedeem(s1, g, request)
  }

  function Bind(s: State, cid: Cid, seller: Party, venue: Party, trade: string, authority: set<Party>): Result<State, Error> {
    var r :- FetchMintRef(s, cid);
    :- Need(r.buyer in authority, Unauthorized);
    :- Need(trade != "", Rejected);
    :- Need(seller != r.buyer && seller != r.registry, Rejected);
    :- Need(venue != r.buyer && venue != seller && venue != r.registry, Rejected);
    Create(Consume(s, cid), Bound(Binding(r.registry, r.buyer, seller, venue, r.lock, r.holding, trade, None, None)))
  }

  function RecordTreasury(s: State, cid: Cid, treasury: string, authority: set<Party>): Result<State, Error> {
    var b :- FetchBinding(s, cid);
    :- Need(b.buyer in authority, Unauthorized);
    :- Need(b.treasury.None? && treasury != "", Rejected);
    Create(Consume(s, cid), Bound(b.(treasury := Some(treasury))))
  }

  function RecordPayment(s: State, cid: Cid, payment: Cid, authority: set<Party>): Result<State, Error> {
    var b :- FetchBinding(s, cid);
    :- Need(b.seller in authority, Unauthorized);
    :- Need(b.payment.None?, Rejected);
    Create(Consume(s, cid), Bound(b.(payment := Some(payment))))
  }
}

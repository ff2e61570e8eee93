/** The choices as transactions on a ledger kept in place: contracts are archived and created one after another. */
module CantonProgram {
  import opened Outcomes
  import opened CantonLedger
  import G = CantonGateway

  /** A transaction that succeeds does what the choice says, and one that fails leaves the ledger as it was. */
  ghost predicate Commits(before: State, after: State, choice: Result<State, Error>, r: Result<bool, Error>) {
    match choice
    case Ok(t) => r.Ok? && after == t
    case Err(e) => r == Err(e) && after == before
  }

  class Ledger {
    var active: map<Cid, Contract>
    var next: Cid
    var now: Time
    var log: seq<Fact>

    ghost function View(): State
      reads this
    {
      State(active, next, now, log)
    }

    constructor (start: Time)
      ensures View() == State(map[], 0, start, [])
    {
      active, next, now, log := map[], 0, start, [];
    }

    method Restore(contracts: map<Cid, Contract>, id: Cid, facts: seq<Fact>)
      modifies this
      ensures View() == State(contracts, id, old(now), facts)
    {
      active, next, log := contracts, id, facts;
    }

    method Add(c: Contract) returns (r: Result<Cid, Error>)
      modifies this
      ensures Create(old(View()), c).Ok? ==> r == Ok(old(next)) && View() == Create(old(View()), c).value
      ensures Create(old(View()), c).Err? ==> r == Err(Rejected) && View() == old(View())
    {
      if !Ensured(c) {
        return Err(Rejected);
      }
      active := active[next := c];
      next := next + 1;
      return Ok(next - 1);
    }

    method SplitHolding(registry: Registry, cid: Cid, amount: int, authority: set<Party>) returns (r: Result<bool, Error>)
      modifies this
      ensures Commits(old(View()), View(), Split(old(View()), registry, cid, amount, authority), r)
    {
      if !(cid in active && active[cid].Held? && active[cid].holding.registry == registry) {
        return Err(NotActive);
      }
      var h := active[cid].holding;
      if h.owner !in authority {
        return Err(Unauthorized);
      }
      if h.lock.Some? || amount <= 0 || h.amount <= amount {
        return Err(Rejected);
      }
      active := active - {cid};
      var first := Add(Held(h.(amount := amount)));
      var second := Add(Held(h.(amount := h.amount - amount)));
      return Ok(true);
    }

    method MergeHoldings(registry: Registry, cid: Cid, other: Cid, authority: set<Party>) returns (r: Result<bool, Error>)
      modifies this
      ensures Commits(old(View()), View(), Merge(old(View()), registry, cid, other, authority), r)
    {
      var (contracts, id, facts) := (active, next, log);
      if !(cid in active && active[cid].Held? && active[cid].holding.registry == registry) {
        return Err(NotActive);
      }
      var h := active[cid].holding;
      if h.owner !in authority {
        return Err(Unauthorized);
      }
      if h.lock.Some? {
        return Err(Rejected);
      }
      active := active - {cid};
      if !(other in active && active[other].Held? && active[other].holding.registry == registry) {
        Restore(contracts, id, facts);
        return Err(NotActive);
      }
      var o := active[other].holding;
      if o.instrument != h.instrument || o.owner != h.owner || o.lock.Some? {
        Restore(contracts, id, facts);
        return Err(Rejected);
      }
      active := active - {other};
      if DECIMAL_LIMIT <= h.amount + o.amount {
        Restore(contracts, id, facts);
        return Err(Overflow);
      }
      var merged := Add(Held(h.(amount := h.amount + o.amount)));
      if merged.Err? {
        Restore(contracts, id, facts);
        return Err(Rejected);
      }
      return Ok(true);
    }

    /** Checks the inputs one by one while adding them up. */
    method CheckInputs(registry: Registry, spec: Spec, inputs: seq<Cid>) returns (usable: bool, total: int)
      ensures usable <==> forall cid :: cid in inputs ==> UsableInput(View(), registry, spec.leg.instrument, spec.leg.sender, cid)
      ensures usable ==> total == InputTotal(View(), inputs)
    {
      usable, total := true, 0;
      for i := 0 to |inputs|
        invariant usable <==> forall k :: 0 <= k < i ==> UsableInput(View(), registry, spec.leg.instrument, spec.leg.sender, inputs[k])
        invariant usable ==> total == InputTotal(View(), inputs[..i])
      {
        var cid := inputs[i];
        assert inputs[..i + 1][..i] == inputs[..i];
        if !(cid in active && active[cid].Held? && active[cid].holding.registry == registry) {
          usable := false;
        } else {
          var h := active[cid].holding;
          usable := usable && h.owner == spec.leg.sender && h.instrument == spec.leg.instrument && h.lock.None?;
          total := total + h.amount;
        }
      }
      assert inputs[..|inputs|] == inputs;
    }

    method ArchiveInputs(inputs: seq<Cid>)
      modifies this
      ensures View() == old(View()).(active := old(active) - (set cid | cid in inputs))
    {
      for i := 0 to |inputs|
        invariant View() == old(View()).(active := old(active) - (set cid | cid in inputs[..i]))
      {
        active := active - {inputs[i]};
        assert inputs[..i + 1] == inputs[..i] + [inputs[i]];
      }
      assert inputs[..|inputs|] == inputs;
    }

    /** The effects of an allocation, after its checks: inputs out, locked holding, change and allocation in. */
    method LockHoldings(registry: Registry, spec: Spec, inputs: seq<Cid>, total: int) returns (allocation: Cid)
      requires total == InputTotal(View(), inputs) && 0 < spec.leg.amount
      modifies this
      ensures LockInputs(old(View()), registry, spec, inputs) == Ok(View())
      ensures allocation == next - 1
    {
      ArchiveInputs(inputs);
      var locked := Add(Held(LockedFor(registry, spec)));
      if total > spec.leg.amount {
        var change := Add(Held(Holding(registry, spec.leg.instrument, spec.leg.sender, total - spec.leg.amount, None)));
      }
      var created := Add(Allocated(Allocation(registry, spec, locked.value)));
      allocation := created.value;
    }

    method AllocateHoldings(rules: Cid, args: AllocateArgs, authority: set<Party>) returns (r: Result<bool, Error>)
      modifies this
      ensures Commits(old(View()), View(), Allocate(old(View()), rules, args, authority), r)
    {
      ghost var s := View();
      if !(rules in active && active[rules].Rules?) {
        return Err(NotActive);
      }
      var (registry, instrument) := (active[rules].rulesRegistry, active[rules].rulesInstrument);
      var (leg, settlement) := (args.spec.leg, args.spec.settlement);
      if leg.sender !in authority {
        return Err(Unauthorized);
      }
      if args.expectedAdmin != instrument.admin || leg.instrument != instrument || leg.amount <= 0 {
        return Err(Rejected);
      }
      if settlement.allocateBefore <= now || settlement.settleBefore <= settlement.allocateBefore {
        return Err(Rejected);
      }
      if args.inputs == [] || !Distinct(args.inputs) {
        return Err(Rejected);
      }
      var usable, total := CheckInputs(registry, args.spec, args.inputs);
      if !usable {
        return Err(Rejected);
      }
      if DECIMAL_LIMIT <= total {
        return Err(Overflow);
      }
      if total < leg.amount {
        return Err(Rejected);
      }
      var sender := LookUpEligibility(registry, args.senderEligibility);
      if sender.Err? {
        return Err(sender.error);
      }
      var receiver := LookUpEligibility(registry, args.receiverEligibility);
      if receiver.Err? {
        return Err(receiver.error);
      }
      if !RequireEligible(instrument, leg.sender, now, settlement.settleBefore, sender.value)
        || !RequireEligible(instrument, leg.receiver, now, settlement.settleBefore, receiver.value) {
        return Err(Rejected);
      }
      assert MayAllocate(s, rules, args, authority) == Ok((sender.value, receiver.value));
      var allocation := LockHoldings(registry, args.spec, args.inputs, total);
      log := log + [Allocating(allocation, args.spec, sender.value, receiver.value, now)];
      return Ok(true);
    }

    method LookUpEligibility(registry: Registry, cid: Option<Cid>) returns (r: Result<Eligibility, Error>)
      ensures r == FetchEligibility(View(), registry, cid)
    {
      if cid.None? {
        return Err(Rejected);
      }
      var c := cid.value;
      if !(c in active && active[c].Attested? && active[c].eligibility.registry == registry) {
        return Err(NotActive);
      }
      return Ok(active[c].eligibility);
    }

    /** Archives the locked holding of an allocation and creates the unlocked one. */
    method GiveTo(a: Allocation, to: Party, authority: set<Party>) returns (r: Result<bool, Error>)
      modifies this
      ensures Release(old(View()), a, to, authority).Ok? ==> r.Ok? && View() == Release(old(View()), a, to, authority).value
      ensures Release(old(View()), a, to, authority).Err? ==> r == Err(Release(old(View()), a, to, authority).error)
      ensures now == old(now)
    {
      if !(a.locked in active && active[a.locked].Held? && active[a.locked].holding.registry == a.registry) {
        return Err(NotActive);
      }
      if active[a.locked].holding.instrument.admin !in authority {
        return Err(Unauthorized);
      }
      active := active - {a.locked};
      var received := Add(Held(Holding(a.registry, a.spec.leg.instrument, to, a.spec.leg.amount, None)));
      return if received.Ok? then Ok(true) else Err(received.error);
    }

    method ExecuteTransfer(cid: Cid, authority: set<Party>) returns (r: Result<bool, Error>)
      modifies this
      ensures Commits(old(View()), View(), Execute(old(View()), cid, authority), r)
    {
      var (contracts, id, facts) := (active, next, log);
      if !(cid in active && active[cid].Allocated?) {
        return Err(NotActive);
      }
      var a := active[cid].allocation;
      if !(Controllers(a.spec) <= authority) {
        return Err(Unauthorized);
      }
      active := active - {cid};
      if a.spec.settlement.settleBefore <= now {
        Restore(contracts, id, facts);
        return Err(Rejected);
      }
      r := GiveTo(a, a.spec.leg.receiver, authority + {a.spec.leg.instrument.admin});
      if r.Err? {
        Restore(contracts, id, facts);
        return;
      }
      log := log + [Executing(cid, a.spec, now)];
    }

    method CancelAllocation(cid: Cid, authority: set<Party>) returns (r: Result<bool, Error>)
      modifies this
      ensures Commits(old(View()), View(), Cancel(old(View()), cid, authority), r)
    {
      var (contracts, id, facts) := (active, next, log);
      if !(cid in active && active[cid].Allocated?) {
        return Err(NotActive);
      }
      var a := active[cid].allocation;
      if !(Controllers(a.spec) <= authority) {
        return Err(Unauthorized);
      }
      active := active - {cid};
      r := GiveTo(a, a.spec.leg.sender, authority + {a.spec.leg.instrument.admin});
      if r.Err? {
        Restore(contracts, id, facts);
      }
    }

    method WithdrawAllocation(cid: Cid, authority: set<Party>) returns (r: Result<bool, Error>)
      modifies this
      ensures Commits(old(View()), View(), Withdraw(old(View()), cid, authority), r)
    {
      var (contracts, id, facts) := (active, next, log);
      if !(cid in active && active[cid].Allocated?) {
        return Err(NotActive);
      }
      var a := active[cid].allocation;
      if a.spec.leg.sender !in authority {
        return Err(Unauthorized);
      }
      active := active - {cid};
      r := GiveTo(a, a.spec.leg.sender, authority + {a.spec.leg.instrument.admin});
      if r.Err? {
        Restore(contracts, id, facts);
      }
    }

    method AcceptProposal(cid: Cid, approver: Party, authority: set<Party>) returns (r: Result<bool, Error>)
      modifies this
      ensures Commits(old(View()), View(), Accept(old(View()), cid, approver, authority), r)
    {
      var (contracts, id, facts) := (active, next, log);
      if !(cid in active && active[cid].Proposed?) {
        return Err(NotActive);
      }
      var p := active[cid].proposal;
      if approver !in authority {
        return Err(Unauthorized);
      }
      if (approver != p.terms.seller && approver != p.terms.buyer) || approver in p.approvers {
        return Err(Rejected);
      }
      active := active - {cid};
      var root := if p.root.None? then cid else p.root.value;
      var accepted := Add(Proposed(p.(approvers := p.approvers + [approver], root := Some(root))));
      if accepted.Err? {
        Restore(contracts, id, facts);
        return Err(Rejected);
      }
      return Ok(true);
    }

    method InitiateSettlement(cid: Cid, authority: set<Party>) returns (r: Result<bool, Error>)
      modifies this
      ensures Commits(old(View()), View(), Initiate(old(View()), cid, authority), r)
    {
      var (contracts, id, facts) := (active, next, log);
      if !(cid in active && active[cid].Proposed?) {
        return Err(NotActive);
      }
      var p := active[cid].proposal;
      if p.terms.venue !in authority {
        return Err(Unauthorized);
      }
      if p.terms.seller !in p.approvers || p.terms.buyer !in p.approvers || p.terms.allocateBefore <= now {
        return Err(Rejected);
      }
      active := active - {cid};
      var trade := Trade(p.terms, if p.root.None? then cid else p.root.value);
      var agreed := Add(Agreed(trade));
      if agreed.Err? {
        Restore(contracts, id, facts);
        return Err(Rejected);
      }
      log := log + [Trading(agreed.value, trade)];
      return Ok(true);
    }

    method FindMatching(t: Trade, legId: LegId, cid: Cid) returns (r: Result<bool, Error>)
      ensures MatchingAllocation(View(), t, legId, cid).Ok? <==> r.Ok?
      ensures r.Err? ==> r.error == MatchingAllocation(View(), t, legId, cid).error
    {
      if !(cid in active && active[cid].Allocated?) {
        return Err(NotActive);
      }
      if active[cid].allocation.spec != ExpectedAllocation(t, legId) {
        return Err(Rejected);
      }
      return Ok(true);
    }

    method SettleTrade(cid: Cid, supplied: seq<Supplied>, authority: set<Party>) returns (r: Result<bool, Error>)
      modifies this
      ensures Commits(old(View()), View(), Settle(old(View()), cid, supplied, authority), r)
    {
      var (contracts, id, facts) := (active, next, log);
      if !(cid in active && active[cid].Agreed?) {
        return Err(NotActive);
      }
      var t := active[cid].trade;
      if t.terms.venue !in authority {
        return Err(Unauthorized);
      }
      active := active - {cid};
      r := SettleLegs(t, supplied);
      if r.Err? {
        Restore(contracts, id, facts);
      }
    }

    /** The body of the settlement, run after the trade was consumed. */
    method SettleLegs(t: Trade, supplied: seq<Supplied>) returns (r: Result<bool, Error>)
      modifies this
      ensures SettleBody(old(View()), t, supplied).Ok? ==> r.Ok? && View() == SettleBody(old(View()), t, supplied).value
      ensures SettleBody(old(View()), t, supplied).Err? ==> r == Err(SettleBody(old(View()), t, supplied).error)
      ensures now == old(now)
    {
      if t.terms.settleBefore <= now {
        return Err(Rejected);
      }
      if LegIds(supplied) != multiset{TreasuryDelivery, StablecoinPayment} {
        return Err(Rejected);
      }
      var (treasury, payment) := (SuppliedLeg(TreasuryDelivery, supplied), SuppliedLeg(StablecoinPayment, supplied));
      if treasury.Err? || payment.Err? || treasury.value.allocation == payment.value.allocation {
        return Err(Rejected);
      }
      var delivery := FindMatching(t, TreasuryDelivery, treasury.value.allocation);
      if delivery.Err? {
        return delivery;
      }
      var paying := FindMatching(t, StablecoinPayment, payment.value.allocation);
      if paying.Err? {
        return paying;
      }
      var power := {t.terms.venue, t.terms.seller, t.terms.buyer};
      r := ExecuteTransfer(treasury.value.allocation, power);
      if r.Err? {
        return;
      }
      r := ExecuteTransfer(payment.value.allocation, power);
    }

    method IssueHolding(cid: Cid, owner: Party, amount: int, authority: set<Party>) returns (r: Result<Cid, Error>)
      modifies this
      ensures match Issue(old(View()), cid, owner, amount, authority)
              case Ok(t) => r == Ok(old(next)) && View() == t
              case Err(e) => r == Err(e) && View() == old(View())
    {
      if !(cid in active && active[cid].Issuer?) {
        return Err(NotActive);
      }
      var issuer := active[cid];
      if issuer.issued.admin !in authority {
        return Err(Unauthorized);
      }
      if DECIMAL_LIMIT <= amount {
        return Err(Overflow);
      }
      r := Add(Held(Holding(issuer.issuerRegistry, issuer.issued, owner, amount, None)));
      if r.Ok? {
        log := log + [Minting(issuer.issuerRegistry, issuer.issued, amount)];
      }
    }

    method BurnHolding(cid: Cid, authority: set<Party>) returns (r: Result<bool, Error>)
      modifies this
      ensures Commits(old(View()), View(), Burn(old(View()), cid, authority), r)
    {
      if !(cid in active && active[cid].Held? && active[cid].holding.registry == Stablecoin) {
        return Err(NotActive);
      }
      var h := active[cid].holding;
      if h.instrument.admin !in authority {
        return Err(Unauthorized);
      }
      if h.lock.Some? {
        return Err(Rejected);
      }
      active := active - {cid};
      log := log + [Burning(h.registry, h.instrument, h.amount)];
      return Ok(true);
    }

    /** The contracts a gateway mint leaves, and its entry in the list of minted locks. */
    method LeaveMinted(g: Gateway, a: Attestation, holding: Cid) returns (r: Result<bool, Error>)
      modifies this
      ensures G.LeaveMint(old(View()), g, a, holding).Ok? ==> r.Ok? && View() == G.LeaveMint(old(View()), g, a, holding).value
      ensures G.LeaveMint(old(View()), g, a, holding).Err? ==> r == Err(G.LeaveMint(old(View()), g, a, holding).error)
      ensures now == old(now)
    {
      var minted := Add(LockMinted(MintedLock(g.registry, a.lock, holding, a.amount, a.beneficiary)));
      var reference := Add(Referenced(MintRef(g.registry, a.beneficiary, a.lock, holding)));
      if reference.Err? {
        return Err(reference.error);
      }
      var gateway := Add(Guarded(g.(minted := [a.lock] + g.minted)));
      if gateway.Err? {
        return Err(gateway.error);
      }
      log := log + [GatewayMinting(g.registry, a.lock, a.amount)];
      return Ok(true);
    }

    method GatewayMint(cid: Cid, firstCid: Cid, secondCid: Cid, authority: set<Party>) returns (r: Result<bool, Error>)
      modifies this
      ensures Commits(old(View()), View(), G.Mint(old(View()), cid, firstCid, secondCid, authority), r)
    {
      var (contracts, id, facts) := (active, next, log);
      if !(cid in active && active[cid].Guarded?) {
        return Err(NotActive);
      }
      var g := active[cid].gateway;
      if g.registry !in authority {
        return Err(Unauthorized);
      }
      if !(firstCid in active && active[firstCid].Signed? && secondCid in active && active[secondCid].Signed?) {
        return Err(NotActive);
      }
      var (first, second) := (active[firstCid].attestation, active[secondCid].attestation);
      if !G.Quorum(g, firstCid, first, secondCid, second, MintDirection) || first.lock in g.minted {
        return Err(Rejected);
      }
      active := active - {cid};
      var holding := IssueHolding(g.issuer, first.beneficiary, first.amount, {g.registry});
      if holding.Err? {
        Restore(contracts, id, facts);
        return Err(holding.error);
      }
      r := LeaveMinted(g, first, holding.value);
      if r.Err? {
        Restore(contracts, id, facts);
      }
    }

    method GatewayRedeem(cid: Cid, args: G.RedeemArgs, authority: set<Party>) returns (r: Result<bool, Error>)
      modifies this
      ensures Commits(old(View()), View(), G.Redeem(old(View()), cid, args, authority), r)
    {
      var (contracts, id, facts) := (active, next, log);
      if !(cid in active && active[cid].Guarded?) {
        return Err(NotActive);
      }
      var g := active[cid].gateway;
      if g.registry !in authority {
        return Err(Unauthorized);
      }
      var checked := G.MayRedeem(State(active, next, now, log), g, args);
      if checked.Err? {
        return Err(checked.error);
      }
      var request := checked.value;
      active := active - {cid};
      r := BurnHolding(request.holding, {g.registry});
      if r.Err? {
        Restore(contracts, id, facts);
        return;
      }
      var redeemed := Add(LockRedeemed(RedeemedLock(g.registry, request.lock, request.amount, request.holder)));
      var gateway := Add(Guarded(g.(redeemed := [request.lock] + g.redeemed)));
      if gateway.Err? {
        Restore(contracts, id, facts);
        return Err(gateway.error);
      }
      log := log + [GatewayBurning(g.registry, request.lock, request.amount)];
    }

    method BindMint(cid: Cid, seller: Party, venue: Party, trade: string, authority: set<Party>) returns (r: Result<bool, Error>)
      modifies this
      ensures Commits(old(View()), View(), G.Bind(old(View()), cid, seller, venue, trade, authority), r)
    {
      var (contracts, id, facts) := (active, next, log);
      if !(cid in active && active[cid].Referenced?) {
        return Err(NotActive);
      }
      var m := active[cid].reference;
      if m.buyer !in authority {
        return Err(Unauthorized);
      }
      if trade == "" || seller == m.buyer || seller == m.registry || venue == m.buyer || venue == seller || venue == m.registry {
        return Err(Rejected);
      }
      active := active - {cid};
      var bound := Add(Bound(Binding(m.registry, m.buyer, seller, venue, m.lock, m.holding, trade, None, None)));
      if bound.Err? {
        Restore(contracts, id, facts);
        return Err(bound.error);
      }
      return Ok(true);
    }

    method RecordSellerPayment(cid: Cid, payment: Cid, authority: set<Party>) returns (r: Result<bool, Error>)
      modifies this
      ensures Commits(old(View()), View(), G.RecordPayment(old(View()), cid, payment, authority), r)
    {
      var (contracts, id, facts) := (active, next, log);
      if !(cid in active && active[cid].Bound?) {
        return Err(NotActive);
      }
      var b := active[cid].binding;
      if b.seller !in authority {
        return Err(Unauthorized);
      }
      if b.payment.Some? {
        return Err(Rejected);
      }
      active := active - {cid};
      var bound := Add(Bound(b.(payment := Some(payment))));
      if bound.Err? {
        Restore(contracts, id, facts);
        return Err(bound.error);
      }
      return Ok(true);
    }

    method RecordBuyerTreasury(cid: Cid, treasury: string, authority: set<Party>) returns (r: Result<bool, Error>)
      modifies this
      ensures Commits(old(View()), View(), G.RecordTreasury(old(View()), cid, treasury, authority), r)
    {
      var (contracts, id, facts) := (active, next, log);
      if !(cid in active && active[cid].Bound?) {
        return Err(NotActive);
      }
      var b := active[cid].binding;
      if b.buyer !in authority {
        return Err(Unauthorized);
      }
      if b.treasury.Some? || treasury == "" {
        return Err(Rejected);
      }
      active := active - {cid};
      var bound := Add(Bound(b.(treasury := Some(treasury))));
      if bound.Err? {
        Restore(contracts, id, facts);
        return Err(bound.error);
      }
      return Ok(true);
    }
  }
}

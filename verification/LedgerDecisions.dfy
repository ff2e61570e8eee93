/** When the choices of the token and trade contracts succeed, and what they leave, in terms of the active contracts. */
module LedgerDecisions {
  import opened Outcomes
  import opened CantonLedger
  import opened CantonRuns
  import opened CantonBacking
  import opened DvpSettlement

  // Holdings ---------------------------------------------------------------------------------------------------------

  /** The contract is an unlocked holding of this registry. */
  predicate FreeHolding(s: State, registry: Registry, cid: Cid, h: Holding) {
    cid in s.active && s.active[cid] == Held(h) && h.registry == registry && h.lock.None?
  }

  lemma SplitsExactlyWhen(s: State, registry: Registry, cid: Cid, amount: int, authority: set<Party>)
    ensures Split(s, registry, cid, amount, authority).Ok? <==>
      exists h :: FreeHolding(s, registry, cid, h) && h.owner in authority && 0 < amount < h.amount
    ensures forall h :: FreeHolding(s, registry, cid, h) && Split(s, registry, cid, amount, authority).Ok? ==>
      var t := Split(s, registry, cid, amount, authority).value;
      && t.active == (s.active - {cid})[s.next := Held(Holding(registry, h.instrument, h.owner, amount, None))]
                                       [s.next + 1 := Held(Holding(registry, h.instrument, h.owner, h.amount - amount, None))]
      && t.log == s.log && t.now == s.now && t.next == s.next + 2
  {
    if cid in s.active && s.active[cid].Held? {
      var h := s.active[cid].holding;
      assert s.active[cid] == Held(h);
    }
  }

  /** Two different free holdings of one owner in one instrument, whose sum a Decimal can hold. */
  predicate CanMerge(s: State, registry: Registry, cid: Cid, other: Cid, authority: set<Party>, h: Holding, o: Holding) {
    && cid != other && FreeHolding(s, registry, cid, h) && FreeHolding(s, registry, other, o)
    && h.owner in authority && h.owner == o.owner && h.instrument == o.instrument && h.amount + o.amount < DECIMAL_LIMIT
  }

  lemma MergingNeeds(s: State, registry: Registry, cid: Cid, other: Cid, authority: set<Party>)
    requires Merge(s, registry, cid, other, authority).Ok?
    ensures cid in s.active && s.active[cid].Held? && other in s.active && s.active[other].Held?
    ensures CanMerge(s, registry, cid, other, authority, s.active[cid].holding, s.active[other].holding)
  {
  }

  /** Both holdings go and their sum comes. */
  lemma AMergeWrites(s: State, registry: Registry, cid: Cid, other: Cid, authority: set<Party>, h: Holding, o: Holding)
    requires ContractsAreEnsured(s.active) && CanMerge(s, registry, cid, other, authority, h, o)
    ensures Merge(s, registry, cid, other, authority)
      == Ok(s.(active := (s.active - {cid, other})[s.next := Held(Holding(registry, h.instrument, h.owner, h.amount + o.amount, None))],
               next := s.next + 1))
  {
    assert Ensured(s.active[cid]) && Ensured(s.active[other]);
    var (s1, s2) := (Consume(s, cid), Consume(Consume(s, cid), other));
    assert FetchHolding(s1, registry, other) == Ok(o);
    assert Archive(s1, other, authority + {h.instrument.admin}) == Ok(s2);
    assert s2.active == s.active - {cid, other};
  }

  lemma MergesExactlyWhen(s: State, registry: Registry, cid: Cid, other: Cid, authority: set<Party>)
    requires ContractsAreEnsured(s.active)
    ensures Merge(s, registry, cid, other, authority).Ok? <==> exists h, o :: CanMerge(s, registry, cid, other, authority, h, o)
  {
    if h, o :| CanMerge(s, registry, cid, other, authority, h, o) {
      AMergeWrites(s, registry, cid, other, authority, h, o);
    } else if Merge(s, registry, cid, other, authority).Ok? {
      MergingNeeds(s, registry, cid, other, authority);
    }
  }

  lemma BurnsExactlyWhen(s: State, cid: Cid, authority: set<Party>)
    ensures Burn(s, cid, authority).Ok? <==>
      exists h :: FreeHolding(s, Stablecoin, cid, h) && h.instrument.admin in authority
    ensures forall h :: FreeHolding(s, Stablecoin, cid, h) && Burn(s, cid, authority).Ok? ==>
      Burn(s, cid, authority).value == s.(active := s.active - {cid}, log := s.log + [Burning(Stablecoin, h.instrument, h.amount)])
  {
    if cid in s.active && s.active[cid].Held? {
      var h := s.active[cid].holding;
      assert s.active[cid] == Held(h);
    }
  }

  /** The admin of an instrument issues any positive Decimal of it to anyone, unlocked. */
  lemma IssuesExactlyWhen(s: State, cid: Cid, owner: Party, amount: int, authority: set<Party>)
    ensures Issue(s, cid, owner, amount, authority).Ok? <==>
      cid in s.active && s.active[cid].Issuer? && s.active[cid].issued.admin in authority && 0 < amount < DECIMAL_LIMIT
    ensures Issue(s, cid, owner, amount, authority).Ok? ==>
      var c := s.active[cid];
      Issue(s, cid, owner, amount, authority).value
      == State(s.active[s.next := Held(Holding(c.issuerRegistry, c.issued, owner, amount, None))], s.next + 1, s.now,
               s.log + [Minting(c.issuerRegistry, c.issued, amount)])
  {
  }

  // Allocating -------------------------------------------------------------------------------------------------------

  /** An attestation of this party for this instrument that is valid now and through the settlement. */
  predicate EligibleBy(s: State, registry: Registry, instrument: InstrumentId, party: Party, settleBefore: Time, cid: Option<Cid>) {
    && cid.Some? && cid.value in s.active && s.active[cid.value].Attested?
    && var e := s.active[cid.value].eligibility;
       && e.registry == registry && e.instrument == instrument && e.investor == party && !e.suspended
       && e.validFrom <= s.now && s.now < e.validUntil && settleBefore <= e.validUntil
  }

  /** Different free holdings of the sender that cover the leg. */
  predicate InputsCover(s: State, registry: Registry, leg: Leg, inputs: seq<Cid>) {
    && inputs != [] && Distinct(inputs)
    && (forall cid :: cid in inputs ==>
          cid in s.active && s.active[cid].Held? && FreeHolding(s, registry, cid, s.active[cid].holding)
          && s.active[cid].holding.owner == leg.sender && s.active[cid].holding.instrument == leg.instrument)
    && leg.amount <= InputTotal(s, inputs) < DECIMAL_LIMIT
  }

  /** The sender asks this registry, in time, to lock what the leg needs, and both parties are eligible. */
  predicate CanAllocate(s: State, rules: Cid, args: AllocateArgs, authority: set<Party>, registry: Registry) {
    && var (leg, settlement) := (args.spec.leg, args.spec.settlement);
    && rules in s.active && s.active[rules] == Rules(registry, leg.instrument)
    && leg.sender in authority && args.expectedAdmin == leg.instrument.admin && leg.amount > 0
    && s.now < settlement.allocateBefore && settlement.allocateBefore < settlement.settleBefore
    && InputsCover(s, registry, leg, args.inputs)
    && EligibleBy(s, registry, leg.instrument, leg.sender, settlement.settleBefore, args.senderEligibility)
    && EligibleBy(s, registry, leg.instrument, leg.receiver, settlement.settleBefore, args.receiverEligibility)
  }

  lemma UsableIsFree(s: State, registry: Registry, instrument: InstrumentId, owner: Party, cid: Cid)
    ensures UsableInput(s, registry, instrument, owner, cid) <==>
      cid in s.active && s.active[cid].Held? && FreeHolding(s, registry, cid, s.active[cid].holding)
      && s.active[cid].holding.owner == owner && s.active[cid].holding.instrument == instrument
  {
  }

  lemma ChecksAllocateExactly(s: State, rules: Cid, args: AllocateArgs, authority: set<Party>)
    ensures MayAllocate(s, rules, args, authority).Ok? <==> exists registry :: CanAllocate(s, rules, args, authority, registry)
    ensures MayAllocate(s, rules, args, authority).Ok? ==>
      && args.senderEligibility.Some? && args.receiverEligibility.Some?
      && args.senderEligibility.value in s.active && s.active[args.senderEligibility.value].Attested?
      && args.receiverEligibility.value in s.active && s.active[args.receiverEligibility.value].Attested?
      && MayAllocate(s, rules, args, authority).value
         == (s.active[args.senderEligibility.value].eligibility, s.active[args.receiverEligibility.value].eligibility)
  {
    forall registry, cid | cid in args.inputs
      ensures UsableInput(s, registry, args.spec.leg.instrument, args.spec.leg.sender, cid) <==>
        cid in s.active && s.active[cid].Held? && FreeHolding(s, registry, cid, s.active[cid].holding)
        && s.active[cid].holding.owner == args.spec.leg.sender && s.active[cid].holding.instrument == args.spec.leg.instrument
    {
      UsableIsFree(s, registry, args.spec.leg.instrument, args.spec.leg.sender, cid);
    }
    if rules in s.active && s.active[rules].Rules? {
      var registry := s.active[rules].rulesRegistry;
      if MayAllocate(s, rules, args, authority).Ok? {
        assert CanAllocate(s, rules, args, authority, registry);
      }
    }
  }

  /** An allocation succeeds exactly when its guards hold; inputs that equal the leg are enough. */
  lemma AllocatesExactlyWhen(s: State, rules: Cid, args: AllocateArgs, authority: set<Party>)
    ensures Allocate(s, rules, args, authority).Ok? <==> exists registry :: CanAllocate(s, rules, args, authority, registry)
  {
    ChecksAllocateExactly(s, rules, args, authority);
    if MayAllocate(s, rules, args, authority).Ok? {
      var registry := s.active[rules].rulesRegistry;
      assert LockInputs(s, registry, args.spec, args.inputs).Ok?;
    }
  }

  /** The holding that is locked for a leg, with the registry's administrator as holder, until the settlement. */
  function LockedLeg(registry: Registry, spec: Spec): Contract {
    Held(Holding(registry, spec.leg.instrument, spec.leg.sender, spec.leg.amount,
                 Some(Lock(spec.leg.instrument.admin, spec.settlement.settleBefore))))
  }

  /** The inputs go; the locked leg, the change if there is any, and the allocation of exactly that specification come. */
  predicate LocksLeg(s: State, t: State, registry: Registry, spec: Spec, inputs: seq<Cid>) {
    var change := InputTotal(s, inputs) - spec.leg.amount;
    var locked := (s.active - (set cid | cid in inputs))[s.next := LockedLeg(registry, spec)];
    if change > 0 then
      && t.next == s.next + 3
      && t.active == locked[s.next + 1 := Held(Holding(registry, spec.leg.instrument, spec.leg.sender, change, None))]
                           [s.next + 2 := Allocated(Allocation(registry, spec, s.next))]
    else
      t.next == s.next + 2 && t.active == locked[s.next + 1 := Allocated(Allocation(registry, spec, s.next))]
  }

  lemma LockingWrites(s: State, registry: Registry, spec: Spec, inputs: seq<Cid>)
    requires spec.leg.amount > 0
    ensures LockInputs(s, registry, spec, inputs).Ok?
    ensures var t := LockInputs(s, registry, spec, inputs).value;
      LocksLeg(s, t, registry, spec, inputs) && t.now == s.now && t.log == s.log
  {
  }

  lemma AnAllocationWrites(s: State, rules: Cid, args: AllocateArgs, authority: set<Party>, registry: Registry)
    requires CanAllocate(s, rules, args, authority, registry)
    ensures Allocate(s, rules, args, authority).Ok?
    ensures var t := Allocate(s, rules, args, authority).value;
      && LocksLeg(s, t, registry, args.spec, args.inputs) && t.now == s.now
      && t.log == s.log + [Allocating(t.next - 1, args.spec, s.active[args.senderEligibility.value].eligibility,
                                      s.active[args.receiverEligibility.value].eligibility, s.now)]
  {
    ChecksAllocateExactly(s, rules, args, authority);
    LockingWrites(s, registry, args.spec, args.inputs);
  }

  /** Everything but the inputs stays, and the new allocation is the last contract. */
  lemma AnAllocationLeaves(s: State, t: State, registry: Registry, spec: Spec, inputs: seq<Cid>)
    requires IdsAreOld(s) && LocksLeg(s, t, registry, spec, inputs)
    ensures s.next < t.next && t.next - 1 in t.active && t.active[t.next - 1] == Allocated(Allocation(registry, spec, s.next))
    ensures forall cid :: cid in s.active && cid !in inputs ==> cid in t.active && t.active[cid] == s.active[cid]
  {
    forall cid | cid in s.active && cid !in inputs ensures cid in t.active && t.active[cid] == s.active[cid] {
      assert cid < s.next;
    }
  }

  // Ending an allocation -----------------------------------------------------------------------------------------------

  /** In a reachable ledger an active allocation ends whenever its parties say so, a transfer only before its deadline. */
  lemma EndsExactlyWhen(s: State, cid: Cid, authority: set<Party>)
    requires Inv(s)
    ensures Execute(s, cid, authority).Ok? <==>
      cid in s.active && s.active[cid].Allocated?
      && var spec := s.active[cid].allocation.spec;
         {spec.settlement.executor, spec.leg.sender, spec.leg.receiver} <= authority && s.now < spec.settlement.settleBefore
    ensures Cancel(s, cid, authority).Ok? <==>
      cid in s.active && s.active[cid].Allocated?
      && var spec := s.active[cid].allocation.spec; {spec.settlement.executor, spec.leg.sender, spec.leg.receiver} <= authority
    ensures Withdraw(s, cid, authority).Ok? <==>
      cid in s.active && s.active[cid].Allocated? && s.active[cid].allocation.spec.leg.sender in authority
  {
    if cid in s.active && s.active[cid].Allocated? {
      assert Backs(s.active, s.active[cid].allocation);
      assert Ensured(s.active[s.active[cid].allocation.locked]);
    }
  }

  /** The allocation and its locked holding go; the leg's amount comes, unlocked, to this party. */
  predicate PaysLeg(s: State, t: State, cid: Cid, to: Party) {
    && cid in s.active && s.active[cid].Allocated?
    && var a := s.active[cid].allocation;
       && t.active == (s.active - {cid, a.locked})[s.next := Held(Holding(a.registry, a.spec.leg.instrument, to, a.spec.leg.amount, None))]
       && t.next == s.next + 1 && t.now == s.now
  }

  /** A transfer pays the receiver; cancelling and withdrawing pay the sender back. */
  lemma EndingsWrite(s: State, cid: Cid, authority: set<Party>)
    requires Inv(s) && cid in s.active && s.active[cid].Allocated?
    ensures var leg := s.active[cid].allocation.spec.leg;
      && (Execute(s, cid, authority).Ok? ==>
            var t := Execute(s, cid, authority).value;
            PaysLeg(s, t, cid, leg.receiver) && t.log == s.log + [Executing(cid, s.active[cid].allocation.spec, s.now)])
      && (Cancel(s, cid, authority).Ok? ==>
            var t := Cancel(s, cid, authority).value; PaysLeg(s, t, cid, leg.sender) && t.log == s.log)
      && (Withdraw(s, cid, authority).Ok? ==>
            var t := Withdraw(s, cid, authority).value; PaysLeg(s, t, cid, leg.sender) && t.log == s.log)
  {
    var a := s.active[cid].allocation;
    assert Backs(s.active, a);
    assert s.active - {cid} - {a.locked} == s.active - {cid, a.locked};
  }

  // Proposals ----------------------------------------------------------------------------------------------------------

  predicate IsProposal(s: State, cid: Cid, p: Proposal) {
    cid in s.active && s.active[cid] == Proposed(p)
  }

  lemma ExtendsDistinct(items: seq<Party>, item: Party)
    requires Distinct(items) && item !in items
    ensures Distinct(items + [item])
  {
  }

  /** In a reachable ledger each of the two parties can approve once; the root stays. */
  lemma AcceptsExactlyWhen(s: State, cid: Cid, approver: Party, authority: set<Party>)
    requires Inv(s)
    ensures Accept(s, cid, approver, authority).Ok? <==>
      exists p :: IsProposal(s, cid, p) && approver in authority && approver !in p.approvers
        && (approver == p.terms.seller || approver == p.terms.buyer)
    ensures forall p :: IsProposal(s, cid, p) && Accept(s, cid, approver, authority).Ok? ==>
      Accept(s, cid, approver, authority).value
      == s.(active := (s.active - {cid})[s.next := Proposed(Proposal(p.terms, p.approvers + [approver],
                                                                     Some(if p.root.Some? then p.root.value else cid)))],
            next := s.next + 1)
  {
    if cid in s.active && s.active[cid].Proposed? {
      var p := s.active[cid].proposal;
      assert IsProposal(s, cid, p) && Ensured(s.active[cid]);
      if approver !in p.approvers {
        ExtendsDistinct(p.approvers, approver);
      }
    }
  }

  /** The venue starts the settlement of a proposal both parties approved, before its deadline to allocate. */
  lemma InitiatesExactlyWhen(s: State, cid: Cid, authority: set<Party>)
    requires Inv(s)
    ensures Initiate(s, cid, authority).Ok? <==>
      exists p :: IsProposal(s, cid, p) && p.terms.venue in authority && p.terms.seller in p.approvers && p.terms.buyer in p.approvers
        && s.now < p.terms.allocateBefore
    ensures forall p :: IsProposal(s, cid, p) && Initiate(s, cid, authority).Ok? ==>
      var trade := Trade(p.terms, if p.root.Some? then p.root.value else cid);
      Initiate(s, cid, authority).value
      == s.(active := (s.active - {cid})[s.next := Agreed(trade)], next := s.next + 1, log := s.log + [Trading(s.next, trade)])
  {
    if cid in s.active && s.active[cid].Proposed? {
      assert IsProposal(s, cid, s.active[cid].proposal) && Ensured(s.active[cid]);
    }
  }

  /** Either party may reject a proposal, a leg's sender a trade, and the venue may withdraw it; it only goes. */
  lemma RejectsExactlyWhen(s: State, cid: Cid, actor: Party, authority: set<Party>)
    ensures Reject(s, cid, actor, authority).Ok? <==>
      exists p :: IsProposal(s, cid, p) && actor in authority && (actor == p.terms.seller || actor == p.terms.buyer)
    ensures RejectRequest(s, cid, actor, authority).Ok? <==>
      cid in s.active && s.active[cid].Agreed? && actor in authority
      && (actor == s.active[cid].trade.terms.treasuryLeg.sender || actor == s.active[cid].trade.terms.paymentLeg.sender)
    ensures WithdrawRequest(s, cid, authority).Ok? <==>
      cid in s.active && s.active[cid].Agreed? && s.active[cid].trade.terms.venue in authority
    ensures Reject(s, cid, actor, authority).Ok? ==> Reject(s, cid, actor, authority).value == s.(active := s.active - {cid})
    ensures RejectRequest(s, cid, actor, authority).Ok? ==> RejectRequest(s, cid, actor, authority).value == s.(active := s.active - {cid})
    ensures WithdrawRequest(s, cid, authority).Ok? ==> WithdrawRequest(s, cid, authority).value == s.(active := s.active - {cid})
  {
    if cid in s.active && s.active[cid].Proposed? {
      assert IsProposal(s, cid, s.active[cid].proposal);
    }
  }

  // A trade can be carried through -----------------------------------------------------------------------------------

  /** The totals read the inputs only. */
  lemma {:induction false} TotalReadsInputs(s: State, t: State, inputs: seq<Cid>)
    requires forall cid :: cid in inputs ==> cid in s.active && cid in t.active && t.active[cid] == s.active[cid]
    ensures InputTotal(t, inputs) == InputTotal(s, inputs)
    decreases |inputs|
  {
    if inputs != [] {
      TotalReadsInputs(s, t, inputs[..|inputs| - 1]);
    }
  }

  /** What others need for their allocation is still there when a ledger keeps everything but holdings of someone else. */
  lemma StaysPossible(s: State, t: State, gone: seq<Cid>, others: Cid, more: AllocateArgs, power: set<Party>, other: Registry)
    requires CanAllocate(s, others, more, power, other) && t.now == s.now
    requires forall cid :: cid in gone ==> cid in s.active && s.active[cid].Held? && s.active[cid].holding.owner != more.spec.leg.sender
    requires forall cid :: cid in s.active && cid !in gone ==> cid in t.active && t.active[cid] == s.active[cid]
    ensures CanAllocate(t, others, more, power, other)
  {
    TotalReadsInputs(s, t, more.inputs);
  }

  lemma OtherAllocationStaysPossible(s: State, rules: Cid, args: AllocateArgs, authority: set<Party>, registry: Registry,
                                     others: Cid, more: AllocateArgs, power: set<Party>, other: Registry)
    requires IdsAreOld(s) && CanAllocate(s, rules, args, authority, registry) && CanAllocate(s, others, more, power, other)
    requires args.spec.leg.sender != more.spec.leg.sender
    ensures Allocate(s, rules, args, authority).Ok? && CanAllocate(Allocate(s, rules, args, authority).value, others, more, power, other)
  {
    AnAllocationWrites(s, rules, args, authority, registry);
    var t := Allocate(s, rules, args, authority).value;
    AnAllocationLeaves(s, t, registry, args.spec, args.inputs);
    StaysPossible(s, t, args.inputs, others, more, power, other);
  }

  /** Seller and buyer each allocate. */
  function BothAllocate(t: Trade, rules: Cid, args: AllocateArgs, others: Cid, more: AllocateArgs): seq<Event> {
    [Token(DoAllocate(rules, args), {t.terms.seller})] + [Token(DoAllocate(others, more), {t.terms.buyer})]
  }

  /** Time passes, and the venue settles with these two allocations. */
  function Settling(trade: Cid, t: Trade, wait: nat, treasury: Cid, payment: Cid): seq<Event> {
    [Passing(wait)] + [Dvp(DoSettle(trade, [Supplied(TreasuryDelivery, treasury), Supplied(StablecoinPayment, payment)]), {t.terms.venue})]
  }

  lemma OneFurther(s: State, events: seq<Event>, e: Event)
    ensures Run(s, events + [e]) == After(Run(s, events), e)
  {
    assert (events + [e])[..|events|] == events;
  }

  lemma InputsAreHeld(s: State, rules: Cid, args: AllocateArgs, authority: set<Party>, registry: Registry)
    requires CanAllocate(s, rules, args, authority, registry)
    ensures forall cid :: cid in args.inputs ==> cid in s.active && s.active[cid].Held?
  {
  }

  lemma AllocatingStep(s: State, rules: Cid, args: AllocateArgs, authority: set<Party>)
    requires Allocate(s, rules, args, authority).Ok?
    ensures After(s, Token(DoAllocate(rules, args), authority)) == Allocate(s, rules, args, authority).value
  {
  }

  predicate AllocatedWith(s: State, cid: Cid, spec: Spec) {
    cid in s.active && s.active[cid].Allocated? && s.active[cid].allocation.spec == spec
  }

  /** One allocation as a transaction: the new allocation is the last contract, and no contract of another kind is touched. */
  lemma AllocatesNow(s: State, rules: Cid, args: AllocateArgs, authority: set<Party>, registry: Registry) returns (t: State)
    requires Inv(s) && CanAllocate(s, rules, args, authority, registry)
    ensures t == After(s, Token(DoAllocate(rules, args), authority))
    ensures Inv(t) && t.now == s.now && t.next > s.next && |t.log| == |s.log| + 1
    ensures t.next - 1 in t.active && t.active[t.next - 1] == Allocated(Allocation(registry, args.spec, s.next))
    ensures forall cid :: cid in s.active && !s.active[cid].Held? ==> cid in t.active && t.active[cid] == s.active[cid]
  {
    AnAllocationWrites(s, rules, args, authority, registry);
    t := Allocate(s, rules, args, authority).value;
    assert |t.log| == |s.log| + 1;
    AllocatingStep(s, rules, args, authority);
    AllocateKeepsInv(s, rules, args, authority);
    InputsAreHeld(s, rules, args, authority, registry);
    AnAllocationLeaves(s, t, registry, args.spec, args.inputs);
  }

  lemma AllocatingNeeds(s: State, rules: Cid, args: AllocateArgs, authority: set<Party>, registry: Registry)
    requires CanAllocate(s, rules, args, authority, registry)
    ensures Allocate(s, rules, args, authority).Ok?
  {
    AllocatesExactlyWhen(s, rules, args, authority);
  }

  lemma SettlesNow(s: State, trade: Cid, t: Trade, treasury: Cid, payment: Cid)
    requires Inv(s) && trade in s.active && s.active[trade] == Agreed(t) && s.now < t.terms.settleBefore && treasury != payment
    requires MatchesLeg(s, t, TreasuryDelivery, treasury) && MatchesLeg(s, t, StablecoinPayment, payment)
    ensures var supplied := [Supplied(TreasuryDelivery, treasury), Supplied(StablecoinPayment, payment)];
      var end := After(s, Dvp(DoSettle(trade, supplied), {t.terms.venue}));
      && |end.log| == |s.log| + 2 && end.log[..|s.log|] == s.log
      && end.log[|s.log|] == Executing(treasury, s.active[treasury].allocation.spec, s.now)
      && end.log[|s.log| + 1] == Executing(payment, s.active[payment].allocation.spec, s.now)
  {
    var supplied := [Supplied(TreasuryDelivery, treasury), Supplied(StablecoinPayment, payment)];
    assert MaySettle(s, trade, supplied, {t.terms.venue}, treasury, payment);
    SettlementCannotHalfFail(s, trade, supplied, {t.terms.venue}, treasury, payment);
    SettlementMovesBothLegs(s, trade, supplied, {t.terms.venue});
    BothLegsAreFound(supplied, treasury, payment);
  }

  lemma TermsSplitTheParties(s: State, trade: Cid, t: Trade, treasury: Spec, payment: Spec)
    requires Inv(s) && trade in s.active && s.active[trade] == Agreed(t)
    requires OnTerms(t, TreasuryDelivery, treasury) && OnTerms(t, StablecoinPayment, payment)
    ensures treasury.leg.sender != payment.leg.sender
  {
    assert Ensured(s.active[trade]);
  }

  lemma TimePasses(s: State, wait: nat) returns (t: State)
    requires Inv(s)
    ensures t == s.(now := s.now + wait) && t == After(s, Passing(wait)) && Inv(t)
  {
    t := s.(now := s.now + wait);
  }

  ghost predicate ReadyToSettle(s: State, trade: Cid, t: Trade, treasury: Cid, payment: Cid, delivery: Spec, price: Spec) {
    && trade in s.active && s.active[trade] == Agreed(t) && treasury != payment
    && AllocatedWith(s, treasury, delivery) && AllocatedWith(s, payment, price)
  }

  lemma SettlesLater(s: State, trade: Cid, t: Trade, treasury: Cid, payment: Cid, wait: nat, delivery: Spec, price: Spec)
    requires Inv(s) && ReadyToSettle(s, trade, t, treasury, payment, delivery, price) && s.now + wait < t.terms.settleBefore
    requires OnTerms(t, TreasuryDelivery, delivery) && OnTerms(t, StablecoinPayment, price)
    ensures var supplied := [Supplied(TreasuryDelivery, treasury), Supplied(StablecoinPayment, payment)];
      var end := After(After(s, Passing(wait)), Dvp(DoSettle(trade, supplied), {t.terms.venue}));
      && |end.log| == |s.log| + 2
      && end.log[|s.log|] == Executing(treasury, delivery, s.now + wait) && end.log[|s.log| + 1] == Executing(payment, price, s.now + wait)
  {
    var s1 := TimePasses(s, wait);
    SettlesNow(s1, trade, t, treasury, payment);
  }

  /** Any run that leaves both legs allocated goes on to a settlement at any time before the deadline. */
  lemma SettledRun(s: State, events: seq<Event>, s1: State, trade: Cid, t: Trade, treasury: Cid, payment: Cid, wait: nat,
                   delivery: Spec, price: Spec)
    requires s1 == Run(s, events) && Inv(s1) && ReadyToSettle(s1, trade, t, treasury, payment, delivery, price)
    requires s1.now + wait < t.terms.settleBefore
    requires OnTerms(t, TreasuryDelivery, delivery) && OnTerms(t, StablecoinPayment, price)
    ensures var end := Run(s, events + Settling(trade, t, wait, treasury, payment));
      && |end.log| == |s1.log| + 2
      && end.log[|s1.log|] == Executing(treasury, delivery, s1.now + wait)
      && end.log[|s1.log| + 1] == Executing(payment, price, s1.now + wait)
  {
    var supplied := [Supplied(TreasuryDelivery, treasury), Supplied(StablecoinPayment, payment)];
    var (e1, e2) := (Passing(wait), Dvp(DoSettle(trade, supplied), {t.terms.venue}));
    OneFurther(s, events, e1);
    OneFurther(s, events + [e1], e2);
    assert events + [e1] + [e2] == events + Settling(trade, t, wait, treasury, payment);
    SettlesLater(s1, trade, t, treasury, payment, wait, delivery, price);
  }

  /** An allocation at the end of a run; one of another sender stays possible. */
  lemma AllocatedRun(s: State, events: seq<Event>, s1: State, rules: Cid, args: AllocateArgs, authority: set<Party>, registry: Registry)
    returns (t: State)
    requires s1 == Run(s, events) && Inv(s1) && CanAllocate(s1, rules, args, authority, registry)
    ensures t == Run(s, events + [Token(DoAllocate(rules, args), authority)])
    ensures t.now == s1.now && t.next > s1.next && |t.log| == |s1.log| + 1 && AllocatedWith(t, t.next - 1, args.spec)
    ensures forall cid :: cid in s1.active && !s1.active[cid].Held? ==> cid in t.active && t.active[cid] == s1.active[cid]
  {
    OneFurther(s, events, Token(DoAllocate(rules, args), authority));
    t := AllocatesNow(s1, rules, args, authority, registry);
  }

  lemma AllocatedRunLeaves(s: State, events: seq<Event>, s1: State, rules: Cid, args: AllocateArgs, authority: set<Party>, registry: Registry,
                           others: Cid, more: AllocateArgs, power: set<Party>, other: Registry)
    requires s1 == Run(s, events) && Inv(s1) && CanAllocate(s1, rules, args, authority, registry)
    requires CanAllocate(s1, others, more, power, other) && args.spec.leg.sender != more.spec.leg.sender
    ensures CanAllocate(Run(s, events + [Token(DoAllocate(rules, args), authority)]), others, more, power, other)
  {
    OneFurther(s, events, Token(DoAllocate(rules, args), authority));
    OtherAllocationStaysPossible(s1, rules, args, authority, registry, others, more, power, other);
    AllocatingStep(s1, rules, args, authority);
  }

  /** The second allocation completes what a settlement needs. */
  lemma SecondAllocated(s: State, events: seq<Event>, s1: State, trade: Cid, t: Trade, treasury: Cid, delivery: Spec,
                        others: Cid, more: AllocateArgs, power: set<Party>, other: Registry) returns (end: State, payment: Cid)
    requires s1 == Run(s, events) && Inv(s1) && trade in s1.active && s1.active[trade] == Agreed(t)
    requires AllocatedWith(s1, treasury, delivery) && CanAllocate(s1, others, more, power, other)
    ensures end == Run(s, events + [Token(DoAllocate(others, more), power)])
    ensures end.now == s1.now && |end.log| == |s1.log| + 1
    ensures ReadyToSettle(end, trade, t, treasury, payment, delivery, more.spec)
  {
    end := AllocatedRun(s, events, s1, others, more, power, other);
    payment := end.next - 1;
  }

  lemma BothAllocated(s: State, first: seq<Event>, both: seq<Event>, trade: Cid, t: Trade, rules: Cid, args: AllocateArgs, registry: Registry,
                      others: Cid, more: AllocateArgs, other: Registry) returns (end: State, treasury: Cid, payment: Cid)
    requires Inv(s) && trade in s.active && s.active[trade] == Agreed(t)
    requires CanAllocate(s, rules, args, {t.terms.seller}, registry) && CanAllocate(s, others, more, {t.terms.buyer}, other)
    requires args.spec.leg.sender != more.spec.leg.sender
    requires first == [] + [Token(DoAllocate(rules, args), {t.terms.seller})]
    requires both == first + [Token(DoAllocate(others, more), {t.terms.buyer})]
    ensures end == Run(s, both) && end.now == s.now && |end.log| == |s.log| + 2
    ensures ReadyToSettle(end, trade, t, treasury, payment, args.spec, more.spec)
  {
    AllocatedRunLeaves(s, [], s, rules, args, {t.terms.seller}, registry, others, more, {t.terms.buyer}, other);
    var s1 := AllocatedRun(s, [], s, rules, args, {t.terms.seller}, registry);
    treasury := s1.next - 1;
    RunKeepsInv(s, first);
    end, payment := SecondAllocated(s, first, s1, trade, t, treasury, args.spec, others, more, {t.terms.buyer}, other);
  }

  /**
   * Seller and buyer who can each allocate their leg on the trade's terms before its deadline to allocate can have it
   * settled at any later time before its deadline to settle.
   */
  lemma AllocatedTradesCanBeSettled(s: State, trade: Cid, t: Trade, rules: Cid, args: AllocateArgs, registry: Registry,
                                    others: Cid, more: AllocateArgs, other: Registry, wait: nat)
    returns (treasury: Cid, payment: Cid)
    requires Inv(s) && trade in s.active && s.active[trade] == Agreed(t)
    requires CanAllocate(s, rules, args, {t.terms.seller}, registry) && OnTerms(t, TreasuryDelivery, args.spec)
    requires CanAllocate(s, others, more, {t.terms.buyer}, other) && OnTerms(t, StablecoinPayment, more.spec)
    requires s.now + wait < t.terms.settleBefore
    ensures var end := Run(s, BothAllocate(t, rules, args, others, more) + Settling(trade, t, wait, treasury, payment));
      && |end.log| == |s.log| + 4
      && end.log[|s.log| + 2] == Executing(treasury, args.spec, s.now + wait)
      && end.log[|s.log| + 3] == Executing(payment, more.spec, s.now + wait)
  {
    TermsSplitTheParties(s, trade, t, args.spec, more.spec);
    var (first, both) := ([] + [Token(DoAllocate(rules, args), {t.terms.seller})], BothAllocate(t, rules, args, others, more));
    assert both == first + [Token(DoAllocate(others, more), {t.terms.buyer})];
    var s1;
    s1, treasury, payment := BothAllocated(s, first, both, trade, t, rules, args, registry, others, more, other);
    RunKeepsInv(s, both);
    SettledRun(s, BothAllocate(t, rules, args, others, more), s1, trade, t, treasury, payment, wait, args.spec, more.spec);
  }
}

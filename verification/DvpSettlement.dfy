/** A settlement moves both legs or nothing. */
module DvpSettlement {
  import opened Outcomes
  import opened CantonLedger
  import opened CantonRuns
  import opened CantonBacking

  // The supplied legs -----------------------------------------------------------------------------------------

  /** One allocation for each of the two legs, in either order. */
  predicate SuppliesBoth(supplied: seq<Supplied>, treasury: Cid, payment: Cid) {
    || supplied == [Supplied(TreasuryDelivery, treasury), Supplied(StablecoinPayment, payment)]
    || supplied == [Supplied(StablecoinPayment, payment), Supplied(TreasuryDelivery, treasury)]
  }

  lemma {:induction false} LegIdsCount(supplied: seq<Supplied>)
    ensures |LegIds(supplied)| == |supplied|
    decreases |supplied|
  {
    if supplied != [] {
      LegIdsCount(supplied[1..]);
    }
  }

  lemma LegIdsOfTwo(supplied: seq<Supplied>)
    requires |supplied| == 2
    ensures LegIds(supplied) == multiset{supplied[0].legId, supplied[1].legId}
  {
    assert supplied[1..] == [supplied[1]];
    assert supplied[1..][1..] == [];
    assert LegIds(supplied[1..]) == multiset{supplied[1].legId} + LegIds([]);
  }

  lemma LegsNamedOfTwo(legId: LegId, supplied: seq<Supplied>)
    requires |supplied| == 2
    ensures LegsNamed(legId, supplied)
      == (if supplied[0].legId == legId then [supplied[0]] else []) + (if supplied[1].legId == legId then [supplied[1]] else [])
  {
    assert supplied[1..] == [supplied[1]];
    assert supplied[1..][1..] == [];
    assert LegsNamed(legId, supplied[1..]) == (if supplied[1].legId == legId then [supplied[1]] else []) + LegsNamed(legId, []);
  }

  /** Once the leg ids are the two expected ones, looking a leg up cannot abort. */
  lemma LookupCannotAbort(supplied: seq<Supplied>)
    requires LegIds(supplied) == multiset{TreasuryDelivery, StablecoinPayment}
    ensures SuppliedLeg(TreasuryDelivery, supplied).Ok? && SuppliedLeg(StablecoinPayment, supplied).Ok?
    ensures SuppliesBoth(supplied, SuppliedLeg(TreasuryDelivery, supplied).value.allocation,
                         SuppliedLeg(StablecoinPayment, supplied).value.allocation)
  {
    LegIdsCount(supplied);
    assert |multiset{TreasuryDelivery, StablecoinPayment}| == 2;
    LegIdsOfTwo(supplied);
    var (a, b) := (supplied[0].legId, supplied[1].legId);
    assert a in multiset{a, b} && b in multiset{a, b};
    assert multiset{a, b}[TreasuryDelivery] == 1 && multiset{a, b}[StablecoinPayment] == 1;
    LegsNamedOfTwo(TreasuryDelivery, supplied);
    LegsNamedOfTwo(StablecoinPayment, supplied);
    assert supplied == [supplied[0], supplied[1]];
  }

  lemma BothLegsAreFound(supplied: seq<Supplied>, treasury: Cid, payment: Cid)
    requires SuppliesBoth(supplied, treasury, payment)
    ensures LegIds(supplied) == multiset{TreasuryDelivery, StablecoinPayment}
    ensures SuppliedLeg(TreasuryDelivery, supplied) == Ok(Supplied(TreasuryDelivery, treasury))
    ensures SuppliedLeg(StablecoinPayment, supplied) == Ok(Supplied(StablecoinPayment, payment))
  {
    LegIdsOfTwo(supplied);
    LegsNamedOfTwo(TreasuryDelivery, supplied);
    LegsNamedOfTwo(StablecoinPayment, supplied);
  }

  // The execution of one leg ------------------------------------------------------------------------------------

  /** The specification names the trade's venue, its reference, its three times, and this leg as agreed. */
  predicate OnTerms(t: Trade, legId: LegId, spec: Spec) {
    && spec.settlement.executor == t.terms.venue
    && spec.settlement.reference.id == "" && spec.settlement.reference.cid == Some(t.proposal)
    && spec.settlement.requestedAt == t.terms.requestedAt
    && spec.settlement.allocateBefore == t.terms.allocateBefore
    && spec.settlement.settleBefore == t.terms.settleBefore
    && spec.legId == legId
    && spec.leg == (if legId == TreasuryDelivery then t.terms.treasuryLeg else t.terms.paymentLeg)
  }

  /** What a trade expects is what is on its terms, and nothing else. */
  lemma ExpectedIsOnTerms(t: Trade, legId: LegId, spec: Spec)
    ensures OnTerms(t, legId, spec) <==> spec == ExpectedAllocation(t, legId)
  {
  }

  predicate MatchesLeg(s: State, t: Trade, legId: LegId, cid: Cid) {
    cid in s.active && s.active[cid].Allocated? && OnTerms(t, legId, s.active[cid].allocation.spec)
  }

  /** In a ledger with backing, an authorized execution before the deadline cannot fail. */
  lemma ExecuteCannotFail(s: State, cid: Cid, authority: set<Party>)
    requires Inv(s) && FetchAllocation(s, cid).Ok?
    requires Controllers(s.active[cid].allocation.spec) <= authority
    requires s.now < s.active[cid].allocation.spec.settlement.settleBefore
    ensures Execute(s, cid, authority).Ok?
  {
    var a := s.active[cid].allocation;
    assert Backs(s.active, a);
    assert Ensured(s.active[a.locked]);
  }

  lemma TradePartiesControlBothLegs(t: Trade, legId: LegId)
    requires WellFormed(t.terms)
    ensures Controllers(ExpectedAllocation(t, legId)) <= {t.terms.venue, t.terms.seller, t.terms.buyer}
  {
  }

  /** After one execution, every other allocation is still there and still backed. */
  lemma OthersSurviveExecution(s: State, cid: Cid, other: Cid, authority: set<Party>)
    requires Inv(s) && Execute(s, cid, authority).Ok?
    requires other in s.active && s.active[other].Allocated? && other != cid
    ensures var t := Execute(s, cid, authority).value;
      other in t.active && t.active[other] == s.active[other] && t.now == s.now
  {
    ExecuteReleases(s, cid, authority);
    assert Backs(s.active, s.active[cid].allocation);
  }

  // The whole settlement ------------------------------------------------------------------------------------------

  /** The guards of a settlement: its parties, its deadline, its legs, and the exact match of both allocations. */
  ghost predicate MaySettle(s: State, cid: Cid, supplied: seq<Supplied>, authority: set<Party>, treasury: Cid, payment: Cid) {
    && cid in s.active && s.active[cid].Agreed?
    && var t := s.active[cid].trade;
    && t.terms.venue in authority
    && s.now < t.terms.settleBefore
    && SuppliesBoth(supplied, treasury, payment)
    && treasury != payment
    && MatchesLeg(s, t, TreasuryDelivery, treasury)
    && MatchesLeg(s, t, StablecoinPayment, payment)
  }

  lemma SettlingNeedsItsGuards(s: State, cid: Cid, supplied: seq<Supplied>, authority: set<Party>)
    requires Settle(s, cid, supplied, authority).Ok?
    ensures LegIds(supplied) == multiset{TreasuryDelivery, StablecoinPayment}
    ensures SuppliedLeg(TreasuryDelivery, supplied).Ok? && SuppliedLeg(StablecoinPayment, supplied).Ok?
    ensures MaySettle(s, cid, supplied, authority, SuppliedLeg(TreasuryDelivery, supplied).value.allocation,
                      SuppliedLeg(StablecoinPayment, supplied).value.allocation)
  {
    LookupCannotAbort(supplied);
  }

  /** The trade, both allocations and both locked holdings go; each receiver gets exactly its leg. */
  ghost predicate MovesBothLegs(s: State, t: State, trade: Trade, cid: Cid, treasury: Cid, payment: Cid) {
    && treasury in s.active && s.active[treasury].Allocated?
    && payment in s.active && s.active[payment].Allocated?
    && var (a, b) := (s.active[treasury].allocation, s.active[payment].allocation);
    && t.active
       == (s.active - {cid, treasury, payment, a.locked, b.locked})
          [s.next := Held(Holding(a.registry, trade.terms.treasuryLeg.instrument, trade.terms.buyer, trade.terms.treasuryLeg.amount, None))]
          [s.next + 1 := Held(Holding(b.registry, trade.terms.paymentLeg.instrument, trade.terms.seller, trade.terms.paymentLeg.amount, None))]
    && OnTerms(trade, TreasuryDelivery, a.spec) && OnTerms(trade, StablecoinPayment, b.spec)
    && t.log == s.log + [Executing(treasury, a.spec, s.now), Executing(payment, b.spec, s.now)]
  }

  lemma SettlementCannotHalfFail(s: State, cid: Cid, supplied: seq<Supplied>, authority: set<Party>, treasury: Cid, payment: Cid)
    requires Inv(s) && MaySettle(s, cid, supplied, authority, treasury, payment)
    ensures Settle(s, cid, supplied, authority).Ok?
  {
    var t := s.active[cid].trade;
    var power := {t.terms.venue, t.terms.seller, t.terms.buyer};
    BothLegsAreFound(supplied, treasury, payment);
    assert Ensured(s.active[cid]);
    TradePartiesControlBothLegs(t, TreasuryDelivery);
    TradePartiesControlBothLegs(t, StablecoinPayment);
    ConsumingIsPlain(s, cid);
    var s1 := Consume(s, cid);
    PlainStepsKeepInv(s, s1);
    ExecuteCannotFail(s1, treasury, power);
    ExecuteKeepsInv(s1, treasury, power);
    OthersSurviveExecution(s1, treasury, payment, power);
    ExecuteCannotFail(Execute(s1, treasury, power).value, payment, power);
  }

  /** A settlement succeeds exactly when its guards hold: neither leg can then fail. */
  lemma SettlesExactlyWhenGuarded(s: State, cid: Cid, supplied: seq<Supplied>, authority: set<Party>)
    requires Inv(s)
    ensures Settle(s, cid, supplied, authority).Ok?
      <==> exists treasury, payment :: MaySettle(s, cid, supplied, authority, treasury, payment)
  {
    if Settle(s, cid, supplied, authority).Ok? {
      SettlingNeedsItsGuards(s, cid, supplied, authority);
    }
    if treasury, payment :| MaySettle(s, cid, supplied, authority, treasury, payment) {
      SettlementCannotHalfFail(s, cid, supplied, authority, treasury, payment);
    }
  }

  lemma ExecutionIs(s: State, cid: Cid, authority: set<Party>)
    requires Execute(s, cid, authority).Ok?
    ensures FetchAllocation(s, cid).Ok?
    ensures var a := FetchAllocation(s, cid).value;
      && Releases(s, Execute(s, cid, authority).value, cid, a, a.spec.leg.receiver)
      && Execute(s, cid, authority).value.log == s.log + [Executing(cid, a.spec, s.now)]
      && Execute(s, cid, authority).value.now == s.now
  {
    ExecuteReleases(s, cid, authority);
  }

  lemma TwoReleases(s: State, s1: State, s2: State, t: State, trade: Trade, cid: Cid, treasury: Cid, payment: Cid, a: Allocation, b: Allocation)
    requires Inv(s) && cid in s.active && s.active[cid].Agreed? && treasury != payment && s1 == Consume(s, cid)
    requires a.spec == ExpectedAllocation(trade, TreasuryDelivery) && b.spec == ExpectedAllocation(trade, StablecoinPayment)
    requires WellFormed(trade.terms)
    requires treasury in s.active && s.active[treasury] == Allocated(a)
    requires payment in s.active && s.active[payment] == Allocated(b)
    requires Releases(s1, s2, treasury, a, a.spec.leg.receiver) && Releases(s2, t, payment, b, b.spec.leg.receiver)
    requires t.log == s.log + [Executing(treasury, a.spec, s.now), Executing(payment, b.spec, s.now)]
    ensures MovesBothLegs(s, t, trade, cid, treasury, payment)
  {
    assert Backs(s.active, a) && Backs(s.active, b);
    var one := Held(Holding(a.registry, a.spec.leg.instrument, a.spec.leg.receiver, a.spec.leg.amount, None));
    var two := Held(Holding(b.registry, b.spec.leg.instrument, b.spec.leg.receiver, b.spec.leg.amount, None));
    assert s2.active == (s.active - {cid} - {treasury} - {a.locked})[s.next := one];
    assert s.next !in s.active && payment != s.next && b.locked != s.next;
    assert s2.active - {payment} - {b.locked} == (s.active - {cid, treasury, payment, a.locked, b.locked})[s.next := one];
  }

  /** A successful settlement moves exactly the two leg amounts, and a failed one moves nothing. */
  lemma SettlementMovesBothLegs(s: State, cid: Cid, supplied: seq<Supplied>, authority: set<Party>)
    requires Inv(s)
    ensures Settle(s, cid, supplied, authority).Ok? ==>
      && SuppliedLeg(TreasuryDelivery, supplied).Ok? && SuppliedLeg(StablecoinPayment, supplied).Ok?
      && FetchTrade(s, cid).Ok?
      && MovesBothLegs(s, Settle(s, cid, supplied, authority).value, FetchTrade(s, cid).value, cid,
                       SuppliedLeg(TreasuryDelivery, supplied).value.allocation, SuppliedLeg(StablecoinPayment, supplied).value.allocation)
    ensures Settle(s, cid, supplied, authority).Err? ==> After(s, Dvp(DoSettle(cid, supplied), authority)) == s
  {
    if Settle(s, cid, supplied, authority).Ok? {
      SettlingNeedsItsGuards(s, cid, supplied, authority);
      SettleParts(s, cid, supplied, authority);
      var trade := s.active[cid].trade;
      var power := {trade.terms.venue, trade.terms.seller, trade.terms.buyer};
      var treasury := SuppliedLeg(TreasuryDelivery, supplied).value.allocation;
      var payment := SuppliedLeg(StablecoinPayment, supplied).value.allocation;
      var s1 := Consume(s, cid);
      ConsumingIsPlain(s, cid);
      PlainStepsKeepInv(s, s1);
      ExecutionIs(s1, treasury, power);
      var s2 := Execute(s1, treasury, power).value;
      OthersSurviveExecution(s1, treasury, payment, power);
      ExecutionIs(s2, payment, power);
      assert Ensured(s.active[cid]);
      TwoReleases(s, s1, s2, Settle(s, cid, supplied, authority).value, trade, cid, treasury, payment, s.active[treasury].allocation,
                  s.active[payment].allocation);
    }
  }
}

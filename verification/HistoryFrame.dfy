/** Evidence for one operation is untouched by the facts of others. */
module HistoryFrame {
  import opened Outcomes
  import opened LedgerValues
  import opened History

  /** `whole` is the elements of `a` and of `b`, each in its own order. */
  predicate Interleaves<T(==)>(whole: seq<T>, a: seq<T>, b: seq<T>) {
    if whole == [] then
      a == [] && b == []
    else
      || (a != [] && whole[0] == a[0] && Interleaves(whole[1..], a[1..], b))
      || (b != [] && whole[0] == b[0] && Interleaves(whole[1..], a, b[1..]))
  }

  predicate HistoryInterleaves(whole: CantonHistory, h: CantonHistory, noise: CantonHistory) {
    && Interleaves(whole.created, h.created, noise.created)
    && Interleaves(whole.exercised, h.exercised, noise.exercised)
    && Interleaves(whole.archived, h.archived, noise.archived)
  }

  /** The fact names none of these ids, neither as its contract, nor as its update, nor in its arguments. */
  predicate CreatedAvoids(fact: CreatedFact, ids: set<string>) {
    fact.cid !in ids && fact.update !in ids && NamesIn(fact.arguments) !! ids
  }

  predicate ExercisedAvoids(fact: ExercisedFact, ids: set<string>) {
    fact.cid !in ids && fact.update !in ids && NamesIn(fact.argument) !! ids
  }

  predicate Avoids(noise: CantonHistory, ids: set<string>) {
    && (forall fact :: fact in noise.created ==> CreatedAvoids(fact, ids))
    && (forall fact :: fact in noise.exercised ==> ExercisedAvoids(fact, ids))
  }

  /** The lock, contract and update ids that the accepted chain of an operation goes through. */
  function OperationIds(e: Expectation, t: Trail): set<string> {
    {e.lockId, t.mint.holding, t.mint.minted.update, t.bound.mintRef.cid, t.bound.bind.update, t.funded.allocation,
     t.funded.locked, t.settled.settle.update, t.redeemed.request.cid, t.redeemed.redeem.update}
  }

  // Queries ------------------------------------------------------------------------------------------------

  lemma {:induction false} MembersOfInterleaving<T>(whole: seq<T>, a: seq<T>, b: seq<T>, x: T)
    requires Interleaves(whole, a, b)
    ensures x in whole <==> x in a || x in b
    decreases |whole|
  {
    if whole != [] {
      if a != [] && whole[0] == a[0] && Interleaves(whole[1..], a[1..], b) {
        MembersOfInterleaving(whole[1..], a[1..], b, x);
        assert a == [a[0]] + a[1..];
      } else {
        MembersOfInterleaving(whole[1..], a, b[1..], x);
        assert b == [b[0]] + b[1..];
      }
      assert whole == [whole[0]] + whole[1..];
    }
  }

  lemma {:induction false} CreatedIgnoresNoise(whole: seq<CreatedFact>, a: seq<CreatedFact>, noise: seq<CreatedFact>, q: CreatedQuery)
    requires Interleaves(whole, a, noise)
    requires forall fact :: fact in noise ==> !Hits(q, fact)
    ensures Created(whole, q) == Created(a, q)
    decreases |whole|
  {
    if whole != [] {
      if a != [] && whole[0] == a[0] && Interleaves(whole[1..], a[1..], noise) {
        CreatedIgnoresNoise(whole[1..], a[1..], noise, q);
      } else {
        CreatedIgnoresNoise(whole[1..], a, noise[1..], q);
      }
    }
  }

  lemma {:induction false} ExercisedIgnoresNoise(whole: seq<ExercisedFact>, a: seq<ExercisedFact>, noise: seq<ExercisedFact>, q: ExercisedQuery)
    requires Interleaves(whole, a, noise)
    requires forall fact :: fact in noise ==> !HitsExercise(q, fact)
    ensures Exercised(whole, q) == Exercised(a, q)
    decreases |whole|
  {
    if whole != [] {
      if a != [] && whole[0] == a[0] && Interleaves(whole[1..], a[1..], noise) {
        ExercisedIgnoresNoise(whole[1..], a[1..], noise, q);
      } else {
        ExercisedIgnoresNoise(whole[1..], a, noise[1..], q);
      }
    }
  }

  /** The id that a query is about: no fact that avoids it is selected. */
  function CreatedPin(q: CreatedQuery): string {
    match q
    case WithCid(cid) => cid
    case WithLock(_, lock) => lock
    case InUpdateWithLock(_, update, _) => update
    case InUpdateOwned(_, update, _, _) => update
  }

  function ExercisedPin(q: ExercisedQuery): string {
    match q
    case InUpdate(_, update) => update
    case Containing(_, cid) => cid
    case Consuming(_, cid) => cid
    case SuppliesPayment(_, allocation) => allocation
    case NamesRequest(_, request) => request
  }

  lemma CreatedQueryMissesNoise(q: CreatedQuery, fact: CreatedFact, ids: set<string>)
    requires CreatedAvoids(fact, ids) && CreatedPin(q) in ids
    ensures !Hits(q, fact)
  {
    FieldTextIsNamed(fact.arguments, "lockId");
  }

  lemma ExercisedQueryMissesNoise(q: ExercisedQuery, fact: ExercisedFact, ids: set<string>)
    requires ExercisedAvoids(fact, ids) && ExercisedPin(q) in ids
    ensures !HitsExercise(q, fact)
  {
    FieldTextIsNamed(fact.argument, "requestCid");
    if fact.argument.Some? {
      match q
      case Containing(_, cid) => ContainedIsNamed(fact.argument.value, cid);
      case SuppliesPayment(_, _) => LegAllocationIsNamed(fact.argument.value, "stablecoin-payment");
      case _ =>
    }
  }

  /** Three histories: what is searched, what the operation left behind, and what others did. */
  predicate Framed(whole: CantonHistory, h: CantonHistory, noise: CantonHistory, ids: set<string>) {
    HistoryInterleaves(whole, h, noise) && Avoids(noise, ids)
  }

  lemma UniqueCreatedIsFramed(whole: CantonHistory, h: CantonHistory, noise: CantonHistory, ids: set<string>, q: CreatedQuery)
    requires Framed(whole, h, noise, ids) && CreatedPin(q) in ids
    ensures Created(whole.created, q) == Created(h.created, q)
    ensures UniqueCreated(whole, q) == UniqueCreated(h, q)
  {
    forall fact | fact in noise.created ensures !Hits(q, fact) {
      CreatedQueryMissesNoise(q, fact, ids);
    }
    CreatedIgnoresNoise(whole.created, h.created, noise.created, q);
  }

  lemma CreatedByCidIsFramed(whole: CantonHistory, h: CantonHistory, noise: CantonHistory, ids: set<string>, cid: string)
    requires Framed(whole, h, noise, ids) && cid in ids
    ensures CreatedByCid(whole, cid) == CreatedByCid(h, cid)
  {
    UniqueCreatedIsFramed(whole, h, noise, ids, WithCid(cid));
  }

  lemma UniqueExercisedIsFramed(whole: CantonHistory, h: CantonHistory, noise: CantonHistory, ids: set<string>, q: ExercisedQuery)
    requires Framed(whole, h, noise, ids) && ExercisedPin(q) in ids
    ensures UniqueExercised(whole, q) == UniqueExercised(h, q)
  {
    forall fact | fact in noise.exercised ensures !HitsExercise(q, fact) {
      ExercisedQueryMissesNoise(q, fact, ids);
    }
    ExercisedIgnoresNoise(whole.exercised, h.exercised, noise.exercised, q);
  }

  lemma ConsumptionStays(whole: CantonHistory, h: CantonHistory, noise: CantonHistory, cid: string, update: string)
    requires HistoryInterleaves(whole, h, noise)
    ensures ConsumedIn(h, cid, update) ==> ConsumedIn(whole, cid, update)
    ensures Burned(h, cid, update) ==> Burned(whole, cid, update)
  {
    forall fact | fact in h.archived ensures fact in whole.archived {
      MembersOfInterleaving(whole.archived, h.archived, noise.archived, fact);
    }
    forall fact | fact in h.exercised ensures fact in whole.exercised {
      MembersOfInterleaving(whole.exercised, h.exercised, noise.exercised, fact);
    }
  }

  lemma NoNewClaim(whole: CantonHistory, h: CantonHistory, noise: CantonHistory, ids: set<string>, e: Expectation)
    requires Framed(whole, h, noise, ids) && e.mintHolding in ids
    ensures !ClaimedByAnotherLock(h, e) ==> !ClaimedByAnotherLock(whole, e)
  {
    forall fact | fact in whole.created && fact !in h.created
      ensures !ClaimsFor(fact, e)
    {
      MembersOfInterleaving(whole.created, h.created, noise.created, fact);
      FieldTextIsNamed(fact.arguments, "holdingCid");
    }
  }

  // Stages -------------------------------------------------------------------------------------------------

  lemma ClaimStageIsFramed(whole: CantonHistory, h: CantonHistory, noise: CantonHistory, ids: set<string>, e: Expectation)
    requires Framed(whole, h, noise, ids)
    requires ClaimStage(h, e).Ok? && {e.lockId, e.mintHolding} <= ids
    ensures ClaimStage(whole, e) == ClaimStage(h, e)
  {
    UniqueCreatedIsFramed(whole, h, noise, ids, WithLock("MintedLock", e.lockId));
    NoNewClaim(whole, h, noise, ids, e);
  }

  lemma MintStageIsFramed(whole: CantonHistory, h: CantonHistory, noise: CantonHistory, ids: set<string>, e: Expectation)
    requires Framed(whole, h, noise, ids)
    requires MintStage(h, e).Ok? && {e.lockId, MintStage(h, e).value.holding} <= ids
    ensures MintStage(whole, e) == MintStage(h, e)
  {
    var m := MintStage(h, e).value;
    assert m.holding == e.mintHolding;
    ClaimStageIsFramed(whole, h, noise, ids, e);
    CreatedByCidIsFramed(whole, h, noise, ids, m.holding);
  }

  lemma RefStageIsFramed(whole: CantonHistory, h: CantonHistory, noise: CantonHistory, ids: set<string>, e: Expectation, m: MintFacts)
    requires Framed(whole, h, noise, ids)
    requires RefStage(h, e, m).Ok?
    requires {e.lockId, m.minted.update, RefStage(h, e, m).value.0.cid} <= ids
    ensures RefStage(whole, e, m) == RefStage(h, e, m)
  {
    var (mintRef, bind) := RefStage(h, e, m).value;
    UniqueExercisedIsFramed(whole, h, noise, ids, InUpdate("Gateway_Mint", m.minted.update));
    UniqueCreatedIsFramed(whole, h, noise, ids, InUpdateWithLock("BridgeMintRef", m.minted.update, e.lockId));
    UniqueExercisedIsFramed(whole, h, noise, ids, Consuming("BridgeMintRef_Bind", mintRef.cid));
    ConsumptionStays(whole, h, noise, mintRef.cid, bind.update);
  }

  lemma BoundStageIsFramed(whole: CantonHistory, h: CantonHistory, noise: CantonHistory, ids: set<string>, e: Expectation, m: MintFacts,
                           update: string)
    requires Framed(whole, h, noise, ids)
    requires BoundStage(h, e, m, update).Ok? && {e.lockId, update} <= ids
    ensures BoundStage(whole, e, m, update) == BoundStage(h, e, m, update)
  {
    UniqueCreatedIsFramed(whole, h, noise, ids, InUpdateWithLock("BridgeTradeBinding", update, e.lockId));
    UniqueCreatedIsFramed(whole, h, noise, ids, WithLock("BridgeTradeBinding", e.lockId));
  }

  lemma BindStageIsFramed(whole: CantonHistory, h: CantonHistory, noise: CantonHistory, ids: set<string>, e: Expectation, m: MintFacts)
    requires Framed(whole, h, noise, ids)
    requires BindStage(h, e, m).Ok? && RefStage(whole, e, m) == RefStage(h, e, m)
    requires {e.lockId, BindStage(h, e, m).value.bind.update} <= ids
    ensures BindStage(whole, e, m) == BindStage(h, e, m)
  {
    BoundStageIsFramed(whole, h, noise, ids, e, m, BindStage(h, e, m).value.bind.update);
  }

  lemma FundStageIsFramed(whole: CantonHistory, h: CantonHistory, noise: CantonHistory, ids: set<string>, e: Expectation, m: MintFacts)
    requires Framed(whole, h, noise, ids)
    requires FundStage(h, e, m).Ok? && m.holding in ids
    ensures FundStage(whole, e, m) == FundStage(h, e, m)
  {
    UniqueExercisedIsFramed(whole, h, noise, ids, Containing("AllocationFactory_Allocate", m.holding));
    ConsumptionStays(whole, h, noise, m.holding, FundStage(h, e, m).value.0.update);
  }

  lemma LockedHoldingIsFramed(whole: CantonHistory, h: CantonHistory, allocation: string, update: string)
    requires CreatedByCid(whole, allocation) == CreatedByCid(h, allocation)
    ensures LockedHolding(whole, allocation, update) == LockedHolding(h, allocation, update)
  {
  }

  lemma LockedContractIsFramed(whole: CantonHistory, h: CantonHistory, e: Expectation, m: MintFacts, locked: string, update: string)
    requires CreatedByCid(whole, locked) == CreatedByCid(h, locked)
    ensures LockedContract(whole, e, m, locked, update) == LockedContract(h, e, m, locked, update)
  {
  }

  lemma AllocateStageIsFramed(whole: CantonHistory, h: CantonHistory, e: Expectation, m: MintFacts, a: AllocateFacts)
    requires AllocateStage(h, e, m) == Ok(a) && FundStage(whole, e, m) == FundStage(h, e, m)
    requires LockedHolding(whole, a.allocation, a.allocate.update) == LockedHolding(h, a.allocation, a.allocate.update)
    requires LockedContract(whole, e, m, a.locked, a.allocate.update) == LockedContract(h, e, m, a.locked, a.allocate.update)
    ensures AllocateStage(whole, e, m) == Ok(a)
  {
  }

  lemma SupplyStageIsFramed(whole: CantonHistory, h: CantonHistory, noise: CantonHistory, ids: set<string>, b: BindFacts, a: AllocateFacts)
    requires Framed(whole, h, noise, ids)
    requires SupplyStage(h, b, a).Ok? && a.allocation in ids
    ensures SupplyStage(whole, b, a) == SupplyStage(h, b, a)
  {
    var settle := SupplyStage(h, b, a).value;
    UniqueExercisedIsFramed(whole, h, noise, ids, SuppliesPayment("DvpTrade_Settle", a.allocation));
    ConsumptionStays(whole, h, noise, a.allocation, settle.update);
    ConsumptionStays(whole, h, noise, a.locked, settle.update);
  }

  lemma ReceiptStageIsFramed(whole: CantonHistory, h: CantonHistory, noise: CantonHistory, ids: set<string>, e: Expectation,
                             m: MintFacts, a: AllocateFacts, settle: ExercisedFact)
    requires Framed(whole, h, noise, ids) && settle.update in ids
    ensures ReceiptStage(whole, e, m, a, settle) == ReceiptStage(h, e, m, a, settle)
  {
    UniqueCreatedIsFramed(whole, h, noise, ids, InUpdateOwned("StablecoinHolding", settle.update, a.seller, e.cantonAmount));
    UniqueCreatedIsFramed(whole, h, noise, ids, InUpdateOwned("TreasuryHolding", settle.update, m.buyer, e.treasuryAmount));
  }

  lemma SettleStageIsFramed(whole: CantonHistory, h: CantonHistory, e: Expectation, m: MintFacts, b: BindFacts, a: AllocateFacts,
                            s: SettleFacts)
    requires SettleStage(h, e, m, b, a) == Ok(s) && SupplyStage(whole, b, a) == SupplyStage(h, b, a)
    requires ReceiptStage(whole, e, m, a, s.settle) == ReceiptStage(h, e, m, a, s.settle)
    ensures SettleStage(whole, e, m, b, a) == Ok(s)
  {
  }

  lemma RequestStageIsFramed(whole: CantonHistory, h: CantonHistory, noise: CantonHistory, ids: set<string>, e: Expectation,
                             m: MintFacts, a: AllocateFacts, s: SettleFacts)
    requires Framed(whole, h, noise, ids) && e.lockId in ids
    ensures RequestStage(h, e, m, a, s).Ok? ==> RequestStage(whole, e, m, a, s) == RequestStage(h, e, m, a, s)
  {
    UniqueCreatedIsFramed(whole, h, noise, ids, WithLock("RedemptionRequest", e.lockId));
  }

  lemma RedeemChoiceIsFramed(whole: CantonHistory, h: CantonHistory, noise: CantonHistory, ids: set<string>,
                             m: MintFacts, b: BindFacts, request: string, payment: string)
    requires Framed(whole, h, noise, ids) && request in ids
    requires RedeemChoice(h, m, b, request, payment).Ok?
    ensures RedeemChoice(whole, m, b, request, payment) == RedeemChoice(h, m, b, request, payment)
  {
    UniqueExercisedIsFramed(whole, h, noise, ids, NamesRequest("Gateway_Redeem", request));
    ConsumptionStays(whole, h, noise, payment, RedeemChoice(h, m, b, request, payment).value.update);
  }

  lemma BurnStageIsFramed(whole: CantonHistory, h: CantonHistory, noise: CantonHistory, ids: set<string>, e: Expectation,
                          m: MintFacts, b: BindFacts, a: AllocateFacts, s: SettleFacts)
    requires Framed(whole, h, noise, ids)
    requires BurnStage(h, e, m, b, a, s).Ok?
    requires {e.lockId, BurnStage(h, e, m, b, a, s).value.0.cid} <= ids
    ensures BurnStage(whole, e, m, b, a, s) == BurnStage(h, e, m, b, a, s)
  {
    RequestStageIsFramed(whole, h, noise, ids, e, m, a, s);
    RedeemChoiceIsFramed(whole, h, noise, ids, m, b, BurnStage(h, e, m, b, a, s).value.0.cid, s.payment.cid);
  }

  lemma RedeemStageIsFramed(whole: CantonHistory, h: CantonHistory, noise: CantonHistory, ids: set<string>, e: Expectation,
                            m: MintFacts, b: BindFacts, a: AllocateFacts, s: SettleFacts)
    requires Framed(whole, h, noise, ids)
    requires RedeemStage(h, e, m, b, a, s).Ok? && BurnStage(whole, e, m, b, a, s) == BurnStage(h, e, m, b, a, s)
    requires {e.lockId, RedeemStage(h, e, m, b, a, s).value.redeem.update} <= ids
    ensures RedeemStage(whole, e, m, b, a, s) == RedeemStage(h, e, m, b, a, s)
  {
    var r := RedeemStage(h, e, m, b, a, s).value;
    UniqueCreatedIsFramed(whole, h, noise, ids, InUpdateWithLock("RedeemedLock", r.redeem.update, e.lockId));
  }

  lemma OpeningStages(h: CantonHistory, e: Expectation, m: MintFacts, b: BindFacts, a: AllocateFacts)
    ensures Opening(h, e) == Ok((m, b, a))
      <==> MintStage(h, e) == Ok(m) && BindStage(h, e, m) == Ok(b) && AllocateStage(h, e, m) == Ok(a)
  {
  }

  lemma ClosingStages(h: CantonHistory, e: Expectation, t: Trail)
    ensures Closing(h, e, t.mint, t.bound, t.funded) == Ok((t.settled, t.redeemed))
      <==> && SettleStage(h, e, t.mint, t.bound, t.funded) == Ok(t.settled)
           && RedeemStage(h, e, t.mint, t.bound, t.funded, t.settled) == Ok(t.redeemed)
  {
  }

  lemma ConnectParts(h: CantonHistory, e: Expectation, t: Trail)
    requires Connect(h, e) == Ok(t)
    ensures Opening(h, e) == Ok((t.mint, t.bound, t.funded))
    ensures Closing(h, e, t.mint, t.bound, t.funded) == Ok((t.settled, t.redeemed))
  {
    var opening := Opening(h, e);
    assert opening.Ok?;
    var closing := Closing(h, e, opening.value.0, opening.value.1, opening.value.2);
    assert closing.Ok?;
  }

  lemma ConnectIsFramed(whole: CantonHistory, h: CantonHistory, e: Expectation, t: Trail)
    requires Connect(h, e) == Ok(t)
    requires Opening(whole, e) == Ok((t.mint, t.bound, t.funded))
    requires Closing(whole, e, t.mint, t.bound, t.funded) == Ok((t.settled, t.redeemed))
    ensures Connect(whole, e) == Ok(t)
  {
  }

  lemma FundingIsFramed(whole: CantonHistory, h: CantonHistory, noise: CantonHistory, ids: set<string>, e: Expectation, t: Trail)
    requires Framed(whole, h, noise, ids) && OperationIds(e, t) <= ids
    requires AllocateStage(h, e, t.mint) == Ok(t.funded)
    ensures AllocateStage(whole, e, t.mint) == Ok(t.funded)
  {
    var a := t.funded;
    FundStageIsFramed(whole, h, noise, ids, e, t.mint);
    CreatedByCidIsFramed(whole, h, noise, ids, a.allocation);
    CreatedByCidIsFramed(whole, h, noise, ids, a.locked);
    LockedHoldingIsFramed(whole, h, a.allocation, a.allocate.update);
    LockedContractIsFramed(whole, h, e, t.mint, a.locked, a.allocate.update);
    AllocateStageIsFramed(whole, h, e, t.mint, a);
  }

  lemma BindingIsFramed(whole: CantonHistory, h: CantonHistory, noise: CantonHistory, ids: set<string>, e: Expectation, t: Trail)
    requires Framed(whole, h, noise, ids) && OperationIds(e, t) <= ids
    requires BindStage(h, e, t.mint) == Ok(t.bound)
    ensures BindStage(whole, e, t.mint) == Ok(t.bound)
  {
    RefStageIsFramed(whole, h, noise, ids, e, t.mint);
    BindStageIsFramed(whole, h, noise, ids, e, t.mint);
  }

  lemma SettlementIsFramed(whole: CantonHistory, h: CantonHistory, noise: CantonHistory, ids: set<string>, e: Expectation, t: Trail)
    requires Framed(whole, h, noise, ids) && OperationIds(e, t) <= ids
    requires SettleStage(h, e, t.mint, t.bound, t.funded) == Ok(t.settled)
    ensures SettleStage(whole, e, t.mint, t.bound, t.funded) == Ok(t.settled)
  {
    SupplyStageIsFramed(whole, h, noise, ids, t.bound, t.funded);
    ReceiptStageIsFramed(whole, h, noise, ids, e, t.mint, t.funded, t.settled.settle);
    SettleStageIsFramed(whole, h, e, t.mint, t.bound, t.funded, t.settled);
  }

  lemma RedemptionIsFramed(whole: CantonHistory, h: CantonHistory, noise: CantonHistory, ids: set<string>, e: Expectation, t: Trail)
    requires Framed(whole, h, noise, ids) && OperationIds(e, t) <= ids
    requires RedeemStage(h, e, t.mint, t.bound, t.funded, t.settled) == Ok(t.redeemed)
    ensures RedeemStage(whole, e, t.mint, t.bound, t.funded, t.settled) == Ok(t.redeemed)
  {
    BurnStageIsFramed(whole, h, noise, ids, e, t.mint, t.bound, t.funded, t.settled);
    RedeemStageIsFramed(whole, h, noise, ids, e, t.mint, t.bound, t.funded, t.settled);
  }

  /**
   * If a history is accepted for an operation, then so is every interleaving of it with facts that name none
   * of the operation's ids, and the evidence is the same.
   */
  lemma EvidenceIsFramed(whole: CantonHistory, h: CantonHistory, noise: CantonHistory, e: Expectation, t: Trail)
    requires Connect(h, e) == Ok(t)
    requires HistoryInterleaves(whole, h, noise) && Avoids(noise, OperationIds(e, t))
    ensures Connect(whole, e) == Ok(t)
    ensures ConnectCantonHistory(whole, e) == ConnectCantonHistory(h, e) == Ok(EvidenceOf(e, t))
  {
    var ids := OperationIds(e, t);
    ConnectParts(h, e, t);
    OpeningStages(h, e, t.mint, t.bound, t.funded);
    ClosingStages(h, e, t);
    MintStageIsFramed(whole, h, noise, ids, e);
    BindingIsFramed(whole, h, noise, ids, e, t);
    FundingIsFramed(whole, h, noise, ids, e, t);
    SettlementIsFramed(whole, h, noise, ids, e, t);
    RedemptionIsFramed(whole, h, noise, ids, e, t);
    OpeningStages(whole, e, t.mint, t.bound, t.funded);
    ClosingStages(whole, e, t);
    ConnectIsFramed(whole, h, e, t);
  }

  // Separate operations ------------------------------------------------------------------------------------

  lemma {:induction false} SelectedFactsHit(facts: seq<CreatedFact>, q: CreatedQuery, fact: CreatedFact)
    requires fact in Created(facts, q)
    ensures fact in facts && Hits(q, fact)
    decreases |facts|
  {
    if facts != [] && fact in Created(facts[1..], q) {
      SelectedFactsHit(facts[1..], q, fact);
    }
  }

  lemma {:induction false} PartitionKeepsMembers(facts: seq<CreatedFact>, present: bool, fact: CreatedFact)
    requires fact in WithArguments(facts, present)
    ensures fact in facts
    decreases |facts|
  {
    if facts != [] && fact in WithArguments(facts[1..], present) {
      PartitionKeepsMembers(facts[1..], present, fact);
    }
  }

  lemma {:induction false} DedupKeepsMembers(facts: seq<CreatedFact>, fact: CreatedFact)
    requires fact in DedupCreated(facts)
    ensures fact in facts
    decreases |facts|
  {
    if |facts| >= 2 {
      var init := facts[..|facts| - 1];
      if fact in DedupCreated(init) {
        DedupKeepsMembers(init, fact);
        assert fact in init;
      }
    }
  }

  /** What a query answers is one of the facts, and it is what the query asked for. */
  lemma UniqueCreatedAnswers(h: CantonHistory, q: CreatedQuery)
    requires UniqueCreated(h, q).Ok?
    ensures UniqueCreated(h, q).value in h.created && Hits(q, UniqueCreated(h, q).value)
  {
    var fact := UniqueCreated(h, q).value;
    var selected := Created(h.created, q);
    DedupKeepsMembers(ArgumentsFirst(selected), fact);
    if fact in WithArguments(selected, true) {
      PartitionKeepsMembers(selected, true, fact);
    } else {
      PartitionKeepsMembers(selected, false, fact);
    }
    SelectedFactsHit(h.created, q, fact);
  }

  /** A minted lock that records this lock against this holding. */
  predicate Mints(fact: CreatedFact, lock: string, holding: string) {
    && TemplateEnds(fact, "MintedLock")
    && FieldText(fact.arguments, "lockId") == Some(lock)
    && FieldText(fact.arguments, "holdingCid") == Some(holding)
  }

  /** An accepted mint is a minted lock of this very lock and holding, and no other lock claims the holding. */
  lemma AcceptedMintIsClaimed(h: CantonHistory, e: Expectation)
    requires MintStage(h, e).Ok?
    ensures !ClaimedByAnotherLock(h, e)
    ensures exists fact :: fact in h.created && Mints(fact, e.lockId, e.mintHolding)
    ensures MintStage(h, e).value.holding == e.mintHolding
  {
    var q := WithLock("MintedLock", e.lockId);
    UniqueCreatedAnswers(h, q);
    var fact := UniqueCreated(h, q).value;
    assert Mints(fact, e.lockId, e.mintHolding);
  }

  lemma EvidenceNamesItsMint(h: CantonHistory, e: Expectation)
    requires ConnectCantonHistory(h, e).Ok?
    ensures MintStage(h, e).Ok? && MintStage(h, e).value.holding == ConnectCantonHistory(h, e).value.mintHolding
  {
    var t := Connect(h, e).value;
    ConnectParts(h, e, t);
    OpeningStages(h, e, t.mint, t.bound, t.funded);
  }

  lemma MintsAreSeparate(h: CantonHistory, e: Expectation, other: Expectation)
    requires !ClaimedByAnotherLock(h, e) && e.lockId != other.lockId
    requires exists fact :: fact in h.created && Mints(fact, other.lockId, other.mintHolding)
    ensures e.mintHolding != other.mintHolding
  {
    var fact :| fact in h.created && Mints(fact, other.lockId, other.mintHolding);
    assert e.mintHolding == other.mintHolding ==> ClaimsFor(fact, e);
  }

  /** One history never gives evidence for two locks from the same minted holding. */
  lemma OperationsDoNotShareAMint(h: CantonHistory, e: Expectation, other: Expectation)
    requires ConnectCantonHistory(h, e).Ok? && ConnectCantonHistory(h, other).Ok?
    requires e.lockId != other.lockId
    ensures ConnectCantonHistory(h, e).value.mintHolding != ConnectCantonHistory(h, other).value.mintHolding
  {
    EvidenceNamesItsMint(h, e);
    EvidenceNamesItsMint(h, other);
    AcceptedMintIsClaimed(h, e);
    AcceptedMintIsClaimed(h, other);
    MintsAreSeparate(h, e, other);
  }
}

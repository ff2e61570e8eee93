/** What an accepted history contains, field by field of its evidence, and that nothing else is asked for. */
module HistoryEvidence {
  import opened Outcomes
  import opened LedgerValues
  import opened History
  import opened HistoryFrame
  import opened HistoryQueries
  import Units

  // What single facts say ------------------------------------------------------------------------------------------

  /** A field of these arguments is this non-empty text. */
  predicate Says(args: Option<LedgerValue>, name: string, text: string) {
    FieldText(args, name) == Some(text) && text != ""
  }

  /** The amount in these arguments is this text, which denotes the expected number. */
  predicate SaysAmount(args: Option<LedgerValue>, number: string, expected: string) {
    FieldNumeric(args, "amount") == Some(number) && number != "" && Units.AmountsMatch(number, expected)
  }

  ghost predicate OfAmount(args: Option<LedgerValue>, expected: string) {
    exists number :: SaysAmount(args, number, expected)
  }

  /** The instrument is named in a part of its own, or, without such a part, by the arguments themselves. */
  predicate SaysInstrument(args: Option<LedgerValue>, instrument: Instrument) {
    && args.Some?
    && var named := Field(args.value, "instrumentId");
       var part := Some(if named.Some? then named.value else args.value);
       Says(part, "id", instrument.id) && Says(part, "admin", instrument.admin)
  }

  ghost predicate OwnedCash(fact: CreatedFact, owner: string, amount: string, instrument: Instrument) {
    Says(fact.arguments, "owner", owner) && OfAmount(fact.arguments, amount) && SaysInstrument(fact.arguments, instrument)
  }

  lemma TextsAreRequired(args: LedgerValue, name: string, text: string)
    ensures RequireText(args, name) == Ok(text) <==> Says(Some(args), name, text)
  {
  }

  lemma AmountsAreRequired(args: LedgerValue, number: string, expected: string)
    ensures RequireAmount(args, expected) == Ok(number) <==> SaysAmount(Some(args), number, expected)
  {
  }

  lemma SomeAmountIsRequired(args: LedgerValue, expected: string)
    ensures RequireAmount(args, expected).Ok? <==> OfAmount(Some(args), expected)
  {
    if RequireAmount(args, expected).Ok? {
      AmountsAreRequired(args, RequireAmount(args, expected).value, expected);
    }
  }

  lemma InstrumentsAreRequired(args: LedgerValue, instrument: Instrument)
    ensures RequireInstrument(args) == Ok(instrument) <==> SaysInstrument(Some(args), instrument)
  {
    var named := Field(args, "instrumentId");
    var part := if named.Some? then named.value else args;
    TextsAreRequired(part, "id", instrument.id);
    TextsAreRequired(part, "admin", instrument.admin);
  }

  lemma CashIsRequired(fact: CreatedFact, owner: string, amount: string, instrument: Instrument)
    ensures OwnedInstrument(fact, owner, amount) == Ok(instrument) <==> OwnedCash(fact, owner, amount, instrument)
  {
    if fact.arguments.Some? {
      TextsAreRequired(fact.arguments.value, "owner", owner);
      SomeAmountIsRequired(fact.arguments.value, amount);
      InstrumentsAreRequired(fact.arguments.value, instrument);
    }
  }

  // The facts of one operation -----------------------------------------------------------------------------------------

  /** The facts that the evidence of one operation rests on. */
  datatype Chain = Chain(
    minted: CreatedFact, holding: CreatedFact, mint: ExercisedFact, mintRef: CreatedFact, bind: ExercisedFact, bound: CreatedFact,
    binding: CreatedFact, allocate: ExercisedFact, allocation: CreatedFact, locked: CreatedFact, settle: ExercisedFact,
    payment: CreatedFact, treasury: CreatedFact, request: CreatedFact, redeem: ExercisedFact, redeemed: CreatedFact)

  /** One minted lock of this lock records the expected holding, and that holding is the buyer's. */
  ghost predicate MintIsRecorded(h: CantonHistory, e: Expectation, ev: Evidence, c: Chain) {
    && UniqueCreated(h, WithLock("MintedLock", e.lockId)) == Ok(c.minted)
    && Says(c.minted.arguments, "holdingCid", ev.mintHolding) && ev.mintHolding == e.mintHolding
    && OfAmount(c.minted.arguments, e.cantonAmount)
    && Says(c.minted.arguments, "beneficiary", ev.buyer)
    && Says(c.minted.arguments, "cashRegistry", ev.instrument.admin)
    && !ClaimedByAnotherLock(h, e)
    && CreatedByCid(h, ev.mintHolding) == Ok(c.holding) && TemplateEnds(c.holding, "StablecoinHolding")
    && OwnedCash(c.holding, ev.buyer, e.cantonAmount, ev.instrument)
  }

  lemma MintStageNeeds(h: CantonHistory, e: Expectation, ev: Evidence, c: Chain, m: MintFacts)
    requires MintStage(h, e) == Ok(m)
    requires c.minted == m.minted && CreatedByCid(h, m.holding) == Ok(c.holding)
    requires ev.mintHolding == m.holding && ev.buyer == m.buyer && ev.instrument == m.instrument
    ensures MintIsRecorded(h, e, ev, c) && m.cashRegistry == m.instrument.admin
  {
    var args := c.minted.arguments.value;
    TextsAreRequired(args, "holdingCid", ev.mintHolding);
    SomeAmountIsRequired(args, e.cantonAmount);
    TextsAreRequired(args, "beneficiary", ev.buyer);
    TextsAreRequired(args, "cashRegistry", ev.instrument.admin);
    CashIsRequired(c.holding, ev.buyer, e.cantonAmount, ev.instrument);
  }

  lemma MintStageAnswers(h: CantonHistory, e: Expectation, ev: Evidence, c: Chain)
    requires MintIsRecorded(h, e, ev, c)
    ensures MintStage(h, e) == Ok(MintFacts(c.minted, ev.mintHolding, ev.buyer, ev.instrument.admin, ev.instrument))
  {
    var args := c.minted.arguments.value;
    TextsAreRequired(args, "holdingCid", ev.mintHolding);
    SomeAmountIsRequired(args, e.cantonAmount);
    TextsAreRequired(args, "beneficiary", ev.buyer);
    TextsAreRequired(args, "cashRegistry", ev.instrument.admin);
    CashIsRequired(c.holding, ev.buyer, e.cantonAmount, ev.instrument);
    assert MintedHolding(c.minted, e) == Ok(ev.mintHolding);
    assert MintedParties(c.minted, e) == Ok((ev.buyer, ev.instrument.admin));
  }
  /** The mint left one reference for the buyer, and one choice consumed it. */
  ghost predicate ReferenceIsRecorded(h: CantonHistory, e: Expectation, ev: Evidence, c: Chain) {
    && UniqueExercised(h, InUpdate("Gateway_Mint", c.minted.update)) == Ok(c.mint)
    && UniqueCreated(h, InUpdateWithLock("BridgeMintRef", c.minted.update, e.lockId)) == Ok(c.mintRef)
    && Says(c.mintRef.arguments, "lockId", e.lockId) && Says(c.mintRef.arguments, "mintHoldingCid", ev.mintHolding)
    && Says(c.mintRef.arguments, "cashRegistry", ev.instrument.admin) && Says(c.mintRef.arguments, "buyer", ev.buyer)
    && UniqueExercised(h, Consuming("BridgeMintRef_Bind", c.mintRef.cid)) == Ok(c.bind)
    && ConsumedIn(h, c.mintRef.cid, c.bind.update)
  }

  /** Consuming the reference bound the lock, and the binding that stands for it names the trade. */
  ghost predicate BindingIsRecorded(h: CantonHistory, e: Expectation, ev: Evidence, c: Chain) {
    && UniqueCreated(h, InUpdateWithLock("BridgeTradeBinding", c.bind.update, e.lockId)) == Ok(c.bound)
    && Says(c.bound.arguments, "mintHoldingCid", ev.mintHolding) && Says(c.bound.arguments, "lockId", e.lockId)
    && BindingForLock(h, e.lockId, ev.mintHolding) == Ok(c.binding)
    && Says(c.binding.arguments, "tradeCid", ev.tradeCid)
  }

  lemma RefIsRequired(mintRef: CreatedFact, e: Expectation, ev: Evidence, m: MintFacts)
    requires m.holding == ev.mintHolding && m.cashRegistry == ev.instrument.admin && m.buyer == ev.buyer
    ensures RequireMintRef(mintRef, e, m).Ok? <==>
      && Says(mintRef.arguments, "lockId", e.lockId) && Says(mintRef.arguments, "mintHoldingCid", ev.mintHolding)
      && Says(mintRef.arguments, "cashRegistry", ev.instrument.admin) && Says(mintRef.arguments, "buyer", ev.buyer)
  {
    if mintRef.arguments.Some? {
      var args := mintRef.arguments.value;
      TextsAreRequired(args, "lockId", e.lockId);
      TextsAreRequired(args, "mintHoldingCid", ev.mintHolding);
      TextsAreRequired(args, "cashRegistry", ev.instrument.admin);
      TextsAreRequired(args, "buyer", ev.buyer);
    }
  }

  lemma BoundIsRequired(bound: CreatedFact, e: Expectation, ev: Evidence, m: MintFacts)
    requires m.holding == ev.mintHolding
    ensures RequireBound(bound, e, m).Ok? <==>
      Says(bound.arguments, "mintHoldingCid", ev.mintHolding) && Says(bound.arguments, "lockId", e.lockId)
  {
    if bound.arguments.Some? {
      TextsAreRequired(bound.arguments.value, "mintHoldingCid", ev.mintHolding);
      TextsAreRequired(bound.arguments.value, "lockId", e.lockId);
    }
  }

  lemma TradeIsRequired(binding: CreatedFact, trade: string)
    ensures BoundTrade(binding) == Ok(trade) <==> Says(binding.arguments, "tradeCid", trade)
  {
    if binding.arguments.Some? {
      TextsAreRequired(binding.arguments.value, "tradeCid", trade);
    }
  }

  lemma RefStageNeeds(h: CantonHistory, e: Expectation, ev: Evidence, c: Chain, m: MintFacts)
    requires RefStage(h, e, m) == Ok((c.mintRef, c.bind))
    requires m.holding == ev.mintHolding && m.cashRegistry == ev.instrument.admin && m.buyer == ev.buyer && m.minted == c.minted
    requires UniqueExercised(h, InUpdate("Gateway_Mint", m.minted.update)).Ok? ==>
      UniqueExercised(h, InUpdate("Gateway_Mint", m.minted.update)).value == c.mint
    ensures ReferenceIsRecorded(h, e, ev, c)
  {
    RefIsRequired(c.mintRef, e, ev, m);
  }

  lemma BoundStageNeeds(h: CantonHistory, e: Expectation, ev: Evidence, c: Chain, m: MintFacts)
    requires BoundStage(h, e, m, c.bind.update) == Ok((c.binding, ev.tradeCid)) && m.holding == ev.mintHolding
    requires UniqueCreated(h, InUpdateWithLock("BridgeTradeBinding", c.bind.update, e.lockId)).Ok? ==>
      UniqueCreated(h, InUpdateWithLock("BridgeTradeBinding", c.bind.update, e.lockId)).value == c.bound
    ensures BindingIsRecorded(h, e, ev, c)
  {
    BoundIsRequired(c.bound, e, ev, m);
    TradeIsRequired(c.binding, ev.tradeCid);
  }

  lemma BindStageHas(h: CantonHistory, e: Expectation, m: MintFacts, b: BindFacts)
    ensures BindStage(h, e, m) == Ok(b) <==>
      RefStage(h, e, m) == Ok((b.mintRef, b.bind)) && BoundStage(h, e, m, b.bind.update) == Ok((b.binding, b.trade))
  {
  }

  lemma RefStageAnswers(h: CantonHistory, e: Expectation, ev: Evidence, c: Chain, m: MintFacts)
    requires ReferenceIsRecorded(h, e, ev, c)
    requires m.holding == ev.mintHolding && m.cashRegistry == ev.instrument.admin && m.buyer == ev.buyer && m.minted == c.minted
    ensures RefStage(h, e, m) == Ok((c.mintRef, c.bind))
  {
    RefIsRequired(c.mintRef, e, ev, m);
  }

  lemma BoundStageAnswers(h: CantonHistory, e: Expectation, ev: Evidence, c: Chain, m: MintFacts)
    requires BindingIsRecorded(h, e, ev, c) && m.holding == ev.mintHolding
    ensures BoundStage(h, e, m, c.bind.update) == Ok((c.binding, ev.tradeCid))
  {
    BoundIsRequired(c.bound, e, ev, m);
    TradeIsRequired(c.binding, ev.tradeCid);
  }

  /** The allocation names its locked holding, or lists exactly one holding. */
  predicate SaysLocked(args: Option<LedgerValue>, cid: string) {
    || Says(args, "lockedHoldingCid", cid)
    || (&& (FieldText(args, "lockedHoldingCid").Some? ==> FieldText(args, "lockedHoldingCid").value == "")
        && args.Some? && Field(args.value, "holdingCids").Some? && CollectCids(Field(args.value, "holdingCids").value) == [cid])
  }

  /** The argument has a leg that pays the seller the buyer's cash. */
  ghost predicate PaysSeller(args: Option<LedgerValue>, e: Expectation, ev: Evidence) {
    && args.Some? && Says(args, "expectedAdmin", ev.instrument.admin)
    && var leg := Field(args.value, "transferLeg");
       && leg.Some? && Says(leg, "sender", ev.buyer) && Says(leg, "receiver", ev.seller)
       && OfAmount(leg, e.cantonAmount) && SaysInstrument(leg, ev.instrument)
  }

  /** One choice put the minted holding into the payment allocation and locked it there. */
  ghost predicate FundingIsRecorded(h: CantonHistory, e: Expectation, ev: Evidence, c: Chain) {
    && UniqueExercised(h, Containing("AllocationFactory_Allocate", ev.mintHolding)) == Ok(c.allocate)
    && c.allocate.update == ev.allocateUpdate
    && ConsumedIn(h, ev.mintHolding, ev.allocateUpdate)
    && Says(c.allocate.result, "allocationCid", ev.paymentAllocation)
    && PaysSeller(c.allocate.argument, e, ev)
    && CreatedByCid(h, ev.paymentAllocation) == Ok(c.allocation) && c.allocation.update == ev.allocateUpdate
    && SaysLocked(c.allocation.arguments, ev.paymentLocked)
    && CreatedByCid(h, ev.paymentLocked) == Ok(c.locked) && c.locked.update == ev.allocateUpdate
    && OwnedCash(c.locked, ev.buyer, e.cantonAmount, ev.instrument)
  }

  lemma LockedIsRequired(h: CantonHistory, contract: CreatedFact, allocation: string, update: string, cid: string)
    requires CreatedByCid(h, allocation) == Ok(contract)
    ensures LockedHolding(h, allocation, update) == Ok(cid) <==> contract.update == update && SaysLocked(contract.arguments, cid)
  {
    if contract.arguments.Some? {
      TextsAreRequired(contract.arguments.value, "lockedHoldingCid", cid);
    }
  }

  lemma SellerIsRequired(allocate: ExercisedFact, e: Expectation, ev: Evidence, m: MintFacts)
    requires m.buyer == ev.buyer && m.instrument == ev.instrument
    ensures PaidSeller(allocate, e, m) == Ok(ev.seller) <==> PaysSeller(allocate.argument, e, ev)
  {
    if allocate.argument.Some? {
      var args := allocate.argument.value;
      TextsAreRequired(args, "expectedAdmin", ev.instrument.admin);
      if Field(args, "transferLeg").Some? {
        var leg := Field(args, "transferLeg").value;
        TextsAreRequired(leg, "sender", ev.buyer);
        TextsAreRequired(leg, "receiver", ev.seller);
        SomeAmountIsRequired(leg, e.cantonAmount);
        InstrumentsAreRequired(leg, ev.instrument);
      }
    }
  }

  lemma FundStageNeeds(h: CantonHistory, e: Expectation, ev: Evidence, m: MintFacts, allocate: ExercisedFact)
    requires m.holding == ev.mintHolding && m.buyer == ev.buyer && m.instrument == ev.instrument && allocate.update == ev.allocateUpdate
    requires FundStage(h, e, m) == Ok((allocate, ev.paymentAllocation, ev.seller))
    ensures UniqueExercised(h, Containing("AllocationFactory_Allocate", ev.mintHolding)) == Ok(allocate)
    ensures ConsumedIn(h, ev.mintHolding, ev.allocateUpdate) && Says(allocate.result, "allocationCid", ev.paymentAllocation)
    ensures PaysSeller(allocate.argument, e, ev)
  {
    TextsAreRequired(allocate.result.value, "allocationCid", ev.paymentAllocation);
    assert PaidSeller(allocate, e, m) == Ok(ev.seller);
    SellerIsRequired(allocate, e, ev, m);
  }

  lemma FundStageAnswers(h: CantonHistory, e: Expectation, ev: Evidence, m: MintFacts, allocate: ExercisedFact)
    requires m.holding == ev.mintHolding && m.buyer == ev.buyer && m.instrument == ev.instrument && allocate.update == ev.allocateUpdate
    requires UniqueExercised(h, Containing("AllocationFactory_Allocate", ev.mintHolding)) == Ok(allocate)
    requires ConsumedIn(h, ev.mintHolding, ev.allocateUpdate) && Says(allocate.result, "allocationCid", ev.paymentAllocation)
    requires PaysSeller(allocate.argument, e, ev)
    ensures FundStage(h, e, m) == Ok((allocate, ev.paymentAllocation, ev.seller))
  {
    TextsAreRequired(allocate.result.value, "allocationCid", ev.paymentAllocation);
    SellerIsRequired(allocate, e, ev, m);
  }

  lemma LockedContractNeeds(h: CantonHistory, e: Expectation, ev: Evidence, m: MintFacts, locked: CreatedFact)
    requires m.buyer == ev.buyer && m.instrument == ev.instrument && CreatedByCid(h, ev.paymentLocked) == Ok(locked)
    ensures LockedContract(h, e, m, ev.paymentLocked, ev.allocateUpdate).Ok? <==>
      locked.update == ev.allocateUpdate && OwnedCash(locked, ev.buyer, e.cantonAmount, ev.instrument)
  {
    CashIsRequired(locked, ev.buyer, e.cantonAmount, ev.instrument);
  }

  lemma AllocateStageNeeds(h: CantonHistory, e: Expectation, ev: Evidence, c: Chain, m: MintFacts, a: AllocateFacts)
    requires AllocateStage(h, e, m) == Ok(a)
    requires m.holding == ev.mintHolding && m.buyer == ev.buyer && m.instrument == ev.instrument
    requires a.allocate == c.allocate && a.allocate.update == ev.allocateUpdate && a.allocation == ev.paymentAllocation
    requires a.locked == ev.paymentLocked && a.seller == ev.seller
    requires CreatedByCid(h, a.allocation) == Ok(c.allocation) && CreatedByCid(h, a.locked) == Ok(c.locked)
    ensures FundingIsRecorded(h, e, ev, c)
  {
    FundStageNeeds(h, e, ev, m, c.allocate);
    LockedIsRequired(h, c.allocation, ev.paymentAllocation, ev.allocateUpdate, ev.paymentLocked);
    LockedContractNeeds(h, e, ev, m, c.locked);
  }

  lemma AllocateStageHas(h: CantonHistory, e: Expectation, m: MintFacts, a: AllocateFacts)
    requires AllocateStage(h, e, m) == Ok(a)
    ensures CreatedByCid(h, a.allocation).Ok? && CreatedByCid(h, a.locked).Ok?
  {
  }

  lemma AllocateStageAnswers(h: CantonHistory, e: Expectation, ev: Evidence, c: Chain, m: MintFacts)
    requires FundingIsRecorded(h, e, ev, c)
    requires m.holding == ev.mintHolding && m.buyer == ev.buyer && m.instrument == ev.instrument
    ensures AllocateStage(h, e, m) == Ok(AllocateFacts(c.allocate, ev.paymentAllocation, ev.paymentLocked, ev.seller))
  {
    FundStageAnswers(h, e, ev, m, c.allocate);
    LockedIsRequired(h, c.allocation, ev.paymentAllocation, ev.allocateUpdate, ev.paymentLocked);
    LockedContractNeeds(h, e, ev, m, c.locked);
  }
  /** One settlement of the bound trade was supplied with the payment allocation and consumed it and its locked holding. */
  predicate SupplyIsRecorded(h: CantonHistory, ev: Evidence, c: Chain) {
    && UniqueExercised(h, SuppliesPayment("DvpTrade_Settle", ev.paymentAllocation)) == Ok(c.settle)
    && c.settle.update == ev.settleUpdate && c.settle.cid == ev.tradeCid
    && c.settle.argument.Some? && c.settle.result.Some?
    && AllocationForLeg(c.settle.argument.value, "treasury-delivery").Some?
    && AllocationForLeg(c.settle.argument.value, "treasury-delivery").value != ev.paymentAllocation
    && ConsumedIn(h, ev.paymentAllocation, ev.settleUpdate) && ConsumedIn(h, ev.paymentLocked, ev.settleUpdate)
  }

  lemma SupplyStageExactly(h: CantonHistory, ev: Evidence, c: Chain, b: BindFacts, a: AllocateFacts)
    requires b.trade == ev.tradeCid && a.allocation == ev.paymentAllocation && a.locked == ev.paymentLocked
    requires c.settle.update == ev.settleUpdate
    ensures SupplyStage(h, b, a) == Ok(c.settle) <==> SupplyIsRecorded(h, ev, c)
  {
  }

  /** The settlement created the seller's payment and the buyer's treasury, and answered with both. */
  predicate ReceiptsAreRecorded(h: CantonHistory, e: Expectation, ev: Evidence, c: Chain) {
    && UniqueCreated(h, InUpdateOwned("StablecoinHolding", ev.settleUpdate, ev.seller, e.cantonAmount)) == Ok(c.payment)
    && UniqueCreated(h, InUpdateOwned("TreasuryHolding", ev.settleUpdate, ev.buyer, e.treasuryAmount)) == Ok(c.treasury)
    && c.payment.cid == ev.sellerPayment && c.treasury.cid == ev.buyerTreasury
    && c.settle.result.Some?
    && ev.sellerPayment in ReceiverCids(c.settle.result.value, "paymentResult")
    && ev.buyerTreasury in ReceiverCids(c.settle.result.value, "treasuryResult")
  }

  lemma ReceiptStageExactly(h: CantonHistory, e: Expectation, ev: Evidence, c: Chain, m: MintFacts, a: AllocateFacts)
    requires m.buyer == ev.buyer && a.seller == ev.seller && c.settle.update == ev.settleUpdate
    requires c.payment.cid == ev.sellerPayment && c.treasury.cid == ev.buyerTreasury
    ensures ReceiptStage(h, e, m, a, c.settle) == Ok((c.payment, c.treasury)) <==> ReceiptsAreRecorded(h, e, ev, c)
  {
  }

  /** The two holdings are of the expected amounts, owners and instruments. */
  predicate ReceiptsAreAsAgreed(e: Expectation, ev: Evidence, c: Chain) {
    && SaysAmount(c.payment.arguments, ev.paymentAmount, e.cantonAmount)
    && Says(c.payment.arguments, "owner", ev.seller) && SaysInstrument(c.payment.arguments, ev.instrument)
    && SaysAmount(c.treasury.arguments, ev.treasuryAmount, e.treasuryAmount)
    && Says(c.treasury.arguments, "owner", ev.buyer) && SaysInstrument(c.treasury.arguments, ev.treasuryInstrument)
  }

  lemma ReceivedExactly(e: Expectation, ev: Evidence, c: Chain, m: MintFacts, a: AllocateFacts)
    requires m.buyer == ev.buyer && m.instrument == ev.instrument && a.seller == ev.seller
    ensures CheckReceived(c.payment, c.treasury, e, m, a) == Ok((ev.paymentAmount, ev.treasuryAmount, ev.treasuryInstrument))
      <==> ReceiptsAreAsAgreed(e, ev, c)
  {
    if c.payment.arguments.Some? && c.treasury.arguments.Some? {
      var (payment, treasury) := (c.payment.arguments.value, c.treasury.arguments.value);
      AmountsAreRequired(payment, ev.paymentAmount, e.cantonAmount);
      AmountsAreRequired(treasury, ev.treasuryAmount, e.treasuryAmount);
      InstrumentsAreRequired(payment, ev.instrument);
      InstrumentsAreRequired(treasury, ev.treasuryInstrument);
      TextsAreRequired(payment, "owner", ev.seller);
      TextsAreRequired(treasury, "owner", ev.buyer);
    }
  }

  lemma ReceivedStageAnswers(h: CantonHistory, e: Expectation, m: MintFacts, a: AllocateFacts, s: SettleFacts)
    requires ReceiptStage(h, e, m, a, s.settle) == Ok((s.payment, s.treasury))
    requires CheckReceived(s.payment, s.treasury, e, m, a) == Ok((s.paymentAmount, s.treasuryAmount, s.treasuryInstrument))
    ensures ReceivedStage(h, e, m, a, s.settle) == Ok(s)
  {
  }

  lemma ReceivedStageFails(h: CantonHistory, e: Expectation, m: MintFacts, a: AllocateFacts, settle: ExercisedFact)
    requires var r := ReceiptStage(h, e, m, a, settle); r.Err? || CheckReceived(r.value.0, r.value.1, e, m, a).Err?
    ensures ReceivedStage(h, e, m, a, settle).Err?
  {
  }

  lemma ReceivedStageNeeds(h: CantonHistory, e: Expectation, m: MintFacts, a: AllocateFacts, s: SettleFacts)
    requires ReceivedStage(h, e, m, a, s.settle) == Ok(s)
    ensures ReceiptStage(h, e, m, a, s.settle) == Ok((s.payment, s.treasury))
    ensures CheckReceived(s.payment, s.treasury, e, m, a) == Ok((s.paymentAmount, s.treasuryAmount, s.treasuryInstrument))
  {
    var receipts := ReceiptStage(h, e, m, a, s.settle);
    if receipts.Err? || CheckReceived(receipts.value.0, receipts.value.1, e, m, a).Err? {
      ReceivedStageFails(h, e, m, a, s.settle);
    } else {
      var (payment, treasury) := receipts.value;
      var (paid, delivered, instrument) := CheckReceived(payment, treasury, e, m, a).value;
      ReceivedStageAnswers(h, e, m, a, SettleFacts(s.settle, payment, treasury, paid, delivered, instrument));
    }
  }

  lemma ReceivedStageKeeps(h: CantonHistory, e: Expectation, m: MintFacts, a: AllocateFacts, settle: ExercisedFact)
    ensures ReceivedStage(h, e, m, a, settle).Ok? ==> ReceivedStage(h, e, m, a, settle).value.settle == settle
  {
  }

  lemma SettleStageHas(h: CantonHistory, e: Expectation, m: MintFacts, b: BindFacts, a: AllocateFacts, s: SettleFacts)
    ensures SettleStage(h, e, m, b, a) == Ok(s) <==> SupplyStage(h, b, a) == Ok(s.settle) && ReceivedStage(h, e, m, a, s.settle) == Ok(s)
  {
    if SupplyStage(h, b, a).Ok? {
      ReceivedStageKeeps(h, e, m, a, SupplyStage(h, b, a).value);
    }
  }

  /** The request asks to redeem this payment of the seller to the expected destination. */
  ghost predicate AsksFor(args: Option<LedgerValue>, e: Expectation, ev: Evidence) {
    && Says(args, "holdingCid", ev.sellerPayment)
    && Says(args, "payoutDestination", ev.payoutDestination) && ev.payoutDestination == e.payoutDestination
    && OfAmount(args, e.cantonAmount) && Says(args, "holder", ev.seller) && SaysInstrument(args, ev.instrument)
  }

  /** There is one request for this lock. */
  ghost predicate RequestIsRecorded(h: CantonHistory, e: Expectation, ev: Evidence, c: Chain) {
    UniqueCreated(h, WithLock("RedemptionRequest", e.lockId)) == Ok(c.request) && AsksFor(c.request.arguments, e, ev)
  }

  lemma PayoutIsRequired(request: CreatedFact, e: Expectation, ev: Evidence, m: MintFacts, a: AllocateFacts, s: SettleFacts)
    requires m.instrument == ev.instrument && a.seller == ev.seller && s.payment.cid == ev.sellerPayment
    ensures RequestedPayout(request, e, m, a, s) == Ok(ev.payoutDestination) <==> AsksFor(request.arguments, e, ev)
  {
    if request.arguments.Some? {
      var args := request.arguments.value;
      TextsAreRequired(args, "holdingCid", ev.sellerPayment);
      TextsAreRequired(args, "payoutDestination", ev.payoutDestination);
      SomeAmountIsRequired(args, e.cantonAmount);
      TextsAreRequired(args, "holder", ev.seller);
      InstrumentsAreRequired(args, ev.instrument);
    }
  }

  lemma RequestStageExactly(h: CantonHistory, e: Expectation, ev: Evidence, c: Chain, m: MintFacts, a: AllocateFacts, s: SettleFacts)
    requires m.instrument == ev.instrument && a.seller == ev.seller && s.payment.cid == ev.sellerPayment
    ensures RequestStage(h, e, m, a, s) == Ok((c.request, ev.payoutDestination)) <==> RequestIsRecorded(h, e, ev, c)
  {
    PayoutIsRequired(c.request, e, ev, m, a, s);
  }

  /** One redemption names the request, the minted lock and the binding, and burned the payment. */
  ghost predicate BurnIsRecorded(h: CantonHistory, ev: Evidence, c: Chain) {
    && UniqueExercised(h, NamesRequest("Gateway_Redeem", c.request.cid)) == Ok(c.redeem)
    && c.redeem.update == ev.redeemUpdate
    && Says(c.redeem.argument, "mintedLockCid", c.minted.cid) && Says(c.redeem.argument, "bindingCid", c.binding.cid)
    && Burned(h, ev.sellerPayment, ev.redeemUpdate)
  }

  lemma BurningConsumes(h: CantonHistory, cid: string, update: string)
    requires Burned(h, cid, update)
    ensures ConsumedIn(h, cid, update)
  {
  }

  lemma RedeemIsRequired(redeem: ExercisedFact, c: Chain, m: MintFacts, b: BindFacts)
    requires m.minted == c.minted && b.binding == c.binding
    ensures RequireRedeem(redeem, m, b).Ok? <==>
      Says(redeem.argument, "mintedLockCid", c.minted.cid) && Says(redeem.argument, "bindingCid", c.binding.cid)
  {
    if redeem.argument.Some? {
      TextsAreRequired(redeem.argument.value, "mintedLockCid", c.minted.cid);
      TextsAreRequired(redeem.argument.value, "bindingCid", c.binding.cid);
    }
  }

  lemma RedeemChoiceExactly(h: CantonHistory, ev: Evidence, c: Chain, m: MintFacts, b: BindFacts)
    requires m.minted == c.minted && b.binding == c.binding && c.redeem.update == ev.redeemUpdate
    ensures RedeemChoice(h, m, b, c.request.cid, ev.sellerPayment) == Ok(c.redeem) <==> BurnIsRecorded(h, ev, c)
  {
    RedeemIsRequired(c.redeem, c, m, b);
    if Burned(h, ev.sellerPayment, ev.redeemUpdate) {
      BurningConsumes(h, ev.sellerPayment, ev.redeemUpdate);
    }
  }

  /** That redemption left one redeemed lock for the seller. */
  ghost predicate RedemptionIsRecorded(h: CantonHistory, e: Expectation, ev: Evidence, c: Chain) {
    && UniqueCreated(h, InUpdateWithLock("RedeemedLock", ev.redeemUpdate, e.lockId)) == Ok(c.redeemed)
    && c.redeemed.cid == ev.redeemedLock
    && OfAmount(c.redeemed.arguments, e.cantonAmount) && Says(c.redeemed.arguments, "holder", ev.seller)
  }

  lemma HolderIsRequired(e: Expectation, ev: Evidence, c: Chain, a: AllocateFacts)
    requires a.seller == ev.seller
    ensures RedeemedHolder(c.redeemed, e, a).Ok? <==>
      OfAmount(c.redeemed.arguments, e.cantonAmount) && Says(c.redeemed.arguments, "holder", ev.seller)
  {
    if c.redeemed.arguments.Some? {
      SomeAmountIsRequired(c.redeemed.arguments.value, e.cantonAmount);
      TextsAreRequired(c.redeemed.arguments.value, "holder", ev.seller);
    }
  }

  lemma RedeemStageHas(h: CantonHistory, e: Expectation, m: MintFacts, b: BindFacts, a: AllocateFacts, s: SettleFacts, r: RedeemFacts)
    ensures RedeemStage(h, e, m, b, a, s) == Ok(r) <==>
      && RequestStage(h, e, m, a, s) == Ok((r.request, r.payout))
      && RedeemChoice(h, m, b, r.request.cid, s.payment.cid) == Ok(r.redeem)
      && UniqueCreated(h, InUpdateWithLock("RedeemedLock", r.redeem.update, e.lockId)) == Ok(r.redeemed)
      && RedeemedHolder(r.redeemed, e, a).Ok?
  {
  }
  // The whole chain --------------------------------------------------------------------------------------------------------

  /** Every fact of the chain is recorded, and together they say what the evidence says. */
  ghost predicate Supports(h: CantonHistory, e: Expectation, ev: Evidence, c: Chain) {
    && ev.lockId == e.lockId
    && MintIsRecorded(h, e, ev, c)
    && ReferenceIsRecorded(h, e, ev, c) && BindingIsRecorded(h, e, ev, c)
    && FundingIsRecorded(h, e, ev, c)
    && SupplyIsRecorded(h, ev, c) && ReceiptsAreRecorded(h, e, ev, c) && ReceiptsAreAsAgreed(e, ev, c)
    && RequestIsRecorded(h, e, ev, c) && BurnIsRecorded(h, ev, c) && RedemptionIsRecorded(h, e, ev, c)
  }

  /** The operation has recorded everything the verifier compares. */
  predicate Expects(e: Expectation) {
    e.lockId != "" && e.mintHolding != "" && e.payoutDestination != "" && e.cantonAmount != "" && e.treasuryAmount != ""
  }

  /** The facts behind an accepted trail. */
  function ChainOf(h: CantonHistory, e: Expectation, t: Trail): Chain
    requires CreatedByCid(h, t.mint.holding).Ok? && UniqueExercised(h, InUpdate("Gateway_Mint", t.mint.minted.update)).Ok?
    requires UniqueCreated(h, InUpdateWithLock("BridgeTradeBinding", t.bound.bind.update, e.lockId)).Ok?
    requires CreatedByCid(h, t.funded.allocation).Ok? && CreatedByCid(h, t.funded.locked).Ok?
  {
    Chain(t.mint.minted, CreatedByCid(h, t.mint.holding).value, UniqueExercised(h, InUpdate("Gateway_Mint", t.mint.minted.update)).value,
          t.bound.mintRef, t.bound.bind, UniqueCreated(h, InUpdateWithLock("BridgeTradeBinding", t.bound.bind.update, e.lockId)).value,
          t.bound.binding, t.funded.allocate, CreatedByCid(h, t.funded.allocation).value, CreatedByCid(h, t.funded.locked).value,
          t.settled.settle, t.settled.payment, t.settled.treasury, t.redeemed.request, t.redeemed.redeem, t.redeemed.redeemed)
  }

  lemma StagesHave(h: CantonHistory, e: Expectation, t: Trail)
    requires MintStage(h, e) == Ok(t.mint) && BindStage(h, e, t.mint) == Ok(t.bound) && AllocateStage(h, e, t.mint) == Ok(t.funded)
    ensures CreatedByCid(h, t.mint.holding).Ok? && UniqueExercised(h, InUpdate("Gateway_Mint", t.mint.minted.update)).Ok?
    ensures UniqueCreated(h, InUpdateWithLock("BridgeTradeBinding", t.bound.bind.update, e.lockId)).Ok?
    ensures CreatedByCid(h, t.funded.allocation).Ok? && CreatedByCid(h, t.funded.locked).Ok?
  {
    MintStageHas(h, e, t.mint);
    BindStageHas(h, e, t.mint, t.bound);
    RefStageHas(h, e, t.mint);
    BoundStageHas(h, e, t.mint, t.bound.bind.update);
    AllocateStageHas(h, e, t.mint, t.funded);
  }

  lemma MintStageHas(h: CantonHistory, e: Expectation, m: MintFacts)
    requires MintStage(h, e) == Ok(m)
    ensures CreatedByCid(h, m.holding).Ok?
  {
  }

  lemma RefStageHas(h: CantonHistory, e: Expectation, m: MintFacts)
    requires RefStage(h, e, m).Ok?
    ensures UniqueExercised(h, InUpdate("Gateway_Mint", m.minted.update)).Ok?
  {
  }

  lemma BoundStageHas(h: CantonHistory, e: Expectation, m: MintFacts, update: string)
    requires BoundStage(h, e, m, update).Ok?
    ensures UniqueCreated(h, InUpdateWithLock("BridgeTradeBinding", update, e.lockId)).Ok?
  {
  }

  lemma OpeningNeeds(h: CantonHistory, e: Expectation, ev: Evidence, c: Chain, t: Trail)
    requires MintStage(h, e) == Ok(t.mint) && BindStage(h, e, t.mint) == Ok(t.bound) && AllocateStage(h, e, t.mint) == Ok(t.funded)
    requires CreatedByCid(h, t.mint.holding).Ok? && UniqueExercised(h, InUpdate("Gateway_Mint", t.mint.minted.update)).Ok?
    requires UniqueCreated(h, InUpdateWithLock("BridgeTradeBinding", t.bound.bind.update, e.lockId)).Ok?
    requires CreatedByCid(h, t.funded.allocation).Ok? && CreatedByCid(h, t.funded.locked).Ok?
    requires c == ChainOf(h, e, t)
    requires ev.mintHolding == t.mint.holding && ev.buyer == t.mint.buyer && ev.instrument == t.mint.instrument && ev.tradeCid == t.bound.trade
    requires ev.allocateUpdate == t.funded.allocate.update && ev.paymentAllocation == t.funded.allocation
    requires ev.paymentLocked == t.funded.locked && ev.seller == t.funded.seller
    ensures MintIsRecorded(h, e, ev, c) && ReferenceIsRecorded(h, e, ev, c) && BindingIsRecorded(h, e, ev, c) && FundingIsRecorded(h, e, ev, c)
  {
    MintStageNeeds(h, e, ev, c, t.mint);
    BindStageHas(h, e, t.mint, t.bound);
    RefStageNeeds(h, e, ev, c, t.mint);
    BoundStageNeeds(h, e, ev, c, t.mint);
    AllocateStageNeeds(h, e, ev, c, t.mint, t.funded);
  }
  lemma SettlingNeeds(h: CantonHistory, e: Expectation, ev: Evidence, c: Chain, m: MintFacts, b: BindFacts, a: AllocateFacts, s: SettleFacts)
    requires SettleStage(h, e, m, b, a) == Ok(s)
    requires m.buyer == ev.buyer && m.instrument == ev.instrument && b.trade == ev.tradeCid
    requires a.allocation == ev.paymentAllocation && a.locked == ev.paymentLocked && a.seller == ev.seller
    requires c.settle == s.settle && c.payment == s.payment && c.treasury == s.treasury
    requires ev.settleUpdate == s.settle.update && ev.sellerPayment == s.payment.cid && ev.buyerTreasury == s.treasury.cid
    requires ev.paymentAmount == s.paymentAmount && ev.treasuryAmount == s.treasuryAmount && ev.treasuryInstrument == s.treasuryInstrument
    ensures SupplyIsRecorded(h, ev, c) && ReceiptsAreRecorded(h, e, ev, c) && ReceiptsAreAsAgreed(e, ev, c)
  {
    SettleStageHas(h, e, m, b, a, s);
    ReceivedStageNeeds(h, e, m, a, s);
    SupplyStageExactly(h, ev, c, b, a);
    ReceiptStageExactly(h, e, ev, c, m, a);
    ReceivedExactly(e, ev, c, m, a);
  }

  lemma SettlingAnswers(h: CantonHistory, e: Expectation, ev: Evidence, c: Chain, m: MintFacts, b: BindFacts, a: AllocateFacts, s: SettleFacts)
    requires SupplyIsRecorded(h, ev, c) && ReceiptsAreRecorded(h, e, ev, c) && ReceiptsAreAsAgreed(e, ev, c)
    requires m.buyer == ev.buyer && m.instrument == ev.instrument && b.trade == ev.tradeCid
    requires a.allocation == ev.paymentAllocation && a.locked == ev.paymentLocked && a.seller == ev.seller
    requires s == SettleFacts(c.settle, c.payment, c.treasury, ev.paymentAmount, ev.treasuryAmount, ev.treasuryInstrument)
    ensures SettleStage(h, e, m, b, a) == Ok(s)
  {
    SupplyStageExactly(h, ev, c, b, a);
    ReceiptStageExactly(h, e, ev, c, m, a);
    ReceivedExactly(e, ev, c, m, a);
    ReceivedStageAnswers(h, e, m, a, s);
    SettleStageHas(h, e, m, b, a, s);
  }

  lemma RedeemingNeeds(h: CantonHistory, e: Expectation, ev: Evidence, c: Chain, m: MintFacts, b: BindFacts, a: AllocateFacts,
                       s: SettleFacts, r: RedeemFacts)
    requires RedeemStage(h, e, m, b, a, s) == Ok(r)
    requires m.minted == c.minted && m.instrument == ev.instrument && b.binding == c.binding && a.seller == ev.seller
    requires s.payment.cid == ev.sellerPayment
    requires c.request == r.request && c.redeem == r.redeem && c.redeemed == r.redeemed
    requires ev.payoutDestination == r.payout && ev.redeemUpdate == r.redeem.update && ev.redeemedLock == r.redeemed.cid
    ensures RequestIsRecorded(h, e, ev, c) && BurnIsRecorded(h, ev, c) && RedemptionIsRecorded(h, e, ev, c)
  {
    RedeemStageHas(h, e, m, b, a, s, r);
    RequestStageExactly(h, e, ev, c, m, a, s);
    RedeemChoiceExactly(h, ev, c, m, b);
    HolderIsRequired(e, ev, c, a);
  }

  lemma RedeemingAnswers(h: CantonHistory, e: Expectation, ev: Evidence, c: Chain, m: MintFacts, b: BindFacts, a: AllocateFacts,
                         s: SettleFacts)
    requires RequestIsRecorded(h, e, ev, c) && BurnIsRecorded(h, ev, c) && RedemptionIsRecorded(h, e, ev, c)
    requires m.minted == c.minted && m.instrument == ev.instrument && b.binding == c.binding && a.seller == ev.seller
    requires s.payment.cid == ev.sellerPayment
    ensures RedeemStage(h, e, m, b, a, s) == Ok(RedeemFacts(c.request, c.redeem, c.redeemed, ev.payoutDestination))
  {
    RequestStageExactly(h, e, ev, c, m, a, s);
    RedeemChoiceExactly(h, ev, c, m, b);
    HolderIsRequired(e, ev, c, a);
    RedeemStageHas(h, e, m, b, a, s, RedeemFacts(c.request, c.redeem, c.redeemed, ev.payoutDestination));
  }

  lemma StagesSupport(h: CantonHistory, e: Expectation, t: Trail) returns (c: Chain)
    requires MintStage(h, e) == Ok(t.mint) && BindStage(h, e, t.mint) == Ok(t.bound) && AllocateStage(h, e, t.mint) == Ok(t.funded)
    requires SettleStage(h, e, t.mint, t.bound, t.funded) == Ok(t.settled)
    requires RedeemStage(h, e, t.mint, t.bound, t.funded, t.settled) == Ok(t.redeemed)
    ensures Supports(h, e, EvidenceOf(e, t), c)
  {
    var ev := EvidenceOf(e, t);
    StagesHave(h, e, t);
    c := ChainOf(h, e, t);
    OpeningNeeds(h, e, ev, c, t);
    SettlingNeeds(h, e, ev, c, t.mint, t.bound, t.funded, t.settled);
    RedeemingNeeds(h, e, ev, c, t.mint, t.bound, t.funded, t.settled, t.redeemed);
  }

  lemma EvidenceIsSupported(h: CantonHistory, e: Expectation, ev: Evidence) returns (c: Chain)
    requires ConnectCantonHistory(h, e) == Ok(ev)
    ensures Expects(e) && Supports(h, e, ev, c)
  {
    var t := Connect(h, e).value;
    ConnectParts(h, e, t);
    OpeningStages(h, e, t.mint, t.bound, t.funded);
    ClosingStages(h, e, t);
    c := StagesSupport(h, e, t);
  }

  /** The trail that a chain stands for. */
  function TrailOf(ev: Evidence, c: Chain): Trail {
    Trail(MintFacts(c.minted, ev.mintHolding, ev.buyer, ev.instrument.admin, ev.instrument),
          BindFacts(c.mintRef, c.bind, c.binding, ev.tradeCid),
          AllocateFacts(c.allocate, ev.paymentAllocation, ev.paymentLocked, ev.seller),
          SettleFacts(c.settle, c.payment, c.treasury, ev.paymentAmount, ev.treasuryAmount, ev.treasuryInstrument),
          RedeemFacts(c.request, c.redeem, c.redeemed, ev.payoutDestination))
  }

  lemma OpeningAnswers(h: CantonHistory, e: Expectation, ev: Evidence, c: Chain, t: Trail)
    requires MintIsRecorded(h, e, ev, c) && ReferenceIsRecorded(h, e, ev, c) && BindingIsRecorded(h, e, ev, c) && FundingIsRecorded(h, e, ev, c)
    requires t == TrailOf(ev, c)
    ensures MintStage(h, e) == Ok(t.mint) && BindStage(h, e, t.mint) == Ok(t.bound) && AllocateStage(h, e, t.mint) == Ok(t.funded)
  {
    MintStageAnswers(h, e, ev, c);
    RefStageAnswers(h, e, ev, c, t.mint);
    BoundStageAnswers(h, e, ev, c, t.mint);
    BindStageHas(h, e, t.mint, t.bound);
    AllocateStageAnswers(h, e, ev, c, t.mint);
  }

  lemma TrailIsAnswered(h: CantonHistory, e: Expectation, ev: Evidence, c: Chain)
    requires Supports(h, e, ev, c)
    ensures Opening(h, e) == Ok((TrailOf(ev, c).mint, TrailOf(ev, c).bound, TrailOf(ev, c).funded))
    ensures Closing(h, e, TrailOf(ev, c).mint, TrailOf(ev, c).bound, TrailOf(ev, c).funded)
      == Ok((TrailOf(ev, c).settled, TrailOf(ev, c).redeemed))
  {
    var t := TrailOf(ev, c);
    OpeningAnswers(h, e, ev, c, t);
    SettlingAnswers(h, e, ev, c, t.mint, t.bound, t.funded, t.settled);
    RedeemingAnswers(h, e, ev, c, t.mint, t.bound, t.funded, t.settled);
    OpeningStages(h, e, t.mint, t.bound, t.funded);
    ClosingStages(h, e, t);
  }

  lemma EvidenceMatchesItsChain(h: CantonHistory, e: Expectation, ev: Evidence, c: Chain)
    requires Supports(h, e, ev, c)
    ensures EvidenceOf(e, TrailOf(ev, c)) == ev
  {
  }

  lemma SupportedEvidenceIsGiven(h: CantonHistory, e: Expectation, ev: Evidence, c: Chain)
    requires Expects(e) && Supports(h, e, ev, c)
    ensures ConnectCantonHistory(h, e) == Ok(ev)
  {
    TrailIsAnswered(h, e, ev, c);
    EvidenceMatchesItsChain(h, e, ev, c);
    OpenAndCloseConnects(h, e, TrailOf(ev, c));
  }

  lemma OpenAndCloseConnects(h: CantonHistory, e: Expectation, t: Trail)
    requires Expects(e) && Opening(h, e) == Ok((t.mint, t.bound, t.funded))
    requires Closing(h, e, t.mint, t.bound, t.funded) == Ok((t.settled, t.redeemed))
    ensures ConnectCantonHistory(h, e) == Ok(EvidenceOf(e, t))
  {
  }

  /** Evidence is given exactly when a chain of recorded facts says, field by field, what it says. */
  lemma ConnectsExactlyWhenSupported(h: CantonHistory, e: Expectation, ev: Evidence)
    ensures ConnectCantonHistory(h, e) == Ok(ev) <==> Expects(e) && exists c :: Supports(h, e, ev, c)
  {
    if ConnectCantonHistory(h, e) == Ok(ev) {
      var c := EvidenceIsSupported(h, e, ev);
    }
    if Expects(e) {
      forall c | Supports(h, e, ev, c) ensures ConnectCantonHistory(h, e) == Ok(ev) {
        SupportedEvidenceIsGiven(h, e, ev, c);
      }
    }
  }
  // In plain facts -----------------------------------------------------------------------------------------------------------

  predicate IsCreated(h: CantonHistory, fact: CreatedFact, template: string, cid: string, update: string) {
    fact in h.created && TemplateEnds(fact, template) && fact.cid == cid && fact.update == update
  }

  predicate IsExercised(h: CantonHistory, fact: ExercisedFact, choice: string, update: string) {
    fact in h.exercised && fact.choice == choice && fact.update == update
  }

  /** A minted lock of this lock names the buyer's holding and its registry. */
  ghost predicate HasMint(h: CantonHistory, e: Expectation, ev: Evidence) {
    && (exists fact :: fact in h.created && TemplateEnds(fact, "MintedLock") && FieldText(fact.arguments, "lockId") == Some(e.lockId)
          && Says(fact.arguments, "holdingCid", ev.mintHolding) && Says(fact.arguments, "beneficiary", ev.buyer)
          && Says(fact.arguments, "cashRegistry", ev.instrument.admin) && OfAmount(fact.arguments, e.cantonAmount))
    && (exists fact :: fact in h.created && fact.cid == ev.mintHolding && TemplateEnds(fact, "StablecoinHolding")
          && OwnedCash(fact, ev.buyer, e.cantonAmount, ev.instrument))
  }

  /** A binding of this lock names the minted holding's trade, and no binding of this lock names another holding or trade. */
  ghost predicate HasBinding(h: CantonHistory, e: Expectation, ev: Evidence) {
    && (exists fact :: fact in h.created && BindsLock(fact, e.lockId) && Says(fact.arguments, "tradeCid", ev.tradeCid))
    && (forall fact :: fact in h.created && BindsLock(fact, e.lockId) ==>
          && FieldText(fact.arguments, "mintHoldingCid") in {None, Some(ev.mintHolding)}
          && FieldText(fact.arguments, "tradeCid") in {None, Some(ev.tradeCid)})
  }

  predicate BindsLock(fact: CreatedFact, lock: string) {
    TemplateEnds(fact, "BridgeTradeBinding") && FieldText(fact.arguments, "lockId") == Some(lock)
  }

  /** In one update the minted holding went, the payment allocation and its locked holding came, and the seller is its receiver. */
  ghost predicate HasFunding(h: CantonHistory, e: Expectation, ev: Evidence) {
    && ConsumedIn(h, ev.mintHolding, ev.allocateUpdate)
    && (exists fact :: IsExercised(h, fact, "AllocationFactory_Allocate", ev.allocateUpdate)
          && fact.argument.Some? && ContainsCid(fact.argument.value, ev.mintHolding)
          && PaysSeller(fact.argument, e, ev) && Says(fact.result, "allocationCid", ev.paymentAllocation))
    && (exists fact :: fact in h.created && fact.cid == ev.paymentAllocation && fact.update == ev.allocateUpdate
          && SaysLocked(fact.arguments, ev.paymentLocked))
    && (exists fact :: fact in h.created && fact.cid == ev.paymentLocked && fact.update == ev.allocateUpdate
          && OwnedCash(fact, ev.buyer, e.cantonAmount, ev.instrument))
  }

  /** The trade was settled with the payment allocation, which it consumed together with its locked holding. */
  ghost predicate HasSettlement(h: CantonHistory, ev: Evidence) {
    && ConsumedIn(h, ev.paymentAllocation, ev.settleUpdate) && ConsumedIn(h, ev.paymentLocked, ev.settleUpdate)
    && (exists fact :: IsExercised(h, fact, "DvpTrade_Settle", ev.settleUpdate) && fact.cid == ev.tradeCid
          && fact.argument.Some? && AllocationForLeg(fact.argument.value, "stablecoin-payment") == Some(ev.paymentAllocation)
          && fact.result.Some? && ev.sellerPayment in ReceiverCids(fact.result.value, "paymentResult")
          && ev.buyerTreasury in ReceiverCids(fact.result.value, "treasuryResult"))
  }

  /** That settlement created the seller's payment and the buyer's treasury holding. */
  ghost predicate HasReceipts(h: CantonHistory, e: Expectation, ev: Evidence) {
    && (exists fact :: IsCreated(h, fact, "StablecoinHolding", ev.sellerPayment, ev.settleUpdate)
          && Says(fact.arguments, "owner", ev.seller) && SaysAmount(fact.arguments, ev.paymentAmount, e.cantonAmount)
          && SaysInstrument(fact.arguments, ev.instrument))
    && (exists fact :: IsCreated(h, fact, "TreasuryHolding", ev.buyerTreasury, ev.settleUpdate)
          && Says(fact.arguments, "owner", ev.buyer) && SaysAmount(fact.arguments, ev.treasuryAmount, e.treasuryAmount)
          && SaysInstrument(fact.arguments, ev.treasuryInstrument))
  }

  /** The payment was requested to be redeemed to the expected destination, and burned in the update that left the redeemed lock. */
  ghost predicate HasRedemption(h: CantonHistory, e: Expectation, ev: Evidence) {
    && (exists fact :: fact in h.exercised && fact.choice == "Burn" && fact.consuming && fact.cid == ev.sellerPayment
          && fact.update == ev.redeemUpdate)
    && (exists fact :: fact in h.created && TemplateEnds(fact, "RedemptionRequest") && FieldText(fact.arguments, "lockId") == Some(e.lockId)
          && AsksFor(fact.arguments, e, ev))
    && (exists fact :: IsExercised(h, fact, "Gateway_Redeem", ev.redeemUpdate))
    && (exists fact :: IsCreated(h, fact, "RedeemedLock", ev.redeemedLock, ev.redeemUpdate)
          && FieldText(fact.arguments, "lockId") == Some(e.lockId) && Says(fact.arguments, "holder", ev.seller)
          && OfAmount(fact.arguments, e.cantonAmount))
    && ev.payoutDestination == e.payoutDestination
  }

  lemma CreatedAnswerIsRecorded(h: CantonHistory, q: CreatedQuery, fact: CreatedFact)
    requires UniqueCreated(h, q) == Ok(fact)
    ensures fact in h.created && Hits(q, fact)
  {
    UniqueCreatedExactly(h, q, fact);
  }

  lemma CidAnswerIsRecorded(h: CantonHistory, cid: string, fact: CreatedFact)
    requires CreatedByCid(h, cid) == Ok(fact)
    ensures fact in h.created && fact.cid == cid
  {
    CreatedByCidExactly(h, cid, fact);
  }

  lemma ExercisedAnswerIsRecorded(h: CantonHistory, q: ExercisedQuery, fact: ExercisedFact)
    requires UniqueExercised(h, q) == Ok(fact)
    ensures fact in h.exercised && HitsExercise(q, fact)
  {
    UniqueExercisedExactly(h, q, fact);
  }

  lemma SelectedBindings(h: CantonHistory, lock: string, fact: CreatedFact)
    ensures fact in Created(h.created, WithLock("BridgeTradeBinding", lock)) <==> fact in h.created && BindsLock(fact, lock)
  {
    CreatedMembers(h.created, WithLock("BridgeTradeBinding", lock), fact);
  }

  lemma {:induction false} CreatedMembers(facts: seq<CreatedFact>, q: CreatedQuery, fact: CreatedFact)
    ensures fact in Created(facts, q) <==> fact in facts && Hits(q, fact)
    decreases |facts|
  {
    if facts != [] {
      CreatedMembers(facts[1..], q, fact);
      assert facts == [facts[0]] + facts[1..];
    }
  }

  lemma BindingAgrees(h: CantonHistory, e: Expectation, ev: Evidence, c: Chain)
    requires BindingIsRecorded(h, e, ev, c)
    ensures HasBinding(h, e, ev)
  {
    var found := Created(h.created, WithLock("BridgeTradeBinding", e.lockId));
    BindingOfExactly(found, ev.mintHolding, c.binding);
    forall fact ensures fact in found <==> fact in h.created && BindsLock(fact, e.lockId) {
      SelectedBindings(h, e.lockId, fact);
    }
    assert c.binding in found;
    var trade :| AgreeOn(found, "tradeCid", trade);
  }

  lemma MintIsInFacts(h: CantonHistory, e: Expectation, ev: Evidence, c: Chain)
    requires MintIsRecorded(h, e, ev, c)
    ensures HasMint(h, e, ev)
  {
    CreatedAnswerIsRecorded(h, WithLock("MintedLock", e.lockId), c.minted);
    CidAnswerIsRecorded(h, ev.mintHolding, c.holding);
  }

  lemma FundingIsInFacts(h: CantonHistory, e: Expectation, ev: Evidence, c: Chain)
    requires FundingIsRecorded(h, e, ev, c)
    ensures HasFunding(h, e, ev)
  {
    ExercisedAnswerIsRecorded(h, Containing("AllocationFactory_Allocate", ev.mintHolding), c.allocate);
    CidAnswerIsRecorded(h, ev.paymentAllocation, c.allocation);
    CidAnswerIsRecorded(h, ev.paymentLocked, c.locked);
    assert IsExercised(h, c.allocate, "AllocationFactory_Allocate", ev.allocateUpdate);
  }

  lemma SettlementIsInFacts(h: CantonHistory, e: Expectation, ev: Evidence, c: Chain)
    requires SupplyIsRecorded(h, ev, c) && ReceiptsAreRecorded(h, e, ev, c)
    ensures HasSettlement(h, ev)
  {
    ExercisedAnswerIsRecorded(h, SuppliesPayment("DvpTrade_Settle", ev.paymentAllocation), c.settle);
    assert IsExercised(h, c.settle, "DvpTrade_Settle", ev.settleUpdate);
  }

  lemma ReceiptsAreInFacts(h: CantonHistory, e: Expectation, ev: Evidence, c: Chain)
    requires ReceiptsAreRecorded(h, e, ev, c) && ReceiptsAreAsAgreed(e, ev, c)
    ensures HasReceipts(h, e, ev)
  {
    CreatedAnswerIsRecorded(h, InUpdateOwned("StablecoinHolding", ev.settleUpdate, ev.seller, e.cantonAmount), c.payment);
    CreatedAnswerIsRecorded(h, InUpdateOwned("TreasuryHolding", ev.settleUpdate, ev.buyer, e.treasuryAmount), c.treasury);
    assert IsCreated(h, c.payment, "StablecoinHolding", ev.sellerPayment, ev.settleUpdate);
    assert IsCreated(h, c.treasury, "TreasuryHolding", ev.buyerTreasury, ev.settleUpdate);
  }

  lemma RedemptionIsInFacts(h: CantonHistory, e: Expectation, ev: Evidence, c: Chain)
    requires RequestIsRecorded(h, e, ev, c) && BurnIsRecorded(h, ev, c) && RedemptionIsRecorded(h, e, ev, c)
    ensures HasRedemption(h, e, ev)
  {
    CreatedAnswerIsRecorded(h, WithLock("RedemptionRequest", e.lockId), c.request);
    ExercisedAnswerIsRecorded(h, NamesRequest("Gateway_Redeem", c.request.cid), c.redeem);
    CreatedAnswerIsRecorded(h, InUpdateWithLock("RedeemedLock", ev.redeemUpdate, e.lockId), c.redeemed);
    assert IsExercised(h, c.redeem, "Gateway_Redeem", ev.redeemUpdate);
    assert IsCreated(h, c.redeemed, "RedeemedLock", ev.redeemedLock, ev.redeemUpdate);
  }

  /** Whatever the verifier answers is in the history, every field of it. */
  lemma AcceptedHistoryHas(h: CantonHistory, e: Expectation, ev: Evidence)
    requires ConnectCantonHistory(h, e) == Ok(ev)
    ensures ev.lockId == e.lockId && ev.mintHolding == e.mintHolding
    ensures HasMint(h, e, ev) && HasBinding(h, e, ev) && HasFunding(h, e, ev)
    ensures HasSettlement(h, ev) && HasReceipts(h, e, ev) && HasRedemption(h, e, ev)
  {
    var c := EvidenceIsSupported(h, e, ev);
    MintIsInFacts(h, e, ev, c);
    BindingAgrees(h, e, ev, c);
    FundingIsInFacts(h, e, ev, c);
    SettlementIsInFacts(h, e, ev, c);
    ReceiptsAreInFacts(h, e, ev, c);
    RedemptionIsInFacts(h, e, ev, c);
  }
}

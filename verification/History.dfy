/** The Canton history verifier: one connected chain of update facts from a mint to its redemption. */
module History {
  import opened Outcomes
  import opened LedgerValues
  import Units

  datatype CreatedFact = CreatedFact(template: string, cid: string, update: string, arguments: Option<LedgerValue>)

  datatype ExercisedFact = ExercisedFact(
    template: string, choice: string, cid: string, consuming: bool, update: string, argument: Option<LedgerValue>,
    result: Option<LedgerValue>)

  datatype ArchivedFact = ArchivedFact(template: string, cid: string, update: string)

  datatype CantonHistory = CantonHistory(
    created: seq<CreatedFact>, exercised: seq<ExercisedFact>, archived: seq<ArchivedFact>)

  datatype Expectation = Expectation(
    lockId: string, cantonAmount: string, treasuryAmount: string, payoutDestination: string, mintHolding: string)

  /** The kinds of refusal that the caller tells apart. */
  datatype Refusal = Missing | Mismatch | NotConnected | AnotherOperation

  // Queries over facts -----------------------------------------------------------------------------------

  predicate TemplateEnds(fact: CreatedFact, suffix: string) {
    |suffix| <= |fact.template| && fact.template[|fact.template| - |suffix|..] == suffix
  }

  /** The selections of created facts that the verifier makes. */
  datatype CreatedQuery =
    | WithCid(cid: string)
    | WithLock(template: string, lock: string)
    | InUpdateWithLock(template: string, update: string, lock: string)
    | InUpdateOwned(template: string, update: string, owner: string, amount: string)

  predicate Hits(q: CreatedQuery, fact: CreatedFact) {
    match q
    case WithCid(cid) => fact.cid == cid
    case WithLock(template, lock) => TemplateEnds(fact, template) && FieldText(fact.arguments, "lockId") == Some(lock)
    case InUpdateWithLock(template, update, lock) =>
      TemplateEnds(fact, template) && fact.update == update && FieldText(fact.arguments, "lockId") == Some(lock)
    case InUpdateOwned(template, update, owner, amount) =>
      && TemplateEnds(fact, template)
      && fact.update == update
      && FieldText(fact.arguments, "owner") == Some(owner)
      && match FieldNumeric(fact.arguments, "amount")
         case Some(found) => Units.AmountsMatch(found, amount)
         case None => false
  }

  datatype ExercisedQuery =
    | InUpdate(choice: string, update: string)
    | Containing(choice: string, cid: string)
    | Consuming(choice: string, cid: string)
    | SuppliesPayment(choice: string, allocation: string)
    | NamesRequest(choice: string, request: string)

  predicate HitsExercise(q: ExercisedQuery, fact: ExercisedFact) {
    match q
    case InUpdate(choice, update) => fact.choice == choice && fact.update == update
    case Containing(choice, cid) =>
      fact.choice == choice && fact.argument.Some? && ContainsCid(fact.argument.value, cid)
    case Consuming(choice, cid) => fact.choice == choice && fact.consuming && fact.cid == cid
    case SuppliesPayment(choice, allocation) =>
      && fact.choice == choice
      && fact.argument.Some?
      && AllocationForLeg(fact.argument.value, "stablecoin-payment") == Some(allocation)
    case NamesRequest(choice, request) => fact.choice == choice && FieldText(fact.argument, "requestCid") == Some(request)
  }

  function Created(facts: seq<CreatedFact>, q: CreatedQuery): seq<CreatedFact> {
    if facts == [] then [] else (if Hits(q, facts[0]) then [facts[0]] else []) + Created(facts[1..], q)
  }

  function Exercised(facts: seq<ExercisedFact>, q: ExercisedQuery): seq<ExercisedFact> {
    if facts == [] then [] else (if HitsExercise(q, facts[0]) then [facts[0]] else []) + Exercised(facts[1..], q)
  }

  /** A stable sort that puts the facts with arguments first. */
  function ArgumentsFirst(facts: seq<CreatedFact>): seq<CreatedFact> {
    WithArguments(facts, true) + WithArguments(facts, false)
  }

  function WithArguments(facts: seq<CreatedFact>, present: bool): seq<CreatedFact> {
    if facts == [] then
      []
    else
      (if facts[0].arguments.Some? == present then [facts[0]] else []) + WithArguments(facts[1..], present)
  }

  /** `dedup_by`: drops a fact that repeats the identity of the one kept before it. */
  function DedupCreated(facts: seq<CreatedFact>): (r: seq<CreatedFact>)
    ensures facts != [] ==> r != []
    decreases |facts|
  {
    if |facts| < 2 then
      facts
    else
      var kept := DedupCreated(facts[..|facts| - 1]);
      var (last, next) := (kept[|kept| - 1], facts[|facts| - 1]);
      if next.cid == last.cid && next.update == last.update then kept else kept + [next]
  }

  function UniqueCreated(h: CantonHistory, q: CreatedQuery): Result<CreatedFact, Refusal> {
    var found := DedupCreated(ArgumentsFirst(Created(h.created, q)));
    if found == [] then Err(Missing)
    else if |found| == 1 then Ok(found[0])
    else Err(AnotherOperation)
  }

  function WithParts(facts: seq<ExercisedFact>, argument: bool, result: bool): seq<ExercisedFact> {
    if facts == [] then
      []
    else
      (if facts[0].argument.Some? == argument && facts[0].result.Some? == result then [facts[0]] else [])
      + WithParts(facts[1..], argument, result)
  }

  function PartsFirst(facts: seq<ExercisedFact>): seq<ExercisedFact> {
    WithParts(facts, true, true) + WithParts(facts, true, false) + WithParts(facts, false, true) + WithParts(facts, false, false)
  }

  function DedupExercised(facts: seq<ExercisedFact>): (r: seq<ExercisedFact>)
    ensures facts != [] ==> r != []
    decreases |facts|
  {
    if |facts| < 2 then
      facts
    else
      var kept := DedupExercised(facts[..|facts| - 1]);
      var (last, next) := (kept[|kept| - 1], facts[|facts| - 1]);
      if next.cid == last.cid && next.update == last.update && next.choice == last.choice then kept else kept + [next]
  }

  function UniqueExercised(h: CantonHistory, q: ExercisedQuery): Result<ExercisedFact, Refusal> {
    var found := DedupExercised(PartsFirst(Exercised(h.exercised, q)));
    if found == [] then Err(Missing)
    else if |found| == 1 then Ok(found[0])
    else Err(AnotherOperation)
  }

  /** `max_by_key` on a flag: the last fact that has it, else the last fact. */
  function LastWithArguments(facts: seq<CreatedFact>): Option<CreatedFact> {
    var with := WithArguments(facts, true);
    if with != [] then Some(with[|with| - 1])
    else if facts != [] then Some(facts[|facts| - 1])
    else None
  }

  function CreatedByCid(h: CantonHistory, cid: string): Result<CreatedFact, Refusal> {
    match LastWithArguments(Created(h.created, WithCid(cid)))
    case Some(fact) => Ok(fact)
    case None => Err(Missing)
  }

  predicate ConsumedIn(h: CantonHistory, cid: string, update: string) {
    || (exists fact :: fact in h.archived && fact.cid == cid && fact.update == update)
    || (exists fact :: fact in h.exercised && fact.consuming && fact.cid == cid && fact.update == update)
  }

  /** Renames the refusal of a query that found nothing. */
  function NotFoundIs<T>(refusal: Refusal, r: Result<T, Refusal>): Result<T, Refusal> {
    match r
    case Ok(_) => r
    case Err(e) => if e == Missing then Err(refusal) else r
  }

  // Required fields ---------------------------------------------------------------------------------------

  function RequireText(value: LedgerValue, name: string): Result<string, Refusal> {
    match FieldText(Some(value), name)
    case Some(text) => if text == "" then Err(Missing) else Ok(text)
    case None => Err(Missing)
  }

  function RequireNumeric(value: LedgerValue, name: string): Result<string, Refusal> {
    match FieldNumeric(Some(value), name)
    case Some(number) => if number == "" then Err(Missing) else Ok(number)
    case None => Err(Missing)
  }

  datatype Instrument = Instrument(id: string, admin: string)

  function RequireInstrument(value: LedgerValue): Result<Instrument, Refusal> {
    var instrument := match Field(value, "instrumentId") { case Some(found) => found case None => value };
    var id :- RequireText(instrument, "id");
    var admin :- RequireText(instrument, "admin");
    Ok(Instrument(id, admin))
  }

  function Present<T>(value: Option<T>): Result<T, Refusal> {
    match value
    case Some(v) => Ok(v)
    case None => Err(Missing)
  }

  function RequireAmount(value: LedgerValue, expected: string): Result<string, Refusal> {
    var amount :- RequireNumeric(value, "amount");
    :- Need(Units.AmountsMatch(amount, expected), Mismatch);
    Ok(amount)
  }

  // The stages ----------------------------------------------------------------------------------------------

  datatype MintFacts = MintFacts(
    minted: CreatedFact, holding: string, buyer: string, cashRegistry: string, instrument: Instrument)

  /** Another lock claims the expected holding. */
  predicate ClaimedByAnotherLock(h: CantonHistory, e: Expectation) {
    exists fact ::
      && fact in h.created
      && ClaimsFor(fact, e)
  }

  predicate ClaimsFor(fact: CreatedFact, e: Expectation) {
    && TemplateEnds(fact, "MintedLock")
    && FieldText(fact.arguments, "holdingCid") == Some(e.mintHolding)
    && FieldText(fact.arguments, "lockId").Some?
    && FieldText(fact.arguments, "lockId").value != e.lockId
  }

  /** The holding that a minted lock names must be the expected one. */
  function MintedHolding(minted: CreatedFact, e: Expectation): Result<string, Refusal> {
    var args :- Present(minted.arguments);
    var holding :- RequireText(args, "holdingCid");
    :- Need(holding == e.mintHolding, AnotherOperation);
    Ok(holding)
  }

  /** The buyer and the cash registry that a minted lock names. */
  function MintedParties(minted: CreatedFact, e: Expectation): Result<(string, string), Refusal> {
    var args :- Present(minted.arguments);
    var _ :- RequireAmount(args, e.cantonAmount);
    var buyer :- RequireText(args, "beneficiary");
    var cashRegistry :- RequireText(args, "cashRegistry");
    Ok((buyer, cashRegistry))
  }

  /** A holding contract of that owner and amount; answers its instrument. */
  function OwnedInstrument(contract: CreatedFact, owner: string, amount: string): Result<Instrument, Refusal> {
    var args :- Present(contract.arguments);
    var found :- RequireText(args, "owner");
    :- Need(found == owner, Mismatch);
    var _ :- RequireAmount(args, amount);
    RequireInstrument(args)
  }

  /** The minted lock of the operation and the holding it names, which no other lock claims. */
  function ClaimStage(h: CantonHistory, e: Expectation): Result<(CreatedFact, string), Refusal> {
    var minted :- UniqueCreated(h, WithLock("MintedLock", e.lockId));
    var holding :- MintedHolding(minted, e);
    :- Need(!ClaimedByAnotherLock(h, e), AnotherOperation);
    Ok((minted, holding))
  }

  /** The instrument of the minted holding, which the beneficiary must own and the cash registry administer. */
  function MintedInstrument(contract: CreatedFact, e: Expectation, parties: (string, string)): Result<Instrument, Refusal> {
    if !TemplateEnds(contract, "StablecoinHolding") then
      Err(Missing)
    else
      var instrument :- OwnedInstrument(contract, parties.0, e.cantonAmount);
      :- Need(instrument.admin == parties.1, Mismatch);
      Ok(instrument)
  }

  function MintStage(h: CantonHistory, e: Expectation): Result<MintFacts, Refusal> {
    var (minted, holding) :- ClaimStage(h, e);
    var parties :- MintedParties(minted, e);
    var contract :- CreatedByCid(h, holding);
    var instrument :- MintedInstrument(contract, e, parties);
    Ok(MintFacts(minted, holding, parties.0, parties.1, instrument))
  }

  datatype BindFacts = BindFacts(mintRef: CreatedFact, bind: ExercisedFact, binding: CreatedFact, trade: string)

  function AddDistinct(ids: seq<string>, id: Option<string>): seq<string> {
    match id
    case None => ids
    case Some(text) => if text in ids then ids else ids + [text]
  }

  function DistinctTexts(facts: seq<CreatedFact>, name: string): seq<string>
    decreases |facts|
  {
    if facts == [] then
      []
    else
      AddDistinct(DistinctTexts(facts[..|facts| - 1], name), FieldText(facts[|facts| - 1].arguments, name))
  }

  function WithPayment(facts: seq<CreatedFact>): seq<CreatedFact> {
    if facts == [] then
      []
    else
      (if FieldText(facts[0].arguments, "sellerPaymentCid").Some? then [facts[0]] else []) + WithPayment(facts[1..])
  }

  /** Of the bindings of one lock, which agree on holding and trade, the last with a payment, else the last. */
  function BindingOf(found: seq<CreatedFact>, holding: string): Result<CreatedFact, Refusal> {
    if found == [] then
      Err(Missing)
    else if DistinctTexts(found, "mintHoldingCid") != [holding] || |DistinctTexts(found, "tradeCid")| != 1 then
      Err(AnotherOperation)
    else
      var paid := WithPayment(found);
      Ok(if paid != [] then paid[|paid| - 1] else found[|found| - 1])
  }

  function BindingForLock(h: CantonHistory, lock: string, holding: string): Result<CreatedFact, Refusal> {
    BindingOf(Created(h.created, WithLock("BridgeTradeBinding", lock)), holding)
  }

  /** The loop that gathers the holdings and trades the bindings name. */
  method ChooseBinding(found: seq<CreatedFact>, holding: string) returns (r: Result<CreatedFact, Refusal>)
    ensures r == BindingOf(found, holding)
  {
    if found == [] {
      return Err(Missing);
    }
    var mintIds, tradeIds := [], [];
    for i := 0 to |found|
      invariant mintIds == DistinctTexts(found[..i], "mintHoldingCid")
      invariant tradeIds == DistinctTexts(found[..i], "tradeCid")
    {
      assert found[..i + 1][..i] == found[..i];
      mintIds := AddDistinct(mintIds, FieldText(found[i].arguments, "mintHoldingCid"));
      tradeIds := AddDistinct(tradeIds, FieldText(found[i].arguments, "tradeCid"));
    }
    assert found[..|found|] == found;
    if mintIds != [holding] || |tradeIds| != 1 {
      return Err(AnotherOperation);
    }
    var paid := WithPayment(found);
    return Ok(if paid != [] then paid[|paid| - 1] else found[|found| - 1]);
  }

  function RequireMintRef(mintRef: CreatedFact, e: Expectation, m: MintFacts): Result<string, Refusal> {
    var args :- Present(mintRef.arguments);
    var lock :- RequireText(args, "lockId");
    :- Need(lock == e.lockId, AnotherOperation);
    var holding :- RequireText(args, "mintHoldingCid");
    :- Need(holding == m.holding, Mismatch);
    var registry :- RequireText(args, "cashRegistry");
    :- Need(registry == m.cashRegistry, Mismatch);
    var buyer :- RequireText(args, "buyer");
    :- Need(buyer == m.buyer, Mismatch);
    Ok(lock)
  }

  function RequireBound(bound: CreatedFact, e: Expectation, m: MintFacts): Result<string, Refusal> {
    var args :- Present(bound.arguments);
    var holding :- RequireText(args, "mintHoldingCid");
    :- Need(holding == m.holding, AnotherOperation);
    var lock :- RequireText(args, "lockId");
    :- Need(lock == e.lockId, AnotherOperation);
    Ok(lock)
  }

  function BoundTrade(binding: CreatedFact): Result<string, Refusal> {
    var args :- Present(binding.arguments);
    RequireText(args, "tradeCid")
  }

  /** The reference that the mint left, and the choice that consumed it. */
  function RefStage(h: CantonHistory, e: Expectation, m: MintFacts): Result<(CreatedFact, ExercisedFact), Refusal> {
    var _ :- NotFoundIs(Mismatch, UniqueExercised(h, InUpdate("Gateway_Mint", m.minted.update)));
    var mintRef :- NotFoundIs(Mismatch, UniqueCreated(h, InUpdateWithLock("BridgeMintRef", m.minted.update, e.lockId)));
    var _ :- RequireMintRef(mintRef, e, m);
    var bind :- NotFoundIs(Mismatch, UniqueExercised(h, Consuming("BridgeMintRef_Bind", mintRef.cid)));
    :- Need(ConsumedIn(h, mintRef.cid, bind.update), Mismatch);
    Ok((mintRef, bind))
  }

  /** The binding that consuming the reference created, the one that stands for the lock, and the trade it names. */
  function BoundStage(h: CantonHistory, e: Expectation, m: MintFacts, update: string): Result<(CreatedFact, string), Refusal> {
    var bound :- NotFoundIs(Mismatch, UniqueCreated(h, InUpdateWithLock("BridgeTradeBinding", update, e.lockId)));
    var _ :- RequireBound(bound, e, m);
    var binding :- BindingForLock(h, e.lockId, m.holding);
    var trade :- BoundTrade(binding);
    Ok((binding, trade))
  }

  function BindStage(h: CantonHistory, e: Expectation, m: MintFacts): Result<BindFacts, Refusal> {
    var (mintRef, bind) :- RefStage(h, e, m);
    var (binding, trade) :- BoundStage(h, e, m, bind.update);
    Ok(BindFacts(mintRef, bind, binding, trade))
  }

  datatype AllocateFacts = AllocateFacts(allocate: ExercisedFact, allocation: string, locked: string, seller: string)

  function LockedHolding(h: CantonHistory, allocation: string, update: string): Result<string, Refusal> {
    var contract :- CreatedByCid(h, allocation);
    :- Need(contract.update == update, Mismatch);
    var args :- Present(contract.arguments);
    match RequireText(args, "lockedHoldingCid")
    case Ok(cid) => Ok(cid)
    case Err(_) =>
      var holdings :- Present(Field(args, "holdingCids"));
      var cids := CollectCids(holdings);
      :- Need(|cids| == 1, Missing);
      Ok(cids[0])
  }

  /** The transfer leg must pay the buyer's cash; answers the seller. */
  function PaidSeller(allocate: ExercisedFact, e: Expectation, m: MintFacts): Result<string, Refusal> {
    var args :- Present(allocate.argument);
    var admin :- RequireText(args, "expectedAdmin");
    :- Need(admin == m.instrument.admin, Mismatch);
    var leg :- Present(Field(args, "transferLeg"));
    var sender :- RequireText(leg, "sender");
    var seller :- RequireText(leg, "receiver");
    :- Need(sender == m.buyer, Mismatch);
    var _ :- RequireAmount(leg, e.cantonAmount);
    var instrument :- RequireInstrument(leg);
    :- Need(instrument == m.instrument, Mismatch);
    Ok(seller)
  }

  /** The choice that put the minted holding into an allocation, that allocation, and the seller. */
  function FundStage(h: CantonHistory, e: Expectation, m: MintFacts): Result<(ExercisedFact, string, string), Refusal> {
    var allocate :- UniqueExercised(h, Containing("AllocationFactory_Allocate", m.holding));
    var _ :- Present(allocate.argument);
    var result :- Present(allocate.result);
    :- Need(ConsumedIn(h, m.holding, allocate.update), Mismatch);
    var allocation :- RequireText(result, "allocationCid");
    var seller :- PaidSeller(allocate, e, m);
    Ok((allocate, allocation, seller))
  }

  /** The locked holding must come from the same update and still be the buyer's cash. */
  function LockedContract(h: CantonHistory, e: Expectation, m: MintFacts, locked: string, update: string)
    : Result<CreatedFact, Refusal>
  {
    var contract :- CreatedByCid(h, locked);
    :- Need(contract.update == update, Mismatch);
    var instrument :- OwnedInstrument(contract, m.buyer, e.cantonAmount);
    :- Need(instrument == m.instrument, Mismatch);
    Ok(contract)
  }

  function AllocateStage(h: CantonHistory, e: Expectation, m: MintFacts): Result<AllocateFacts, Refusal> {
    var (allocate, allocation, seller) :- FundStage(h, e, m);
    var locked :- LockedHolding(h, allocation, allocate.update);
    var _ :- LockedContract(h, e, m, locked, allocate.update);
    Ok(AllocateFacts(allocate, allocation, locked, seller))
  }

  datatype SettleFacts = SettleFacts(
    settle: ExercisedFact, payment: CreatedFact, treasury: CreatedFact, paymentAmount: string, treasuryAmount: string,
    treasuryInstrument: Instrument)

  function ReceiverCids(value: LedgerValue, resultField: string): seq<string> {
    match Field(value, resultField)
    case None => []
    case Some(result) =>
      match Field(result, "receiverHoldingCids")
      case None => []
      case Some(cids) => CollectCids(cids)
  }

  /** The settlement must be of the bound trade and supply a different treasury allocation. */
  function RequireSettle(settle: ExercisedFact, b: BindFacts, a: AllocateFacts): Result<string, Refusal> {
    var args :- Present(settle.argument);
    var _ :- Present(settle.result);
    var treasury :- Present(AllocationForLeg(args, "treasury-delivery"));
    :- Need(treasury != a.allocation, Mismatch);
    :- Need(settle.cid == b.trade, Mismatch);
    Ok(treasury)
  }

  /** The holdings that the two receivers got, payment first. */
  function Receivers(settle: ExercisedFact): Result<(seq<string>, seq<string>), Refusal> {
    var result :- Present(settle.result);
    var payment := ReceiverCids(result, "paymentResult");
    var treasury := ReceiverCids(result, "treasuryResult");
    :- Need(payment != [] && treasury != [], Missing);
    Ok((payment, treasury))
  }

  /** The amounts and owners of the two holdings; answers the printed amounts and the treasury instrument. */
  function CheckReceived(payment: CreatedFact, treasury: CreatedFact, e: Expectation, m: MintFacts, a: AllocateFacts)
    : Result<(string, string, Instrument), Refusal>
  {
    var paymentArgs :- Present(payment.arguments);
    var treasuryArgs :- Present(treasury.arguments);
    var paymentAmount :- RequireAmount(paymentArgs, e.cantonAmount);
    var treasuryAmount :- RequireAmount(treasuryArgs, e.treasuryAmount);
    var paymentInstrument :- RequireInstrument(paymentArgs);
    :- Need(paymentInstrument == m.instrument, Mismatch);
    var treasuryInstrument :- RequireInstrument(treasuryArgs);
    var treasuryOwner :- RequireText(treasuryArgs, "owner");
    :- Need(treasuryOwner == m.buyer, Mismatch);
    var paymentOwner :- RequireText(paymentArgs, "owner");
    :- Need(paymentOwner == a.seller, Mismatch);
    Ok((paymentAmount, treasuryAmount, treasuryInstrument))
  }

  /** The one settlement that was supplied with the payment allocation and consumed it. */
  function SupplyStage(h: CantonHistory, b: BindFacts, a: AllocateFacts): Result<ExercisedFact, Refusal> {
    var settle :- NotFoundIs(NotConnected, UniqueExercised(h, SuppliesPayment("DvpTrade_Settle", a.allocation)));
    var _ :- RequireSettle(settle, b, a);
    :- Need(ConsumedIn(h, a.allocation, settle.update) && ConsumedIn(h, a.locked, settle.update), Mismatch);
    Ok(settle)
  }

  /** The two holdings the settlement created, payment first; the choice must have answered with both. */
  function ReceiptStage(h: CantonHistory, e: Expectation, m: MintFacts, a: AllocateFacts, settle: ExercisedFact)
    : Result<(CreatedFact, CreatedFact), Refusal>
  {
    var (paymentReceivers, treasuryReceivers) :- Receivers(settle);
    var payment :- UniqueCreated(h, InUpdateOwned("StablecoinHolding", settle.update, a.seller, e.cantonAmount));
    var treasury :- UniqueCreated(h, InUpdateOwned("TreasuryHolding", settle.update, m.buyer, e.treasuryAmount));
    :- Need(payment.cid in paymentReceivers, Mismatch);
    :- Need(treasury.cid in treasuryReceivers, Mismatch);
    Ok((payment, treasury))
  }

  function ReceivedStage(h: CantonHistory, e: Expectation, m: MintFacts, a: AllocateFacts, settle: ExercisedFact)
    : Result<SettleFacts, Refusal>
  {
    var (payment, treasury) :- ReceiptStage(h, e, m, a, settle);
    var (paymentAmount, treasuryAmount, instrument) :- CheckReceived(payment, treasury, e, m, a);
    Ok(SettleFacts(settle, payment, treasury, paymentAmount, treasuryAmount, instrument))
  }

  function SettleStage(h: CantonHistory, e: Expectation, m: MintFacts, b: BindFacts, a: AllocateFacts): Result<SettleFacts, Refusal> {
    var settle :- SupplyStage(h, b, a);
    ReceivedStage(h, e, m, a, settle)
  }

  datatype RedeemFacts = RedeemFacts(request: CreatedFact, redeem: ExercisedFact, redeemed: CreatedFact, payout: string)

  predicate Burned(h: CantonHistory, cid: string, update: string) {
    exists fact ::
      fact in h.exercised && fact.choice == "Burn" && fact.consuming && fact.cid == cid && fact.update == update
  }

  /** The request must redeem the seller's payment; answers the payout destination. */
  function RequestedPayout(request: CreatedFact, e: Expectation, m: MintFacts, a: AllocateFacts, s: SettleFacts)
    : Result<string, Refusal>
  {
    var args :- Present(request.arguments);
    var holding :- RequireText(args, "holdingCid");
    :- Need(holding == s.payment.cid, NotConnected);
    var payout :- RequireText(args, "payoutDestination");
    :- Need(payout == e.payoutDestination, Mismatch);
    var _ :- RequireAmount(args, e.cantonAmount);
    var holder :- RequireText(args, "holder");
    :- Need(holder == a.seller, Mismatch);
    var instrument :- RequireInstrument(args);
    :- Need(instrument == m.instrument, Mismatch);
    Ok(payout)
  }

  /** The redemption must name the minted lock and the chosen binding. */
  function RequireRedeem(redeem: ExercisedFact, m: MintFacts, b: BindFacts): Result<string, Refusal> {
    var args :- Present(redeem.argument);
    var mintedLock :- RequireText(args, "mintedLockCid");
    :- Need(mintedLock == m.minted.cid, NotConnected);
    var binding :- RequireText(args, "bindingCid");
    :- Need(binding == b.binding.cid, NotConnected);
    Ok(binding)
  }

  function RedeemedHolder(redeemed: CreatedFact, e: Expectation, a: AllocateFacts): Result<string, Refusal> {
    var args :- Present(redeemed.arguments);
    var _ :- RequireAmount(args, e.cantonAmount);
    var holder :- RequireText(args, "holder");
    :- Need(holder == a.seller, Mismatch);
    Ok(holder)
  }

  /** The request for the seller's payment and the payout destination. */
  function RequestStage(h: CantonHistory, e: Expectation, m: MintFacts, a: AllocateFacts, s: SettleFacts)
    : Result<(CreatedFact, string), Refusal>
  {
    var request :- UniqueCreated(h, WithLock("RedemptionRequest", e.lockId));
    var payout :- RequestedPayout(request, e, m, a, s);
    Ok((request, payout))
  }

  /** The choice that redeemed the request and burned the payment. */
  function RedeemChoice(h: CantonHistory, m: MintFacts, b: BindFacts, request: string, payment: string)
    : Result<ExercisedFact, Refusal>
  {
    var redeem :- NotFoundIs(NotConnected, UniqueExercised(h, NamesRequest("Gateway_Redeem", request)));
    var _ :- RequireRedeem(redeem, m, b);
    :- Need(ConsumedIn(h, payment, redeem.update) && Burned(h, payment, redeem.update), NotConnected);
    Ok(redeem)
  }

  function BurnStage(h: CantonHistory, e: Expectation, m: MintFacts, b: BindFacts, a: AllocateFacts, s: SettleFacts)
    : Result<(CreatedFact, string, ExercisedFact), Refusal>
  {
    var (request, payout) :- RequestStage(h, e, m, a, s);
    var redeem :- RedeemChoice(h, m, b, request.cid, s.payment.cid);
    Ok((request, payout, redeem))
  }

  function RedeemStage(h: CantonHistory, e: Expectation, m: MintFacts, b: BindFacts, a: AllocateFacts, s: SettleFacts)
    : Result<RedeemFacts, Refusal>
  {
    var (request, payout, redeem) :- BurnStage(h, e, m, b, a, s);
    var redeemed :- UniqueCreated(h, InUpdateWithLock("RedeemedLock", redeem.update, e.lockId));
    var _ :- RedeemedHolder(redeemed, e, a);
    Ok(RedeemFacts(request, redeem, redeemed, payout))
  }

  datatype Trail = Trail(mint: MintFacts, bound: BindFacts, funded: AllocateFacts, settled: SettleFacts, redeemed: RedeemFacts)

  /** From the mint to the funded payment. */
  function Opening(h: CantonHistory, e: Expectation): Result<(MintFacts, BindFacts, AllocateFacts), Refusal> {
    var m :- MintStage(h, e);
    var b :- BindStage(h, e, m);
    var a :- AllocateStage(h, e, m);
    Ok((m, b, a))
  }

  /** From the settlement to the redemption. */
  function Closing(h: CantonHistory, e: Expectation, m: MintFacts, b: BindFacts, a: AllocateFacts)
    : Result<(SettleFacts, RedeemFacts), Refusal>
  {
    var s :- SettleStage(h, e, m, b, a);
    var r :- RedeemStage(h, e, m, b, a, s);
    Ok((s, r))
  }

  function Connect(h: CantonHistory, e: Expectation): Result<Trail, Refusal> {
    if e.lockId == "" || e.mintHolding == "" || e.payoutDestination == "" || e.cantonAmount == "" || e.treasuryAmount == "" then
      Err(Missing)
    else
      var (m, b, a) :- Opening(h, e);
      var (s, r) :- Closing(h, e, m, b, a);
      Ok(Trail(m, b, a, s, r))
  }

  datatype Evidence = Evidence(
    lockId: string, mintHolding: string, buyerTreasury: string, sellerPayment: string, redeemedLock: string,
    payoutDestination: string, paymentAmount: string, treasuryAmount: string, instrument: Instrument,
    paymentAllocation: string, paymentLocked: string, allocateUpdate: string, settleUpdate: string, redeemUpdate: string,
    buyer: string, seller: string, treasuryInstrument: Instrument, tradeCid: string)

  function EvidenceOf(e: Expectation, t: Trail): Evidence {
    Evidence(e.lockId, t.mint.holding, t.settled.treasury.cid, t.settled.payment.cid, t.redeemed.redeemed.cid,
             t.redeemed.payout, t.settled.paymentAmount, t.settled.treasuryAmount, t.mint.instrument,
             t.funded.allocation, t.funded.locked, t.funded.allocate.update, t.settled.settle.update,
             t.redeemed.redeem.update, t.mint.buyer, t.funded.seller, t.settled.treasuryInstrument, t.bound.trade)
  }

  function ConnectCantonHistory(h: CantonHistory, e: Expectation): Result<Evidence, Refusal> {
    var trail :- Connect(h, e);
    Ok(EvidenceOf(e, trail))
  }
}

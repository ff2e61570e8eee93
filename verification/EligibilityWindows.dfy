/** Executed transfers lie inside the eligibility windows that were checked only when they were allocated. */
module EligibilityWindows {
  import opened Outcomes
  import opened CantonLedger
  import opened CantonRuns
  import opened CantonBacking
  import opened CantonGrowth
  import opened DvpSettlement

  /** Both parties of the leg were eligible when the allocation was made. */
  predicate Vouches(f: Fact) {
    && f.Allocating?
    && var (leg, settlement) := (f.spec.leg, f.spec.settlement);
    && RequireEligible(leg.instrument, leg.sender, f.at, settlement.settleBefore, f.sender)
    && RequireEligible(leg.instrument, leg.receiver, f.at, settlement.settleBefore, f.receiver)
  }

  /** A fact of the stream vouches for this allocation, and is not from the future. */
  predicate VouchedBy(log: seq<Fact>, f: Fact, cid: Cid, spec: Spec, now: Time) {
    f in log && Vouches(f) && f.allocation == cid && f.spec == spec && f.at <= now
  }

  ghost predicate Vouched(log: seq<Fact>, cid: Cid, spec: Spec, now: Time) {
    exists f :: VouchedBy(log, f, cid, spec, now)
  }

  ghost predicate AllocationsAreVouched(s: State) {
    forall cid :: cid in s.active && s.active[cid].Allocated? ==> Vouched(s.log, cid, s.active[cid].allocation.spec, s.now)
  }

  ghost predicate ExecutionsAreVouched(log: seq<Fact>) {
    forall f :: f in log && f.Executing? ==> f.at < f.spec.settlement.settleBefore && Vouched(log, f.allocation, f.spec, f.at)
  }

  ghost predicate Eligible(s: State) {
    AllocationsAreVouched(s) && ExecutionsAreVouched(s.log)
  }

  lemma VouchedStays(log: seq<Fact>, more: seq<Fact>, cid: Cid, spec: Spec, now: Time, later: Time)
    requires log <= more && now <= later && Vouched(log, cid, spec, now)
    ensures Vouched(more, cid, spec, later)
  {
    var f :| VouchedBy(log, f, cid, spec, now);
    assert VouchedBy(more, f, cid, spec, later);
  }

  /** Steps that make no allocation and execute none. */
  lemma OtherStepsKeepEligible(s: State, t: State)
    requires Eligible(s) && Grows(s, t)
    requires forall cid :: cid in t.active && cid !in s.active ==> !t.active[cid].Allocated?
    requires forall i :: |s.log| <= i < |t.log| ==> !t.log[i].Executing?
    ensures Eligible(t)
  {
    forall cid | cid in t.active && t.active[cid].Allocated? ensures Vouched(t.log, cid, t.active[cid].allocation.spec, t.now) {
      VouchedStays(s.log, t.log, cid, s.active[cid].allocation.spec, s.now, t.now);
    }
    forall f | f in t.log && f.Executing? ensures f.at < f.spec.settlement.settleBefore && Vouched(t.log, f.allocation, f.spec, f.at) {
      assert f in s.log;
      VouchedStays(s.log, t.log, f.allocation, f.spec, f.at, f.at);
    }
  }

  lemma AllocateKeepsEligible(s: State, rules: Cid, args: AllocateArgs, authority: set<Party>)
    requires IdsAreOld(s) && Eligible(s) && Allocate(s, rules, args, authority).Ok?
    ensures Eligible(Allocate(s, rules, args, authority).value)
  {
    var t := Allocate(s, rules, args, authority).value;
    AllocateTouches(s, rules, args, authority);
    AllocationIsVouched(s, rules, args, authority);
    AllocatedOnlyOne(s, rules, args, authority);
    forall cid | cid in t.active && t.active[cid].Allocated? ensures Vouched(t.log, cid, t.active[cid].allocation.spec, t.now) {
      if cid in s.active {
        VouchedStays(s.log, t.log, cid, s.active[cid].allocation.spec, s.now, t.now);
      }
    }
    forall f | f in t.log && f.Executing? ensures f.at < f.spec.settlement.settleBefore && Vouched(t.log, f.allocation, f.spec, f.at) {
      assert f in s.log;
      VouchedStays(s.log, t.log, f.allocation, f.spec, f.at, f.at);
    }
  }

  lemma AllocationIsVouched(s: State, rules: Cid, args: AllocateArgs, authority: set<Party>)
    requires Allocate(s, rules, args, authority).Ok?
    ensures var t := Allocate(s, rules, args, authority).value;
      && |t.log| == |s.log| + 1 && t.log[..|s.log|] == s.log && !t.log[|s.log|].Executing?
      && VouchedBy(t.log, t.log[|s.log|], t.next - 1, args.spec, t.now)
  {
    VouchersAreEligible(s, rules, args, authority);
  }

  lemma VouchersAreEligible(s: State, rules: Cid, args: AllocateArgs, authority: set<Party>)
    requires MayAllocate(s, rules, args, authority).Ok?
    ensures var (sender, receiver) := MayAllocate(s, rules, args, authority).value;
      Vouches(Allocating(0, args.spec, sender, receiver, s.now))
  {
  }

  lemma AllocatedOnlyOne(s: State, rules: Cid, args: AllocateArgs, authority: set<Party>)
    requires IdsAreOld(s) && Allocate(s, rules, args, authority).Ok?
    ensures var t := Allocate(s, rules, args, authority).value;
      forall cid :: cid in t.active && cid !in s.active && t.active[cid].Allocated? ==> cid == t.next - 1 && t.active[cid].allocation.spec == args.spec
  {
    InputsAreUsable(s, rules, args, authority);
    LockInputsLocks(s, s.active[rules].rulesRegistry, args.spec, args.inputs);
  }

  lemma ExecuteKeepsEligible(s: State, cid: Cid, authority: set<Party>)
    requires Inv(s) && Eligible(s) && Execute(s, cid, authority).Ok?
    ensures Eligible(Execute(s, cid, authority).value)
  {
    var t := Execute(s, cid, authority).value;
    ExecutionIs(s, cid, authority);
    ExecuteTouches(s, cid, authority);
    var spec := s.active[cid].allocation.spec;
    assert spec.settlement.settleBefore > s.now;
    forall other | other in t.active && t.active[other].Allocated? ensures Vouched(t.log, other, t.active[other].allocation.spec, t.now) {
      VouchedStays(s.log, t.log, other, s.active[other].allocation.spec, s.now, t.now);
    }
    forall f | f in t.log && f.Executing? ensures f.at < f.spec.settlement.settleBefore && Vouched(t.log, f.allocation, f.spec, f.at) {
      if f in s.log {
        VouchedStays(s.log, t.log, f.allocation, f.spec, f.at, f.at);
      } else {
        VouchedStays(s.log, t.log, cid, spec, s.now, s.now);
      }
    }
  }

  lemma TouchesOtherKinds(s: State, t: State, kinds: set<Kind>)
    requires Eligible(s) && Touches(s, t, kinds) && AllocationKind !in kinds
    ensures Eligible(t)
  {
    forall cid | cid in t.active && cid !in s.active ensures !t.active[cid].Allocated? {
      assert KindOf(t.active[cid]) in kinds;
    }
    forall i | |s.log| <= i < |t.log| ensures !t.log[i].Executing? {
      assert FactKind(t.log[i]) in kinds;
    }
    OtherStepsKeepEligible(s, t);
  }

  lemma ReturnsKeepEligible(s: State, cid: Cid, authority: set<Party>)
    requires Inv(s) && Eligible(s)
    ensures Cancel(s, cid, authority).Ok? ==> Eligible(Cancel(s, cid, authority).value)
    ensures Withdraw(s, cid, authority).Ok? ==> Eligible(Withdraw(s, cid, authority).value)
  {
    ReturnsTouch(s, cid, authority);
    if Cancel(s, cid, authority).Ok? {
      CancelReleases(s, cid, authority);
      OtherStepsKeepEligible(s, Cancel(s, cid, authority).value);
    }
    if Withdraw(s, cid, authority).Ok? {
      WithdrawReleases(s, cid, authority);
      OtherStepsKeepEligible(s, Withdraw(s, cid, authority).value);
    }
  }

  lemma TokensKeepEligible(s: State, c: TokenChoice, authority: set<Party>)
    requires Inv(s) && Eligible(s) && TokenStep(s, c, authority).Ok?
    ensures Eligible(TokenStep(s, c, authority).value)
  {
    match c
    case DoAllocate(rules, args) => AllocateKeepsEligible(s, rules, args, authority);
    case DoExecute(cid) => ExecuteKeepsEligible(s, cid, authority);
    case DoCancel(cid) => ReturnsKeepEligible(s, cid, authority);
    case DoWithdraw(cid) => ReturnsKeepEligible(s, cid, authority);
    case _ =>
      HoldingsTouch(s, c, authority);
      TouchesOtherKinds(s, TokenStep(s, c, authority).value, {HoldingKind});
  }

  lemma SettleKeepsEligible(s: State, cid: Cid, supplied: seq<Supplied>, authority: set<Party>)
    requires Inv(s) && Eligible(s) && Settle(s, cid, supplied, authority).Ok?
    ensures Eligible(Settle(s, cid, supplied, authority).value)
  {
    SettleParts(s, cid, supplied, authority);
    var t := FetchTrade(s, cid).value;
    var power := {t.terms.venue, t.terms.seller, t.terms.buyer};
    var s1 := Consume(s, cid);
    ConsumingIsPlain(s, cid);
    PlainStepsKeepInv(s, s1);
    OtherStepsKeepEligible(s, s1);
    var treasury := SuppliedLeg(TreasuryDelivery, supplied).value.allocation;
    ExecuteKeepsEligible(s1, treasury, power);
    ExecuteKeepsInv(s1, treasury, power);
    ExecuteKeepsEligible(Execute(s1, treasury, power).value, SuppliedLeg(StablecoinPayment, supplied).value.allocation, power);
  }

  lemma StepKeepsEligible(s: State, e: Event)
    requires Inv(s) && Eligible(s)
    ensures Eligible(After(s, e))
  {
    if Step(s, e).Ok? {
      var t := After(s, e);
      match e
      case Passing(_) => OtherStepsKeepEligible(s, t);
      case Token(c, authority) => TokensKeepEligible(s, c, authority);
      case Dvp(c, authority) =>
        if c.DoSettle? {
          SettleKeepsEligible(s, c.cid, c.supplied, authority);
        } else {
          DealsTouch(s, c, authority, t);
          TouchesOtherKinds(s, t, {DealKind});
        }
      case Bridge(c, authority) =>
        BridgeTouches(s, c, authority, t);
        TouchesOtherKinds(s, t, {HoldingKind, GatewayKind});
      case Publishing(c, authority) =>
        CreateTouches(s, c);
        TouchesOtherKinds(s, t, {KindOf(c)});
      case Revoking(cid, _) => OtherStepsKeepEligible(s, t);
    }
  }

  lemma {:induction false} RunKeepsEligible(s: State, events: seq<Event>)
    requires Inv(s) && Eligible(s)
    ensures Eligible(Run(s, events))
    decreases |events|
  {
    if events != [] {
      var init := events[..|events| - 1];
      RunKeepsEligible(s, init);
      RunKeepsInv(s, init);
      StepKeepsEligible(Run(s, init), events[|events| - 1]);
    }
  }

  /** The transfer executes this very allocation, inside the windows of both parties' eligibilities. */
  predicate InsideWindows(made: Fact, executed: Fact) {
    && made.Allocating? && executed.Executing?
    && made.allocation == executed.allocation && made.spec == executed.spec
    && made.sender.investor == executed.spec.leg.sender
    && made.receiver.investor == executed.spec.leg.receiver
    && made.sender.validFrom <= made.at <= executed.at < made.sender.validUntil
    && made.receiver.validFrom <= made.at <= executed.at < made.receiver.validUntil
  }

  /**
   * Every executed transfer of every run happened inside the windows of the two eligibilities presented when its
   * allocation was made, although nothing is checked at settlement and eligibilities may be revoked meanwhile.
   */
  lemma ExecutedInsideBothWindows(s: State, events: seq<Event>, executed: Fact)
    requires Inv(s) && Eligible(s)
    requires executed in Run(s, events).log && executed.Executing?
    ensures exists f :: f in Run(s, events).log && InsideWindows(f, executed)
  {
    RunKeepsEligible(s, events);
    var log := Run(s, events).log;
    var f :| VouchedBy(log, f, executed.allocation, executed.spec, executed.at);
    assert InsideWindows(f, executed);
  }

  lemma NothingIsIneligible(now: Time)
    ensures Eligible(State(map[], 0, now, []))
  {
  }
}

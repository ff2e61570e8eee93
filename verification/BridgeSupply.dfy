/**
 * The Canton ledger and the rail run as one: the gateway mints and burns exactly when the rail does, so the coins in
 * circulation on Canton are at all times the outstanding operations, and within the vault on Solana.
 *
 * The rail counts base units, Canton counts the last place of a Decimal; `Minted` converts one to the other.
 */
module BridgeSupply {
  import opened Outcomes
  import opened Sums
  import Decimals
  import Units
  import L = CantonLedger
  import G = CantonGateway
  import Ledger = CantonRuns
  import CantonBacking
  import opened CantonAccounting
  import CantonGrowth
  import CantonTotals
  import Supply = CantonSupply
  import opened Rail
  import RailSafety

  /** Solana and Zama count millionths of a token. */
  const DECIMALS: nat := 6

  function Minted(amount: nat): nat {
    Units.CantonAmount(amount, DECIMALS)
  }

  /** One base unit is ten thousand last places of a Decimal. */
  const PLACES_PER_BASE_UNIT: nat := 10_000

  lemma MintedIs(amount: nat)
    ensures Minted(amount) == PLACES_PER_BASE_UNIT * amount
  {
    assert Decimals.Pow10(2) == 100 && Decimals.Pow10(4) == 10_000;
  }

  /** The text that names an operation on Canton; different operations have different names. */
  type Naming = OperationId -> string

  ghost predicate Injective(lockOf: Naming) {
    forall op, other :: lockOf(op) == lockOf(other) ==> op == other
  }

  /** The gateway's lists and facts say of an operation what the rail's flags say. */
  predicate Mirrored(g: L.Gateway, log: seq<L.Fact>, r: State, lockOf: Naming, op: OperationId) {
    && (StagesOf(r, op).minted <==> lockOf(op) in g.minted)
    && (StagesOf(r, op).burned <==> lockOf(op) in g.redeemed)
    && (StagesOf(r, op).minted ==> op in r.terms && MintedAmount(log, g.registry, lockOf(op)) == Minted(r.terms[op].amount))
  }

  ghost predicate Mirrors(g: L.Gateway, log: seq<L.Fact>, r: State, lockOf: Naming) {
    && (forall op :: Mirrored(g, log, r, lockOf, op))
    && (forall lock :: lock in g.minted ==> exists op :: lockOf(op) == lock)
  }

  // The joined run -------------------------------------------------------------------------------------------------

  datatype Joined = Joined(ledger: L.State, rail: State)

  /** Something on one side only, or a gateway's mint or burn together with the rail's. */
  datatype Happening =
    | OnCanton(event: Ledger.Event)
    | OnRail(action: Action)
    | OnBoth(event: Ledger.Event, action: Action)

  /** The gateway mints this operation for its amount. */
  predicate MintsOperation(s: L.State, e: Ledger.Event, registry: L.Party, lock: string, amount: nat) {
    match e
    case Bridge(DoMint(cid, first, second), authority) =>
      && UsesGateway(s, e, registry)
      && G.FetchAttestation(s, first).Ok?
      && G.FetchAttestation(s, first).value.lock == lock && G.FetchAttestation(s, first).value.amount == amount
    case _ => false
  }

  /** The gateway burns what it minted for this operation. */
  predicate BurnsOperation(s: L.State, e: Ledger.Event, registry: L.Party, lock: string) {
    match e
    case Bridge(DoRedeem(cid, args), authority) =>
      && UsesGateway(s, e, registry)
      && G.FetchRequest(s, args.request).Ok? && G.FetchRequest(s, args.request).value.lock == lock
    case _ => false
  }

  /** The first mint or burn of an operation, as opposed to a script that finds the contract of an earlier one. */
  predicate FirstTime(r: State, a: Action) {
    match a
    case CantonMint(op) => !StagesOf(r, op).minted
    case CantonBurn(op) => !StagesOf(r, op).burned
    case _ => false
  }

  /** The gateway is used by the coordinator only, which mints what was locked. */
  predicate Joint(j: Joined, e: Ledger.Event, a: Action, registry: L.Party, lockOf: Naming) {
    && Allowed(j.rail, a) && FirstTime(j.rail, a)
    && match a {
         case CantonMint(op) => MintsOperation(j.ledger, e, registry, lockOf(op), Minted(j.rail.terms[op].amount))
         case CantonBurn(op) => BurnsOperation(j.ledger, e, registry, lockOf(op))
         case _ => false
       }
  }

  predicate MayHappen(j: Joined, h: Happening, instrument: L.InstrumentId, lockOf: Naming) {
    match h
    case OnCanton(e) => !UsesGateway(j.ledger, e, instrument.admin) && Supply.LeavesSupplyToGateway(j.ledger, e, instrument)
    case OnRail(a) => Allowed(j.rail, a) && !FirstTime(j.rail, a)
    case OnBoth(e, a) => Joint(j, e, a, instrument.admin, lockOf)
  }

  function EventOf(h: Happening): seq<Ledger.Event> {
    if h.OnRail? then [] else [h.event]
  }

  function ActionOf(h: Happening): seq<Action> {
    if h.OnCanton? then [] else [h.action]
  }

  function Next(j: Joined, h: Happening): Joined {
    match h
    case OnCanton(e) => j.(ledger := Ledger.After(j.ledger, e))
    case OnRail(a) => j.(rail := Take(j.rail, a))
    case OnBoth(e, a) => Joined(Ledger.After(j.ledger, e), Take(j.rail, a))
  }

  ghost predicate RunsTo(j: Joined, hs: seq<Happening>, end: Joined, instrument: L.InstrumentId, lockOf: Naming)
    decreases |hs|
  {
    if hs == [] then
      end == j
    else
      MayHappen(j, hs[0], instrument, lockOf) && RunsTo(Next(j, hs[0]), hs[1..], end, instrument, lockOf)
  }

  // Single steps ---------------------------------------------------------------------------------------------------

  ghost predicate LedgerMirrors(s: L.State, r: State, registry: L.Party, lockOf: Naming) {
    forall cid :: GatewayOf(s, cid, registry) ==> Mirrors(s.active[cid].gateway, s.log, r, lockOf)
  }

  /** The books balance, the rail is in order, the gateway mirrors it, and all that circulates came through the gateway. */
  ghost predicate JoinedInv(j: Joined, issuer: L.Cid, instrument: L.InstrumentId, lockOf: Naming) {
    && CantonBacking.Inv(j.ledger) && Balanced(j.ledger, instrument.admin) && Supply.Configured(j.ledger, issuer, instrument)
    && Rail.Inv(j.rail)
    && LedgerMirrors(j.ledger, j.rail, instrument.admin, lockOf)
    && CantonTotals.Total(j.ledger, L.Stablecoin, instrument) == GatewayNet(j.ledger.log, instrument.admin)
  }

  lemma EqualFlagsMirror(g: L.Gateway, log: seq<L.Fact>, more: seq<L.Fact>, r: State, t: State, lockOf: Naming)
    requires Mirrors(g, log, r, lockOf) && t.terms == r.terms
    requires forall op :: StagesOf(t, op).minted == StagesOf(r, op).minted && StagesOf(t, op).burned == StagesOf(r, op).burned
    requires forall lock :: MintedAmount(more, g.registry, lock) == MintedAmount(log, g.registry, lock)
    ensures Mirrors(g, more, t, lockOf)
  {
    forall op ensures Mirrored(g, more, t, lockOf, op) {
      assert Mirrored(g, log, r, lockOf, op);
    }
  }

  lemma OtherActionsKeepFlags(r: State, a: Action)
    requires !FirstTime(r, a)
    ensures Take(r, a).terms == r.terms
    ensures forall op :: StagesOf(Take(r, a), op).minted == StagesOf(r, op).minted && StagesOf(Take(r, a), op).burned == StagesOf(r, op).burned
  {
  }

  /** A gateway mint of an operation for its amount, with the rail's mint. */
  lemma MintsTogether(g: L.Gateway, log: seq<L.Fact>, fact: L.Fact, r: State, lockOf: Naming, op: OperationId)
    requires Injective(lockOf) && Mirrors(g, log, r, lockOf) && Foreign(fact, g.registry)
    requires op in r.terms
    ensures Mirrors(g.(minted := [lockOf(op)] + g.minted),
                    log + [fact] + [L.GatewayMinting(g.registry, lockOf(op), Minted(r.terms[op].amount))],
                    Take(r, CantonMint(op)), lockOf)
  {
    var h := g.(minted := [lockOf(op)] + g.minted);
    var more := log + [fact] + [L.GatewayMinting(g.registry, lockOf(op), Minted(r.terms[op].amount))];
    var t := Take(r, CantonMint(op));
    ForeignFactsChangeNothing(log, [fact], g.registry);
    assert more[..|more| - 1] == log + [fact];
    forall other ensures Mirrored(h, more, t, lockOf, other) {
      assert Mirrored(g, log, r, lockOf, other);
      assert lockOf(other) in h.minted <==> lockOf(other) == lockOf(op) || lockOf(other) in g.minted;
    }
  }

  /** A gateway burn with the rail's burn of the operation. */
  lemma BurnsTogether(g: L.Gateway, log: seq<L.Fact>, fact: L.Fact, r: State, lockOf: Naming, op: OperationId, amount: int)
    requires Injective(lockOf) && Mirrors(g, log, r, lockOf) && Foreign(fact, g.registry)
    ensures Mirrors(g.(redeemed := [lockOf(op)] + g.redeemed),
                    log + [fact] + [L.GatewayBurning(g.registry, lockOf(op), amount)],
                    Take(r, CantonBurn(op)), lockOf)
  {
    var h := g.(redeemed := [lockOf(op)] + g.redeemed);
    var more := log + [fact] + [L.GatewayBurning(g.registry, lockOf(op), amount)];
    var t := Take(r, CantonBurn(op));
    ForeignFactsChangeNothing(log, [fact], g.registry);
    assert more[..|more| - 1] == log + [fact];
    forall other ensures Mirrored(h, more, t, lockOf, other) {
      assert Mirrored(g, log, r, lockOf, other);
      assert lockOf(other) in h.redeemed <==> lockOf(other) == lockOf(op) || lockOf(other) in g.redeemed;
    }
  }

  // Every step keeps the two in step ---------------------------------------------------------------------------------

  /** What the ledger's own theorems keep. */
  lemma LedgerStepKeeps(s: L.State, e: Ledger.Event, issuer: L.Cid, instrument: L.InstrumentId)
    requires CantonBacking.Inv(s) && Balanced(s, instrument.admin) && Supply.Configured(s, issuer, instrument)
    requires Supply.LeavesSupplyToGateway(s, e, instrument)
    requires CantonTotals.Total(s, L.Stablecoin, instrument) == GatewayNet(s.log, instrument.admin)
    ensures var t := Ledger.After(s, e);
      && CantonBacking.Inv(t) && Balanced(t, instrument.admin) && Supply.Configured(t, issuer, instrument)
      && CantonTotals.Total(t, L.Stablecoin, instrument) == GatewayNet(t.log, instrument.admin)
  {
    CantonBacking.StepKeepsInv(s, e);
    StepStaysBalanced(s, e, instrument.admin);
    Supply.StepKeepsConfiguration(s, e, issuer, instrument);
    Supply.StepKeepsGap(s, e, issuer, instrument);
    CantonTotals.StepConserves(s, e, L.Stablecoin, instrument);
  }

  lemma LeftAloneKeepsMirror(s: L.State, t: L.State, r: State, registry: L.Party, lockOf: Naming)
    requires LedgerMirrors(s, r, registry, lockOf) && LeavesGatewayAlone(s, t, registry)
    ensures LedgerMirrors(t, r, registry, lockOf)
  {
    ForeignFactsChangeNothing(s.log, t.log[|s.log|..], registry);
    assert t.log == s.log + t.log[|s.log|..];
    forall cid | GatewayOf(t, cid, registry) ensures Mirrors(t.active[cid].gateway, t.log, r, lockOf) {
      assert GatewayOf(s, cid, registry);
      EqualFlagsMirror(t.active[cid].gateway, s.log, t.log, r, r, lockOf);
    }
  }

  lemma CantonStepKeepsMirror(s: L.State, e: Ledger.Event, r: State, registry: L.Party, lockOf: Naming)
    requires CantonBacking.Inv(s) && LedgerMirrors(s, r, registry, lockOf) && !UsesGateway(s, e, registry)
    ensures LedgerMirrors(Ledger.After(s, e), r, registry, lockOf)
  {
    if Ledger.Step(s, e).Ok? {
      OtherStepsLeaveGatewayAlone(s, e, registry);
      LeftAloneKeepsMirror(s, Ledger.After(s, e), r, registry, lockOf);
    }
  }

  lemma RailStepKeepsMirror(s: L.State, r: State, a: Action, registry: L.Party, lockOf: Naming)
    requires LedgerMirrors(s, r, registry, lockOf) && !FirstTime(r, a)
    ensures LedgerMirrors(s, Take(r, a), registry, lockOf)
  {
    OtherActionsKeepFlags(r, a);
    forall cid | GatewayOf(s, cid, registry) ensures Mirrors(s.active[cid].gateway, s.log, Take(r, a), lockOf) {
      EqualFlagsMirror(s.active[cid].gateway, s.log, s.log, r, Take(r, a), lockOf);
    }
  }

  lemma JointMintKeepsMirror(j: Joined, e: Ledger.Event, op: OperationId, registry: L.Party, lockOf: Naming)
    requires CantonBacking.Inv(j.ledger) && Balanced(j.ledger, registry) && LedgerMirrors(j.ledger, j.rail, registry, lockOf)
    requires Injective(lockOf) && Joint(j, e, CantonMint(op), registry, lockOf)
    ensures LedgerMirrors(Ledger.After(j.ledger, e), Take(j.rail, CantonMint(op)), registry, lockOf)
  {
    var (s, t) := (j.ledger, Ledger.After(j.ledger, e));
    var (cid, first) := (e.bridge.cid, e.bridge.first);
    MintEffect(s, cid, first, e.bridge.second, e.authority);
    var g := s.active[cid].gateway;
    var lock := lockOf(op);
    var amount := Minted(j.rail.terms[op].amount);
    assert MintsLock(s, t, cid, g, lock, amount);
    var fact :| Foreign(fact, registry) && t.log == s.log + [fact] + [L.GatewayMinting(registry, lock, amount)];
    assert Mirrors(g, s.log, j.rail, lockOf);
    MintsTogether(g, s.log, fact, j.rail, lockOf, op);
  }

  lemma AfterRedeem(s: L.State, e: Ledger.Event, registry: L.Party, lock: string)
    requires BurnsOperation(s, e, registry, lock)
    ensures G.Redeem(s, e.bridge.cid, e.bridge.args, e.authority) == Ok(Ledger.After(s, e))
    ensures GatewayOf(s, e.bridge.cid, registry) && G.FetchGateway(s, e.bridge.cid) == Ok(s.active[e.bridge.cid].gateway)
  {
  }

  lemma RequestIsFetched(s: L.State, g: L.Gateway, args: G.RedeemArgs)
    requires G.MayRedeem(s, g, args).Ok?
    ensures G.FetchRequest(s, args.request) == G.MayRedeem(s, g, args)
  {
  }

  lemma BurnEffect(s: L.State, e: Ledger.Event, registry: L.Party, lock: string) returns (g: L.Gateway, fact: L.Fact, amount: int)
    requires CantonBacking.Inv(s) && Balanced(s, registry) && BurnsOperation(s, e, registry, lock)
    ensures var t := Ledger.After(s, e);
      && Foreign(fact, registry) && t.log == s.log + [fact] + [L.GatewayBurning(registry, lock, amount)]
      && GatewayOf(s, e.bridge.cid, registry) && g == s.active[e.bridge.cid].gateway
      && forall c :: GatewayOf(t, c, registry) ==> t.active[c].gateway == g.(redeemed := [lock] + g.redeemed)
  {
    var (cid, args) := (e.bridge.cid, e.bridge.args);
    var t := Ledger.After(s, e);
    AfterRedeem(s, e, registry, lock);
    RedeemEffect(s, cid, args, e.authority);
    g := s.active[cid].gateway;
    RequestIsFetched(s, g, args);
    amount := G.MayRedeem(s, g, args).value.amount;
    fact := FactOfBurn(s, t, cid, g, lock, amount);
  }

  lemma FactOfBurn(s: L.State, t: L.State, cid: L.Cid, g: L.Gateway, lock: string, amount: int) returns (fact: L.Fact)
    requires BurnsLock(s, t, cid, g, lock, amount)
    ensures Foreign(fact, g.registry) && t.log == s.log + [fact] + [L.GatewayBurning(g.registry, lock, amount)]
  {
    fact :| Foreign(fact, g.registry) && t.log == s.log + [fact] + [L.GatewayBurning(g.registry, lock, amount)];
  }

  lemma JointBurnKeepsMirror(j: Joined, e: Ledger.Event, op: OperationId, registry: L.Party, lockOf: Naming)
    requires CantonBacking.Inv(j.ledger) && Balanced(j.ledger, registry) && LedgerMirrors(j.ledger, j.rail, registry, lockOf)
    requires Injective(lockOf) && Joint(j, e, CantonBurn(op), registry, lockOf)
    ensures LedgerMirrors(Ledger.After(j.ledger, e), Take(j.rail, CantonBurn(op)), registry, lockOf)
  {
    var g, fact, amount := BurnEffect(j.ledger, e, registry, lockOf(op));
    assert Mirrors(g, j.ledger.log, j.rail, lockOf);
    BurnsTogether(g, j.ledger.log, fact, j.rail, lockOf, op, amount);
  }

  lemma StepKeepsJoinedInv(j: Joined, h: Happening, issuer: L.Cid, instrument: L.InstrumentId, lockOf: Naming)
    requires JoinedInv(j, issuer, instrument, lockOf) && Injective(lockOf) && MayHappen(j, h, instrument, lockOf)
    ensures JoinedInv(Next(j, h), issuer, instrument, lockOf)
  {
    match h
    case OnCanton(e) =>
      LedgerStepKeeps(j.ledger, e, issuer, instrument);
      CantonStepKeepsMirror(j.ledger, e, j.rail, instrument.admin, lockOf);
    case OnRail(a) =>
      RailSafety.StepKeepsInv(j.rail, a);
      RailStepKeepsMirror(j.ledger, j.rail, a, instrument.admin, lockOf);
    case OnBoth(e, a) =>
      LedgerStepKeeps(j.ledger, e, issuer, instrument);
      RailSafety.StepKeepsInv(j.rail, a);
      match a {
        case CantonMint(op) => JointMintKeepsMirror(j, e, op, instrument.admin, lockOf);
        case CantonBurn(op) => JointBurnKeepsMirror(j, e, op, instrument.admin, lockOf);
      }
  }

  /** Ledger and rail stay in step over every joined run. */
  lemma {:induction false} RunKeepsJoinedInv(j: Joined, hs: seq<Happening>, end: Joined, issuer: L.Cid, instrument: L.InstrumentId,
                                             lockOf: Naming)
    requires JoinedInv(j, issuer, instrument, lockOf) && Injective(lockOf) && RunsTo(j, hs, end, instrument, lockOf)
    ensures JoinedInv(end, issuer, instrument, lockOf)
    decreases |hs|
  {
    if hs != [] {
      StepKeepsJoinedInv(j, hs[0], issuer, instrument, lockOf);
      RunKeepsJoinedInv(Next(j, hs[0]), hs[1..], end, issuer, instrument, lockOf);
    }
  }

  // The sums -------------------------------------------------------------------------------------------------------

  /** The locks of a list that are not redeemed are worth what the operations they name are worth. */
  lemma {:induction false} LocksAreOperations(minted: seq<string>, redeemed: seq<string>, log: seq<L.Fact>, registry: L.Party,
                                              lockOf: Naming, m: map<OperationId, int>)
    requires L.Distinct(minted) && Injective(lockOf)
    requires forall lock :: lock in minted ==> exists op :: lockOf(op) == lock
    requires forall op :: op in m <==> lockOf(op) in minted && lockOf(op) !in redeemed
    requires forall op :: op in m ==> MintedAmount(log, registry, lockOf(op)) == PLACES_PER_BASE_UNIT * m[op]
    ensures Outstanding(minted, redeemed, log, registry) == PLACES_PER_BASE_UNIT * Sum(m, RailSafety.Identity)
    decreases |minted|
  {
    if minted == [] {
      assert m == map[];
    } else {
      var (lock, rest) := (minted[0], minted[1..]);
      assert lock in minted && lock !in rest && forall other :: other in rest ==> other in minted;
      var op :| lockOf(op) == lock;
      if lock in redeemed {
        LocksAreOperations(rest, redeemed, log, registry, lockOf, m);
      } else {
        SumRemove(m, RailSafety.Identity, op);
        LocksAreOperations(rest, redeemed, log, registry, lockOf, m - {op});
      }
    }
  }

  lemma OutstandingLocksAreOutstandingOperations(g: L.Gateway, log: seq<L.Fact>, r: State, lockOf: Naming)
    requires Injective(lockOf) && Mirrors(g, log, r, lockOf) && L.Distinct(g.minted)
    ensures Outstanding(g.minted, g.redeemed, log, g.registry)
      == PLACES_PER_BASE_UNIT * Sum(RailSafety.OutstandingAmounts(r), RailSafety.Identity)
  {
    var m := RailSafety.OutstandingAmounts(r);
    forall op ensures op in m <==> lockOf(op) in g.minted && lockOf(op) !in g.redeemed {
      assert Mirrored(g, log, r, lockOf, op);
    }
    forall op | op in m ensures MintedAmount(log, g.registry, lockOf(op)) == PLACES_PER_BASE_UNIT * m[op] {
      assert Mirrored(g, log, r, lockOf, op);
      MintedIs(r.terms[op].amount);
    }
    LocksAreOperations(g.minted, g.redeemed, log, g.registry, lockOf, m);
  }

  /**
   * In every state of every joined run with its gateway, the coins in circulation on Canton, whoever trading has left
   * them with, are exactly the operations minted and not burned, and they are within the vault and the exposure.
   */
  lemma CirculationIsWithinTheVault(j: Joined, hs: seq<Happening>, end: Joined, issuer: L.Cid, instrument: L.InstrumentId,
                                    lockOf: Naming, gateway: L.Cid)
    requires JoinedInv(j, issuer, instrument, lockOf) && Injective(lockOf) && RunsTo(j, hs, end, instrument, lockOf)
    requires GatewayOf(end.ledger, gateway, instrument.admin)
    ensures var total := CantonTotals.Total(end.ledger, L.Stablecoin, instrument);
      && total == PLACES_PER_BASE_UNIT * Sum(RailSafety.OutstandingAmounts(end.rail), RailSafety.Identity)
      && total <= PLACES_PER_BASE_UNIT * end.rail.escrow.vault
      && total <= PLACES_PER_BASE_UNIT * (end.rail.zama.reserved + end.rail.zama.active)
  {
    RunKeepsJoinedInv(j, hs, end, issuer, instrument, lockOf);
    var g := end.ledger.active[gateway].gateway;
    assert BooksOf(g, end.ledger.log) && Mirrors(g, end.ledger.log, end.rail, lockOf);
    OutstandingLocksAreOutstandingOperations(g, end.ledger.log, end.rail, lockOf);
    RailSafety.OutstandingWithinVault(end.rail);
    RailSafety.OutstandingWithinExposure(end.rail);
  }

  /** The ledger with an issuer and a new gateway for it. */
  function NewLedger(instrument: L.InstrumentId, attesters: seq<L.Party>, now: L.Time): L.State {
    L.State(map[0 := L.Issuer(L.Stablecoin, instrument),
                1 := L.Guarded(L.Gateway(instrument.admin, attesters, 0, instrument, [], []))], 2, now, [])
  }

  lemma NewLedgerIsGood(instrument: L.InstrumentId, attesters: seq<L.Party>, now: L.Time)
    requires |attesters| == 3 && L.Distinct(attesters) && instrument.id != ""
    ensures CantonBacking.Inv(NewLedger(instrument, attesters, now)) && Balanced(NewLedger(instrument, attesters, now), instrument.admin)
  {
    var g := L.Gateway(instrument.admin, attesters, 0, instrument, [], []);
    assert L.Ensured(L.Guarded(g)) && L.Ensured(L.Issuer(L.Stablecoin, instrument));
    assert BooksOf(g, []);
  }

  /** A new gateway and a rail without any mint are in step. */
  lemma NewIsInStep(r: State, instrument: L.InstrumentId, attesters: seq<L.Party>, now: L.Time, lockOf: Naming)
    requires Rail.Inv(r) && r.canton == map[] && |attesters| == 3 && L.Distinct(attesters) && instrument.id != ""
    ensures JoinedInv(Joined(NewLedger(instrument, attesters, now), r), 0, instrument, lockOf)
  {
    var s := NewLedger(instrument, attesters, now);
    NewLedgerIsGood(instrument, attesters, now);
    forall cid | GatewayOf(s, cid, instrument.admin) ensures Mirrors(s.active[cid].gateway, s.log, r, lockOf) {
    }
    Supply.NothingIsWorth(s.active, L.Stablecoin, instrument);
  }
}

/** The gateway's books: every lock is minted once, burned at most once for the same amount, and the rest circulates. */
module CantonAccounting {
  import opened Outcomes
  import opened CantonLedger
  import G = CantonGateway
  import opened CantonRuns
  import opened CantonBacking
  import opened CantonGrowth
  import opened CantonTotals

  predicate GatewayOf(s: State, cid: Cid, registry: Party) {
    cid in s.active && s.active[cid].Guarded? && s.active[cid].gateway.registry == registry
  }

  predicate MintFact(f: Fact, registry: Party) {
    f.GatewayMinting? && f.gateway == registry
  }

  predicate BurnFact(f: Fact, registry: Party) {
    f.GatewayBurning? && f.gateway == registry
  }

  predicate MintedIn(log: seq<Fact>, registry: Party, lock: string) {
    exists f :: f in log && MintFact(f, registry) && f.lock == lock
  }

  predicate BurnedIn(log: seq<Fact>, registry: Party, lock: string) {
    exists f :: f in log && BurnFact(f, registry) && f.lock == lock
  }

  /** What this lock was minted for. */
  function MintedAmount(log: seq<Fact>, registry: Party, lock: string): int {
    if log == [] then
      0
    else
      var last := log[|log| - 1];
      if MintFact(last, registry) && last.lock == lock then last.amount else MintedAmount(log[..|log| - 1], registry, lock)
  }

  /** Gateway mints minus gateway burns over the stream. */
  function GatewayNet(log: seq<Fact>, registry: Party): int {
    if log == [] then
      0
    else
      var last := log[|log| - 1];
      GatewayNet(log[..|log| - 1], registry)
      + (if MintFact(last, registry) then last.amount else if BurnFact(last, registry) then -last.amount else 0)
  }

  /** The minted amounts of the locks that are not redeemed. */
  function Outstanding(minted: seq<string>, redeemed: seq<string>, log: seq<Fact>, registry: Party): int {
    if minted == [] then
      0
    else
      (if minted[0] in redeemed then 0 else MintedAmount(log, registry, minted[0])) + Outstanding(minted[1..], redeemed, log, registry)
  }

  // The invariant ------------------------------------------------------------------------------------------------

  /** Each registry runs one gateway. */
  ghost predicate OneGateway(s: State, registry: Party) {
    forall cid, other :: GatewayOf(s, cid, registry) && GatewayOf(s, other, registry) ==> cid == other
  }

  predicate MintsDiffer(log: seq<Fact>, registry: Party) {
    forall i, j :: 0 <= i < j < |log| && MintFact(log[i], registry) && MintFact(log[j], registry) ==> log[i].lock != log[j].lock
  }

  predicate BurnsDiffer(log: seq<Fact>, registry: Party) {
    forall i, j :: 0 <= i < j < |log| && BurnFact(log[i], registry) && BurnFact(log[j], registry) ==> log[i].lock != log[j].lock
  }

  /** Every burn is of a minted lock, for the minted amount. */
  predicate BurnsMatchMints(log: seq<Fact>, registry: Party) {
    forall f :: f in log && BurnFact(f, registry) ==> GatewayMinting(registry, f.lock, f.amount) in log
  }

  ghost predicate ListsFollowTheStream(g: Gateway, log: seq<Fact>) {
    && (forall lock :: lock in g.minted <==> MintedIn(log, g.registry, lock))
    && (forall lock :: lock in g.redeemed <==> BurnedIn(log, g.registry, lock))
  }

  predicate ListsAreSound(g: Gateway) {
    Distinct(g.minted) && Distinct(g.redeemed) && forall lock :: lock in g.redeemed ==> lock in g.minted
  }

  ghost predicate LocksAreRecorded(s: State, registry: Party) {
    forall cid :: cid in s.active && s.active[cid].LockMinted? && s.active[cid].minted.registry == registry ==>
      GatewayMinting(registry, s.active[cid].minted.lock, s.active[cid].minted.amount) in s.log
  }

  ghost predicate BooksOf(g: Gateway, log: seq<Fact>) {
    && ListsFollowTheStream(g, log)
    && ListsAreSound(g)
    && GatewayNet(log, g.registry) == Outstanding(g.minted, g.redeemed, log, g.registry)
  }

  ghost predicate Balanced(s: State, registry: Party) {
    && OneGateway(s, registry)
    && MintsDiffer(s.log, registry)
    && BurnsDiffer(s.log, registry)
    && BurnsMatchMints(s.log, registry)
    && LocksAreRecorded(s, registry)
    && (forall cid :: GatewayOf(s, cid, registry) ==> BooksOf(s.active[cid].gateway, s.log))
  }

  // Streams --------------------------------------------------------------------------------------------------------

  /** The fact is none of this registry's gateway. */
  predicate Foreign(f: Fact, registry: Party) {
    !MintFact(f, registry) && !BurnFact(f, registry)
  }

  lemma {:induction false} ForeignFactsChangeNothing(log: seq<Fact>, more: seq<Fact>, registry: Party)
    requires forall f :: f in more ==> Foreign(f, registry)
    ensures GatewayNet(log + more, registry) == GatewayNet(log, registry)
    ensures forall lock :: MintedAmount(log + more, registry, lock) == MintedAmount(log, registry, lock)
    decreases |more|
  {
    if more == [] {
      assert log + more == log;
    } else {
      var init := more[..|more| - 1];
      ForeignFactsChangeNothing(log, init, registry);
      assert more == init + [more[|more| - 1]];
      assert (log + more)[..|log + more| - 1] == log + init;
      assert (log + more)[|log + more| - 1] == more[|more| - 1] && more[|more| - 1] in more;
    }
  }

  lemma {:induction false} OutstandingReadsAmounts(minted: seq<string>, redeemed: seq<string>, log: seq<Fact>, more: seq<Fact>, registry: Party)
    requires forall lock :: lock in minted ==> MintedAmount(more, registry, lock) == MintedAmount(log, registry, lock)
    ensures Outstanding(minted, redeemed, more, registry) == Outstanding(minted, redeemed, log, registry)
    decreases |minted|
  {
    if minted != [] {
      OutstandingReadsAmounts(minted[1..], redeemed, log, more, registry);
    }
  }

  /** Redeeming one more lock takes exactly its minted amount out. */
  lemma {:induction false} OutstandingAfterRedeem(minted: seq<string>, redeemed: seq<string>, lock: string, log: seq<Fact>, registry: Party)
    requires Distinct(minted) && lock !in redeemed
    ensures Outstanding(minted, [lock] + redeemed, log, registry)
      == Outstanding(minted, redeemed, log, registry) - (if lock in minted then MintedAmount(log, registry, lock) else 0)
    decreases |minted|
  {
    if minted != [] {
      assert minted == [minted[0]] + minted[1..];
      OutstandingAfterRedeem(minted[1..], redeemed, lock, log, registry);
      if minted[0] == lock {
        assert lock !in minted[1..];
      }
    }
  }

  lemma {:induction false} AmountOfMintedLock(log: seq<Fact>, registry: Party, lock: string, amount: int)
    requires MintsDiffer(log, registry) && GatewayMinting(registry, lock, amount) in log
    ensures MintedAmount(log, registry, lock) == amount
    decreases |log|
  {
    var (init, last) := (log[..|log| - 1], log[|log| - 1]);
    assert log == init + [last];
    if MintFact(last, registry) && last.lock == lock {
      forall i | 0 <= i < |log| && log[i] == GatewayMinting(registry, lock, amount) ensures i == |log| - 1 {
      }
    } else {
      AmountOfMintedLock(init, registry, lock, amount);
    }
  }

  lemma MembersOfExtension(log: seq<Fact>, more: seq<Fact>, registry: Party)
    requires forall f :: f in more ==> Foreign(f, registry)
    ensures forall lock :: MintedIn(log + more, registry, lock) <==> MintedIn(log, registry, lock)
    ensures forall lock :: BurnedIn(log + more, registry, lock) <==> BurnedIn(log, registry, lock)
  {
    forall lock ensures MintedIn(log + more, registry, lock) <==> MintedIn(log, registry, lock) {
      if MintedIn(log, registry, lock) {
        var f :| f in log && MintFact(f, registry) && f.lock == lock;
        assert f in log + more;
      }
    }
    forall lock ensures BurnedIn(log + more, registry, lock) <==> BurnedIn(log, registry, lock) {
      if BurnedIn(log, registry, lock) {
        var f :| f in log && BurnFact(f, registry) && f.lock == lock;
        assert f in log + more;
      }
    }
  }

  lemma ForeignFactsKeepBooks(g: Gateway, log: seq<Fact>, more: seq<Fact>)
    requires BooksOf(g, log)
    requires forall f :: f in more ==> Foreign(f, g.registry)
    ensures BooksOf(g, log + more)
  {
    ForeignFactsChangeNothing(log, more, g.registry);
    MembersOfExtension(log, more, g.registry);
    OutstandingReadsAmounts(g.minted, g.redeemed, log, log + more, g.registry);
  }

  // Steps that leave this gateway alone ------------------------------------------------------------------------------

  ghost predicate LeavesGatewayAlone(s: State, t: State, registry: Party) {
    && Grows(s, t)
    && (forall i :: |s.log| <= i < |t.log| ==> Foreign(t.log[i], registry))
    && (forall cid :: GatewayOf(t, cid, registry) ==> cid in s.active)
    && (forall cid :: cid in t.active && t.active[cid].LockMinted? && t.active[cid].minted.registry == registry ==> cid in s.active)
  }

  lemma LeftAloneStaysBalanced(s: State, t: State, registry: Party)
    requires Balanced(s, registry) && LeavesGatewayAlone(s, t, registry)
    ensures Balanced(t, registry)
  {
    var more := t.log[|s.log|..];
    assert t.log == s.log + more;
    forall cid | GatewayOf(t, cid, registry) ensures GatewayOf(s, cid, registry) && BooksOf(t.active[cid].gateway, t.log) {
      ForeignFactsKeepBooks(s.active[cid].gateway, s.log, more);
    }
    forall f | f in t.log && !Foreign(f, registry) ensures f in s.log {
    }
  }

  lemma TouchingOthersLeavesAlone(s: State, t: State, kinds: set<Kind>, registry: Party)
    requires Touches(s, t, kinds) && GatewayKind !in kinds
    ensures LeavesGatewayAlone(s, t, registry)
  {
    forall i | |s.log| <= i < |t.log| ensures Foreign(t.log[i], registry) {
      assert FactKind(t.log[i]) in kinds;
    }
    forall cid | cid in t.active && cid !in s.active ensures KindOf(t.active[cid]) != GatewayKind {
    }
  }

  lemma AloneThenAlone(s: State, t: State, u: State, registry: Party)
    requires IdsAreOld(s) && LeavesGatewayAlone(s, t, registry) && LeavesGatewayAlone(t, u, registry)
    ensures LeavesGatewayAlone(s, u, registry)
  {
  }

  // Minting ------------------------------------------------------------------------------------------------------------

  lemma MintingKeepsBooks(g: Gateway, log: seq<Fact>, lock: string, amount: int)
    requires BooksOf(g, log) && lock !in g.minted
    ensures BooksOf(g.(minted := [lock] + g.minted), log + [GatewayMinting(g.registry, lock, amount)])
  {
    var fact := GatewayMinting(g.registry, lock, amount);
    var (more, next) := (log + [fact], g.(minted := [lock] + g.minted));
    assert more[..|more| - 1] == log;
    forall other ensures other in next.minted <==> MintedIn(more, g.registry, other) {
      if MintedIn(log, g.registry, other) {
        var f :| f in log && MintFact(f, g.registry) && f.lock == other;
        assert f in more;
      }
      if other == lock {
        assert fact in more && MintFact(fact, g.registry);
      }
    }
    forall other ensures other in next.redeemed <==> BurnedIn(more, g.registry, other) {
      if BurnedIn(log, g.registry, other) {
        var f :| f in log && BurnFact(f, g.registry) && f.lock == other;
        assert f in more;
      }
    }
    OutstandingReadsAmounts(g.minted, g.redeemed, log, more, g.registry);
    assert next.minted[1..] == g.minted;
    assert lock !in g.redeemed;
  }

  /** The effect of a gateway mint on the contracts and facts of its registry. */
  ghost predicate MintsLock(s: State, t: State, cid: Cid, g: Gateway, lock: string, amount: int) {
    && cid in s.active && s.active[cid] == Guarded(g)
    && (exists fact :: Foreign(fact, g.registry) && t.log == s.log + [fact] + [GatewayMinting(g.registry, lock, amount)])
    && (forall c :: GatewayOf(t, c, g.registry) ==> c == t.next - 1 && t.active[c].gateway == g.(minted := [lock] + g.minted))
    && (forall c :: cid in s.active && c in t.active && t.active[c].LockMinted? && t.active[c].minted.registry == g.registry ==>
          (c in s.active && s.active[c] == t.active[c]) || (t.active[c].minted.lock == lock && t.active[c].minted.amount == amount))
  }

  lemma MintingStaysBalanced(s: State, t: State, cid: Cid, g: Gateway, lock: string, amount: int)
    requires Balanced(s, g.registry) && MintsLock(s, t, cid, g, lock, amount) && lock !in g.minted
    ensures Balanced(t, g.registry)
  {
    var r := g.registry;
    var fact :| Foreign(fact, r) && t.log == s.log + [fact] + [GatewayMinting(r, lock, amount)];
    assert GatewayOf(s, cid, r) && BooksOf(g, s.log);
    ForeignFactsKeepBooks(g, s.log, [fact]);
    MintingKeepsBooks(g, s.log + [fact], lock, amount);
    assert !MintedIn(s.log, r, lock);
    forall i | 0 <= i < |t.log| && MintFact(t.log[i], r) && i != |t.log| - 1 ensures i < |s.log| && t.log[i].lock != lock {
      assert t.log[i] in s.log;
    }
    forall f | f in t.log && BurnFact(f, r) ensures GatewayMinting(r, f.lock, f.amount) in t.log {
      assert f in s.log;
    }
    assert BurnsDiffer(t.log, r) by {
      forall i | 0 <= i < |t.log| && BurnFact(t.log[i], r) ensures i < |s.log| && t.log[i] == s.log[i] {
      }
    }
  }

  lemma LeaveMintIs(s: State, g: Gateway, a: Attestation, holding: Cid)
    requires IdsAreOld(s) && G.LeaveMint(s, g, a, holding).Ok?
    ensures var t := G.LeaveMint(s, g, a, holding).value;
      && t.next == s.next + 3 && t.log == s.log + [GatewayMinting(g.registry, a.lock, a.amount)]
      && (forall c :: c in t.active && c in s.active ==> t.active[c] == s.active[c])
      && (forall c :: c in t.active && c !in s.active && t.active[c].Guarded? ==>
            c == t.next - 1 && t.active[c].gateway == g.(minted := [a.lock] + g.minted))
      && (forall c :: c in t.active && c !in s.active && t.active[c].LockMinted? ==>
            t.active[c].minted.lock == a.lock && t.active[c].minted.amount == a.amount && t.active[c].minted.registry == g.registry)
  {
  }

  lemma IssueIs(s: State, cid: Cid, owner: Party, amount: int, authority: set<Party>)
    requires Issue(s, cid, owner, amount, authority).Ok?
    ensures cid in s.active && s.active[cid].Issuer?
    ensures Issue(s, cid, owner, amount, authority).value.log
      == s.log + [Minting(s.active[cid].issuerRegistry, s.active[cid].issued, amount)]
  {
  }

  lemma MintEffect(s: State, cid: Cid, firstCid: Cid, secondCid: Cid, authority: set<Party>)
    requires IdsAreOld(s) && G.Mint(s, cid, firstCid, secondCid, authority).Ok?
    requires OneGateway(s, G.FetchGateway(s, cid).value.registry)
    ensures G.FetchAttestation(s, firstCid).Ok?
    ensures var (g, first) := (G.FetchGateway(s, cid).value, G.FetchAttestation(s, firstCid).value);
      && first.lock !in g.minted
      && MintsLock(s, G.Mint(s, cid, firstCid, secondCid, authority).value, cid, g, first.lock, first.amount)
  {
    MintParts(s, cid, firstCid, secondCid, authority);
    var (g, first) := (G.FetchGateway(s, cid).value, G.FetchAttestation(s, firstCid).value);
    var s1 := Consume(s, cid);
    IssueTouches(s1, g.issuer, first.beneficiary, first.amount, {g.registry});
    IssueIs(s1, g.issuer, first.beneficiary, first.amount, {g.registry});
    var s2 := Issue(s1, g.issuer, first.beneficiary, first.amount, {g.registry}).value;
    LeaveMintIs(s2, g, first, s.next);
    var t := G.LeaveMint(s2, g, first, s.next).value;
    var fact := Minting(s1.active[g.issuer].issuerRegistry, s1.active[g.issuer].issued, first.amount);
    assert Foreign(fact, g.registry) && t.log == s.log + [fact] + [GatewayMinting(g.registry, first.lock, first.amount)];
    forall c | GatewayOf(t, c, g.registry) ensures c !in s2.active {
      assert GatewayOf(s, cid, g.registry);
      if c in s2.active {
        assert c in s1.active && GatewayOf(s, c, g.registry);
      }
    }
    forall c | c in t.active && t.active[c].LockMinted? && c in s2.active ensures c in s.active && s.active[c] == t.active[c] {
      assert KindOf(s2.active[c]) == GatewayKind;
    }
  }

  lemma MintStaysBalanced(s: State, cid: Cid, firstCid: Cid, secondCid: Cid, authority: set<Party>)
    requires IdsAreOld(s) && G.Mint(s, cid, firstCid, secondCid, authority).Ok?
    requires Balanced(s, G.FetchGateway(s, cid).value.registry)
    ensures Balanced(G.Mint(s, cid, firstCid, secondCid, authority).value, G.FetchGateway(s, cid).value.registry)
  {
    MintEffect(s, cid, firstCid, secondCid, authority);
    var (g, first) := (G.FetchGateway(s, cid).value, G.FetchAttestation(s, firstCid).value);
    MintingStaysBalanced(s, G.Mint(s, cid, firstCid, secondCid, authority).value, cid, g, first.lock, first.amount);
  }

  // Redeeming ------------------------------------------------------------------------------------------------------------

  lemma BurningKeepsBooks(g: Gateway, log: seq<Fact>, lock: string, amount: int)
    requires BooksOf(g, log) && MintsDiffer(log, g.registry)
    requires lock in g.minted && lock !in g.redeemed && GatewayMinting(g.registry, lock, amount) in log
    ensures BooksOf(g.(redeemed := [lock] + g.redeemed), log + [GatewayBurning(g.registry, lock, amount)])
  {
    var fact := GatewayBurning(g.registry, lock, amount);
    var (more, next) := (log + [fact], g.(redeemed := [lock] + g.redeemed));
    assert more[..|more| - 1] == log;
    forall other ensures other in next.redeemed <==> BurnedIn(more, g.registry, other) {
      if BurnedIn(log, g.registry, other) {
        var f :| f in log && BurnFact(f, g.registry) && f.lock == other;
        assert f in more;
      }
      if other == lock {
        assert fact in more && BurnFact(fact, g.registry);
      }
    }
    forall other ensures other in next.minted <==> MintedIn(more, g.registry, other) {
      if MintedIn(log, g.registry, other) {
        var f :| f in log && MintFact(f, g.registry) && f.lock == other;
        assert f in more;
      }
    }
    AmountOfMintedLock(log, g.registry, lock, amount);
    OutstandingReadsAmounts(g.minted, next.redeemed, log, more, g.registry);
    OutstandingAfterRedeem(g.minted, g.redeemed, lock, log, g.registry);
  }

  /** The effect of a gateway redemption on the contracts and facts of its registry. */
  ghost predicate BurnsLock(s: State, t: State, cid: Cid, g: Gateway, lock: string, amount: int) {
    && cid in s.active && s.active[cid] == Guarded(g)
    && (exists fact :: Foreign(fact, g.registry) && t.log == s.log + [fact] + [GatewayBurning(g.registry, lock, amount)])
    && (forall c :: GatewayOf(t, c, g.registry) ==> c == t.next - 1 && t.active[c].gateway == g.(redeemed := [lock] + g.redeemed))
    && (forall c :: c in t.active && t.active[c].LockMinted? ==> c in s.active && s.active[c] == t.active[c])
  }

  lemma BurningKeepsStream(log: seq<Fact>, fact: Fact, registry: Party, lock: string, amount: int)
    requires MintsDiffer(log, registry) && BurnsDiffer(log, registry) && BurnsMatchMints(log, registry)
    requires Foreign(fact, registry) && !BurnedIn(log, registry, lock) && GatewayMinting(registry, lock, amount) in log
    ensures var more := log + [fact] + [GatewayBurning(registry, lock, amount)];
      MintsDiffer(more, registry) && BurnsDiffer(more, registry) && BurnsMatchMints(more, registry)
  {
    var more := log + [fact] + [GatewayBurning(registry, lock, amount)];
    forall i | 0 <= i < |more| && BurnFact(more[i], registry) && i != |more| - 1 ensures i < |log| && more[i].lock != lock {
      assert more[i] in log;
    }
    forall f | f in more && BurnFact(f, registry) ensures GatewayMinting(registry, f.lock, f.amount) in more {
      assert f in log || f == GatewayBurning(registry, lock, amount);
    }
    forall i | 0 <= i < |more| && MintFact(more[i], registry) ensures i < |log| && more[i] == log[i] {
    }
  }

  lemma BurningStaysBalanced(s: State, t: State, cid: Cid, g: Gateway, lock: string, amount: int)
    requires Balanced(s, g.registry) && BurnsLock(s, t, cid, g, lock, amount)
    requires lock in g.minted && lock !in g.redeemed && GatewayMinting(g.registry, lock, amount) in s.log
    ensures Balanced(t, g.registry)
  {
    var r := g.registry;
    var fact :| Foreign(fact, r) && t.log == s.log + [fact] + [GatewayBurning(r, lock, amount)];
    assert GatewayOf(s, cid, r) && BooksOf(g, s.log);
    BurningKeepsStream(s.log, fact, r, lock, amount);
    ForeignFactsKeepBooks(g, s.log, [fact]);
    assert MintsDiffer(s.log + [fact], r);
    BurningKeepsBooks(g, s.log + [fact], lock, amount);
  }

  lemma LeaveRedeemIs(s: State, g: Gateway, request: Request)
    requires IdsAreOld(s) && G.LeaveRedeem(s, g, request).Ok?
    ensures var t := G.LeaveRedeem(s, g, request).value;
      && t.next == s.next + 2 && t.log == s.log + [GatewayBurning(g.registry, request.lock, request.amount)]
      && (forall c :: c in t.active && c in s.active ==> t.active[c] == s.active[c])
      && (forall c :: c in t.active && c !in s.active && t.active[c].Guarded? ==>
            c == t.next - 1 && t.active[c].gateway == g.(redeemed := [request.lock] + g.redeemed))
      && (forall c :: c in t.active && c !in s.active ==> !t.active[c].LockMinted?)
  {
  }

  lemma BurnIs(s: State, cid: Cid, authority: set<Party>)
    requires Burn(s, cid, authority).Ok?
    ensures cid in s.active && s.active[cid].Held?
    ensures var h := s.active[cid].holding;
      && h.registry == Stablecoin && h.instrument.admin in authority
      && Burn(s, cid, authority).value == Record(Consume(s, cid), Burning(Stablecoin, h.instrument, h.amount))
  {
  }

  /** A redemption is of a minted, unredeemed lock, for exactly the amount its minted lock records. */
  lemma RedeemNeeds(s: State, g: Gateway, args: G.RedeemArgs, request: Request)
    requires G.MayRedeem(s, g, args) == Ok(request)
    ensures args.minted in s.active && s.active[args.minted].LockMinted?
    ensures var minted := s.active[args.minted].minted;
      && minted.registry == g.registry && minted.lock == request.lock && minted.amount == request.amount
      && request.lock in g.minted && request.lock !in g.redeemed
    ensures request.holding in s.active && s.active[request.holding].Held?
    ensures var holding := s.active[request.holding].holding;
      holding.amount == request.amount && holding.instrument == g.instrument && holding.registry == Stablecoin
  {
  }

  lemma RedeemEffect(s: State, cid: Cid, args: G.RedeemArgs, authority: set<Party>)
    requires IdsAreOld(s) && G.Redeem(s, cid, args, authority).Ok?
    requires OneGateway(s, G.FetchGateway(s, cid).value.registry)
    ensures G.MayRedeem(s, G.FetchGateway(s, cid).value, args).Ok?
    ensures var g := G.FetchGateway(s, cid).value;
      var request := G.MayRedeem(s, g, args).value;
      BurnsLock(s, G.Redeem(s, cid, args, authority).value, cid, g, request.lock, request.amount)
  {
    RedeemParts(s, cid, args, authority);
    var g := G.FetchGateway(s, cid).value;
    var request := G.MayRedeem(s, g, args).value;
    var s1 := Consume(s, cid);
    BurnIs(s1, request.holding, {g.registry});
    var s2 := Burn(s1, request.holding, {g.registry}).value;
    LeaveRedeemIs(s2, g, request);
    var t := G.LeaveRedeem(s2, g, request).value;
    var h := s1.active[request.holding].holding;
    var fact := Burning(Stablecoin, h.instrument, h.amount);
    assert Foreign(fact, g.registry) && t.log == s.log + [fact] + [GatewayBurning(g.registry, request.lock, request.amount)];
    forall c | GatewayOf(t, c, g.registry) ensures c !in s2.active {
      assert GatewayOf(s, cid, g.registry);
      if c in s2.active {
        assert GatewayOf(s, c, g.registry);
      }
    }
  }

  lemma RedeemStaysBalanced(s: State, cid: Cid, args: G.RedeemArgs, authority: set<Party>)
    requires IdsAreOld(s) && G.Redeem(s, cid, args, authority).Ok?
    requires Balanced(s, G.FetchGateway(s, cid).value.registry)
    ensures Balanced(G.Redeem(s, cid, args, authority).value, G.FetchGateway(s, cid).value.registry)
  {
    RedeemEffect(s, cid, args, authority);
    var g := G.FetchGateway(s, cid).value;
    var request := G.MayRedeem(s, g, args).value;
    RedeemNeeds(s, g, args, request);
    BurningStaysBalanced(s, G.Redeem(s, cid, args, authority).value, cid, g, request.lock, request.amount);
  }

  // Gateways of other registries -------------------------------------------------------------------------------------

  lemma LeavingsLeaveOthersAlone(s: State, g: Gateway, a: Attestation, holding: Cid, request: Request, registry: Party)
    requires IdsAreOld(s) && g.registry != registry
    ensures G.LeaveMint(s, g, a, holding).Ok? ==> LeavesGatewayAlone(s, G.LeaveMint(s, g, a, holding).value, registry)
    ensures G.LeaveRedeem(s, g, request).Ok? ==> LeavesGatewayAlone(s, G.LeaveRedeem(s, g, request).value, registry)
  {
  }

  lemma MintLeavesOthersAlone(s: State, cid: Cid, firstCid: Cid, secondCid: Cid, authority: set<Party>, registry: Party)
    requires IdsAreOld(s) && G.Mint(s, cid, firstCid, secondCid, authority).Ok?
    requires G.FetchGateway(s, cid).value.registry != registry
    ensures LeavesGatewayAlone(s, G.Mint(s, cid, firstCid, secondCid, authority).value, registry)
  {
    MintParts(s, cid, firstCid, secondCid, authority);
    var (g, first) := (G.FetchGateway(s, cid).value, G.FetchAttestation(s, firstCid).value);
    var s1 := Consume(s, cid);
    var s2 := Issue(s1, g.issuer, first.beneficiary, first.amount, {g.registry}).value;
    assert LeavesGatewayAlone(s, s1, registry);
    IssueTouches(s1, g.issuer, first.beneficiary, first.amount, {g.registry});
    TouchingOthersLeavesAlone(s1, s2, {HoldingKind}, registry);
    AloneThenAlone(s, s1, s2, registry);
    LeavingsLeaveOthersAlone(s2, g, first, s.next, Request(0, 0, "", 0, 0, "", g.instrument, ""), registry);
    AloneThenAlone(s, s2, G.LeaveMint(s2, g, first, s.next).value, registry);
  }

  lemma RedeemLeavesOthersAlone(s: State, cid: Cid, args: G.RedeemArgs, authority: set<Party>, registry: Party)
    requires IdsAreOld(s) && G.Redeem(s, cid, args, authority).Ok?
    requires G.FetchGateway(s, cid).value.registry != registry
    ensures LeavesGatewayAlone(s, G.Redeem(s, cid, args, authority).value, registry)
  {
    RedeemParts(s, cid, args, authority);
    var g := G.FetchGateway(s, cid).value;
    var request := G.MayRedeem(s, g, args).value;
    var s1 := Consume(s, cid);
    var s2 := Burn(s1, request.holding, {g.registry}).value;
    assert LeavesGatewayAlone(s, s1, registry);
    BurnTouches(s1, request.holding, {g.registry});
    TouchingOthersLeavesAlone(s1, s2, {HoldingKind}, registry);
    AloneThenAlone(s, s1, s2, registry);
    LeavingsLeaveOthersAlone(s2, g, G.FetchAttestation(s, args.first).value, s.next, request, registry);
    AloneThenAlone(s, s2, G.LeaveRedeem(s2, g, request).value, registry);
  }

  lemma BindingsLeaveGatewaysAlone(s: State, c: BridgeChoice, authority: set<Party>, registry: Party)
    requires IdsAreOld(s) && BridgeStep(s, c, authority).Ok? && !c.DoMint? && !c.DoRedeem?
    ensures LeavesGatewayAlone(s, BridgeStep(s, c, authority).value, registry)
  {
    BindingsTouch(s, c, authority, BridgeStep(s, c, authority).value);
  }

  /** The transaction is a mint or a burn by the gateway of this registry. */
  predicate UsesGateway(s: State, e: Event, registry: Party) {
    match e
    case Bridge(DoMint(cid, _, _), _) => Step(s, e).Ok? && GatewayOf(s, cid, registry)
    case Bridge(DoRedeem(cid, _), _) => Step(s, e).Ok? && GatewayOf(s, cid, registry)
    case _ => false
  }

  lemma OtherBridgeStepsLeaveGatewayAlone(s: State, c: BridgeChoice, authority: set<Party>, registry: Party)
    requires IdsAreOld(s) && BridgeStep(s, c, authority).Ok? && !UsesGateway(s, Bridge(c, authority), registry)
    ensures LeavesGatewayAlone(s, BridgeStep(s, c, authority).value, registry)
  {
    match c
    case DoMint(cid, first, second) => MintLeavesOthersAlone(s, cid, first, second, authority, registry);
    case DoRedeem(cid, args) => RedeemLeavesOthersAlone(s, cid, args, authority, registry);
    case _ => BindingsLeaveGatewaysAlone(s, c, authority, registry);
  }

  lemma OtherStepsLeaveGatewayAlone(s: State, e: Event, registry: Party)
    requires Inv(s) && Step(s, e).Ok? && !UsesGateway(s, e, registry)
    ensures LeavesGatewayAlone(s, After(s, e), registry)
  {
    var t := After(s, e);
    match e
    case Bridge(c, authority) => OtherBridgeStepsLeaveGatewayAlone(s, c, authority, registry);
    case Token(c, authority) =>
      TokensTouch(s, c, authority, t);
      TouchingOthersLeavesAlone(s, t, {HoldingKind, AllocationKind}, registry);
    case Dvp(c, authority) => TradesLeaveGatewaysAlone(s, c, authority, t, registry);
    case Publishing(c, _) =>
      CreateTouches(s, c);
      TouchingOthersLeavesAlone(s, t, {KindOf(c)}, registry);
    case _ =>
  }

  lemma StepStaysBalanced(s: State, e: Event, registry: Party)
    requires Inv(s) && Balanced(s, registry)
    ensures Balanced(After(s, e), registry)
  {
    if UsesGateway(s, e, registry) {
      match e.bridge
      case DoMint(cid, first, second) => MintStaysBalanced(s, cid, first, second, e.authority);
      case DoRedeem(cid, args) => RedeemStaysBalanced(s, cid, args, e.authority);
    } else if Step(s, e).Ok? {
      OtherStepsLeaveGatewayAlone(s, e, registry);
      LeftAloneStaysBalanced(s, After(s, e), registry);
    }
  }

  lemma TradesLeaveGatewaysAlone(s: State, c: TradeChoice, authority: set<Party>, t: State, registry: Party)
    requires Inv(s) && TradeStep(s, c, authority) == Ok(t)
    ensures LeavesGatewayAlone(s, t, registry)
  {
    if c.DoSettle? {
      SettleTouches(s, c.cid, c.supplied, authority);
      TouchingOthersLeavesAlone(Consume(s, c.cid), t, {HoldingKind, AllocationKind}, registry);
      assert LeavesGatewayAlone(s, Consume(s, c.cid), registry);
      AloneThenAlone(s, Consume(s, c.cid), t, registry);
    } else {
      DealsTouch(s, c, authority, t);
      TouchingOthersLeavesAlone(s, t, {DealKind}, registry);
    }
  }

  /**
   * Over every run of a registry with one gateway: no lock is minted twice or burned twice, only minted locks are
   * burned and for the minted amount, and mints minus burns are the minted, unredeemed locks.
   */
  lemma {:induction false} BooksAlwaysBalance(s: State, events: seq<Event>, registry: Party)
    requires Inv(s) && Balanced(s, registry)
    ensures Balanced(Run(s, events), registry)
    decreases |events|
  {
    if events != [] {
      var init := events[..|events| - 1];
      BooksAlwaysBalance(s, init, registry);
      RunKeepsInv(s, init);
      StepStaysBalanced(Run(s, init), events[|events| - 1], registry);
    }
  }

  /** A fresh gateway starts with balanced books. */
  lemma FreshGatewayIsBalanced(registry: Party, issuer: Cid, instrument: InstrumentId, attesters: seq<Party>, now: Time)
    requires |attesters| == 3 && Distinct(attesters)
    ensures var s := State(map[0 := Guarded(Gateway(registry, attesters, issuer, instrument, [], []))], 1, now, []);
      Inv(s) && Balanced(s, registry)
  {
    var g := Gateway(registry, attesters, issuer, instrument, [], []);
    var s := State(map[0 := Guarded(g)], 1, now, []);
    assert Ensured(Guarded(g));
    assert BooksOf(g, []);
  }
}

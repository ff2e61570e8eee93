/** Any number of attempts, each stopped anywhere: the theorems about whole runs of the coordinator. */
module CoordinatorRuns {
  import opened Outcomes
  import opened Sums
  import E = Escrow
  import S = EscrowSafety
  import X = Exposure
  import opened OperationJournal
  import opened Rail
  import opened RailSafety
  import C = Coordinator
  import opened CoordinatorSafety

  // Every event keeps the invariant ----------------------------------------------------------------------------

  lemma StartKeepsInv(w: C.World, op: OperationId, flags: C.Flags)
    requires Faithful(w)
    ensures Faithful(C.Next(w, C.Start(op, flags)))
  {
    NothingIsClaimed(w.rail, op, C.DiskOf(w, op));
  }

  lemma NothingIsClaimed(r: State, op: OperationId, j: Journal)
    ensures JournalTrue(r, op, j) ==> OnwardTrue(r, op, j, C.Load)
    ensures JournalTrue(r, op, BLANK)
  {
  }

  lemma SomeMoveIsTrue(r: State, op: OperationId, a: C.Attempt, durations: C.Durations, proof: Bytes32, m: C.Move)
    requires Rail.Inv(r) && op in r.terms && OnwardTrue(r, op, a.mem, a.at) && m == C.MoveOf(r, op, a, durations, proof)
    ensures MoveTrue(r, op, m)
  {
    EveryMoveIsTrue(r, op, a, durations, proof);
  }

  lemma AdvanceIsAMove(w: C.World, op: OperationId, durations: C.Durations) returns (m: C.Move)
    requires op in w.attempts && op in w.rail.terms
    ensures m == C.MoveOf(w.rail, op, w.attempts[op], durations, w.proofs + 1)
    ensures C.Advance(w, op, durations) == C.Apply(w, op, m)
    ensures ActionOf(w, C.Run(op, durations)) == if m.action.Some? then [m.action.value] else []
  {
    m := C.MoveOf(w.rail, op, w.attempts[op], durations, w.proofs + 1);
  }

  /** A step of an attempt is some true move. */
  lemma AdvanceApplies(w: C.World, op: OperationId, durations: C.Durations) returns (m: C.Move)
    requires Rail.Inv(w.rail) && op in w.attempts && op in w.rail.terms
    requires OnwardTrue(w.rail, op, w.attempts[op].mem, w.attempts[op].at)
    ensures MoveTrue(w.rail, op, m) && C.Advance(w, op, durations) == C.Apply(w, op, m)
    ensures ActionOf(w, C.Run(op, durations)) == if m.action.Some? then [m.action.value] else []
  {
    m := AdvanceIsAMove(w, op, durations);
    SomeMoveIsTrue(w.rail, op, w.attempts[op], durations, w.proofs + 1, m);
  }

  lemma RunKeepsInv(w: C.World, op: OperationId, durations: C.Durations)
    requires Faithful(w) && op in w.attempts && op in w.rail.terms
    ensures Faithful(C.Advance(w, op, durations))
  {
    var m := AdvanceApplies(w, op, durations);
    TrueMovesKeepInv(w, op, m);
  }

  lemma WhatOthersDoIsAllowed(r: State, a: Action)
    requires C.OthersMay(r, a)
    ensures Allowed(r, a)
  {
  }

  lemma OthersKeepInv(w: C.World, a: Action)
    requires Faithful(w) && C.OthersMay(w.rail, a)
    ensures Faithful(w.(rail := Take(w.rail, a)))
  {
    WhatOthersDoIsAllowed(w.rail, a);
    RailSafety.StepKeepsInv(w.rail, a);
    OthersStayTrue(w, w.(rail := Take(w.rail, a)));
  }

  lemma NextKeepsInv(w: C.World, e: C.Event)
    requires Faithful(w)
    ensures Faithful(C.Next(w, e))
  {
    match e
    case Start(op, flags) => StartKeepsInv(w, op, flags);
    case Crash(op) =>
    case Run(op, durations) =>
      if op in w.attempts && op in w.rail.terms {
        RunKeepsInv(w, op, durations);
      }
    case Others(a) =>
      if C.OthersMay(w.rail, a) {
        OthersKeepInv(w, a);
      }
  }

  lemma {:induction false} RunsKeepInv(w: C.World, events: seq<C.Event>)
    requires Faithful(w)
    ensures Faithful(C.RunAll(w, events))
    decreases |events|
  {
    if events != [] {
      RunsKeepInv(w, events[..|events| - 1]);
      NextKeepsInv(C.RunAll(w, events[..|events| - 1]), events[|events| - 1]);
    }
  }

  lemma FreshIsGood(terms: map<OperationId, Terms>, escrow: E.State, zama: X.State)
    requires S.Inv(escrow) && escrow.signed == {} && X.Inv(zama) && zama.reservations == map[]
    ensures Faithful(C.Fresh(terms, escrow, zama))
  {
    RailSafety.InitialIsGood(terms, escrow, zama);
  }

  // Runs by their worlds ---------------------------------------------------------------------------------------

  /** The worlds that these events lead through, the first world included. */
  ghost predicate Leads(worlds: seq<C.World>, events: seq<C.Event>) {
    && |worlds| == |events| + 1
    && forall i {:trigger events[i]} :: 0 <= i < |events| ==> worlds[i + 1] == C.Next(worlds[i], events[i])
  }

  lemma LeadsOneFurther(worlds: seq<C.World>, events: seq<C.Event>, e: C.Event)
    requires Leads(worlds, events)
    ensures Leads(worlds + [C.Next(worlds[|worlds| - 1], e)], events + [e])
  {
  }

  lemma {:induction false} LeadsToTheRun(worlds: seq<C.World>, events: seq<C.Event>)
    requires Leads(worlds, events)
    ensures worlds[|worlds| - 1] == C.RunAll(worlds[0], events)
    decreases |events|
  {
    if events != [] {
      var (init, last) := (events[..|events| - 1], events[|events| - 1]);
      forall i | 0 <= i < |init| ensures worlds[i + 1] == C.Next(worlds[i], init[i]) {
        assert init[i] == events[i];
      }
      LeadsToTheRun(worlds[..|worlds| - 1], init);
    }
  }

  // The chain actions of a run ---------------------------------------------------------------------------------

  function ActionOf(w: C.World, e: C.Event): seq<Action> {
    match e
    case Run(op, durations) =>
      if op in w.attempts && op in w.rail.terms then
        match C.MoveOf(w.rail, op, w.attempts[op], durations, w.proofs + 1).action
        case Some(a) => [a]
        case None => []
      else
        []
    case Others(a) => if C.OthersMay(w.rail, a) then [a] else []
    case _ => []
  }

  function Actions(w: C.World, events: seq<C.Event>): seq<Action>
    decreases |events|
  {
    if events == [] then
      []
    else
      Actions(w, events[..|events| - 1]) + ActionOf(C.RunAll(w, events[..|events| - 1]), events[|events| - 1])
  }

  lemma MoveIsItsAction(w: C.World, op: OperationId, m: C.Move)
    requires op in w.attempts && MoveTrue(w.rail, op, m)
    ensures m.action.Some? ==> Allowed(w.rail, m.action.value) && C.Apply(w, op, m).rail == Take(w.rail, m.action.value)
    ensures m.action.None? ==> C.Apply(w, op, m).rail == w.rail
  {
  }

  lemma EventIsItsAction(w: C.World, e: C.Event)
    requires Faithful(w)
    ensures var actions := ActionOf(w, e);
      && (actions == [] ==> C.Next(w, e).rail == w.rail)
      && (actions != [] ==> |actions| == 1 && Allowed(w.rail, actions[0]) && C.Next(w, e).rail == Take(w.rail, actions[0]))
  {
    match e
    case Run(op, durations) =>
      if op in w.attempts && op in w.rail.terms {
        var m := AdvanceApplies(w, op, durations);
        MoveIsItsAction(w, op, m);
      }
    case Others(a) =>
      if C.OthersMay(w.rail, a) {
        WhatOthersDoIsAllowed(w.rail, a);
      }
    case _ =>
  }

  lemma {:induction false} RunsToAppend(r: State, actions: seq<Action>, t: State, a: Action)
    requires RunsTo(r, actions, t) && Allowed(t, a)
    ensures RunsTo(r, actions + [a], Take(t, a))
    decreases |actions|
  {
    if actions == [] {
      assert [a][1..] == [];
    } else {
      RunsToAppend(Take(r, actions[0]), actions[1..], t, a);
      assert (actions + [a])[1..] == actions[1..] + [a];
    }
  }

  /** Whatever the coordinator does, crashes and resumptions included, is an allowed run of the chains. */
  lemma {:induction false} CoordinatorRefinesRail(w: C.World, events: seq<C.Event>)
    requires Faithful(w)
    ensures RunsTo(w.rail, Actions(w, events), C.RunAll(w, events).rail)
    decreases |events|
  {
    if events != [] {
      var (init, last) := (events[..|events| - 1], events[|events| - 1]);
      var before := C.RunAll(w, init);
      CoordinatorRefinesRail(w, init);
      RunsKeepInv(w, init);
      EventIsItsAction(before, last);
      if ActionOf(before, last) == [] {
        assert Actions(w, events) == Actions(w, init);
      } else {
        RunsToAppend(w.rail, Actions(w, init), before.rail, ActionOf(before, last)[0]);
        assert Actions(w, events) == Actions(w, init) + [ActionOf(before, last)[0]];
      }
    }
  }

  // The theorems -----------------------------------------------------------------------------------------------

  /**
   * In every state of every run, with any number of attempts each stopped after any effect: an operation minted and
   * not burned has its value in the vault under an authorized receipt; released means burned; cancelled means never
   * minted; redeemed means released; and all bridged stablecoins together are within the vault and the exposure.
   */
  lemma BackingSurvivesCrashes(w: C.World, events: seq<C.Event>)
    requires Faithful(w)
    ensures var r := C.RunAll(w, events).rail;
      && (forall op :: BackedOperation(r, op))
      && Sum(OutstandingAmounts(r), Identity) <= r.escrow.vault
      && Sum(OutstandingAmounts(r), Identity) <= r.zama.reserved + r.zama.active
  {
    CoordinatorRefinesRail(w, events);
    BridgedCoinsAreBacked(w.rail, Actions(w, events), C.RunAll(w, events).rail);
  }

  /** Over every such run each lock, mint, settlement, burn, release and redemption is brought about at most once. */
  lemma EffectsHappenOnceDespiteCrashes(w: C.World, events: seq<C.Event>, effect: Effect, op: OperationId)
    requires Faithful(w)
    ensures Times(w.rail, Actions(w, events), effect, op) <= 1
  {
    CoordinatorRefinesRail(w, events);
    EachEffectHappensOnce(w.rail, Actions(w, events), C.RunAll(w, events).rail, effect, op);
  }

  /** The saved journal never reaches a step whose effect is missing on chain, and says cancelled only when it is. */
  lemma JournalIsNeverAhead(w: C.World, events: seq<C.Event>, op: OperationId, step: Step)
    requires Faithful(w)
    requires op in C.RunAll(w, events).disks && Reached(C.RunAll(w, events).disks[op], step)
    ensures var (r, done) := (C.RunAll(w, events).rail, C.RunAll(w, events).disks[op].completed.value);
      if done == Cancelled then Refunded(r, op) else Shows(r, op, Rank(step))
  {
    RunsKeepInv(w, events);
    var t := C.RunAll(w, events);
    assert JournalTrue(t.rail, op, t.disks[op]);
    if t.disks[op].completed.value != Cancelled {
      UpToLess(t.rail, op, Rank(t.disks[op].completed.value), Rank(step));
    }
  }
}

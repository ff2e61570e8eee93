/** What holds over whole runs of the exposure ledger. */
module ExposureRuns {
  import opened Outcomes
  import opened Sums
  import opened Exposure

  // A ledger without counters ---------------------------------------------------------------------------

  /** The same service with no counters and no wrap-around: exposure is whatever the reservations add up to. */
  datatype Plain = Plain(
    capacity: u64,
    limits: map<ClientId, u64>,
    reservations: map<ReservationId, Reservation>)

  ghost function PlainReserve(p: Plain, id: ReservationId, client: ClientId, amount: u64): Result<Plain, Error> {
    if id in p.reservations then
      Err(DuplicateReservation)
    else if client !in p.limits then
      Err(ClientNotConfigured)
    else
      var admitted :=
        && amount > 0
        && Sum(p.reservations, ReservedPart) + Sum(p.reservations, ActivePart) + amount <= p.capacity
        && Sum(p.reservations, ClientPart(client)) + amount <= p.limits[client];
      Ok(p.(reservations := p.reservations[id := Reservation(Reserved, client, if admitted then amount else 0, admitted)]))
  }

  function PlainMove(p: Plain, id: ReservationId, from: Status, to: Status): Result<Plain, Error> {
    if id !in p.reservations then
      Err(UnknownReservation)
    else if p.reservations[id].status != from then
      Err(WrongReservationStatus)
    else
      Ok(p.(reservations := p.reservations[id := p.reservations[id].(status := to)]))
  }

  ghost function PlainStep(p: Plain, call: Call): Result<Plain, Error> {
    match call
    case CallConfigureCapacity(capacity) => Ok(p.(capacity := capacity))
    case CallConfigureClientLimit(client, limit) => Ok(p.(limits := p.limits[client := limit]))
    case CallReserve(id, client, amount) => PlainReserve(p, id, client, amount)
    case CallFinalize(id) => PlainMove(p, id, Reserved, Finalized)
    case CallCancel(id) => PlainMove(p, id, Reserved, Cancelled)
    case CallRedeem(id) => PlainMove(p, id, Finalized, Redeemed)
  }

  ghost function PlainRun(p: Plain, calls: seq<Call>): Result<Plain, Error>
    decreases |calls|
  {
    if calls == [] then
      Ok(p)
    else
      var next :- PlainStep(p, calls[0]);
      PlainRun(next, calls[1..])
  }

  function Forget(s: State): Plain {
    Plain(s.capacity, s.limits, s.reservations)
  }

  function ForgetResult(r: Result<State, Error>): Result<Plain, Error> {
    match r
    case Ok(s) => Ok(Forget(s))
    case Err(e) => Err(e)
  }

  lemma StepRefinesPlain(s: State, call: Call)
    requires Inv(s)
    ensures ForgetResult(Step(s, call)) == PlainStep(Forget(s), call)
  {
    match call
    case CallConfigureCapacity(_) =>
    case CallConfigureClientLimit(_, _) =>
    case CallReserve(id, client, amount) =>
      if Reserve(s, id, client, amount).Ok? {
        ReserveDecidesExactly(s, id, client, amount);
      }
    case CallFinalize(_) =>
    case CallCancel(_) =>
    case CallRedeem(_) =>
  }

  /** Counters, flags and selects decide every run exactly as the plain ledger does, call by call. */
  lemma {:induction false} RefinesPlain(s: State, calls: seq<Call>)
    requires Inv(s)
    ensures ForgetResult(Run(s, calls)) == PlainRun(Forget(s), calls)
    decreases |calls|
  {
    if calls != [] {
      StepRefinesPlain(s, calls[0]);
      if Step(s, calls[0]).Ok? {
        StepKeepsInv(s, calls[0]);
        RefinesPlain(Step(s, calls[0]).value, calls[1..]);
      }
    }
  }

  // Capacity ----------------------------------------------------------------------------------------------

  function Committed(s: State): nat {
    s.reserved + s.active
  }

  function Max(a: nat, b: nat): nat {
    if a < b then b else a
  }

  /** The largest of `peak` and every capacity that the run configures. */
  function PeakCapacity(peak: nat, calls: seq<Call>): nat
    decreases |calls|
  {
    if calls == [] then
      peak
    else
      PeakCapacity(if calls[0].CallConfigureCapacity? then Max(peak, calls[0].capacity) else peak, calls[1..])
  }

  function PeakLimit(peak: nat, client: ClientId, calls: seq<Call>): nat
    decreases |calls|
  {
    if calls == [] then
      peak
    else
      PeakLimit(if calls[0].CallConfigureClientLimit? && calls[0].client == client then Max(peak, calls[0].limit) else peak,
                client, calls[1..])
  }

  function LimitOf(s: State, client: ClientId): nat {
    if client in s.limits then s.limits[client] else 0
  }

  lemma StepStaysUnderTheLimits(s: State, call: Call, client: ClientId)
    requires Inv(s) && Step(s, call).Ok?
    ensures var t := Step(s, call).value;
            && Committed(t) <= Max(Committed(s), s.capacity)
            && UsageOf(t, client) <= Max(UsageOf(s, client), LimitOf(s, client))
            && (call.CallConfigureCapacity? ==> t.capacity == call.capacity)
            && (!call.CallConfigureCapacity? ==> t.capacity == s.capacity)
            && (!(call.CallConfigureClientLimit? && call.client == client) ==> LimitOf(t, client) == LimitOf(s, client))
            && (call.CallConfigureClientLimit? && call.client == client ==> LimitOf(t, client) == call.limit)
            && (call.CallConfigureCapacity? || call.CallConfigureClientLimit? ==>
                  Committed(t) == Committed(s) && UsageOf(t, client) == UsageOf(s, client))
  {
    match call
    case CallConfigureCapacity(_) =>
    case CallConfigureClientLimit(_, _) =>
    case CallReserve(id, c, amount) => ReserveDecidesExactly(s, id, c, amount);
    case CallFinalize(id) => SettleStepsMoveTheAmount(s, id);
    case CallCancel(id) => SettleStepsMoveTheAmount(s, id);
    case CallRedeem(id) => SettleStepsMoveTheAmount(s, id);
  }

  /** Committed exposure never exceeds the largest capacity configured so far, nor a client its largest limit. */
  lemma {:induction false} NeverAboveThePeak(s: State, calls: seq<Call>, client: ClientId, peak: nat, peakLimit: nat)
    requires Inv(s) && Run(s, calls).Ok?
    requires Committed(s) <= peak && s.capacity <= peak
    requires UsageOf(s, client) <= peakLimit && LimitOf(s, client) <= peakLimit
    ensures Committed(Run(s, calls).value) <= PeakCapacity(peak, calls)
    ensures UsageOf(Run(s, calls).value, client) <= PeakLimit(peakLimit, client, calls)
    decreases |calls|
  {
    if calls != [] {
      var call := calls[0];
      StepKeepsInv(s, call);
      StepStaysUnderTheLimits(s, call, client);
      NeverAboveThePeak(
        Step(s, call).value, calls[1..], client,
        if call.CallConfigureCapacity? then Max(peak, call.capacity) else peak,
        if call.CallConfigureClientLimit? && call.client == client then Max(peakLimit, call.limit) else peakLimit);
    }
  }

  /** Committed exposure is within the current capacity in every state of the run. */
  predicate AlwaysWithin(s: State, calls: seq<Call>)
    requires Run(s, calls).Ok?
    decreases |calls|
  {
    && Committed(s) <= s.capacity
    && (calls != [] ==> AlwaysWithin(Step(s, calls[0]).value, calls[1..]))
  }

  /** No reconfiguration sets a capacity below what is committed at that moment. */
  predicate NeverUndercuts(s: State, calls: seq<Call>)
    requires Run(s, calls).Ok?
    decreases |calls|
  {
    calls != [] ==>
      && (calls[0].CallConfigureCapacity? ==> Committed(s) <= calls[0].capacity)
      && NeverUndercuts(Step(s, calls[0]).value, calls[1..])
  }

  /** Lowering the capacity below what is committed is the only way to leave it, and it always does. */
  lemma {:induction false} WithinUnlessUndercut(s: State, calls: seq<Call>)
    requires Inv(s) && Run(s, calls).Ok?
    requires Committed(s) <= s.capacity
    ensures AlwaysWithin(s, calls) <==> NeverUndercuts(s, calls)
    decreases |calls|
  {
    if calls != [] {
      var t := Step(s, calls[0]).value;
      StepKeepsInv(s, calls[0]);
      StepStaysUnderTheLimits(s, calls[0], 0);
      if Committed(t) <= t.capacity {
        WithinUnlessUndercut(t, calls[1..]);
      }
    }
  }

  predicate ClientAlwaysWithin(s: State, client: ClientId, calls: seq<Call>)
    requires Run(s, calls).Ok?
    decreases |calls|
  {
    && UsageOf(s, client) <= LimitOf(s, client)
    && (calls != [] ==> ClientAlwaysWithin(Step(s, calls[0]).value, client, calls[1..]))
  }

  predicate ClientNeverUndercut(s: State, client: ClientId, calls: seq<Call>)
    requires Run(s, calls).Ok?
    decreases |calls|
  {
    calls != [] ==>
      && (calls[0].CallConfigureClientLimit? && calls[0].client == client ==> UsageOf(s, client) <= calls[0].limit)
      && ClientNeverUndercut(Step(s, calls[0]).value, client, calls[1..])
  }

  lemma {:induction false} ClientWithinUnlessUndercut(s: State, client: ClientId, calls: seq<Call>)
    requires Inv(s) && Run(s, calls).Ok?
    requires UsageOf(s, client) <= LimitOf(s, client)
    ensures ClientAlwaysWithin(s, client, calls) <==> ClientNeverUndercut(s, client, calls)
    decreases |calls|
  {
    if calls != [] {
      var t := Step(s, calls[0]).value;
      StepKeepsInv(s, calls[0]);
      StepStaysUnderTheLimits(s, calls[0], client);
      if UsageOf(t, client) <= LimitOf(t, client) {
        ClientWithinUnlessUndercut(t, client, calls[1..]);
      }
    }
  }

  // Rejected reservations leave no trace ------------------------------------------------------------------

  function Rejected(s: State): set<ReservationId> {
    set id | id in s.reservations && !s.reservations[id].approved
  }

  predicate Concerns(call: Call, ids: set<ReservationId>) {
    match call
    case CallConfigureCapacity(_) => false
    case CallConfigureClientLimit(_, _) => false
    case CallReserve(id, _, _) => id in ids
    case CallFinalize(id) => id in ids
    case CallCancel(id) => id in ids
    case CallRedeem(id) => id in ids
  }

  function Erase(calls: seq<Call>, ids: set<ReservationId>): seq<Call> {
    if calls == [] then
      []
    else
      (if Concerns(calls[0], ids) then [] else [calls[0]]) + Erase(calls[1..], ids)
  }

  function Without(s: State, ids: set<ReservationId>): State {
    s.(reservations := s.reservations - ids)
  }

  lemma {:induction false} DecisionIsPermanent(s: State, calls: seq<Call>, id: ReservationId)
    requires id in s.reservations && Run(s, calls).Ok?
    ensures var t := Run(s, calls).value;
            && id in t.reservations
            && t.reservations[id] == s.reservations[id].(status := t.reservations[id].status)
    decreases |calls|
  {
    if calls != [] {
      DecisionIsPermanent(Step(s, calls[0]).value, calls[1..], id);
    }
  }

  lemma ErasedWriteIsInvisible(s: State, t: State, id: ReservationId, r: Reservation, ids: set<ReservationId>)
    requires id in ids && t == s.(reservations := s.reservations[id := r])
    ensures Without(t, ids) == Without(s, ids)
  {
    assert t.reservations - ids == s.reservations - ids;
  }

  lemma RejectedFinalizeWritesOneRecord(s: State, id: ReservationId)
    requires Inv(s) && Finalize(s, id).Ok? && !s.reservations[id].approved
    ensures var t := Finalize(s, id).value; t == s.(reservations := s.reservations[id := t.reservations[id]])
  {
    SettleStepsMoveTheAmount(s, id);
  }

  lemma RejectedCancelWritesOneRecord(s: State, id: ReservationId)
    requires Inv(s) && Cancel(s, id).Ok? && !s.reservations[id].approved
    ensures var t := Cancel(s, id).value; t == s.(reservations := s.reservations[id := t.reservations[id]])
  {
    SettleStepsMoveTheAmount(s, id);
    assert Cancel(s, id).value.usage == s.usage;
  }

  lemma RejectedRedeemWritesOneRecord(s: State, id: ReservationId)
    requires Inv(s) && Redeem(s, id).Ok? && !s.reservations[id].approved
    ensures var t := Redeem(s, id).value; t == s.(reservations := s.reservations[id := t.reservations[id]])
  {
    SettleStepsMoveTheAmount(s, id);
    assert Redeem(s, id).value.usage == s.usage;
  }

  /** A call on a rejected reservation changes that reservation and nothing else. */
  lemma RejectedCallWritesOneRecord(s: State, call: Call)
    requires Inv(s) && Step(s, call).Ok?
    requires !call.CallConfigureCapacity? && !call.CallConfigureClientLimit?
    requires !Step(s, call).value.reservations[call.id].approved
    ensures var t := Step(s, call).value; t == s.(reservations := s.reservations[call.id := t.reservations[call.id]])
  {
    match call
    case CallReserve(id, client, amount) => ReserveDecidesExactly(s, id, client, amount);
    case CallFinalize(id) => RejectedFinalizeWritesOneRecord(s, id);
    case CallCancel(id) => RejectedCancelWritesOneRecord(s, id);
    case CallRedeem(id) => RejectedRedeemWritesOneRecord(s, id);
  }

  /** Any other call does the same whether or not the erased reservations are there. */
  lemma KeptCallCommutes(s: State, call: Call, ids: set<ReservationId>)
    requires Step(s, call).Ok? && !Concerns(call, ids)
    ensures Step(Without(s, ids), call) == Ok(Without(Step(s, call).value, ids))
  {
    var t := Step(s, call).value;
    if !call.CallConfigureCapacity? && !call.CallConfigureClientLimit? {
      assert t.reservations - ids == (s.reservations - ids)[call.id := t.reservations[call.id]];
    }
  }

  lemma {:induction false} ErasureSimulates(s: State, calls: seq<Call>, ids: set<ReservationId>)
    requires Inv(s) && Run(s, calls).Ok?
    requires ids <= Rejected(Run(s, calls).value)
    ensures Run(Without(s, ids), Erase(calls, ids)) == Ok(Without(Run(s, calls).value, ids))
    decreases |calls|
  {
    if calls != [] {
      var next := Step(s, calls[0]).value;
      StepKeepsInv(s, calls[0]);
      ErasureSimulates(next, calls[1..], ids);
      if Concerns(calls[0], ids) {
        forall id | id in ids && id in next.reservations
          ensures !next.reservations[id].approved
        {
          DecisionIsPermanent(next, calls[1..], id);
        }
        RejectedCallWritesOneRecord(s, calls[0]);
        ErasedWriteIsInvisible(s, next, calls[0].id, next.reservations[calls[0].id], ids);
        assert Erase(calls, ids) == Erase(calls[1..], ids);
      } else {
        KeptCallCommutes(s, calls[0], ids);
        assert ([calls[0]] + Erase(calls[1..], ids))[1..] == Erase(calls[1..], ids);
      }
    }
  }

  /**
   * Deleting from any run every call on any choice of rejected reservations gives a run again, and it ends
   * with the same capacity, exposures, limits and usages, and the same record of every other reservation.
   */
  lemma RejectedReservationsCanBeErased(s: State, calls: seq<Call>, ids: set<ReservationId>)
    requires Inv(s) && s.reservations == map[]
    requires Run(s, calls).Ok?
    requires ids <= Rejected(Run(s, calls).value)
    ensures Run(s, Erase(calls, ids)) == Ok(Without(Run(s, calls).value, ids))
  {
    ErasureSimulates(s, calls, ids);
    assert s.reservations - ids == s.reservations;
  }
}

/**
 * The exposure ledger of ConfidentialRiskEngine.sol, on plain 64-bit numbers in place of ciphertexts.
 *
 * Every update is "try, then select": a checked operation yields a flag and a value, and the old value is
 * kept when the flag is false. A false flag would drop an update silently. The theorems here say that no
 * reachable state ever drops one.
 */
module Exposure {
  import opened Outcomes
  import opened Sums

  const U64_LIMIT: nat := 0x1_0000_0000_0000_0000
  type u64 = x: nat | x < U64_LIMIT

  type ClientId = Bytes32
  type ReservationId = Bytes32

  datatype Status = Reserved | Finalized | Cancelled | Redeemed

  /** What the contract's four reservation mappings hold for one identifier; an absent key is Empty. */
  datatype Reservation = Reservation(status: Status, client: ClientId, amount: u64, approved: bool)

  datatype State = State(
    capacity: u64,
    reserved: u64,
    active: u64,
    limits: map<ClientId, u64>,
    usage: map<ClientId, u64>,
    reservations: map<ReservationId, Reservation>)

  datatype Error = DuplicateReservation | UnknownReservation | WrongReservationStatus | ClientNotConfigured

  const INITIAL := State(0, 0, 0, map[], map[], map[])

  // Checked arithmetic of FHESafeMath -----------------------------------------------------------------

  function TryIncrease(a: u64, d: u64): (bool, u64) {
    if a + d < U64_LIMIT then (true, a + d) else (false, a)
  }

  function TryAdd(a: u64, b: u64): (bool, u64) {
    if a + b < U64_LIMIT then (true, a + b) else (false, 0)
  }

  function TryDecrease(a: u64, d: u64): (bool, u64) {
    if d <= a then (true, a - d) else (false, a)
  }

  function Select<T>(flag: bool, yes: T, no: T): T {
    if flag then yes else no
  }

  // Operations of the contract ------------------------------------------------------------------------

  function ConfigureCapacity(s: State, capacity: u64): State {
    s.(capacity := capacity)
  }

  function ConfigureClientLimit(s: State, client: ClientId, limit: u64): State {
    s.(limits := s.limits[client := limit], usage := if client in s.usage then s.usage else s.usage[client := 0])
  }

  function Reserve(s: State, id: ReservationId, client: ClientId, amount: u64): Result<State, Error> {
    if id in s.reservations then
      Err(DuplicateReservation)
    else if client !in s.usage || client !in s.limits then
      Err(ClientNotConfigured)
    else
      var (reservedOk, nextReserved) := TryIncrease(s.reserved, amount);
      var (usageOk, nextUsage) := TryIncrease(s.usage[client], amount);
      var (totalOk, nextCommitted) := TryAdd(nextReserved, s.active);
      var withinCapacity := totalOk && nextCommitted <= s.capacity;
      var withinClient := nextUsage <= s.limits[client];
      var positive := amount > 0;
      var approved := reservedOk && usageOk && withinCapacity && withinClient && positive;
      Ok(s.(reserved := Select(approved, nextReserved, s.reserved),
            usage := s.usage[client := Select(approved, nextUsage, s.usage[client])],
            reservations := s.reservations[id := Reservation(Reserved, client, Select(approved, amount, 0), approved)]))
  }

  function RequireStatus(s: State, id: ReservationId, expected: Status): Result<Reservation, Error> {
    if id !in s.reservations then
      Err(UnknownReservation)
    else if s.reservations[id].status != expected then
      Err(WrongReservationStatus)
    else
      Ok(s.reservations[id])
  }

  function Finalize(s: State, id: ReservationId): Result<State, Error> {
    var r :- RequireStatus(s, id, Reserved);
    var (reservedOk, nextReserved) := TryDecrease(s.reserved, r.amount);
    var (activeOk, nextActive) := TryIncrease(s.active, r.amount);
    var ok := reservedOk && activeOk;
    Ok(s.(reserved := Select(ok, nextReserved, s.reserved),
          active := Select(ok, nextActive, s.active),
          reservations := s.reservations[id := r.(status := Finalized)]))
  }

  /** A client with no recorded usage reads as zero, as an unset mapping entry does. */
  function UsageOf(s: State, client: ClientId): u64 {
    if client in s.usage then s.usage[client] else 0
  }

  function Cancel(s: State, id: ReservationId): Result<State, Error> {
    var r :- RequireStatus(s, id, Reserved);
    var (reservedOk, nextReserved) := TryDecrease(s.reserved, r.amount);
    var (usageOk, nextUsage) := TryDecrease(UsageOf(s, r.client), r.amount);
    var ok := reservedOk && usageOk;
    Ok(s.(reserved := Select(ok, nextReserved, s.reserved),
          usage := s.usage[r.client := Select(ok, nextUsage, UsageOf(s, r.client))],
          reservations := s.reservations[id := r.(status := Cancelled)]))
  }

  function Redeem(s: State, id: ReservationId): Result<State, Error> {
    var r :- RequireStatus(s, id, Finalized);
    var (activeOk, nextActive) := TryDecrease(s.active, r.amount);
    var (usageOk, nextUsage) := TryDecrease(UsageOf(s, r.client), r.amount);
    var ok := activeOk && usageOk;
    Ok(s.(active := Select(ok, nextActive, s.active),
          usage := s.usage[r.client := Select(ok, nextUsage, UsageOf(s, r.client))],
          reservations := s.reservations[id := r.(status := Redeemed)]))
  }

  // Runs ----------------------------------------------------------------------------------------------

  datatype Call =
    | CallConfigureCapacity(capacity: u64)
    | CallConfigureClientLimit(client: ClientId, limit: u64)
    | CallReserve(id: ReservationId, client: ClientId, amount: u64)
    | CallFinalize(id: ReservationId)
    | CallCancel(id: ReservationId)
    | CallRedeem(id: ReservationId)

  function Step(s: State, call: Call): Result<State, Error> {
    match call
    case CallConfigureCapacity(capacity) => Ok(ConfigureCapacity(s, capacity))
    case CallConfigureClientLimit(client, limit) => Ok(ConfigureClientLimit(s, client, limit))
    case CallReserve(id, client, amount) => Reserve(s, id, client, amount)
    case CallFinalize(id) => Finalize(s, id)
    case CallCancel(id) => Cancel(s, id)
    case CallRedeem(id) => Redeem(s, id)
  }

  /** A run is a list of calls that all succeed; a reverted call changes nothing and is no part of it. */
  function Run(s: State, calls: seq<Call>): Result<State, Error>
    decreases |calls|
  {
    if calls == [] then
      Ok(s)
    else
      var next :- Step(s, calls[0]);
      Run(next, calls[1..])
  }

  // The counters agree with the reservations ------------------------------------------------------------

  function ReservedPart(r: Reservation): int {
    if r.status.Reserved? then r.amount else 0
  }

  function ActivePart(r: Reservation): int {
    if r.status.Finalized? then r.amount else 0
  }

  function ClientPart(client: ClientId): Reservation -> int {
    (r: Reservation) => if r.client == client then ReservedPart(r) + ActivePart(r) else 0
  }

  function Amount(x: u64): int {
    x
  }

  ghost predicate CountersAgree(s: State) {
    && s.reserved == Sum(s.reservations, ReservedPart)
    && s.active == Sum(s.reservations, ActivePart)
    && forall c :: c in s.usage ==> s.usage[c] == Sum(s.reservations, ClientPart(c))
  }

  ghost predicate Inv(s: State) {
    && CountersAgree(s)
    && s.reserved + s.active < U64_LIMIT
    && Sum(s.usage, Amount) == s.reserved + s.active
    && s.limits.Keys == s.usage.Keys
    && (forall id :: id in s.reservations ==> s.reservations[id].client in s.usage)
    && (forall id :: id in s.reservations ==> (s.reservations[id].approved <==> s.reservations[id].amount > 0))
  }

  /** A live reservation is covered by each counter that it is part of. */
  lemma LiveAmountIsCovered(s: State, id: ReservationId)
    requires Inv(s) && id in s.reservations
    ensures var r := s.reservations[id];
            && (r.status.Reserved? ==> r.amount <= s.reserved && r.amount <= s.usage[r.client])
            && (r.status.Finalized? ==> r.amount <= s.active && r.amount <= s.usage[r.client])
  {
    var r := s.reservations[id];
    SumAtLeast(s.reservations, ReservedPart, id);
    SumAtLeast(s.reservations, ActivePart, id);
    SumAtLeast(s.reservations, ClientPart(r.client), id);
  }

  /** No `select` in finalize, cancel or redeem ever keeps an old value: the flag is true in every good state. */
  lemma NoUpdateIsDropped(s: State, id: ReservationId)
    requires Inv(s) && id in s.reservations
    ensures var r := s.reservations[id];
            && (r.status.Reserved? ==>
                  && TryDecrease(s.reserved, r.amount).0
                  && TryIncrease(s.active, r.amount).0
                  && TryDecrease(UsageOf(s, r.client), r.amount).0)
            && (r.status.Finalized? ==>
                  && TryDecrease(s.active, r.amount).0
                  && TryDecrease(UsageOf(s, r.client), r.amount).0)
  {
    LiveAmountIsCovered(s, id);
  }

  function Live(r: Reservation): int {
    ReservedPart(r) + ActivePart(r)
  }

  /** What one identifier contributes before it is written again. */
  function Before(s: State, id: ReservationId, part: Reservation -> int): int {
    if id in s.reservations then part(s.reservations[id]) else 0
  }

  lemma SumAfterWrite(s: State, id: ReservationId, r: Reservation, part: Reservation -> int)
    ensures Sum(s.reservations[id := r], part) == Sum(s.reservations, part) - Before(s, id, part) + part(r)
  {
    if id in s.reservations {
      SumReplace(s.reservations, part, id, r);
    } else {
      SumInsert(s.reservations, part, id, r);
    }
  }

  /** `t` is `s` with one reservation written and every counter that it is part of moved by as much. */
  ghost predicate Written(s: State, t: State, id: ReservationId, r: Reservation) {
    && r.client in s.usage
    && (id in s.reservations ==> s.reservations[id].client == r.client)
    && (r.approved <==> r.amount > 0)
    && t.reservations == s.reservations[id := r]
    && t.limits == s.limits
    && t.reserved == s.reserved - Before(s, id, ReservedPart) + ReservedPart(r)
    && t.active == s.active - Before(s, id, ActivePart) + ActivePart(r)
    && t.usage.Keys == s.usage.Keys
    && t.usage == s.usage[r.client := t.usage[r.client]]
    && t.usage[r.client] == s.usage[r.client] - Before(s, id, Live) + Live(r)
    && t.reserved + t.active < U64_LIMIT
  }

  lemma WriteKeepsClientSums(s: State, t: State, id: ReservationId, r: Reservation)
    requires CountersAgree(s) && Written(s, t, id, r)
    ensures forall c :: c in t.usage ==> t.usage[c] == Sum(t.reservations, ClientPart(c))
  {
    forall c | c in t.usage
      ensures t.usage[c] == Sum(t.reservations, ClientPart(c))
    {
      SumAfterWrite(s, id, r, ClientPart(c));
    }
  }

  lemma WriteKeepsInv(s: State, t: State, id: ReservationId, r: Reservation)
    requires Inv(s) && Written(s, t, id, r)
    ensures Inv(t)
  {
    WriteKeepsClientSums(s, t, id, r);
    SumAfterWrite(s, id, r, ReservedPart);
    SumAfterWrite(s, id, r, ActivePart);
    SumReplace(s.usage, Amount, r.client, t.usage[r.client]);
  }

  /** The reservation is admitted exactly when the plain sums leave room for it. */
  ghost predicate Admits(s: State, client: ClientId, amount: u64)
    requires client in s.limits
  {
    && amount > 0
    && Sum(s.reservations, ReservedPart) + Sum(s.reservations, ActivePart) + amount <= s.capacity
    && Sum(s.reservations, ClientPart(client)) + amount <= s.limits[client]
  }

  /** What `reserve` does, without flags: an admitted amount is added everywhere, any other is recorded as zero. */
  lemma ReserveDecidesExactly(s: State, id: ReservationId, client: ClientId, amount: u64)
    requires Inv(s) && Reserve(s, id, client, amount).Ok?
    ensures client in s.limits && id !in s.reservations
    ensures Reserve(s, id, client, amount).value ==
            if Admits(s, client, amount) then
              s.(reserved := s.reserved + amount,
                 usage := s.usage[client := s.usage[client] + amount],
                 reservations := s.reservations[id := Reservation(Reserved, client, amount, true)])
            else
              s.(reservations := s.reservations[id := Reservation(Reserved, client, 0, false)])
  {
    SumAtLeast(s.usage, Amount, client) by {
      forall c | c in s.usage ensures 0 <= Amount(s.usage[c]) {}
    }
    assert s.usage[client := s.usage[client]] == s.usage;
  }

  lemma SettleStepsMoveTheAmount(s: State, id: ReservationId)
    requires Inv(s) && id in s.reservations
    ensures var r := s.reservations[id];
            && r.client in s.usage
            && (Finalize(s, id).Ok? ==>
                  && r.amount <= s.reserved && s.active + r.amount < U64_LIMIT
                  && Finalize(s, id).value ==
                     s.(reserved := s.reserved - r.amount, active := s.active + r.amount,
                        reservations := s.reservations[id := r.(status := Finalized)]))
            && (Cancel(s, id).Ok? ==>
                  && r.amount <= s.reserved && r.amount <= s.usage[r.client]
                  && Cancel(s, id).value ==
                     s.(reserved := s.reserved - r.amount, usage := s.usage[r.client := s.usage[r.client] - r.amount],
                        reservations := s.reservations[id := r.(status := Cancelled)]))
            && (Redeem(s, id).Ok? ==>
                  && r.amount <= s.active && r.amount <= s.usage[r.client]
                  && Redeem(s, id).value ==
                     s.(active := s.active - r.amount, usage := s.usage[r.client := s.usage[r.client] - r.amount],
                        reservations := s.reservations[id := r.(status := Redeemed)]))
  {
    NoUpdateIsDropped(s, id);
  }

  lemma ReserveKeepsInv(s: State, id: ReservationId, client: ClientId, amount: u64)
    requires Inv(s) && Reserve(s, id, client, amount).Ok?
    ensures Inv(Reserve(s, id, client, amount).value)
  {
    ReserveDecidesExactly(s, id, client, amount);
    var t := Reserve(s, id, client, amount).value;
    assert t.usage == s.usage[client := t.usage[client]];
    WriteKeepsInv(s, t, id, t.reservations[id]);
  }

  lemma FinalizeKeepsInv(s: State, id: ReservationId)
    requires Inv(s) && Finalize(s, id).Ok?
    ensures Inv(Finalize(s, id).value)
  {
    SettleStepsMoveTheAmount(s, id);
    var r := s.reservations[id];
    var t := Finalize(s, id).value;
    assert t.usage == s.usage[r.client := t.usage[r.client]];
    WriteKeepsInv(s, t, id, r.(status := Finalized));
  }

  lemma CancelKeepsInv(s: State, id: ReservationId)
    requires Inv(s) && Cancel(s, id).Ok?
    ensures Inv(Cancel(s, id).value)
  {
    SettleStepsMoveTheAmount(s, id);
    var r := s.reservations[id];
    var t := Cancel(s, id).value;
    WriteKeepsInv(s, t, id, r.(status := Cancelled));
  }

  lemma RedeemKeepsInv(s: State, id: ReservationId)
    requires Inv(s) && Redeem(s, id).Ok?
    ensures Inv(Redeem(s, id).value)
  {
    SettleStepsMoveTheAmount(s, id);
    var r := s.reservations[id];
    var t := Redeem(s, id).value;
    WriteKeepsInv(s, t, id, r.(status := Redeemed));
  }

  lemma {:induction false} ClientWithoutReservations(m: map<ReservationId, Reservation>, client: ClientId)
    requires forall id :: id in m ==> m[id].client != client
    ensures Sum(m, ClientPart(client)) == 0
    decreases |m|
  {
    if m != map[] {
      var k :| k in m;
      SumRemove(m, ClientPart(client), k);
      ClientWithoutReservations(m - {k}, client);
    }
  }

  lemma ConfigureClientLimitKeepsInv(s: State, client: ClientId, limit: u64)
    requires Inv(s)
    ensures Inv(ConfigureClientLimit(s, client, limit))
  {
    if client !in s.usage {
      ClientWithoutReservations(s.reservations, client);
      SumInsert(s.usage, Amount, client, 0);
    }
  }

  lemma StepKeepsInv(s: State, call: Call)
    requires Inv(s) && Step(s, call).Ok?
    ensures Inv(Step(s, call).value)
  {
    match call
    case CallConfigureCapacity(capacity) =>
    case CallConfigureClientLimit(client, limit) => ConfigureClientLimitKeepsInv(s, client, limit);
    case CallReserve(id, client, amount) => ReserveKeepsInv(s, id, client, amount);
    case CallFinalize(id) => FinalizeKeepsInv(s, id);
    case CallCancel(id) => CancelKeepsInv(s, id);
    case CallRedeem(id) => RedeemKeepsInv(s, id);
  }

  /** In every state that any run reaches, the counters agree with the reservations and fit in 64 bits. */
  lemma {:induction false} ExposureAgrees(s: State, calls: seq<Call>)
    requires Inv(s) && Run(s, calls).Ok?
    ensures Inv(Run(s, calls).value)
    decreases |calls|
  {
    if calls != [] {
      StepKeepsInv(s, calls[0]);
      ExposureAgrees(Step(s, calls[0]).value, calls[1..]);
    }
  }

  lemma InitialIsGood()
    ensures Inv(INITIAL)
  {
  }
}

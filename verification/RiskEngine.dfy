/**
 * ConfidentialRiskEngine.sol as a contract object: one field per storage slot, updated in place.
 *
 * Every method is one step of the exposure ledger on `View()`, so the theorems of Exposure and ExposureRuns
 * hold of every object: it starts at Exposure.INITIAL and only these methods write to it.
 */
module RiskEngine {
  import opened Outcomes
  import E = Exposure

  /** The four reservation mappings read as one. */
  ghost function Records(status: map<E.ReservationId, E.Status>, client: map<E.ReservationId, E.ClientId>,
                         amount: map<E.ReservationId, E.u64>, approved: map<E.ReservationId, bool>)
    : map<E.ReservationId, E.Reservation>
  {
    map id | id in status && id in client && id in amount && id in approved ::
      E.Reservation(status[id], client[id], amount[id], approved[id])
  }

  lemma RecordsAfterWrite(status: map<E.ReservationId, E.Status>, client: map<E.ReservationId, E.ClientId>,
                          amount: map<E.ReservationId, E.u64>, approved: map<E.ReservationId, bool>,
                          id: E.ReservationId, r: E.Reservation)
    ensures Records(status[id := r.status], client[id := r.client], amount[id := r.amount], approved[id := r.approved])
            == Records(status, client, amount, approved)[id := r]
  {
  }

  class ConfidentialRiskEngine {
    var globalCapacity: E.u64
    var reservedExposure: E.u64
    var activeExposure: E.u64
    var clientLimit: map<E.ClientId, E.u64>
    var clientUsage: map<E.ClientId, E.u64>
    var reservationStatus: map<E.ReservationId, E.Status>
    var reservationClient: map<E.ReservationId, E.ClientId>
    var reservationAmount: map<E.ReservationId, E.u64>
    var reservationApproved: map<E.ReservationId, bool>

    /** The four reservation mappings cover the same identifiers, and every reservation has a configured client. */
    ghost predicate Valid()
      reads this
    {
      && reservationClient.Keys == reservationStatus.Keys
      && reservationAmount.Keys == reservationStatus.Keys
      && reservationApproved.Keys == reservationStatus.Keys
      && clientLimit.Keys == clientUsage.Keys
      && forall id :: id in reservationClient ==> reservationClient[id] in clientUsage
    }

    ghost function View(): E.State
      reads this
    {
      E.State(globalCapacity, reservedExposure, activeExposure, clientLimit, clientUsage,
              Records(reservationStatus, reservationClient, reservationAmount, reservationApproved))
    }

    constructor ()
      ensures Valid() && View() == E.INITIAL
    {
      globalCapacity, reservedExposure, activeExposure := 0, 0, 0;
      clientLimit, clientUsage := map[], map[];
      reservationStatus, reservationClient, reservationAmount, reservationApproved := map[], map[], map[], map[];
      new;
    }

    method ConfigureCapacity(capacity: E.u64)
      requires Valid()
      modifies this
      ensures Valid() && View() == E.ConfigureCapacity(old(View()), capacity)
    {
      globalCapacity := capacity;
    }

    method ConfigureClientLimit(client: E.ClientId, limit: E.u64)
      requires Valid()
      modifies this
      ensures Valid() && View() == E.ConfigureClientLimit(old(View()), client, limit)
    {
      clientLimit := clientLimit[client := limit];
      if client !in clientUsage {
        clientUsage := clientUsage[client := 0];
      }
    }

    /** The four mapping writes that record a new reservation. */
    method Record(id: E.ReservationId, client: E.ClientId, amount: E.u64, approved: bool)
      requires Valid() && client in clientUsage
      modifies this`reservationAmount, this`reservationApproved, this`reservationClient, this`reservationStatus
      ensures Valid()
      ensures View() == old(View()).(reservations := old(View()).reservations[id := E.Reservation(E.Reserved, client, amount, approved)])
    {
      RecordsAfterWrite(reservationStatus, reservationClient, reservationAmount, reservationApproved, id,
                        E.Reservation(E.Reserved, client, amount, approved));
      reservationAmount := reservationAmount[id := amount];
      reservationApproved := reservationApproved[id := approved];
      reservationClient := reservationClient[id := client];
      reservationStatus := reservationStatus[id := E.Reserved];
    }

    method Reserve(id: E.ReservationId, client: E.ClientId, amount: E.u64) returns (r: Outcome<E.Error>)
      requires Valid()
      modifies this
      ensures Valid()
      ensures match E.Reserve(old(View()), id, client, amount)
              case Ok(t) => r == Pass && View() == t
              case Err(e) => r == Fail(e) && View() == old(View())
    {
      if id in reservationStatus {
        return Fail(E.DuplicateReservation);
      }
      if client !in clientUsage {
        return Fail(E.ClientNotConfigured);
      }
      var (reservedOk, nextReserved) := E.TryIncrease(reservedExposure, amount);
      var (usageOk, nextUsage) := E.TryIncrease(clientUsage[client], amount);
      var (totalOk, nextCommitted) := E.TryAdd(nextReserved, activeExposure);
      var withinCapacity := totalOk && nextCommitted <= globalCapacity;
      var withinClient := nextUsage <= clientLimit[client];
      var positive := amount > 0;
      var approved := reservedOk && usageOk && withinCapacity && withinClient && positive;
      reservedExposure := E.Select(approved, nextReserved, reservedExposure);
      clientUsage := clientUsage[client := E.Select(approved, nextUsage, clientUsage[client])];
      var effectiveAmount := E.Select(approved, amount, 0);
      Record(id, client, effectiveAmount, approved);
      r := Pass;
    }

    method RequireStatus(id: E.ReservationId, expected: E.Status) returns (r: Outcome<E.Error>)
      requires Valid()
      ensures match E.RequireStatus(View(), id, expected)
              case Ok(_) => r == Pass && id in reservationStatus
              case Err(e) => r == Fail(e)
    {
      if id !in reservationStatus {
        return Fail(E.UnknownReservation);
      }
      if reservationStatus[id] != expected {
        return Fail(E.WrongReservationStatus);
      }
      return Pass;
    }

    method Finalize(id: E.ReservationId) returns (r: Outcome<E.Error>)
      requires Valid()
      modifies this
      ensures Valid()
      ensures match E.Finalize(old(View()), id)
              case Ok(t) => r == Pass && View() == t
              case Err(e) => r == Fail(e) && View() == old(View())
    {
      ghost var before := View();
      r := RequireStatus(id, E.Reserved);
      if r.Fail? {
        return;
      }
      var amount := reservationAmount[id];
      var (reservedOk, nextReserved) := E.TryDecrease(reservedExposure, amount);
      var (activeOk, nextActive) := E.TryIncrease(activeExposure, amount);
      var ok := reservedOk && activeOk;
      reservedExposure := E.Select(ok, nextReserved, reservedExposure);
      activeExposure := E.Select(ok, nextActive, activeExposure);
      reservationStatus := reservationStatus[id := E.Finalized];
      assert View().reservations == before.reservations[id := before.reservations[id].(status := E.Finalized)];
    }

    method Cancel(id: E.ReservationId) returns (r: Outcome<E.Error>)
      requires Valid()
      modifies this
      ensures Valid()
      ensures match E.Cancel(old(View()), id)
              case Ok(t) => r == Pass && View() == t
              case Err(e) => r == Fail(e) && View() == old(View())
    {
      ghost var before := View();
      r := RequireStatus(id, E.Reserved);
      if r.Fail? {
        return;
      }
      var amount := reservationAmount[id];
      var client := reservationClient[id];
      var (reservedOk, nextReserved) := E.TryDecrease(reservedExposure, amount);
      var (usageOk, nextUsage) := E.TryDecrease(clientUsage[client], amount);
      var ok := reservedOk && usageOk;
      reservedExposure := E.Select(ok, nextReserved, reservedExposure);
      clientUsage := clientUsage[client := E.Select(ok, nextUsage, clientUsage[client])];
      reservationStatus := reservationStatus[id := E.Cancelled];
      assert View().reservations == before.reservations[id := before.reservations[id].(status := E.Cancelled)];
    }

    method Redeem(id: E.ReservationId) returns (r: Outcome<E.Error>)
      requires Valid()
      modifies this
      ensures Valid()
      ensures match E.Redeem(old(View()), id)
              case Ok(t) => r == Pass && View() == t
              case Err(e) => r == Fail(e) && View() == old(View())
    {
      ghost var before := View();
      r := RequireStatus(id, E.Finalized);
      if r.Fail? {
        return;
      }
      var amount := reservationAmount[id];
      var client := reservationClient[id];
      var (activeOk, nextActive) := E.TryDecrease(activeExposure, amount);
      var (usageOk, nextUsage) := E.TryDecrease(clientUsage[client], amount);
      var ok := activeOk && usageOk;
      activeExposure := E.Select(ok, nextActive, activeExposure);
      clientUsage := clientUsage[client := E.Select(ok, nextUsage, clientUsage[client])];
      reservationStatus := reservationStatus[id := E.Redeemed];
      assert View().reservations == before.reservations[id := before.reservations[id].(status := E.Redeemed)];
    }
  }
}

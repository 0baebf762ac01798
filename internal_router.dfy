/** The internal router: employees list open internal shipments and claim one to deliver it. */
module InternalRouter {
  import opened Wrappers
  import opened Errors
  import opened Enums
  import opened Uuids
  import opened Models
  import opened Schemas
  import opened ShipmentStore
  import opened ShipmentQuery
  import opened ShipmentsRouter
  import opened Profile

  const NotInternalClaim := Http(400, "Shipment is not internal.")
  const NotPending := Http(400, "Shipment is not pending.")

  /** A shipment waiting for an employee: carried by the internal fleet and still pending. */
  predicate IsOpen(row: StoredShipment) {
    row.provider == Internal && row.status.message == Pending
  }

  /** `get_open_shipments`: the caller's page, oldest first, pending internal shipments only. */
  function OpenShipmentsQuery(page: Pagination): ShipmentQueryParams {
    ShipmentQueryParams(page.limit, page.offset, false, Some(Pending), Some(Internal), None, None, None)
  }

  /** Every listed shipment is stored and open, oldest first; a non-negative `limit` bounds their number. */
  function GetOpenShipments(rows: seq<StoredShipment>, page: Pagination): (r: seq<StoredShipment>)
    ensures page.limit >= 0 ==> |r| <= page.limit
    ensures forall x :: x in r ==> x in rows && IsOpen(x)
    ensures IsOrdered(r, false)
  {
    GetShipments(rows, OpenShipmentsQuery(page))
  }

  /** A first page as large as the table lists every open shipment. */
  lemma OpenShipmentsAreAllListed(rows: seq<StoredShipment>, page: Pagination)
    requires page.offset <= 0 && (page.limit < 0 || page.limit >= |rows|)
    ensures forall x :: x in rows && IsOpen(x) ==> x in GetOpenShipments(rows, page)
  {
    FirstPageIsComplete(rows, OpenShipmentsQuery(page));
    forall x | x in rows && IsOpen(x)
      ensures x in GetOpenShipments(rows, page)
    {
      assert Matches(FiltersOf(OpenShipmentsQuery(page)), x);
      assert multiset(rows)[x] > 0;
    }
  }

  /** The row after a claim: shipped at `now`, reserved for the employee. */
  function Claimed(row: StoredShipment, employee: Uuid, shipmentId: Uuid, now: Time): StoredShipment {
    row.(status := row.status.(message := Shipped, updatedAt := now),
         reservation := Some(Reservation(employee, shipmentId)))
  }

  /** A claim touches only the status message, its update time and the reservation. */
  lemma ClaimFrame(row: StoredShipment, employee: Uuid, shipmentId: Uuid, now: Time)
    ensures Claimed(row, employee, shipmentId, now).(status := row.status, reservation := row.reservation) == row
    ensures Claimed(row, employee, shipmentId, now).status.expectedAt == row.status.expectedAt
    ensures Claimed(row, employee, shipmentId, now).status.deliveredAt == row.status.deliveredAt
  {
  }

  /** A claimed shipment is no longer open, so it leaves the open list and cannot be claimed again. */
  lemma ClaimedIsNotOpen(row: StoredShipment, employee: Uuid, shipmentId: Uuid, now: Time, page: Pagination)
    ensures !IsOpen(Claimed(row, employee, shipmentId, now))
    ensures !Matches(FiltersOf(OpenShipmentsQuery(page)), Claimed(row, employee, shipmentId, now))
  {
  }

  /**
   * After claiming an open shipment that holds no reservation yet, the claimant, and nobody
   * else, may update its status.
   */
  lemma ClaimantMayUpdate(row: StoredShipment, employee: Uuid, other: Uuid, shipmentId: Uuid, now: Time)
    requires IsOpen(row) && row.reservation.None?
    ensures MayUpdateStatus(Claimed(row, employee, shipmentId, now), employee)
    ensures other != employee ==> !MayUpdateStatus(Claimed(row, employee, shipmentId, now), other)
  {
  }

  /** Setting a claimed shipment's status back to PENDING makes it open again. */
  lemma PendingUpdateReopens(row: StoredShipment, now: Time)
    requires row.provider == Internal
    ensures IsOpen(StatusUpdated(row, Pending, now))
  {
  }

  /**
   * `claim_shipment`; `now` is the clock reading. The checks run in order: the shipment exists,
   * its carrier is internal, it is pending.
   */
  method ClaimShipment(table: ShipmentTable, shipmentId: Uuid, profile: AccountProfile, now: Time)
    returns (r: Result<StoredShipment, Error>)
    modifies table
    ensures shipmentId !in old(table.rows) ==> r == Failure(ShipmentNotFound)
    ensures shipmentId in old(table.rows) && old(table.rows)[shipmentId].provider != Internal ==>
      r == Failure(NotInternalClaim)
    ensures (shipmentId in old(table.rows) && old(table.rows)[shipmentId].provider == Internal &&
      old(table.rows)[shipmentId].status.message != Pending) ==> r == Failure(NotPending)
    ensures r.Failure? ==> table.rows == old(table.rows)
    ensures r.Success? <==> shipmentId in old(table.rows) && IsOpen(old(table.rows)[shipmentId])
    ensures r.Success? ==>
      && table.rows == old(table.rows)[shipmentId := Claimed(old(table.rows)[shipmentId], profile.userId, shipmentId, now)]
      && r.value == table.rows[shipmentId]
  {
    if shipmentId !in table.rows {
      return Failure(ShipmentNotFound);
    }
    var shipment := table.rows[shipmentId];
    if shipment.provider != Internal {
      return Failure(NotInternalClaim);
    }
    if shipment.status.message != Pending {
      return Failure(NotPending);
    }
    var claimed := Claimed(shipment, profile.userId, shipmentId, now);
    table.Update(shipmentId, claimed);
    r := Success(claimed);
  }
}

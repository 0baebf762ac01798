/**
 * The order router: creating a delivery (remove stock, create the shipment, store everything
 * in one commit, and put the stock back if anything raises) and creating a return.
 */
module Orders {
  import opened Wrappers
  import opened Errors
  import opened Enums
  import opened Uuids
  import opened Models
  import opened Schemas
  import opened Stock

  /** The keyword names `Shipment.model_dump()` produces, in field order. */
  const ShipmentFields: seq<string> :=
    ["shipment_id", "from_address", "shipping_address", "provider", "provider_shipment_id", "created_at", "items", "status"]

  /**
   * The names left after a `model_dump(exclude=...)`. Pydantic types `exclude` as a set of
   * field names, and the list the router passes is read as the set of its elements.
   */
  function Excluding(names: seq<string>, excluded: set<string>): (r: seq<string>)
    ensures forall n :: n in r <==> n in names && n !in excluded
  {
    if names == [] then []
    else (if names[0] in excluded then [] else [names[0]]) + Excluding(names[1..], excluded)
  }

  /**
   * The keywords a call `f(**unpacked, e1=..., e2=...)` receives. Python raises TypeError when
   * a keyword arrives both from the unpacked dictionary and explicitly.
   */
  function KeywordArguments(unpacked: seq<string>, explicit: seq<string>): (r: Result<seq<string>, Error>)
    ensures r.Failure? <==> exists n :: n in unpacked && n in explicit
    ensures r.Failure? ==> r.error == TypeError
    ensures r.Success? ==> forall n :: n in r.value <==> n in unpacked || n in explicit
  {
    if explicit == [] then Success(unpacked)
    else if explicit[0] in unpacked then Failure(TypeError)
    else
      match KeywordArguments(unpacked, explicit[1..])
      case Failure(e) => Failure(e)
      case Success(names) => Success(names + [explicit[0]])
  }

  /**
   * `schemas.Shipment(**shipment.model_dump(exclude=excluded), status=status, items=...)`: the
   * stored row for a created shipment, with an explicit status and no reservation.
   */
  function BuildStoredShipment(shipment: Shipment, status: StoredStatus, excluded: set<string>)
    : (r: Result<StoredShipment, Error>)
    ensures r.Success? <==> "status" in excluded && "items" in excluded
    ensures r.Failure? ==> r.error == TypeError
    ensures r.Success? ==>
      && r.value.shipmentId == shipment.shipmentId
      && r.value.fromAddress == shipment.fromAddress
      && r.value.shippingAddress == shipment.shippingAddress
      && r.value.provider == shipment.provider
      && r.value.providerShipmentId == shipment.providerShipmentId
      && r.value.createdAt == shipment.createdAt
      && r.value.items == shipment.items
      && r.value.status == status
      && r.value.reservation == None
  {
    var unpacked := Excluding(ShipmentFields, excluded);
    assert "status" !in excluded ==> "status" in unpacked;
    assert "items" !in excluded ==> "items" in unpacked;
    match KeywordArguments(unpacked, ["status", "items"])
    case Failure(e) => Failure(e)
    case Success(_) => Success(RowOf(shipment, status))
  }

  /** A created shipment's fields with the given status and no reservation. */
  function RowOf(shipment: Shipment, status: StoredStatus): StoredShipment {
    StoredShipment(
      shipment.shipmentId, shipment.fromAddress, shipment.shippingAddress, shipment.provider,
      shipment.providerShipmentId, shipment.createdAt, shipment.items, status, None)
  }

  /** The row as the order router writes it: the dump excludes only the items. */
  function StoredShipmentAsWritten(shipment: Shipment, status: StoredStatus): (r: Result<StoredShipment, Error>)
    ensures r.Success? ==> r.value == RowOf(shipment, status)
  {
    BuildStoredShipment(shipment, status, {"items"})
  }

  /** The dump keeps `status`, which the call also passes explicitly: every such call raises. */
  lemma DuplicateStatusRaises(shipment: Shipment, status: StoredStatus)
    ensures StoredShipmentAsWritten(shipment, status) == Failure(TypeError)
  {
  }

  /** The row as evidently intended: the dump excludes the status that is passed explicitly. */
  function StoredShipmentOf(shipment: Shipment, status: StoredStatus): (r: Result<StoredShipment, Error>)
    ensures r.Success? ==> r.value == RowOf(shipment, status)
  {
    BuildStoredShipment(shipment, status, {"items", "status"})
  }

  /** With `status` excluded, the row always builds and carries the explicit status. */
  lemma ExcludingStatusBuilds(shipment: Shipment, status: StoredStatus)
    ensures StoredShipmentOf(shipment, status) == Success(RowOf(shipment, status))
  {
  }

  /** The status row of a shipment as a provider reports it. */
  function StatusRow(status: ShipmentStatus): StoredStatus {
    StoredStatus(status.message, status.expectedAt, status.updatedAt, status.deliveredAt)
  }

  /** The deliveries and returns the router adds and commits. */
  class OrderStore {
    var deliveries: seq<StoredDelivery>
    var storedReturns: seq<StoredReturn>

    constructor()
      ensures deliveries == [] && storedReturns == []
    {
      deliveries := [];
      storedReturns := [];
    }

    /** `db.add` of a delivery, then `db.commit`; `outcome` says whether the commit raises. */
    method AddDelivery(delivery: StoredDelivery, outcome: Option<Error>) returns (r: Result<(), Error>)
      modifies this
      ensures outcome.None? ==> r == Success(()) && deliveries == old(deliveries) + [delivery]
      ensures outcome.Some? ==> r == Failure(outcome.value) && deliveries == old(deliveries)
      ensures storedReturns == old(storedReturns)
    {
      if outcome.Some? {
        return Failure(outcome.value);
      }
      deliveries := deliveries + [delivery];
      r := Success(());
    }

    /** `db.add` of a return, then `db.commit`; `outcome` says whether the commit raises. */
    method AddReturn(ret: StoredReturn, outcome: Option<Error>) returns (r: Result<(), Error>)
      modifies this
      ensures outcome.None? ==> r == Success(()) && storedReturns == old(storedReturns) + [ret]
      ensures outcome.Some? ==> r == Failure(outcome.value) && storedReturns == old(storedReturns)
      ensures deliveries == old(deliveries)
    {
      if outcome.Some? {
        return Failure(outcome.value);
      }
      storedReturns := storedReturns + [ret];
      r := Success(());
    }
  }

  /**
   * What the outside world does for one chunk: whether removing its stock raises, what creating
   * its shipment returns or raises, and the clock reading stored as the status's `updated_at`.
   */
  datatype ChunkEffects = ChunkEffects(removal: Option<Error>, created: Result<Shipment, Error>, updatedAt: Time)

  /**
   * Which construction the delivery loop uses for a shipment row: the code as written, whose
   * dump repeats `status`, or the evidently intended one that excludes it.
   */
  datatype RowBuilder = AsWritten | Corrected

  /**
   * What building a created shipment's row gives the delivery loop: TypeError as written, the
   * row with the given status when corrected (`BuildRowIsConstruction` ties both to the call).
   */
  function BuildRow(builder: RowBuilder, shipment: Shipment, status: StoredStatus): Result<StoredShipment, Error> {
    if builder.AsWritten? then Failure(TypeError) else Success(RowOf(shipment, status))
  }

  /** Each builder gives exactly what its `schemas.Shipment(...)` call gives. */
  lemma BuildRowIsConstruction(shipment: Shipment, status: StoredStatus)
    ensures BuildRow(AsWritten, shipment, status) == StoredShipmentAsWritten(shipment, status)
    ensures BuildRow(Corrected, shipment, status) == StoredShipmentOf(shipment, status)
  {
    DuplicateStatusRaises(shipment, status);
    ExcludingStatusBuilds(shipment, status);
  }

  /**
   * Whether the loop body raises for a chunk: removing its stock, creating its shipment, or
   * building its row, which `BuildRow` shows raises exactly for the construction as written.
   */
  predicate ChunkFails(builder: RowBuilder, effect: ChunkEffects) {
    effect.removal.Some? || effect.created.Failure? || builder.AsWritten?
  }

  /** The first chunk for which the loop body raises, or the number of chunks. */
  function FirstFailingChunk(builder: RowBuilder, effects: seq<ChunkEffects>): (n: nat)
    ensures n <= |effects|
    ensures forall i :: 0 <= i < n ==> !ChunkFails(builder, effects[i])
    ensures n < |effects| ==> ChunkFails(builder, effects[n])
  {
    if effects == [] then 0
    else if ChunkFails(builder, effects[0]) then 0
    else 1 + FirstFailingChunk(builder, effects[1..])
  }

  /** The scan stops at a chunk that raises, when no earlier chunk did. */
  lemma FailsAt(builder: RowBuilder, effects: seq<ChunkEffects>, i: nat)
    requires i <= FirstFailingChunk(builder, effects) && i < |effects|
    requires ChunkFails(builder, effects[i])
    ensures FirstFailingChunk(builder, effects) == i
  {
  }

  /** The scan passes a chunk that does not raise, when no earlier chunk did. */
  lemma PassesAt(builder: RowBuilder, effects: seq<ChunkEffects>, i: nat)
    requires i <= FirstFailingChunk(builder, effects) && i < |effects|
    requires !ChunkFails(builder, effects[i])
    ensures i < FirstFailingChunk(builder, effects)
  {
  }

  /** How many removals succeed and are recorded before the loop stops. */
  function RecordedRemovals(builder: RowBuilder, effects: seq<ChunkEffects>): nat {
    var n := FirstFailingChunk(builder, effects);
    if n < |effects| && effects[n].removal.None? then n + 1 else n
  }

  /**
   * As written, the loop never gets past the first chunk: a chunk whose removal and creation
   * succeed raises TypeError when its row is built, after its removal was recorded.
   */
  lemma AsWrittenStopsAtFirstChunk(effects: seq<ChunkEffects>)
    requires |effects| > 0
    ensures FirstFailingChunk(AsWritten, effects) == 0
    ensures effects[0].removal.None? && effects[0].created.Success? ==>
      && ChunkError(AsWritten, effects[0]) == TypeError
      && RecordedRemovals(AsWritten, effects) == 1
  {
    FailsAt(AsWritten, effects, 0);
  }

  /** The status stored with a new delivery shipment: pending, expected when its chunk arrives. */
  function PendingStatus(chunk: DeliveryTimeResponse, effect: ChunkEffects): StoredStatus {
    StoredStatus(Pending, chunk.deliveryTime, effect.updatedAt, None)
  }

  /** The shipment request for one chunk: from its warehouse, with its items and carrier, to the recipient. */
  function ShipmentRequestFor(recipientAddress: string, chunk: DeliveryTimeResponse): CreateShipmentRequest {
    CreateShipmentRequest(chunk.fromAddress, recipientAddress, chunk.items, chunk.provider)
  }

  /** The shipment requests for a run of chunks, one per chunk, in order. */
  function RequestsFor(recipientAddress: string, chunks: seq<DeliveryTimeResponse>): seq<CreateShipmentRequest> {
    if chunks == [] then []
    else RequestsFor(recipientAddress, chunks[..|chunks| - 1]) + [ShipmentRequestFor(recipientAddress, chunks[|chunks| - 1])]
  }

  lemma {:induction false} RequestsForElements(recipientAddress: string, chunks: seq<DeliveryTimeResponse>)
    ensures |RequestsFor(recipientAddress, chunks)| == |chunks|
    ensures forall j :: 0 <= j < |chunks| ==>
      RequestsFor(recipientAddress, chunks)[j] == ShipmentRequestFor(recipientAddress, chunks[j])
  {
    if chunks != [] {
      RequestsForElements(recipientAddress, chunks[..|chunks| - 1]);
    }
  }

  /** The rows stored for the created shipments: shipment `j` pending until chunk `j` arrives. */
  function PendingRows(shipments: seq<Shipment>, chunks: seq<DeliveryTimeResponse>, effects: seq<ChunkEffects>): seq<StoredShipment>
    requires |shipments| <= |chunks| && |shipments| <= |effects|
  {
    if shipments == [] then []
    else
      var n := |shipments| - 1;
      PendingRows(shipments[..n], chunks, effects) + [RowOf(shipments[n], PendingStatus(chunks[n], effects[n]))]
  }

  lemma {:induction false} PendingRowsElements(shipments: seq<Shipment>, chunks: seq<DeliveryTimeResponse>, effects: seq<ChunkEffects>)
    requires |shipments| <= |chunks| && |shipments| <= |effects|
    ensures |PendingRows(shipments, chunks, effects)| == |shipments|
    ensures forall j :: 0 <= j < |shipments| ==>
      PendingRows(shipments, chunks, effects)[j] == RowOf(shipments[j], PendingStatus(chunks[j], effects[j]))
  {
    if shipments != [] {
      PendingRowsElements(shipments[..|shipments| - 1], chunks, effects);
    }
  }

  /**
   * When no chunk raises, each pending row is the row the loop builds for its shipment, with a
   * PENDING status.
   */
  lemma PendingRowsAreStored(
    builder: RowBuilder, shipments: seq<Shipment>, chunks: seq<DeliveryTimeResponse>, effects: seq<ChunkEffects>)
    requires |shipments| == |chunks| == |effects| && FirstFailingChunk(builder, effects) == |effects|
    requires forall j :: 0 <= j < |chunks| ==> effects[j].created == Success(shipments[j])
    ensures |PendingRows(shipments, chunks, effects)| == |shipments|
    ensures forall j :: 0 <= j < |shipments| ==>
      && BuildRow(builder, shipments[j], PendingStatus(chunks[j], effects[j]))
        == Success(PendingRows(shipments, chunks, effects)[j])
      && PendingRows(shipments, chunks, effects)[j].status
        == StoredStatus(Pending, chunks[j].deliveryTime, effects[j].updatedAt, None)
  {
    PendingRowsElements(shipments, chunks, effects);
    forall j | 0 <= j < |shipments|
      ensures BuildRow(builder, shipments[j], PendingStatus(chunks[j], effects[j]))
        == Success(PendingRows(shipments, chunks, effects)[j])
    {
      assert !ChunkFails(builder, effects[j]);
    }
  }

  /** The error the loop body raises for a chunk: from its removal, its creation, or its row. */
  function ChunkError(builder: RowBuilder, effect: ChunkEffects): Error
    requires ChunkFails(builder, effect)
  {
    if effect.removal.Some? then effect.removal.value
    else if effect.created.Failure? then effect.created.error
    else TypeError
  }

  /**
   * The `try` loop of `create_order_delivery`: for each chunk in order, remove its stock, record
   * the removal, request its shipment and build its stored row with `builder`, stopping at the
   * first exception.
   */
  method ShipChunks(builder: RowBuilder, inventory: Inventory, recipientAddress: string, chunks: seq<DeliveryTimeResponse>, effects: seq<ChunkEffects>)
    returns (raised: Option<Error>, removals: seq<DeliveryTimeResponse>, requests: seq<CreateShipmentRequest>,
      shipments: seq<Shipment>, rows: seq<StoredShipment>)
    requires |effects| == |chunks|
    modifies inventory
    ensures raised.None? <==> FirstFailingChunk(builder, effects) == |chunks|
    ensures raised.Some? ==>
      var n := FirstFailingChunk(builder, effects);
      raised.value == ChunkError(builder, effects[n])
    ensures removals == chunks[..RecordedRemovals(builder, effects)]
    ensures requests == RequestsFor(recipientAddress, removals)
    ensures raised.None? ==>
      && |shipments| == |chunks|
      && (forall j :: 0 <= j < |chunks| ==> effects[j].created == Success(shipments[j]))
      && rows == PendingRows(shipments, chunks, effects)
    ensures inventory.stock == WithdrawAll(old(inventory.stock), removals)
  {
    shipments, rows, removals, requests := [], [], [], [];
    raised := None;
    var i := 0;
    while i < |chunks|
      invariant 0 <= i <= FirstFailingChunk(builder, effects)
      invariant removals == chunks[..i] && requests == RequestsFor(recipientAddress, removals)
      invariant |shipments| == i && forall j :: 0 <= j < i ==> effects[j].created == Success(shipments[j])
      invariant rows == PendingRows(shipments, chunks, effects)
      invariant inventory.stock == WithdrawAll(old(inventory.stock), removals)
    {
      var removed := inventory.RemoveWarehouseStock(chunks[i].warehouseId, chunks[i].items, effects[i].removal);
      if removed.Failure? {
        FailsAt(builder, effects, i);
        raised := Some(removed.error);
        return;
      }
      assert chunks[..i + 1][..i] == chunks[..i];
      removals := chunks[..i + 1];
      requests := requests + [ShipmentRequestFor(recipientAddress, chunks[i])];
      var created := effects[i].created;
      if created.Failure? {
        FailsAt(builder, effects, i);
        raised := Some(created.error);
        return;
      }
      var row := BuildRow(builder, created.value, PendingStatus(chunks[i], effects[i]));
      if row.Failure? {
        FailsAt(builder, effects, i);
        raised := Some(row.error);
        return;
      }
      PassesAt(builder, effects, i);
      assert (shipments + [created.value])[..i] == shipments;
      shipments := shipments + [created.value];
      rows := rows + [row.value];
      i := i + 1;
    }
  }

  /**
   * `create_order_delivery`, given the breakdown the deliveries router computes. `effects[i]` is
   * what the outside world does for chunk `i`; `commit` says whether the final commit raises.
   * `requests` are the shipment requests sent to the carriers, in order. `builder` chooses the
   * shipment row construction: `AsWritten` is the code as it stands, `Corrected` the intended one.
   */
  method CreateOrderDelivery(
    builder: RowBuilder, inventory: Inventory, store: OrderStore, orderId: Uuid, request: CreateDeliveryRequest,
    breakdown: ShipmentDeliveryBreakdown, deliveryId: Uuid, effects: seq<ChunkEffects>,
    createdAt: Time, commit: Option<Error>)
    returns (r: Result<Delivery, Error>, requests: seq<CreateShipmentRequest>)
    requires |effects| == |breakdown.deliveryTimes|
    modifies inventory, store
    // An SLA miss is refused before anything happens.
    ensures !breakdown.canMeetSla ==>
      && r == Failure(Http(400, "Cannot meet SLA")) && requests == []
      && inventory.stock == old(inventory.stock)
    // A shipment is requested for exactly the chunks whose removal succeeded, in order.
    ensures breakdown.canMeetSla ==> |requests| == RecordedRemovals(builder, effects)
    ensures forall i :: 0 <= i < |requests| ==>
      requests[i] == ShipmentRequestFor(request.recipientAddress, breakdown.deliveryTimes[i])
    // All or nothing.
    ensures r.Success? <==>
      breakdown.canMeetSla && FirstFailingChunk(builder, effects) == |effects| && commit.None?
    ensures r.Success? ==>
      && r.value.deliveryId == deliveryId && r.value.orderId == orderId
      && r.value.createdAt == createdAt && r.value.deliverySla == request.deliverySla
      && |r.value.shipments| == |breakdown.deliveryTimes|
      && (forall i :: 0 <= i < |effects| ==> effects[i].created == Success(r.value.shipments[i]))
      && inventory.stock == WithdrawAll(old(inventory.stock), breakdown.deliveryTimes)
      && |store.deliveries| == |old(store.deliveries)| + 1
      && store.deliveries[..|old(store.deliveries)|] == old(store.deliveries)
    ensures r.Success? ==>
      var stored := store.deliveries[|old(store.deliveries)|];
      && stored.deliveryId == deliveryId && stored.orderId == orderId
      && stored.recipientAddress == request.recipientAddress && stored.createdAt == createdAt
      && stored.fulfilledAt == None && stored.deliverySla == request.deliverySla
      && |stored.shipments| == |effects|
      && forall i :: 0 <= i < |effects| ==>
        && BuildRow(builder, r.value.shipments[i], PendingStatus(breakdown.deliveryTimes[i], effects[i]))
          == Success(stored.shipments[i])
        && stored.shipments[i].status
          == StoredStatus(Pending, breakdown.deliveryTimes[i].deliveryTime, effects[i].updatedAt, None)
    // On any failure every level is back where it was and nothing is stored.
    ensures r.Failure? ==>
      && store.deliveries == old(store.deliveries)
      && forall k :: Level(inventory.stock, k) == Level(old(inventory.stock), k)
    ensures store.storedReturns == old(store.storedReturns)
    // The exception that escapes is the first one raised.
    ensures breakdown.canMeetSla && r.Failure? ==>
      var n := FirstFailingChunk(builder, effects);
      if n < |effects| then r.error == ChunkError(builder, effects[n])
      else commit == Some(r.error)
    // As written, only a delivery without chunks is stored, and a first chunk whose removal and
    // creation succeed ends in TypeError with one shipment requested and its stock put back.
    ensures builder.AsWritten? && r.Success? ==> |effects| == 0
    ensures (builder.AsWritten? && breakdown.canMeetSla && |effects| > 0
      && effects[0].removal.None? && effects[0].created.Success?) ==>
      && r == Failure(TypeError) && |requests| == 1
      && store.deliveries == old(store.deliveries)
      && forall k :: Level(inventory.stock, k) == Level(old(inventory.stock), k)
  {
    requests := [];
    if !breakdown.canMeetSla {
      r := Failure(Http(400, "Cannot meet SLA"));
      return;
    }
    var chunks := breakdown.deliveryTimes;
    var raised, removals, shipments, rows;
    raised, removals, requests, shipments, rows := ShipChunks(builder, inventory, request.recipientAddress, chunks, effects);
    RequestsForElements(request.recipientAddress, removals);
    if builder.AsWritten? && |chunks| > 0 {
      AsWrittenStopsAtFirstChunk(effects);
    }
    if raised.Some? {
      inventory.RestoreRemovals(removals);
      RollbackRestores(old(inventory.stock), removals);
      r := Failure(raised.value);
      return;
    }
    assert removals == chunks;
    PendingRowsAreStored(builder, shipments, chunks, effects);
    var delivery := StoredDelivery(deliveryId, orderId, request.recipientAddress, createdAt, None, request.deliverySla, rows);
    var committed := store.AddDelivery(delivery, commit);
    if committed.Failure? {
      inventory.RestoreRemovals(removals);
      RollbackRestores(old(inventory.stock), removals);
      r := Failure(committed.error);
      return;
    }
    r := Success(Delivery(deliveryId, orderId, shipments, createdAt, request.deliverySla));
  }

  /** Where every return is sent: the tech support address. */
  const TechSupportAddress: string := "119 Ranch Dr, Maggie Valley, NC 28751"

  /**
   * `create_order_return`. What the internal carrier's `create_shipment` returns or raises is the
   * input `created`; `createdAt` is the clock reading; `commit` says whether the commit raises.
   */
  method CreateOrderReturn(
    store: OrderStore, orderId: Uuid, returnRequest: CreateReturnRequest, returnId: Uuid,
    created: Result<Shipment, Error>, createdAt: Time, commit: Option<Error>)
    returns (r: Result<Return, Error>, shipmentRequest: CreateShipmentRequest)
    modifies store
    ensures shipmentRequest == CreateShipmentRequest(returnRequest.fromAddress, TechSupportAddress, returnRequest.items, Internal)
    ensures r.Success? <==> created.Success? && commit.None?
    ensures created.Failure? ==> r == Failure(created.error)
    ensures created.Success? && commit.Some? ==> r == Failure(commit.value)
    ensures r.Success? ==>
      && r.value == Return(orderId, returnId, created.value, createdAt, returnRequest.items)
      && StoredShipmentOf(created.value, StatusRow(created.value.status)).Success?
      && store.storedReturns == old(store.storedReturns)
        + [StoredReturn(returnId, orderId, createdAt, StoredShipmentOf(created.value, StatusRow(created.value.status)).value)]
    ensures r.Failure? ==> store.storedReturns == old(store.storedReturns)
    ensures store.deliveries == old(store.deliveries)
  {
    shipmentRequest := CreateShipmentRequest(returnRequest.fromAddress, TechSupportAddress, returnRequest.items, Internal);
    if created.Failure? {
      r := Failure(created.error);
      return;
    }
    var shipment := created.value;
    ExcludingStatusBuilds(shipment, StatusRow(shipment.status));
    var row := StoredShipmentOf(shipment, StatusRow(shipment.status)).value;
    var committed := store.AddReturn(StoredReturn(returnId, orderId, createdAt, row), commit);
    if committed.Failure? {
      r := Failure(committed.error);
      return;
    }
    r := Success(Return(orderId, returnId, shipment, createdAt, returnRequest.items));
  }
}

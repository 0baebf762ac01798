/**
 * The delivery breakdown: for each warehouse chunk, the carrier to use and when the chunk
 * arrives, and whether the whole delivery meets its service level agreement.
 */
module Delivery {
  import opened Wrappers
  import opened Errors
  import opened Enums
  import opened Uuids
  import opened Models
  import InternalProvider
  import UpsProvider
  import FedexProvider
  import UspsProvider

  const Hour: Duration := 3600
  const Day: Duration := 24 * Hour

  /** `shipping_providers`: the carriers, in the order the breakdown tries them. */
  const ShippingProviders: seq<Provider> := [Fedex, Ups, Usps, Internal]

  /** The speed multiplier of each registered carrier, in tenths. */
  function SpeedMultTenths(p: Provider): nat {
    match p
    case Fedex => FedexProvider.SpeedMultTenths
    case Ups => UpsProvider.SpeedMultTenths
    case Usps => UspsProvider.SpeedMultTenths
    case Internal => InternalProvider.SpeedMultTenths
  }

  /** The internal fleet has the smallest multiplier: 0.5 < 1.5 < 2.0 < 2.5. */
  lemma InternalHasSmallestSpeedMult()
    ensures SpeedMultTenths(Internal) < SpeedMultTenths(Fedex) < SpeedMultTenths(Ups) < SpeedMultTenths(Usps)
  {
  }

  /** `sla_times`: the longest transit each service level allows. */
  function SlaTime(sla: Sla): Duration {
    match sla
    case Standard => 5 * Day
    case Express => 2 * Day
    case Overnight => 1 * Day
    case SameDay => 12 * Hour
  }

  /** The allowances are positive and strictly shrink from STANDARD to SAME_DAY. */
  lemma SlaTimesDecrease()
    ensures 0 < SlaTime(SameDay) < SlaTime(Overnight) < SlaTime(Express) < SlaTime(Standard)
  {
  }

  /**
   * `timedelta.max` is 999999999 days, 86399 seconds and 999999 microseconds. Its stand-in is the
   * next whole second, 10^9 days: for a whole number of seconds t, t < TimedeltaMax exactly
   * when t < timedelta.max.
   */
  const TimedeltaMax: Duration := 1_000_000_000 * Day

  /** One transit time per registered carrier, in registry order, each a value a timedelta can hold. */
  predicate ValidTransitTimes(times: seq<Duration>) {
    |times| == |ShippingProviders| && forall i :: 0 <= i < |times| ==> times[i] < TimedeltaMax
  }

  /**
   * How many carriers the search looks at: up to and including the first whose time is
   * strictly under `limit`, or all of them.
   */
  function Examined(times: seq<Duration>, limit: Duration): (n: nat)
    ensures n <= |times| && (times != [] ==> n >= 1)
    ensures forall i :: 0 <= i < n - 1 ==> times[i] >= limit
    ensures n == |times| || times[n - 1] < limit
  {
    if times == [] then 0
    else if times[0] < limit then 1
    else 1 + Examined(times[1..], limit)
  }

  /** The position of the first smallest element. */
  function FirstMinIndex(s: seq<int>): (k: nat)
    requires |s| > 0
    ensures k < |s|
    ensures forall j :: 0 <= j < |s| ==> s[k] <= s[j]
    ensures forall j :: 0 <= j < k ==> s[j] > s[k]
  {
    if |s| == 1 then 0
    else
      var k := FirstMinIndex(s[..|s| - 1]);
      if s[|s| - 1] < s[k] then |s| - 1 else k
  }

  /** Extending the scanned prefix by one time keeps the old index unless the new time is strictly smaller. */
  lemma FirstMinIndexStep(times: seq<Duration>, i: nat)
    requires 0 < i < |times|
    ensures FirstMinIndex(times[..i + 1])
      == var k := FirstMinIndex(times[..i]); if times[i] < times[k] then i else k
  {
    assert times[..i + 1][..i] == times[..i];
  }

  /** A carrier reached with no earlier one under the limit is examined, and is the last if it is under. */
  lemma ExaminedStep(times: seq<Duration>, limit: Duration, i: nat)
    requires i < |times| && i <= Examined(times, limit)
    requires i > 0 ==> times[i - 1] >= limit
    ensures i < Examined(times, limit)
    ensures times[i] < limit ==> Examined(times, limit) == i + 1
  {
  }

  datatype CarrierChoice = CarrierChoice(provider: Provider, time: Duration)

  /** The carrier the breakdown settles on: the first fastest among those it examined. */
  function ChooseCarrier(times: seq<Duration>, limit: Duration): (r: CarrierChoice)
    requires ValidTransitTimes(times)
    ensures var n := Examined(times, limit);
      exists k :: 0 <= k < n && r == CarrierChoice(ShippingProviders[k], times[k])
        && (forall j :: 0 <= j < n ==> times[k] <= times[j])
        && (forall j :: 0 <= j < k ==> times[j] > times[k])
  {
    var n := Examined(times, limit);
    var k := FirstMinIndex(times[..n]);
    assert forall j :: 0 <= j < n ==> times[..n][j] == times[j];
    CarrierChoice(ShippingProviders[k], times[k])
  }

  /**
   * The inner loop of `get_delivery_breakdown`: try the carriers in registry order, keep the
   * strictly fastest so far, and stop right after the first one strictly under `limit`.
   */
  method SelectCarrier(times: seq<Duration>, limit: Duration) returns (provider: Provider, fastestTime: Duration)
    requires ValidTransitTimes(times)
    ensures CarrierChoice(provider, fastestTime) == ChooseCarrier(times, limit)
  {
    var fastest: Option<Provider> := None;
    fastestTime := TimedeltaMax;
    var i := 0;
    while i < |ShippingProviders|
      invariant 0 <= i <= Examined(times, limit)
      invariant i > 0 ==> times[i - 1] >= limit
      invariant i == 0 ==> fastest == None && fastestTime == TimedeltaMax
      invariant i > 0 ==> var k := FirstMinIndex(times[..i]);
        fastest == Some(ShippingProviders[k]) && fastestTime == times[k]
    {
      var deliveryTime := times[i];
      ExaminedStep(times, limit, i);
      if i > 0 {
        FirstMinIndexStep(times, i);
      }
      if deliveryTime < fastestTime {
        fastestTime := deliveryTime;
        fastest := Some(ShippingProviders[i]);
      }
      i := i + 1;
      if deliveryTime < limit {
        break;
      }
    }
    provider := fastest.value;
  }

  /**
   * When some carrier is strictly under the limit, the first such carrier in registry order is
   * chosen, with its own time; carriers after it are never looked at, however fast.
   */
  lemma FirstUnderLimitIsChosen(times: seq<Duration>, limit: Duration, k: nat)
    requires ValidTransitTimes(times)
    requires k < |times| && times[k] < limit
    requires forall j :: 0 <= j < k ==> times[j] >= limit
    ensures Examined(times, limit) == k + 1
    ensures ChooseCarrier(times, limit) == CarrierChoice(ShippingProviders[k], times[k])
  {
    var s := times[..k + 1];
    var m := FirstMinIndex(s);
    assert s[m] <= s[k];
  }

  /**
   * When no carrier is strictly under the limit, every carrier is examined and the first
   * carrier with the overall smallest time is chosen.
   */
  lemma NoneUnderLimitChoosesGlobalMin(times: seq<Duration>, limit: Duration)
    requires ValidTransitTimes(times)
    requires forall j :: 0 <= j < |times| ==> times[j] >= limit
    ensures Examined(times, limit) == |times|
    ensures var k := FirstMinIndex(times);
      ChooseCarrier(times, limit) == CarrierChoice(ShippingProviders[k], times[k])
  {
    assert times[..|times|] == times;
  }

  /**
   * The chosen time is within the allowance exactly when some carrier's time is: a time equal
   * to the allowance still meets it.
   */
  lemma ChoiceMeetsLimitIff(times: seq<Duration>, limit: Duration)
    requires ValidTransitTimes(times)
    ensures ChooseCarrier(times, limit).time <= limit <==> exists k :: 0 <= k < |times| && times[k] <= limit
  {
    if k :| 0 <= k < |times| && times[k] < limit {
      var f := FirstUnder(times, limit, k);
      FirstUnderLimitIsChosen(times, limit, f);
    } else {
      NoneUnderLimitChoosesGlobalMin(times, limit);
      var m := FirstMinIndex(times);
      if k :| 0 <= k < |times| && times[k] <= limit {
        assert times[m] <= times[k];
      }
    }
  }

  /** The first position at or before `k` whose time is strictly under `limit`. */
  function FirstUnder(times: seq<Duration>, limit: Duration, k: nat): (f: nat)
    requires k < |times| && times[k] < limit
    ensures f <= k && times[f] < limit
    ensures forall j :: 0 <= j < f ==> times[j] >= limit
  {
    if times[0] < limit then 0
    else 1 + FirstUnder(times[1..], limit, k - 1)
  }

  /** One warehouse's share of the requested items, as the stock allocator hands it over. */
  datatype WarehouseChunk = WarehouseChunk(warehouseId: Uuid, items: seq<ShipmentItem>)

  /** The breakdown entry for a chunk shipped from `fromAddress` by `choice`, timed at `now`. */
  function Entry(chunk: WarehouseChunk, fromAddress: string, choice: CarrierChoice, now: Time): DeliveryTimeResponse {
    DeliveryTimeResponse(chunk.warehouseId, fromAddress, now + choice.time, chunk.items, choice.provider)
  }

  /**
   * `get_delivery_breakdown`. The stock allocator's chunks, each chunk's warehouse address, the
   * transit time of every carrier for every chunk, and the clock readings (`startedAt` for the
   * expected time, `clock[i]` when chunk `i` is timed) are inputs.
   */
  method GetDeliveryBreakdown(
    recipientAddress: string, sla: Sla, chunks: seq<WarehouseChunk>, warehouseAddresses: seq<string>,
    transitTimes: seq<seq<Duration>>, startedAt: Time, clock: seq<Time>)
    returns (breakdown: ShipmentDeliveryBreakdown)
    requires |warehouseAddresses| == |chunks| && |transitTimes| == |chunks| && |clock| == |chunks|
    requires forall i :: 0 <= i < |chunks| ==> ValidTransitTimes(transitTimes[i])
    ensures breakdown.recipientAddress == recipientAddress
    ensures breakdown.expectedAt == startedAt + SlaTime(sla)
    ensures |breakdown.deliveryTimes| == |chunks|
    ensures forall i :: 0 <= i < |chunks| ==>
      var choice := ChooseCarrier(transitTimes[i], SlaTime(sla));
      var entry := breakdown.deliveryTimes[i];
      && entry.warehouseId == chunks[i].warehouseId
      && entry.items == chunks[i].items
      && entry.fromAddress == warehouseAddresses[i]
      && entry.provider == choice.provider
      && entry.deliveryTime == clock[i] + choice.time
    ensures breakdown.canMeetSla <==>
      forall i :: 0 <= i < |chunks| ==> ChooseCarrier(transitTimes[i], SlaTime(sla)).time <= SlaTime(sla)
    ensures breakdown.canMeetSla <==>
      forall i :: 0 <= i < |chunks| ==> breakdown.deliveryTimes[i].deliveryTime <= clock[i] + SlaTime(sla)
  {
    var limit := SlaTime(sla);
    var expectedAt := startedAt + limit;
    var canMeetSla := true;
    var deliveryTimes: seq<DeliveryTimeResponse> := [];
    for i := 0 to |chunks|
      invariant |deliveryTimes| == i
      invariant forall j :: 0 <= j < i ==>
        deliveryTimes[j] == Entry(chunks[j], warehouseAddresses[j], ChooseCarrier(transitTimes[j], limit), clock[j])
      invariant canMeetSla <==> forall j :: 0 <= j < i ==> ChooseCarrier(transitTimes[j], limit).time <= limit
    {
      var provider, fastestTime := SelectCarrier(transitTimes[i], limit);
      if fastestTime > limit {
        canMeetSla := false;
      }
      deliveryTimes := deliveryTimes + [Entry(chunks[i], warehouseAddresses[i], CarrierChoice(provider, fastestTime), clock[i])];
    }
    breakdown := ShipmentDeliveryBreakdown(recipientAddress, expectedAt, canMeetSla, deliveryTimes);
  }

  /**
   * `create_delivery_shipments` after its breakdown: raises when the breakdown cannot meet its
   * service level agreement and otherwise returns without creating anything.
   */
  function CreateDeliveryShipments(breakdown: ShipmentDeliveryBreakdown): (r: Result<(), Error>)
    ensures r.Failure? <==> !breakdown.canMeetSla
    ensures r.Failure? ==> r.error == ValueError("Cannot meet SLA")
  {
    if !breakdown.canMeetSla then Failure(ValueError("Cannot meet SLA")) else Success(())
  }
}

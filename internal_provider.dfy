/** The company's own delivery fleet as a shipment provider. */
module InternalProvider {
  import opened Wrappers
  import opened Errors
  import opened Enums
  import opened Uuids
  import opened Models
  import ProviderBase

  const ProviderType: Provider := Internal
  /** `speed_mult` 0.5, in tenths. */
  const SpeedMultTenths: nat := 5
  /** `price_mult` 0.8, in tenths. */
  const PriceMultTenths: Option<nat> := Some(8)

  function GetShipmentStatus(trackingIdentifier: string): (r: Result<ShipmentStatus, Error>)
    ensures r == Failure(NotImplemented)
  {
    ProviderBase.GetShipmentStatus(trackingIdentifier)
  }

  /** The tracking number of an internal shipment is the associated identifier itself, in string form. */
  function CreateRandomId(associated: Uuid): (id: string)
    ensures Parse(id) == Success(associated)
    ensures |id| == 36
  {
    ParseToString(associated);
    ToStringLayout(associated);
    ToString(associated)
  }

  /** No randomness: equal identifiers get equal tracking numbers, distinct ones distinct numbers. */
  lemma TrackingIdIdentifiesShipment(a: Uuid, b: Uuid)
    ensures CreateRandomId(a) == CreateRandomId(b) <==> a == b
  {
    ToStringInjective(a, b);
  }
}

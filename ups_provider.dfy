/** The simulated UPS carrier. */
module UpsProvider {
  import opened Wrappers
  import opened Errors
  import opened Enums
  import opened Uuids
  import opened Models
  import ProviderBase

  const ProviderType: Provider := Ups
  /** `speed_mult` 2.0, in tenths. */
  const SpeedMultTenths: nat := 20
  /** No `price_mult` is set for this carrier. */
  const PriceMultTenths: Option<nat> := None

  const HexAlphabet: string := "0123456789ABCDEF"

  function GetShipmentStatus(trackingIdentifier: string): (r: Result<ShipmentStatus, Error>)
    ensures r == Failure(NotImplemented)
  {
    ProviderBase.GetShipmentStatus(trackingIdentifier)
  }

  /** The UPS layout: "1Z", six upper-case hexadecimal characters, "3E" (economy), eight digits. */
  predicate IsTrackingId(s: string) {
    && |s| == 18
    && s[..2] == "1Z"
    && ProviderBase.IsDrawn(s[2..8], HexAlphabet, 6)
    && s[8..10] == "3E"
    && ProviderBase.IsDrawn(s[10..], ProviderBase.Digits, 8)
  }

  /**
   * `create_random_id`: `hexPicks` and `digitPicks` are the two `random.choices` draws.
   * The identifier has the UPS layout and both draws can be read back from it.
   */
  function CreateRandomId(associated: Uuid, hexPicks: string, digitPicks: string): (id: string)
    requires ProviderBase.IsDrawn(hexPicks, HexAlphabet, 6)
    requires ProviderBase.IsDrawn(digitPicks, ProviderBase.Digits, 8)
    ensures IsTrackingId(id)
    ensures id[2..8] == hexPicks && id[10..] == digitPicks
  {
    var id := "1Z" + hexPicks + "3E" + digitPicks;
    assert id[2..8] == hexPicks && id[10..] == digitPicks;
    id
  }

  /** Every string of the UPS layout is produced by some draw. */
  lemma EveryTrackingIdIsDrawn(associated: Uuid, s: string)
    requires IsTrackingId(s)
    ensures CreateRandomId(associated, s[2..8], s[10..]) == s
  {
    assert s == s[..2] + s[2..8] + s[8..10] + s[10..];
  }

  /** The associated shipment does not influence the identifier. */
  lemma IgnoresAssociated(a: Uuid, b: Uuid, hexPicks: string, digitPicks: string)
    requires ProviderBase.IsDrawn(hexPicks, HexAlphabet, 6)
    requires ProviderBase.IsDrawn(digitPicks, ProviderBase.Digits, 8)
    ensures CreateRandomId(a, hexPicks, digitPicks) == CreateRandomId(b, hexPicks, digitPicks)
  {
  }
}

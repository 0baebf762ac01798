/** The simulated USPS carrier. */
module UspsProvider {
  import opened Wrappers
  import opened Errors
  import opened Enums
  import opened Uuids
  import opened Models
  import opened Strings
  import ProviderBase

  const ProviderType: Provider := Usps
  /** `speed_mult` 2.5, in tenths. */
  const SpeedMultTenths: nat := 25
  /** `price_mult` 1, in tenths. */
  const PriceMultTenths: Option<nat> := Some(10)

  function GetShipmentStatus(trackingIdentifier: string): (r: Result<ShipmentStatus, Error>)
    ensures r == Failure(NotImplemented)
  {
    ProviderBase.GetShipmentStatus(trackingIdentifier)
  }

  /** The USPS layout: five groups of four digits separated by single spaces. */
  predicate IsTrackingId(s: string) {
    ProviderBase.IsSpacedDigits(s, 5)
  }

  /**
   * `create_random_id`: `groups` are the five `random.choices` draws of four digits.
   * The identifier is 24 characters with a space exactly at every fifth position (4, 9, 14, 19),
   * and splitting it on ' ' gives five all-digit groups of four: the draws.
   */
  function CreateRandomId(associated: Uuid, groups: seq<string>): (id: string)
    requires ProviderBase.AreDigitGroups(groups, 5)
    ensures IsTrackingId(id)
    ensures |id| == 24
    ensures forall i :: 0 <= i < |id| ==> (id[i] == ' ' <==> i in {4, 9, 14, 19})
    ensures Split(id, ' ') == groups
  {
    ProviderBase.JoinDigitGroups(groups, 5);
    Join(groups, ' ')
  }

  /** Every string of the USPS layout is produced by some draw. */
  lemma EveryTrackingIdIsDrawn(associated: Uuid, s: string)
    requires IsTrackingId(s)
    ensures CreateRandomId(associated, ProviderBase.GroupsOf(s, 5)) == s
  {
    ProviderBase.SpacedDigitsAreJoins(s, 5);
  }

  /** The associated shipment does not influence the identifier. */
  lemma IgnoresAssociated(a: Uuid, b: Uuid, groups: seq<string>)
    requires ProviderBase.AreDigitGroups(groups, 5)
    ensures CreateRandomId(a, groups) == CreateRandomId(b, groups)
  {
  }
}

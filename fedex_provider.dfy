/** The simulated FedEx carrier. */
module FedexProvider {
  import opened Wrappers
  import opened Errors
  import opened Enums
  import opened Uuids
  import opened Models
  import opened Strings
  import ProviderBase

  const ProviderType: Provider := Fedex
  /** `speed_mult` 1.5, in tenths. */
  const SpeedMultTenths: nat := 15
  /** No `price_mult` is set for this carrier. */
  const PriceMultTenths: Option<nat> := None

  function GetShipmentStatus(trackingIdentifier: string): (r: Result<ShipmentStatus, Error>)
    ensures r == Failure(NotImplemented)
  {
    ProviderBase.GetShipmentStatus(trackingIdentifier)
  }

  /** The FedEx layout: three groups of four digits separated by single spaces. */
  predicate IsTrackingId(s: string) {
    ProviderBase.IsSpacedDigits(s, 3)
  }

  /**
   * `create_random_id`: `groups` are the three `random.choices` draws of four digits.
   * The identifier is 14 characters with spaces exactly at 4 and 9, and splitting it on ' '
   * gives the draws back.
   */
  function CreateRandomId(associated: Uuid, groups: seq<string>): (id: string)
    requires ProviderBase.AreDigitGroups(groups, 3)
    ensures IsTrackingId(id)
    ensures |id| == 14
    ensures forall i :: 0 <= i < |id| ==> (id[i] == ' ' <==> i == 4 || i == 9)
    ensures Split(id, ' ') == groups
  {
    ProviderBase.JoinDigitGroups(groups, 3);
    Join(groups, ' ')
  }

  /** Every string of the FedEx layout is produced by some draw. */
  lemma EveryTrackingIdIsDrawn(associated: Uuid, s: string)
    requires IsTrackingId(s)
    ensures CreateRandomId(associated, ProviderBase.GroupsOf(s, 3)) == s
  {
    ProviderBase.SpacedDigitsAreJoins(s, 3);
  }

  /** The associated shipment does not influence the identifier. */
  lemma IgnoresAssociated(a: Uuid, b: Uuid, groups: seq<string>)
    requires ProviderBase.AreDigitGroups(groups, 3)
    ensures CreateRandomId(a, groups) == CreateRandomId(b, groups)
  {
  }
}

/**
 * The abstract shipment provider every carrier extends, and the tracking-number shapes
 * shared by the simulated carriers.
 */
module ProviderBase {
  import opened Wrappers
  import opened Errors
  import opened Strings
  import opened Models

  /** The base `get_shipment_status`: no carrier tracking is implemented, so it raises. */
  function GetShipmentStatus(trackingIdentifier: string): (r: Result<ShipmentStatus, Error>)
    ensures r.Failure? && r.error == NotImplemented
  {
    Failure(NotImplemented)
  }

  const Digits: string := "0123456789"

  /** `picks` is what `random.choices(alphabet, k=count)` can return: `count` characters of `alphabet`. */
  predicate IsDrawn(picks: string, alphabet: string, count: nat) {
    |picks| == count && forall i :: 0 <= i < count ==> picks[i] in alphabet
  }

  /** `count` runs of four decimal digits, each one draw of `random.choices('0123456789', k=4)`. */
  predicate AreDigitGroups(groups: seq<string>, count: nat) {
    |groups| == count && forall j :: 0 <= j < count ==> IsDrawn(groups[j], Digits, 4)
  }

  /** A string of `count` four-digit groups with a single space between neighbours. */
  predicate IsSpacedDigits(s: string, count: nat) {
    && count >= 1
    && |s| == 5 * count - 1
    && forall i :: 0 <= i < |s| ==> if i % 5 == 4 then s[i] == ' ' else s[i] in Digits
  }

  /** `' '.join(groups)` of digit groups has the spaced layout, and splitting it on ' ' gives the groups back. */
  lemma JoinDigitGroups(groups: seq<string>, count: nat)
    requires count >= 1 && AreDigitGroups(groups, count)
    ensures IsSpacedDigits(Join(groups, ' '), count)
    ensures Split(Join(groups, ' '), ' ') == groups
  {
    forall j | 0 <= j < count ensures ' ' !in groups[j] {
      assert forall i :: 0 <= i < 4 ==> groups[j][i] in Digits;
    }
    SplitJoin(groups, ' ');
    JoinLayout(groups, count);
  }

  lemma {:induction false} JoinLayout(groups: seq<string>, count: nat)
    requires count >= 1 && AreDigitGroups(groups, count)
    ensures IsSpacedDigits(Join(groups, ' '), count)
    decreases count
  {
    if count == 1 {
      assert Join(groups, ' ') == groups[0];
    } else {
      JoinLayout(groups[1..], count - 1);
      assert Join(groups, ' ') == groups[0] + [' '] + Join(groups[1..], ' ');
      PrependGroup(groups[0], Join(groups[1..], ' '), count - 1);
    }
  }

  /** One more group in front, after a space, keeps the layout. */
  lemma PrependGroup(group: string, rest: string, count: nat)
    requires IsDrawn(group, Digits, 4) && IsSpacedDigits(rest, count)
    ensures IsSpacedDigits(group + [' '] + rest, count + 1)
  {
    var s := group + [' '] + rest;
    forall i | 0 <= i < |s| ensures if i % 5 == 4 then s[i] == ' ' else s[i] in Digits {
      if i >= 5 {
        assert s[i] == rest[i - 5];
        assert (i - 5) % 5 == i % 5;
      }
    }
  }

  /** The groups a spaced-digit string is made of. */
  function GroupsOf(s: string, count: nat): (groups: seq<string>)
    requires IsSpacedDigits(s, count)
    ensures AreDigitGroups(groups, count)
  {
    seq(count, j requires 0 <= j < count => s[5 * j .. 5 * j + 4])
  }

  /** Every spaced-digit string is the join of its groups, so the layout is exactly the range of the join. */
  lemma {:induction false} SpacedDigitsAreJoins(s: string, count: nat)
    requires IsSpacedDigits(s, count)
    ensures Join(GroupsOf(s, count), ' ') == s
    decreases count
  {
    var g := GroupsOf(s, count);
    if count == 1 {
      assert g[0] == s;
    } else {
      DropFirstGroup(s, count);
      SpacedDigitsAreJoins(s[5..], count - 1);
      assert s == g[0] + [' '] + s[5..];
    }
  }

  /** Past the first group and its space, the rest has the layout and the remaining groups. */
  lemma DropFirstGroup(s: string, count: nat)
    requires IsSpacedDigits(s, count) && count > 1
    ensures IsSpacedDigits(s[5..], count - 1)
    ensures GroupsOf(s, count)[1..] == GroupsOf(s[5..], count - 1)
  {
    var tail := s[5..];
    forall i | 0 <= i < |tail| ensures if i % 5 == 4 then tail[i] == ' ' else tail[i] in Digits {
      assert tail[i] == s[i + 5];
      assert (i + 5) % 5 == i % 5;
    }
    var g := GroupsOf(s, count);
    forall j | 0 <= j < count - 1 ensures g[1..][j] == GroupsOf(tail, count - 1)[j] {
      assert tail[5 * j .. 5 * j + 4] == s[5 * (j + 1) .. 5 * (j + 1) + 4];
    }
  }
}

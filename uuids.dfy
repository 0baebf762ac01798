/**
 * Python's `uuid.UUID` as far as the modelled code uses it: `str(u)` (the hyphenated
 * lower-case form) and `UUID(text)` (parsing a hexadecimal string).
 */
module Uuids {
  import opened Wrappers
  import opened Errors
  import opened Strings

  type Nibble = n: int | 0 <= n < 16

  /** A 128-bit identifier, as its 32 hexadecimal digits, most significant first. */
  type Uuid = s: seq<Nibble> | |s| == 32 witness seq(32, _ => 0)

  const LowerHexDigits: string := "0123456789abcdef"

  predicate IsHexDigit(c: char) {
    '0' <= c <= '9' || 'a' <= c <= 'f' || 'A' <= c <= 'F'
  }

  function NibbleOf(c: char): Nibble
    requires IsHexDigit(c)
  {
    if '0' <= c <= '9' then c as int - '0' as int
    else if 'a' <= c <= 'f' then c as int - 'a' as int + 10
    else c as int - 'A' as int + 10
  }

  /** The lower-case hexadecimal rendering of a run of digits. */
  function Hex(ds: seq<Nibble>): (s: string)
    ensures |s| == |ds|
    ensures forall i :: 0 <= i < |ds| ==> s[i] == LowerHexDigits[ds[i]]
  {
    seq(|ds|, i requires 0 <= i < |ds| => LowerHexDigits[ds[i]])
  }

  /** The five runs of 8, 4, 4, 4 and 12 digits that `str(u)` shows. */
  function Groups(u: Uuid): seq<string> {
    [Hex(u[..8]), Hex(u[8..12]), Hex(u[12..16]), Hex(u[16..20]), Hex(u[20..])]
  }

  /** `str(u)`: the groups of lower-case hexadecimal digits joined by hyphens. */
  function ToString(u: Uuid): (s: string)
    ensures RemoveHyphens(s) == Hex(u)
  {
    var g := Groups(u);
    assert forall i :: 0 <= i < 5 ==> forall c :: c in g[i] ==> c in LowerHexDigits;
    RemoveHyphensJoin(g);
    ConcatGroups(u);
    Join(g, '-')
  }

  /** `text.replace(pattern, '')`: deletes the non-overlapping occurrences of `pattern`, left to right. */
  function RemoveAll(text: string, pattern: string): (r: string)
    requires |pattern| > 0
    ensures |r| <= |text|
    decreases |text|
  {
    if |text| < |pattern| then text
    else if text[..|pattern|] == pattern then RemoveAll(text[|pattern|..], pattern)
    else [text[0]] + RemoveAll(text[1..], pattern)
  }

  /** `text.strip('{}')` */
  function StripBraces(text: string): (r: string)
    ensures |r| <= |text|
    decreases |text|
  {
    if |text| > 0 && text[0] in "{}" then StripBraces(text[1..])
    else if |text| > 0 && text[|text| - 1] in "{}" then StripBraces(text[..|text| - 1])
    else text
  }

  /** `text.replace('-', '')` */
  function RemoveHyphens(text: string): (r: string)
    ensures '-' !in r
    ensures |r| <= |text|
  {
    if text == [] then []
    else if text[0] == '-' then RemoveHyphens(text[1..])
    else [text[0]] + RemoveHyphens(text[1..])
  }

  /**
   * `UUID(text)`: drop every "urn:" and then every "uuid:", strip braces from both ends,
   * drop the hyphens, and require exactly 32 hexadecimal digits of either case.
   */
  function Parse(text: string): (r: Result<Uuid, Error>)
    ensures r.Failure? ==> r.error.ValueError?
    ensures |text| < 32 ==> r.Failure?
  {
    var digits := RemoveHyphens(StripBraces(RemoveAll(RemoveAll(text, "urn:"), "uuid:")));
    if |digits| != 32 then Failure(ValueError("badly formed hexadecimal UUID string"))
    else if exists i :: 0 <= i < 32 && !IsHexDigit(digits[i]) then Failure(ValueError("invalid literal for int() with base 16"))
    else
      var u: Uuid := seq(32, i requires 0 <= i < 32 => NibbleOf(digits[i]));
      Success(u)
  }

  lemma NibbleOfHex(n: Nibble)
    ensures IsHexDigit(LowerHexDigits[n]) && NibbleOf(LowerHexDigits[n]) == n
  {
  }

  lemma {:induction false} RemoveAllAbsent(text: string, pattern: string)
    requires |pattern| > 0 && pattern[0] !in text
    ensures RemoveAll(text, pattern) == text
    decreases |text|
  {
    if |text| >= |pattern| {
      assert text[..|pattern|][0] == text[0];
      RemoveAllAbsent(text[1..], pattern);
    }
  }

  lemma {:induction false} RemoveHyphensAbsent(text: string)
    requires '-' !in text
    ensures RemoveHyphens(text) == text
  {
    if text != [] {
      RemoveHyphensAbsent(text[1..]);
    }
  }

  lemma {:induction false} RemoveHyphensConcat(x: string, y: string)
    ensures RemoveHyphens(x + y) == RemoveHyphens(x) + RemoveHyphens(y)
  {
    if x != [] {
      assert (x + y)[1..] == x[1..] + y;
      RemoveHyphensConcat(x[1..], y);
    } else {
      assert x + y == y;
    }
  }

  /** Hyphens removed, a hyphen-join of hyphen-free groups is their concatenation. */
  lemma {:induction false} RemoveHyphensJoin(groups: seq<string>)
    requires forall i :: 0 <= i < |groups| ==> '-' !in groups[i]
    ensures RemoveHyphens(Join(groups, '-')) == Concat(groups)
    decreases |groups|
  {
    if |groups| == 1 {
      RemoveHyphensAbsent(groups[0]);
      assert Concat(groups) == groups[0] + Concat([]);
    } else if |groups| > 1 {
      RemoveHyphensJoin(groups[1..]);
      RemoveHyphensAbsent(groups[0]);
      RemoveHyphensConcat(groups[0] + "-", Join(groups[1..], '-'));
      RemoveHyphensConcat(groups[0], "-");
    }
  }

  /** Rendering a run is rendering its two halves. */
  lemma HexSplit(ds: seq<Nibble>, i: nat, j: nat, k: nat)
    requires i <= j <= k <= |ds|
    ensures Hex(ds[i..k]) == Hex(ds[i..j]) + Hex(ds[j..k])
  {
    var l, m, r := Hex(ds[i..k]), Hex(ds[i..j]), Hex(ds[j..k]);
    assert |l| == |m + r|;
    forall n | 0 <= n < |l| ensures l[n] == (m + r)[n] {
      if n < j - i {
        assert ds[i..k][n] == ds[i..j][n];
      } else {
        assert ds[i..k][n] == ds[j..k][n - (j - i)];
      }
    }
  }

  lemma ConcatGroups(u: Uuid)
    ensures Concat(Groups(u)) == Hex(u)
  {
    var g := Groups(u);
    assert Concat(g[4..]) == g[4] by { assert g[4..][1..] == []; }
    assert Concat(g[3..]) == g[3] + g[4] by { assert g[3..][1..] == g[4..]; }
    assert Concat(g[2..]) == g[2] + (g[3] + g[4]) by { assert g[2..][1..] == g[3..]; }
    assert Concat(g[1..]) == g[1] + (g[2] + (g[3] + g[4])) by { assert g[1..][1..] == g[2..]; }
    assert u[..8] == u[0..8] && u[20..] == u[20..32] && u == u[0..32];
    HexSplit(u, 16, 20, 32);
    HexSplit(u, 12, 16, 32);
    HexSplit(u, 8, 12, 32);
    HexSplit(u, 0, 8, 32);
  }

  /** `str(u)` holds only hyphens and lower-case hexadecimal digits. */
  lemma ToStringChars(u: Uuid)
    ensures forall c :: c in ToString(u) ==> c == '-' || c in LowerHexDigits
  {
    var g := Groups(u);
    forall i | 0 <= i < 5 ensures forall c :: c in g[i] ==> c in LowerHexDigits {
    }
    forall c | c in ToString(u) ensures c == '-' || c in LowerHexDigits {
      JoinChars(g, '-', c);
    }
  }

  lemma StripBracesAbsent(text: string)
    requires '{' !in text && '}' !in text
    ensures StripBraces(text) == text
  {
    if |text| > 0 {
      assert text[0] in text && text[|text| - 1] in text;
    }
  }

  /** `str(u)` has nothing for `replace` or `strip` to remove. */
  lemma ToStringCleaned(u: Uuid)
    ensures StripBraces(RemoveAll(RemoveAll(ToString(u), "urn:"), "uuid:")) == ToString(u)
  {
    var s := ToString(u);
    ToStringChars(u);
    assert 'u' !in s && '{' !in s && '}' !in s;
    RemoveAllAbsent(s, "urn:");
    RemoveAllAbsent(s, "uuid:");
    StripBracesAbsent(s);
  }

  /** The digits `UUID()` reads from `str(u)` are those of `u`. */
  lemma ToStringDigits(u: Uuid)
    ensures RemoveHyphens(StripBraces(RemoveAll(RemoveAll(ToString(u), "urn:"), "uuid:"))) == Hex(u)
  {
    ToStringCleaned(u);
  }

  /** `UUID(str(u)) == u`: the string form loses nothing. */
  lemma ParseToString(u: Uuid)
    ensures Parse(ToString(u)) == Success(u)
  {
    ToStringDigits(u);
    var digits := Hex(u);
    forall i | 0 <= i < 32 ensures IsHexDigit(digits[i]) && NibbleOf(digits[i]) == u[i] {
      NibbleOfHex(u[i]);
    }
    var v: seq<Nibble> := seq(32, i requires 0 <= i < 32 => NibbleOf(digits[i]));
    assert v == u;
  }

  /** `str(u)` is 36 characters with hyphens at 8, 13, 18 and 23. */
  lemma ToStringLayout(u: Uuid)
    ensures |ToString(u)| == 36
    ensures forall i :: 0 <= i < 36 ==> (ToString(u)[i] == '-' <==> i in {8, 13, 18, 23})
  {
    var g := Groups(u);
    assert g[4..][1..] == [] && g[3..][1..] == g[4..] && g[2..][1..] == g[3..] && g[1..][1..] == g[2..];
    assert Join(g[3..], '-') == g[3] + "-" + g[4];
    assert Join(g[2..], '-') == g[2] + "-" + (g[3] + "-" + g[4]);
    assert Join(g[1..], '-') == g[1] + "-" + (g[2] + "-" + (g[3] + "-" + g[4]));
    var s := ToString(u);
    assert s == g[0] + "-" + (g[1] + "-" + (g[2] + "-" + (g[3] + "-" + g[4])));
    forall i | 0 <= i < 5 ensures '-' !in g[i] {
      assert forall c :: c in g[i] ==> c in LowerHexDigits;
    }
  }

  /** Distinct identifiers have distinct string forms. */
  lemma ToStringInjective(u: Uuid, v: Uuid)
    ensures ToString(u) == ToString(v) <==> u == v
  {
    ParseToString(u);
    ParseToString(v);
  }
}

/**
 * SQL pattern matching as the shipment filters use it: `column ILIKE '%needle%'`. `%` matches
 * any run of characters and `_` any single character. The configured database is SQLite, whose
 * LIKE has no escape character unless an ESCAPE clause names one, so a backslash is an ordinary
 * character. ILIKE compares both sides after lower-casing the ASCII letters.
 */
module SqlLike {

  function LowerChar(c: char): char {
    if 'A' <= c <= 'Z' then (c as int + 32) as char else c
  }

  function Lower(s: string): (r: string)
    ensures |r| == |s| && forall i :: 0 <= i < |s| ==> r[i] == LowerChar(s[i])
  {
    if s == [] then [] else [LowerChar(s[0])] + Lower(s[1..])
  }

  predicate IsWildcard(c: char) {
    c == '%' || c == '_'
  }

  /** A pattern with no wildcard: it matches only itself. */
  predicate IsLiteral(p: string) {
    forall i :: 0 <= i < |p| ==> !IsWildcard(p[i])
  }

  /** `s LIKE p`. A pattern with no wildcard matches exactly itself. */
  predicate Like(p: string, s: string)
    decreases |p| + |s|
    ensures IsLiteral(p) ==> (Like(p, s) <==> s == p)
  {
    if p == [] then s == []
    else if p[0] == '%' then Like(p[1..], s) || (s != [] && Like(p, s[1..]))
    else if p[0] == '_' then s != [] && Like(p[1..], s[1..])
    else s != [] && s[0] == p[0] && Like(p[1..], s[1..])
  }

  /** `s ILIKE p`. Against a pattern with no wildcard it is case-insensitive equality. */
  predicate ILike(p: string, s: string)
    ensures IsLiteral(p) ==> (ILike(p, s) <==> Lower(s) == Lower(p))
  {
    assert IsLiteral(p) ==> IsLiteral(Lower(p));
    Like(Lower(p), Lower(s))
  }

  /** `needle` occurs in `haystack` starting at position `i`. */
  predicate OccursAt(needle: string, haystack: string, i: int) {
    0 <= i && i + |needle| <= |haystack| && haystack[i..i + |needle|] == needle
  }

  /** `needle` occurs somewhere in `haystack`. */
  predicate Contains(needle: string, haystack: string) {
    exists i :: 0 <= i <= |haystack| && OccursAt(needle, haystack, i)
  }

  /** The filter pattern the shipment routes build from a search text. */
  function Wrapped(text: string): string {
    "%" + text + "%"
  }

  lemma {:induction false} PercentMatchesAll(s: string)
    ensures Like("%", s)
  {
    if s != [] {
      PercentMatchesAll(s[1..]);
    }
  }

  /** A literal prefix followed by `%` matches exactly the texts that start with that prefix. */
  lemma {:induction false} LiteralPrefixMatch(y: string, t: string)
    requires IsLiteral(y)
    ensures Like(y + "%", t) <==> |y| <= |t| && t[..|y|] == y
  {
    if y == [] {
      assert y + "%" == "%";
      PercentMatchesAll(t);
    } else {
      assert (y + "%")[0] == y[0];
      assert (y + "%")[1..] == y[1..] + "%";
      if t != [] {
        LiteralPrefixMatch(y[1..], t[1..]);
        if |y| <= |t| && t[..|y|] == y {
          assert t[1..][..|y| - 1] == y[1..];
        }
        if |y[1..]| <= |t[1..]| && t[1..][..|y[1..]|] == y[1..] && t[0] == y[0] {
          assert t[..|y|] == [t[0]] + t[1..][..|y| - 1];
        }
      }
    }
  }

  /** A match of the rest of the pattern at any suffix is a match of the `%`-led pattern. */
  lemma {:induction false} LeadingPercentFrom(q: string, t: string, i: int)
    requires 0 <= i <= |t| && Like(q, t[i..])
    ensures Like("%" + q, t)
    decreases i
  {
    assert ("%" + q)[0] == '%' && ("%" + q)[1..] == q;
    if i == 0 {
      assert t[0..] == t;
    } else {
      assert t[1..][i - 1..] == t[i..];
      LeadingPercentFrom(q, t[1..], i - 1);
    }
  }

  /** A match of the `%`-led pattern comes from a match of the rest at some suffix. */
  lemma {:induction false} LeadingPercentWitness(q: string, t: string)
    requires Like("%" + q, t)
    ensures exists i :: 0 <= i <= |t| && Like(q, t[i..])
  {
    assert ("%" + q)[0] == '%' && ("%" + q)[1..] == q;
    assert t[0..] == t;
    if !Like(q, t) {
      LeadingPercentWitness(q, t[1..]);
      var i :| 0 <= i <= |t[1..]| && Like(q, t[1..][i..]);
      assert t[1..][i..] == t[i + 1..];
    }
  }

  /** A leading `%` lets the rest of the pattern match any suffix. */
  lemma LeadingPercentMatch(q: string, t: string)
    ensures Like("%" + q, t) <==> exists i :: 0 <= i <= |t| && Like(q, t[i..])
  {
    if Like("%" + q, t) {
      LeadingPercentWitness(q, t);
    }
    if i :| 0 <= i <= |t| && Like(q, t[i..]) {
      LeadingPercentFrom(q, t, i);
    }
  }

  /** For a search text with no wildcard, the filter is a substring test. */
  lemma WrappedLiteralIsContains(x: string, t: string)
    requires IsLiteral(x)
    ensures Like(Wrapped(x), t) <==> Contains(x, t)
  {
    assert Wrapped(x) == "%" + (x + "%");
    LeadingPercentMatch(x + "%", t);
    forall i | 0 <= i <= |t|
      ensures Like(x + "%", t[i..]) <==> OccursAt(x, t, i)
    {
      LiteralPrefixMatch(x, t[i..]);
      if i + |x| <= |t| {
        assert t[i..][..|x|] == t[i..i + |x|];
      }
    }
  }

  lemma LowerWrapped(x: string)
    ensures Lower(Wrapped(x)) == Wrapped(Lower(x))
  {
    assert Lower(Wrapped(x)) == Wrapped(Lower(x)) by {
      assert |Lower(Wrapped(x))| == |Wrapped(Lower(x))|;
      forall i | 0 <= i < |Wrapped(x)|
        ensures Lower(Wrapped(x))[i] == Wrapped(Lower(x))[i]
      {
        if 0 < i < |x| + 1 {
          assert Wrapped(x)[i] == x[i - 1];
        }
      }
    }
  }

  /**
   * The `ILIKE '%x%'` filter on a search text with no wildcard keeps a value exactly
   * when the lower-cased text occurs in the lower-cased value.
   */
  lemma ILikeWrappedIsCaseInsensitiveContains(x: string, t: string)
    requires IsLiteral(x)
    ensures ILike(Wrapped(x), t) <==> Contains(Lower(x), Lower(t))
  {
    LowerWrapped(x);
    assert IsLiteral(Lower(x)) by {
      forall i | 0 <= i < |x|
        ensures !IsWildcard(Lower(x)[i])
      {
        assert !IsWildcard(x[i]);
      }
    }
    WrappedLiteralIsContains(Lower(x), Lower(t));
  }

  /**
   * A search text without wildcards finds a value equal to it. A backslash in it is an ordinary
   * character, so `from_address` "a\b" finds the stored "a\b".
   */
  lemma SearchTextFindsItself(x: string)
    requires IsLiteral(x)
    ensures ILike(Wrapped(x), x)
  {
    ILikeWrappedIsCaseInsensitiveContains(x, x);
    assert OccursAt(Lower(x), Lower(x), 0) by {
      assert Lower(x)[0..|Lower(x)|] == Lower(x);
    }
  }
}

/** The small generic pieces the services lean on: an Option type, decimal
    rendering of integers (`strconv.Itoa`, `%d`), `strings.Join`, the
    concatenation of a list of fragments, and a `strings.Builder`. */
module Wrappers {
  datatype Option<+T> = None | Some(value: T)
}

module Text {
  import opened Wrappers

  // ---------------------------------------------------------------------------
  // Decimal rendering of integers and its inverse
  // ---------------------------------------------------------------------------

  predicate IsDigit(c: char) { '0' <= c <= '9' }

  function DigitChar(d: nat): (c: char)
    requires d < 10
    ensures IsDigit(c) && DigitValue(c) == d
  {
    ('0' as int + d) as char
  }

  function DigitValue(c: char): nat
    requires IsDigit(c)
  {
    (c as int - '0' as int) as nat
  }

  /** Decimal digits of a natural number, most significant first, no leading zeros. */
  function NatToString(n: nat): (s: string)
    ensures |s| >= 1
  {
    if n < 10 then [DigitChar(n)] else NatToString(n / 10) + [DigitChar(n % 10)]
  }

  /** `strconv.Itoa`: the signed decimal rendering of an integer. */
  function IntToString(i: int): (s: string)
    ensures |s| >= 1
    ensures s[0] == '-' <==> i < 0
    ensures i >= 0 ==> AllDigits(s)
    ensures i < 0 ==> AllDigits(s[1..])
  {
    NatToStringDigits(if i < 0 then -i else i);
    if i < 0 then "-" + NatToString(-i) else NatToString(i)
  }

  predicate AllDigits(s: string) { forall k :: 0 <= k < |s| ==> IsDigit(s[k]) }

  /** The rendering of a natural number is all digits, with no leading zero. */
  lemma {:induction false} NatToStringDigits(n: nat)
    ensures AllDigits(NatToString(n))
    ensures NatToString(n)[0] == '0' ==> n == 0
  {
    if n >= 10 {
      NatToStringDigits(n / 10);
    }
  }

  function ParseDigits(s: string): nat
    requires AllDigits(s)
  {
    if s == [] then 0 else 10 * ParseDigits(s[..|s| - 1]) + DigitValue(s[|s| - 1])
  }

  /** Reads back a signed decimal: an optional '-' followed by at least one digit. */
  function ParseInt(s: string): (r: Option<int>)
    ensures r.Some? ==> |s| >= 1
  {
    if |s| >= 2 && s[0] == '-' && AllDigits(s[1..]) then Some(-(ParseDigits(s[1..]) as int))
    else if |s| >= 1 && AllDigits(s) then Some(ParseDigits(s))
    else None
  }

  lemma {:induction false} ParseNatToString(n: nat)
    ensures AllDigits(NatToString(n)) && ParseDigits(NatToString(n)) == n
  {
    NatToStringDigits(n);
    var s := NatToString(n);
    if n >= 10 {
      ParseNatToString(n / 10);
      assert s[..|s| - 1] == NatToString(n / 10);
    }
  }

  /** Rendering then reading back gives the integer: `IntToString` is injective
      and loses nothing. */
  lemma ParseIntToString(i: int)
    ensures ParseInt(IntToString(i)) == Some(i)
  {
    if i < 0 {
      var t := NatToString(-i);
      ParseNatToString(-i);
      assert ("-" + t)[1..] == t;
      assert ParseInt("-" + t) == Some(-(ParseDigits(t) as int));
    } else {
      var t := NatToString(i);
      ParseNatToString(i);
      assert IsDigit(t[0]);
      assert ParseInt(t) == Some(ParseDigits(t));
    }
  }

  // ---------------------------------------------------------------------------
  // strings.Join and concatenation of fragments
  // ---------------------------------------------------------------------------

  /** `strings.Join(parts, sep)`: the parts with `sep` between neighbours. */
  function Join(parts: seq<string>, sep: string): (r: string)
    ensures parts == [] ==> r == ""
    ensures |parts| == 1 ==> r == parts[0]
  {
    if parts == [] then ""
    else if |parts| == 1 then parts[0]
    else Join(parts[..|parts| - 1], sep) + sep + parts[|parts| - 1]
  }

  /** What a `strings.Builder` holds after writing the fragments in order. */
  function Concat(parts: seq<string>): string
  {
    if parts == [] then "" else Concat(parts[..|parts| - 1]) + parts[|parts| - 1]
  }

  /** One loop step: the first i+1 fragments are the first i followed by fragment i. */
  lemma ConcatPrefixStep(parts: seq<string>, i: nat)
    requires i < |parts|
    ensures Concat(parts[..i + 1]) == Concat(parts[..i]) + parts[i]
  {
    assert parts[..i + 1][..i] == parts[..i];
  }

  /** Every fragment written ends up, unbroken, in the concatenation. */
  lemma {:induction false} ConcatContains(parts: seq<string>, i: nat)
    requires i < |parts|
    ensures Contains(Concat(parts), parts[i])
  {
    var init := parts[..|parts| - 1];
    if i == |parts| - 1 {
      ContainsEnd(Concat(init), parts[i]);
    } else {
      ConcatContains(init, i);
      ContainsAppend(Concat(init), init[i], parts[|parts| - 1]);
    }
  }

  // ---------------------------------------------------------------------------
  // Substrings
  // ---------------------------------------------------------------------------

  /** `strings.Contains(t, s)`. */
  predicate Contains(t: string, s: string)
  {
    exists i :: 0 <= i <= |t| && s <= t[i..]
  }

  /** `strings.HasSuffix(t, s)`. */
  predicate EndsWith(t: string, s: string)
  {
    |s| <= |t| && t[|t| - |s|..] == s
  }

  lemma PrefixAppend(a: string, b: string)
    ensures a <= a + b
  {
  }

  lemma DropPrefix(p: string, u: string)
    ensures (p + u)[|p|..] == u
  {
  }

  lemma DropPrefixPair(p: string, w: string, u: string)
    ensures (p + w + u)[|p|..] == w + u
  {
  }

  lemma EndsWithAppend(a: string, s: string)
    ensures EndsWith(a + s, s)
  {
  }

  lemma EndsWithPrepend(a: string, t: string, s: string)
    requires EndsWith(t, s)
    ensures EndsWith(a + t, s)
  {
    assert (a + t)[|a + t| - |s|..] == t[|t| - |s|..];
  }

  lemma ContainsEnd(a: string, s: string)
    ensures Contains(a + s, s)
  {
    assert s <= (a + s)[|a|..];
  }

  lemma ContainsAppend(t: string, s: string, u: string)
    requires Contains(t, s)
    ensures Contains(t + u, s)
  {
    var i :| 0 <= i <= |t| && s <= t[i..];
    assert (t + u)[i..] == t[i..] + u;
  }

  lemma ContainsPrepend(a: string, t: string, s: string)
    requires Contains(t, s)
    ensures Contains(a + t, s)
  {
    var i :| 0 <= i <= |t| && s <= t[i..];
    assert (a + t)[|a| + i..] == t[i..];
  }

  lemma PrefixTrans(a: string, b: string, c: string)
    requires a <= b && b <= c
    ensures a <= c
  {
  }

  /** Every part of a join appears in it. */
  lemma {:induction false} JoinContains(parts: seq<string>, sep: string, i: nat)
    requires i < |parts|
    ensures Contains(Join(parts, sep), parts[i])
  {
    if |parts| == 1 {
      ContainsSelf(parts[0]);
    } else {
      var init := parts[..|parts| - 1];
      var last := parts[|parts| - 1];
      if i < |parts| - 1 {
        JoinContains(init, sep, i);
        ContainsAppend(Join(init, sep), parts[i], sep);
        ContainsAppend(Join(init, sep) + sep, parts[i], last);
      } else {
        ContainsEnd(Join(init, sep) + sep, last);
      }
    }
  }

  lemma ContainsSelf(s: string)
    ensures Contains(s, s)
  {
    assert s <= s[0..];
  }

  /** A substring of a substring is a substring. */
  lemma ContainsTrans(t: string, s: string, r: string)
    requires Contains(t, s) && Contains(s, r)
    ensures Contains(t, r)
  {
    var i :| 0 <= i <= |t| && s <= t[i..];
    var j :| 0 <= j <= |s| && r <= s[j..];
    assert s == t[i..i + |s|];
    assert s[j..] == t[i + j..i + |s|];
    assert r == t[i + j..i + j + |r|];
    assert r <= t[i + j..];
  }

  // ---------------------------------------------------------------------------
  // Regrouping: writing pieces one after another onto a text appends their
  // concatenation. Stated for as many pieces as the writers write in a row.
  // ---------------------------------------------------------------------------

  lemma AppendEmpty(s: string)
    ensures s + "" == s && "" + s == s
  {
  }

  lemma Regroup2(p: string, a1: string, a2: string)
    ensures p + a1 + a2 == p + (a1 + a2)
  {
  }

  lemma Regroup3(p: string, a1: string, a2: string, a3: string)
    ensures p + a1 + a2 + a3 == p + (a1 + a2 + a3)
  {
  }

  lemma Regroup4(p: string, a1: string, a2: string, a3: string, a4: string)
    ensures p + a1 + a2 + a3 + a4 == p + (a1 + a2 + a3 + a4)
  {
  }

  lemma Regroup5(p: string, a1: string, a2: string, a3: string, a4: string, a5: string)
    ensures p + a1 + a2 + a3 + a4 + a5 == p + (a1 + a2 + a3 + a4 + a5)
  {
  }

  lemma Regroup6(p: string, a1: string, a2: string, a3: string, a4: string, a5: string,
                 a6: string)
    ensures p + a1 + a2 + a3 + a4 + a5 + a6 == p + (a1 + a2 + a3 + a4 + a5 + a6)
  {
  }

  lemma Regroup7(p: string, a1: string, a2: string, a3: string, a4: string, a5: string,
                 a6: string, a7: string)
    ensures p + a1 + a2 + a3 + a4 + a5 + a6 + a7 == p + (a1 + a2 + a3 + a4 + a5 + a6 + a7)
  {
  }

  lemma Regroup8(p: string, a1: string, a2: string, a3: string, a4: string, a5: string,
                 a6: string, a7: string, a8: string)
    ensures p + a1 + a2 + a3 + a4 + a5 + a6 + a7 + a8
         == p + (a1 + a2 + a3 + a4 + a5 + a6 + a7 + a8)
  {
  }

  lemma Regroup11(p: string, a1: string, a2: string, a3: string, a4: string, a5: string,
                  a6: string, a7: string, a8: string, a9: string, a10: string, a11: string)
    ensures p + a1 + a2 + a3 + a4 + a5 + a6 + a7 + a8 + a9 + a10 + a11
         == p + (a1 + a2 + a3 + a4 + a5 + a6 + a7 + a8 + a9 + a10 + a11)
  {
  }

  lemma Regroup12(p: string, a1: string, a2: string, a3: string, a4: string, a5: string,
                  a6: string, a7: string, a8: string, a9: string, a10: string, a11: string,
                  a12: string)
    ensures p + a1 + a2 + a3 + a4 + a5 + a6 + a7 + a8 + a9 + a10 + a11 + a12
         == p + (a1 + a2 + a3 + a4 + a5 + a6 + a7 + a8 + a9 + a10 + a11 + a12)
  {
  }

  /** A list of four fragments concatenates to the four in order. */
  lemma ConcatFour(parts: seq<string>)
    requires |parts| == 4
    ensures Concat(parts) == parts[0] + parts[1] + parts[2] + parts[3]
  {
    AppendEmpty(parts[0]);
    ConcatPrefixStep(parts, 0);
    ConcatPrefixStep(parts, 1);
    ConcatPrefixStep(parts, 2);
    ConcatPrefixStep(parts, 3);
    assert parts[..4] == parts;
  }

  // ---------------------------------------------------------------------------
  // strings.Builder
  // ---------------------------------------------------------------------------

  /** `strings.Builder`: a text buffer that only grows. `Grow` is a capacity
      hint without effect on the text and is not modelled. */
  class Builder {
    var contents: string

    constructor ()
      ensures contents == ""
    {
      contents := "";
    }

    method WriteString(s: string)
      modifies this
      ensures contents == old(contents) + s
    {
      contents := contents + s;
    }

    method WriteByte(c: char)
      modifies this
      ensures contents == old(contents) + [c]
    {
      contents := contents + [c];
    }
  }
}

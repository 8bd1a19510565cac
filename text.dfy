/** Python string behaviour the core relies on: `str.strip`/`lstrip`, `split`,
    `join`, `lower`, `capitalize`, substring tests, `str(int)`/`int(str)` and
    fixed-point number formatting (`f"{x:.2f}"`, `round(x, k)`). */
module Text {
  import opened Basics

  /** The characters for which Python's `str.isspace()` holds; `str.strip()` removes these. */
  const Whitespace: set<char> := {
    '\t', '\n', '\U{b}', '\U{c}', '\r', '\U{1c}', '\U{1d}', '\U{1e}', '\U{1f}', ' ',
    '\U{85}', '\U{a0}', '\U{1680}', '\U{2000}', '\U{2001}', '\U{2002}', '\U{2003}',
    '\U{2004}', '\U{2005}', '\U{2006}', '\U{2007}', '\U{2008}', '\U{2009}', '\U{200a}',
    '\U{2028}', '\U{2029}', '\U{202f}', '\U{205f}', '\U{3000}'
  }

  /** Python `s.lstrip(chars)` for a set of characters. */
  function LStripSet(s: string, cs: set<char>): (r: string)
    ensures |r| <= |s| && r == s[|s| - |r|..]
    ensures |r| > 0 ==> r[0] !in cs
    ensures forall i :: 0 <= i < |s| - |r| ==> s[i] in cs
  {
    s[LeadingIn(s, cs)..]
  }

  /** The number of leading characters of s that are in cs. */
  function LeadingIn(s: string, cs: set<char>): (n: nat)
    ensures n <= |s|
    ensures n < |s| ==> s[n] !in cs
    ensures forall i :: 0 <= i < n ==> s[i] in cs
  {
    if |s| > 0 && s[0] in cs then
      var t := s[1..];
      var m := LeadingIn(t, cs);
      assert forall i :: 0 < i < m + 1 ==> s[i] == t[i - 1];
      m + 1
    else 0
  }

  /** Python `s.rstrip(chars)` for a set of characters. */
  function RStripSet(s: string, cs: set<char>): (r: string)
    ensures |r| <= |s| && r == s[..|r|]
    ensures |r| > 0 ==> r[|r| - 1] !in cs
    ensures forall i :: |r| <= i < |s| ==> s[i] in cs
  {
    if |s| > 0 && s[|s| - 1] in cs then
      var t := s[..|s| - 1];
      var r := RStripSet(t, cs);
      assert s[..|r|] == t[..|r|];
      assert forall i :: |r| <= i < |s| ==> s[i] in cs by {
        forall i | |r| <= i < |s| ensures s[i] in cs {
          if i < |s| - 1 { assert s[i] == t[i]; }
        }
      }
      r
    else s
  }

  /** A text with a non-whitespace character does not strip to nothing. */
  lemma StripKeepsNonBlank(s: string, k: int)
    requires 0 <= k < |s| && s[k] !in Whitespace
    ensures |Strip(s)| > 0
  {
  }

  /** Python `s.strip()`. */
  function Strip(s: string): (r: string)
    ensures |r| <= |s|
    ensures |r| > 0 ==> r[0] !in Whitespace && r[|r| - 1] !in Whitespace
    ensures (forall i :: 0 <= i < |s| ==> s[i] !in Whitespace) ==> r == s
    ensures r == [] <==> forall i :: 0 <= i < |s| ==> s[i] in Whitespace
  {
    StripSetFacts(s, Whitespace);
    RStripSet(LStripSet(s, Whitespace), Whitespace)
  }

  /** Stripping a set of characters from both ends, for any set. */
  lemma StripSetFacts(s: string, cs: set<char>)
    ensures var r := RStripSet(LStripSet(s, cs), cs);
      && |r| <= |s|
      && (|r| > 0 ==> r[0] !in cs && r[|r| - 1] !in cs)
      && ((forall i :: 0 <= i < |s| ==> s[i] !in cs) ==> r == s)
      && (r == [] <==> forall i :: 0 <= i < |s| ==> s[i] in cs)
  {
    var l := LStripSet(s, cs);
    var r := RStripSet(l, cs);
    assert forall i :: 0 <= i < |l| ==> l[i] == s[|s| - |l| + i];
    if |r| > 0 {
      assert r[0] == l[0];
    }
    if forall i :: 0 <= i < |s| ==> s[i] !in cs {
      assert l == s;
    }
    if r == [] {
      assert l == [];
    }
  }

  function LowerChar(c: char): char
  {
    if 'A' <= c <= 'Z' then (c as int + 32) as char else c
  }

  function UpperChar(c: char): char
  {
    if 'a' <= c <= 'z' then (c as int - 32) as char else c
  }

  /** Python `s.lower()` restricted to ASCII letters. */
  function Lower(s: string): (r: string)
    ensures |r| == |s| && forall i :: 0 <= i < |s| ==> r[i] == LowerChar(s[i])
  {
    seq(|s|, i requires 0 <= i < |s| => LowerChar(s[i]))
  }

  /** Python `s.capitalize()` restricted to ASCII letters. */
  function Capitalize(s: string): (r: string)
    ensures |r| == |s|
  {
    if |s| == 0 then "" else [UpperChar(s[0])] + Lower(s[1..])
  }

  /** Python `s.replace(a, b)` for single characters. */
  function ReplaceChar(s: string, a: char, b: char): (r: string)
    ensures |r| == |s| && forall i :: 0 <= i < |s| ==> r[i] == (if s[i] == a then b else s[i])
  {
    seq(|s|, i requires 0 <= i < |s| => if s[i] == a then b else s[i])
  }

  /** `needle` occurs in `hay` at position i. */
  predicate OccursAt(hay: string, needle: string, i: int)
  {
    0 <= i && i + |needle| <= |hay| && hay[i..i + |needle|] == needle
  }

  /** Python `needle in hay` for strings. */
  ghost predicate Contains(hay: string, needle: string)
  {
    exists i :: OccursAt(hay, needle, i)
  }

  /** A decision procedure for `Contains`. */
  function Find(hay: string, needle: string): (b: bool)
    ensures b <==> Contains(hay, needle)
    decreases |hay|
  {
    if |needle| > |hay| then
      assert forall i :: !OccursAt(hay, needle, i);
      false
    else if hay[..|needle|] == needle then
      assert OccursAt(hay, needle, 0);
      true
    else
      var tail := hay[1..];
      var rest := Find(tail, needle);
      if rest then
        var i :| OccursAt(tail, needle, i);
        assert tail[i..i + |needle|] == hay[i + 1..i + 1 + |needle|];
        assert OccursAt(hay, needle, i + 1);
        true
      else
        assert forall i :: OccursAt(hay, needle, i) ==> i >= 1 && OccursAt(tail, needle, i - 1) by {
          assert hay[..|needle|] == hay[0..0 + |needle|];
          forall i | OccursAt(hay, needle, i) ensures i >= 1 && OccursAt(tail, needle, i - 1) {
            assert tail[i - 1..i - 1 + |needle|] == hay[i..i + |needle|];
          }
        }
        false
  }

  predicate StartsWith(s: string, prefix: string)
  {
    |prefix| <= |s| && s[..|prefix|] == prefix
  }

  /** Python `s.split(sep)` for a one-character separator. */
  function Split(s: string, sep: char): (parts: seq<string>)
    ensures |parts| >= 1
  {
    if |s| == 0 then [""]
    else
      var rest := Split(s[1..], sep);
      if s[0] == sep then [""] + rest else [[s[0]] + rest[0]] + rest[1..]
  }

  lemma {:induction false} SplitNoSeparator(s: string, sep: char)
    requires sep !in s
    ensures Split(s, sep) == [s]
    decreases |s|
  {
    if |s| > 0 {
      SplitNoSeparator(s[1..], sep);
      assert [s[0]] + s[1..] == s;
    }
  }

  lemma {:induction false} SplitAtSeparator(a: string, sep: char, b: string)
    requires sep !in a
    ensures Split(a + [sep] + b, sep) == [a] + Split(b, sep)
    decreases |a|
  {
    if |a| == 0 {
      assert a + [sep] + b == [sep] + b;
      assert ([sep] + b)[1..] == b;
    } else {
      var s := a + [sep] + b;
      assert s[0] == a[0];
      assert s[1..] == a[1..] + [sep] + b;
      SplitAtSeparator(a[1..], sep, b);
      assert [a[0]] + a[1..] == a;
    }
  }

  /** Python `sep.join(parts)`. */
  function Join(parts: seq<string>, sep: string): string
  {
    if |parts| == 0 then ""
    else if |parts| == 1 then parts[0]
    else parts[0] + sep + Join(parts[1..], sep)
  }

  predicate IsDigit(c: char) { '0' <= c <= '9' }

  function DigitChar(d: nat): (c: char)
    requires d < 10
    ensures IsDigit(c)
  {
    ('0' as int + d) as char
  }

  function DigitValue(c: char): nat
    requires IsDigit(c)
  {
    c as int - '0' as int
  }

  /** Python `str(n)` for a natural number: decimal digits, no leading zeros. */
  function NatToString(n: nat): (s: string)
    ensures |s| >= 1 && forall i :: 0 <= i < |s| ==> IsDigit(s[i])
    decreases n
  {
    if n < 10 then [DigitChar(n)] else NatToString(n / 10) + [DigitChar(n % 10)]
  }

  /** Python `str(i)` for an integer. */
  function IntToString(i: int): (s: string)
    ensures |s| >= 1
  {
    if i < 0 then "-" + NatToString(-i) else NatToString(i)
  }

  predicate AllDigits(s: string)
  {
    forall i :: 0 <= i < |s| ==> IsDigit(s[i])
  }

  /** The number denoted by a string of decimal digits. */
  function DigitsValue(s: string): nat
    requires AllDigits(s)
  {
    if |s| == 0 then 0 else DigitsValue(s[..|s| - 1]) * 10 + DigitValue(s[|s| - 1])
  }

  lemma {:induction false} DigitsValueOfNatToString(n: nat)
    ensures DigitsValue(NatToString(n)) == n
    decreases n
  {
    if n >= 10 {
      DigitsValueOfNatToString(n / 10);
      var s := NatToString(n);
      assert s[..|s| - 1] == NatToString(n / 10);
    }
  }

  /** Stripping a string without whitespace leaves it unchanged. */
  lemma StripNoWhitespace(s: string)
    requires forall i :: 0 <= i < |s| ==> s[i] !in Whitespace
    ensures Strip(s) == s
  {
  }

  /** An optional sign followed by at least one ASCII digit. */
  function ParseSigned(t: string): Option<int>
  {
    if |t| >= 2 && (t[0] == '-' || t[0] == '+') && AllDigits(t[1..]) then
      var v: int := DigitsValue(t[1..]);
      Some(if t[0] == '-' then -v else v)
    else if |t| >= 1 && AllDigits(t) then Some(DigitsValue(t))
    else None
  }

  /** Python `int(s)` for a string: surrounding whitespace, an optional sign and at
      least one ASCII digit; anything else raises `ValueError` (here `None`). */
  function ParseInt(s: string): (r: Option<int>)
    ensures r.Some? ==> |Strip(s)| >= 1
  {
    ParseSigned(Strip(s))
  }

  lemma DigitNotWhitespace(c: char)
    requires IsDigit(c)
    ensures c !in Whitespace
  {
  }

  lemma DigitsNotWhitespace(s: string)
    requires AllDigits(s)
    ensures forall k :: 0 <= k < |s| ==> s[k] !in Whitespace
  {
    forall k | 0 <= k < |s| ensures s[k] !in Whitespace {
      DigitNotWhitespace(s[k]);
    }
  }

  lemma ParseSignedOfNatToString(n: nat)
    ensures ParseSigned(NatToString(n)) == Some(n)
  {
    var s := NatToString(n);
    DigitsValueOfNatToString(n);
    assert !(s[0] == '-' || s[0] == '+');
  }

  lemma SignedDigitsNotWhitespace(t: string)
    requires AllDigits(t)
    ensures forall k :: 0 <= k < |"-" + t| ==> ("-" + t)[k] !in Whitespace
  {
    DigitsNotWhitespace(t);
    forall k | 0 <= k < |"-" + t| ensures ("-" + t)[k] !in Whitespace {
      if k > 0 { assert ("-" + t)[k] == t[k - 1]; }
    }
  }

  /** `int(str(i)) == i`. */
  lemma ParseIntOfIntToString(i: int)
    ensures ParseInt(IntToString(i)) == Some(i)
  {
    if i < 0 {
      ParseIntOfNegative(i);
    } else {
      ParseIntOfNatToString(i);
    }
  }

  lemma ParseIntOfNegative(i: int)
    requires i < 0
    ensures ParseInt(IntToString(i)) == Some(i)
  {
    NegativeTextStripped(i);
    NegativeTextParses(i);
  }

  lemma NegativeTextStripped(i: int)
    requires i < 0
    ensures Strip(IntToString(i)) == IntToString(i)
  {
    var t := NatToString(-i);
    assert IntToString(i) == "-" + t;
    SignedDigitsNotWhitespace(t);
    StripNoWhitespace("-" + t);
  }

  lemma NegativeTextParses(i: int)
    requires i < 0
    ensures ParseSigned(IntToString(i)) == Some(i)
  {
    var t := NatToString(-i);
    var s := IntToString(i);
    assert s == "-" + t;
    assert s[1..] == t;
    DigitsValueOfNatToString(-i);
  }

  lemma ParseIntOfNatToString(n: nat)
    ensures ParseInt(IntToString(n)) == Some(n)
  {
    var s := NatToString(n);
    assert Strip(s) == s by {
      DigitsNotWhitespace(s);
      StripNoWhitespace(s);
    }
    assert ParseSigned(s) == Some(n) by {
      ParseSignedOfNatToString(n);
    }
    assert IntToString(n) == s;
  }

  /** Python `float(s)` for plain decimal text: surrounding whitespace, an optional
      sign, and digits with at most one '.', at least one digit in all. */
  function ParseDecimal(s: string): (r: Option<real>)
    ensures r.Some? ==> |Strip(s)| >= 1
  {
    var t := Strip(s);
    var signed := |t| > 0 && (t[0] == '-' || t[0] == '+');
    var body := if signed then t[1..] else t;
    var parts := Split(body, '.');
    var whole := parts[0];
    var frac := if |parts| == 2 then parts[1] else "";
    if |parts| > 2 || !AllDigits(whole) || !AllDigits(frac) || |whole| + |frac| == 0 then None
    else
      var v := DigitsValue(whole) as real + DigitsValue(frac) as real / Pow10(|frac|) as real;
      Some(if signed && t[0] == '-' then -v else v)
  }

  /** Python `s.find(c)` for one character: its first index, or -1. */
  function FindChar(s: string, c: char): (i: int)
    ensures -1 <= i < |s|
    ensures i >= 0 ==> s[i] == c
    ensures forall k :: 0 <= k < |s| && (i == -1 || k < i) ==> s[k] != c
  {
    if |s| == 0 then -1
    else if s[0] == c then 0
    else
      var k := FindChar(s[1..], c);
      assert forall j :: 1 <= j < |s| ==> s[j] == s[1..][j - 1];
      if k == -1 then -1 else k + 1
  }

  /** Python `s.rfind(c)` for one character: its last index, or -1. */
  function RFindChar(s: string, c: char): (i: int)
    ensures -1 <= i < |s|
    ensures i >= 0 ==> s[i] == c
    ensures forall k :: 0 <= k < |s| && i < k ==> s[k] != c
  {
    if |s| == 0 then -1
    else if s[|s| - 1] == c then |s| - 1
    else
      var k := RFindChar(s[..|s| - 1], c);
      k
  }

  function Pow10(d: nat): (p: nat)
    ensures p >= 1
  {
    if d == 0 then 1 else 10 * Pow10(d - 1)
  }

  /** The integer nearest to x, ties to the even neighbour (Python's rounding rule). */
  function RoundHalfEven(x: real): (n: int)
    ensures x - 0.5 <= n as real <= x + 0.5
  {
    var f := x.Floor;
    var frac := x - f as real;
    if frac > 0.5 then f + 1
    else if frac < 0.5 then f
    else if f % 2 == 0 then f
    else f + 1
  }

  /** Python `round(x, k)` on exact decimals. */
  function Round(x: real, k: nat): (r: real)
    ensures Abs(r - x) <= 0.5 / (Pow10(k) as real)
  {
    var p := Pow10(k) as real;
    var n := RoundHalfEven(x * p);
    ScaledError(x, n as real, p);
    (n as real) / p
  }

  /** Dividing by p >= 1 scales an error of at most one half by 1/p. */
  lemma ScaledError(x: real, n: real, p: real)
    requires p >= 1.0 && x * p - 0.5 <= n <= x * p + 0.5
    ensures Abs(n / p - x) <= 0.5 / p
  {
    assert n / p - x == (n - x * p) / p;
  }

  /** Rounding a non-negative value never makes it negative. */
  lemma RoundNonNegative(x: real, k: nat)
    requires x >= 0.0
    ensures Round(x, k) >= 0.0
  {
    var p := Pow10(k) as real;
    assert x * p >= 0.0;
    var n := RoundHalfEven(x * p);
    assert n >= 0;
  }

  function PadLeft(s: string, width: nat, c: char): (r: string)
    ensures |r| >= width && |r| >= |s|
    decreases width - |s|
  {
    if |s| >= width then s else PadLeft([c] + s, width, c)
  }

  /** The digits of m / p with d decimals, where p = 10^d. */
  function DecimalDigits(m: nat, p: nat, d: nat): (s: string)
    requires p >= 1
    ensures |s| >= 1
  {
    var whole := NatToString(m / p);
    if d == 0 then whole else whole + "." + PadLeft(NatToString(m % p), d, '0')
  }

  /** Python `f"{x:.{d}f}"` on exact decimals: round half to even, then print the
      digits; a negative value keeps its sign even when it rounds to zero. */
  function FormatFixed(x: real, d: nat): (s: string)
    ensures |s| >= 1
  {
    var p := Pow10(d);
    var n := RoundHalfEven(x * p as real);
    var m: nat := if n < 0 then -n else n;
    var sign := if x < 0.0 then "-" else "";
    sign + DecimalDigits(m, p, d)
  }

  /** Python `f"{x:+.{d}f}"`: an explicit '+' on non-negative values. */
  function FormatSignedFixed(x: real, d: nat): string
  {
    (if x >= 0.0 then "+" else "") + FormatFixed(x, d)
  }

  /** Python `f"{x:.{d}%}"`. */
  function FormatPercent(x: real, d: nat): string
  {
    FormatFixed(x * 100.0, d) + "%"
  }

  /** Python `f"{x:+.{d}%}"`. */
  function FormatSignedPercent(x: real, d: nat): string
  {
    FormatSignedFixed(x * 100.0, d) + "%"
  }

  /** Python `str(x)` for a float, approximated: integral values print as "n.0",
      others as twelve decimals with the trailing zeros removed. */
  function FloatToString(x: real): (s: string)
    ensures |s| >= 1
  {
    if x == (x.Floor as real) then IntToString(x.Floor) + ".0"
    else
      var f := FormatFixed(x, 12);
      var t := RStripSet(f, {'0'});
      if |t| > 0 then t else f
  }
}

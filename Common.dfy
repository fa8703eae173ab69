/** Shared vocabulary: optional values, JSON leaves, and the few pieces of
    Python string and number semantics the pipeline relies on
    (`in`, `str.split`, `int()`, `float()`, `round()`). */
module Common {

  datatype Option<T> = None | Some(value: T)

  /** A JSON leaf value as the sports-data API or a SQLite cell delivers it. */
  datatype Scalar = Num(n: real) | Text(s: string) | Null

  // ---------------------------------------------------------------------
  // Characters and substrings
  // ---------------------------------------------------------------------

  predicate IsDigit(c: char) { '0' <= c <= '9' }

  /** The ASCII whitespace that `str.split()` and `str.strip()` remove. */
  predicate IsSpace(c: char) { c == ' ' || c == '\t' || c == '\n' || c == '\r' }

  predicate AllDigits(s: string) { forall i :: 0 <= i < |s| ==> IsDigit(s[i]) }

  predicate NoSpace(s: string) { forall i :: 0 <= i < |s| ==> !IsSpace(s[i]) }

  predicate IsPrefix(p: string, s: string) { |p| <= |s| && s[..|p|] == p }

  /** Python's `p in s` on strings. */
  predicate Contains(s: string, p: string)
    decreases |s|
  {
    IsPrefix(p, s) || (|s| > 0 && Contains(s[1..], p))
  }

  lemma {:induction false} ContainsInside(a: string, p: string, b: string)
    ensures Contains(a + p + b, p)
    decreases |a|
  {
    if |a| == 0 {
      assert a + p + b == p + b;
      assert (p + b)[..|p|] == p;
    } else {
      assert (a + p + b)[1..] == a[1..] + p + b;
      ContainsInside(a[1..], p, b);
    }
  }

  /** A pattern holding a character the text lacks cannot occur in it. */
  lemma {:induction false} MissingCharNotContained(s: string, p: string, c: char)
    requires c in p && c !in s
    ensures !Contains(s, p)
    decreases |s|
  {
    if |s| > 0 {
      MissingCharNotContained(s[1..], p, c);
    }
  }

  // ---------------------------------------------------------------------
  // str.split(sep) with a one-character separator, and its inverse
  // ---------------------------------------------------------------------

  /** Python's `s.split(sep)`: every occurrence of `sep` cuts, empty pieces kept. */
  function Split(s: string, sep: char): (r: seq<string>)
    ensures |r| >= 1
    ensures forall i :: 0 <= i < |r| ==> sep !in r[i]
    decreases |s|
  {
    if |s| == 0 then [""]
    else
      var rest := Split(s[1..], sep);
      if s[0] == sep then [""] + rest
      else [[s[0]] + rest[0]] + rest[1..]
  }

  /** Python's `sep.join(parts)`. */
  function Join(parts: seq<string>, sep: string): string
    decreases |parts|
  {
    if |parts| == 0 then ""
    else if |parts| == 1 then parts[0]
    else parts[0] + sep + Join(parts[1..], sep)
  }

  /** Splitting and joining back on the same separator gives the text back. */
  lemma {:induction false} JoinSplit(s: string, sep: char)
    ensures Join(Split(s, sep), [sep]) == s
    decreases |s|
  {
    if |s| > 0 {
      var rest := Split(s[1..], sep);
      JoinSplit(s[1..], sep);
      if s[0] == sep {
        assert Split(s, sep) == [""] + rest;
        assert ([""] + rest)[1..] == rest;
      } else {
        var r := Split(s, sep);
        assert r == [[s[0]] + rest[0]] + rest[1..];
        if |rest| == 1 {
          assert r == [[s[0]] + rest[0]];
        } else {
          assert r[1..] == rest[1..];
          assert Join(rest, [sep]) == rest[0] + [sep] + Join(rest[1..], [sep]);
        }
      }
    }
  }

  /** A text without the separator is one piece. */
  lemma {:induction false} SplitNoSep(s: string, sep: char)
    requires sep !in s
    ensures Split(s, sep) == [s]
    decreases |s|
  {
    if |s| > 0 {
      SplitNoSep(s[1..], sep);
      assert [s[0]] + s[1..] == s;
    }
  }

  /** A separator-free head followed by the separator cuts exactly there. */
  lemma {:induction false} SplitAfter(a: string, sep: char, b: string)
    requires sep !in a
    ensures Split(a + [sep] + b, sep) == [a] + Split(b, sep)
    decreases |a|
  {
    if |a| == 0 {
      assert a + [sep] + b == [sep] + b;
      assert ([sep] + b)[1..] == b;
    } else {
      assert (a + [sep] + b)[1..] == a[1..] + [sep] + b;
      SplitAfter(a[1..], sep, b);
      assert [a[0]] + a[1..] == a;
    }
  }

  // ---------------------------------------------------------------------
  // str.split() on whitespace and str.strip()
  // ---------------------------------------------------------------------

  /** The longest prefix of `s` without whitespace. */
  function TakeWord(s: string): (w: string)
    ensures |w| <= |s| && w == s[..|w|] && NoSpace(w)
    ensures |w| < |s| ==> IsSpace(s[|w|])
    decreases |s|
  {
    if |s| == 0 || IsSpace(s[0]) then "" else [s[0]] + TakeWord(s[1..])
  }

  /** Python's `s.split()`: maximal runs of non-whitespace, in order. */
  function Words(s: string): (r: seq<string>)
    ensures forall i :: 0 <= i < |r| ==> |r[i]| > 0 && NoSpace(r[i])
    decreases |s|
  {
    if |s| == 0 then []
    else if IsSpace(s[0]) then Words(s[1..])
    else
      var w := TakeWord(s);
      [w] + Words(s[|w|..])
  }

  lemma {:induction false} TakeWordWhole(a: string, b: string)
    requires NoSpace(a)
    requires |b| == 0 || IsSpace(b[0])
    ensures TakeWord(a + b) == a
    decreases |a|
  {
    if |a| > 0 {
      assert (a + b)[1..] == a[1..] + b;
      TakeWordWhole(a[1..], b);
      assert [a[0]] + a[1..] == a;
    } else {
      assert a + b == b;
    }
  }

  lemma WordsOfOne(b: string)
    requires |b| > 0 && NoSpace(b)
    ensures Words(b) == [b]
  {
    TakeWordWhole(b, "");
    assert b + "" == b;
    assert b[|b|..] == "";
  }

  /** `"x y".split()` is `["x", "y"]` for two non-empty words. */
  lemma WordsOfTwo(a: string, b: string)
    requires |a| > 0 && NoSpace(a) && |b| > 0 && NoSpace(b)
    ensures Words(a + " " + b) == [a, b]
  {
    var s := a + " " + b;
    var rest := " " + b;
    assert s == a + rest;
    TakeWordWhole(a, rest);
    assert s[0] == a[0] && !IsSpace(s[0]);
    assert s[|a|..] == rest;
    assert Words(s) == [a] + Words(rest);
    assert rest[1..] == b;
    assert Words(rest) == Words(b);
    WordsOfOne(b);
  }

  function StripLeft(s: string): (r: string)
    ensures |r| <= |s| && r == s[|s| - |r|..]
    ensures |r| > 0 ==> !IsSpace(r[0])
    decreases |s|
  {
    if |s| > 0 && IsSpace(s[0]) then StripLeft(s[1..]) else s
  }

  function StripRight(s: string): (r: string)
    ensures |r| <= |s| && r == s[..|r|]
    ensures |r| > 0 ==> !IsSpace(r[|r| - 1])
    decreases |s|
  {
    if |s| > 0 && IsSpace(s[|s| - 1]) then StripRight(s[..|s| - 1]) else s
  }

  /** Python's `s.strip()`. */
  function Strip(s: string): string { StripRight(StripLeft(s)) }

  // ---------------------------------------------------------------------
  // Decimal numerals: int(), float(), and the numeral of a natural
  // ---------------------------------------------------------------------

  function DigitValue(c: char): nat requires IsDigit(c) { c as int - '0' as int }

  function DigitChar(d: nat): (c: char)
    requires d < 10
    ensures IsDigit(c) && DigitValue(c) == d
  {
    ('0' as int + d) as char
  }

  /** The value of a string of decimal digits (most significant first). */
  function DigitsValue(s: string): nat
    requires AllDigits(s)
    decreases |s|
  {
    if |s| == 0 then 0 else DigitsValue(s[..|s| - 1]) * 10 + DigitValue(s[|s| - 1])
  }

  /** The decimal numeral of `n`, as `str(n)` prints it. */
  function NatText(n: nat): (r: string)
    ensures |r| > 0 && AllDigits(r)
  {
    if n < 10 then [DigitChar(n)] else NatText(n / 10) + [DigitChar(n % 10)]
  }

  function Pow10(k: nat): (r: nat)
    ensures r >= 1
  {
    if k == 0 then 1 else 10 * Pow10(k - 1)
  }

  lemma {:induction false} NatTextValue(n: nat)
    ensures DigitsValue(NatText(n)) == n
  {
    if n >= 10 {
      NatTextValue(n / 10);
      var t := NatText(n);
      assert t[..|t| - 1] == NatText(n / 10);
    }
  }

  lemma AllDigitsNoSpace(s: string)
    requires AllDigits(s)
    ensures NoSpace(s)
  {
  }

  lemma {:induction false} StripNoSpace(s: string)
    requires NoSpace(s)
    ensures Strip(s) == s
  {
    assert StripLeft(s) == s;
    assert StripRight(s) == s;
  }

  /** Python's `int(s)` on text: optional surrounding whitespace, an optional
      sign and at least one decimal digit; anything else is a ValueError. */
  function ParseInt(s: string): (r: Option<int>)
  {
    SignedInt(Strip(s))
  }

  /** `int()` on text already stripped of surrounding whitespace. */
  function SignedInt(t: string): (r: Option<int>)
    ensures r.Some? ==> |t| > 0
  {
    if |t| > 0 && (t[0] == '-' || t[0] == '+') then
      var d := t[1..];
      if |d| > 0 && AllDigits(d) then
        var v: int := DigitsValue(d);
        Some(if t[0] == '-' then -v else v)
      else None
    else if |t| > 0 && AllDigits(t) then Some(DigitsValue(t))
    else None
  }

  /** Stripping removes only whitespace. */
  lemma {:induction false} StripKeeps(s: string, c: char)
    requires c in s && !IsSpace(c)
    ensures c in Strip(s)
  {
    StripLeftKeeps(s, c);
    StripRightKeeps(StripLeft(s), c);
  }

  lemma {:induction false} StripLeftKeeps(s: string, c: char)
    requires c in s && !IsSpace(c)
    ensures c in StripLeft(s)
    decreases |s|
  {
    if IsSpace(s[0]) {
      assert c in s[1..] by { assert s == [s[0]] + s[1..]; }
      StripLeftKeeps(s[1..], c);
    }
  }

  lemma {:induction false} StripRightKeeps(s: string, c: char)
    requires c in s && !IsSpace(c)
    ensures c in StripRight(s)
    decreases |s|
  {
    if IsSpace(s[|s| - 1]) {
      assert c in s[..|s| - 1] by { assert s == s[..|s| - 1] + [s[|s| - 1]]; }
      StripRightKeeps(s[..|s| - 1], c);
    }
  }

  /** `int()` refuses a text holding anything but whitespace, one leading
      sign and digits. */
  lemma IntRejects(s: string, c: char)
    requires c in s && !IsSpace(c) && !IsDigit(c) && c != '-' && c != '+'
    ensures ParseInt(s) == None
  {
    StripKeeps(s, c);
    var u := Strip(s);
    var j :| 0 <= j < |u| && u[j] == c;
    if |u| > 0 && (u[0] == '-' || u[0] == '+') {
      assert u[1..][j - 1] == c;
    }
  }

  /** Unsigned decimal text `ddd`, `ddd.ddd`, `.ddd` or `ddd.` (one digit at least). */
  function ParseUnsignedDecimal(t: string): Option<real>
  {
    var parts := Split(t, '.');
    if |parts| == 1 then
      if |t| > 0 && AllDigits(t) then Some(DigitsValue(t) as real) else None
    else if |parts| == 2 && AllDigits(parts[0]) && AllDigits(parts[1]) && |parts[0]| + |parts[1]| > 0 then
      Some(DigitsValue(parts[0]) as real + DigitsValue(parts[1]) as real / Pow10(|parts[1]|) as real)
    else None
  }

  /** Python's `float(s)` on decimal text: optional surrounding whitespace,
      an optional sign and an unsigned decimal; anything else is a ValueError. */
  function ParseFloat(s: string): (r: Option<real>)
  {
    var t := Strip(s);
    if |t| > 0 && (t[0] == '-' || t[0] == '+') then
      match ParseUnsignedDecimal(t[1..])
      case Some(v) => Some(if t[0] == '-' then -v else v)
      case None => None
    else ParseUnsignedDecimal(t)
  }

  lemma DigitsUnsigned(t: string)
    requires |t| > 0 && AllDigits(t)
    ensures t[0] != '-' && t[0] != '+' && t[0] != '.'
  {
    assert IsDigit(t[0]);
  }

  lemma UnsignedDigits(t: string)
    requires |t| > 0 && AllDigits(t)
    ensures SignedInt(t) == Some(DigitsValue(t) as int)
  {
    DigitsUnsigned(t);
  }

  /** The numeral of a natural parses back to it under `int()`. */
  lemma ParseIntNatText(n: nat)
    ensures ParseInt(NatText(n)) == Some(n)
  {
    var t := NatText(n);
    AllDigitsNoSpace(t);
    StripNoSpace(t);
    UnsignedDigits(t);
    NatTextValue(n);
    assert ParseInt(t) == SignedInt(t);
  }

  lemma SignedNoSpace(sign: char, d: string)
    requires !IsSpace(sign) && NoSpace(d)
    ensures NoSpace([sign] + d)
  {
    var t := [sign] + d;
    forall i | 0 <= i < |t| ensures !IsSpace(t[i]) {
      if i > 0 { assert t[i] == d[i - 1]; }
    }
  }

  /** The numeral of a natural parses back to it under `float()`. */
  lemma ParseFloatNatText(n: nat)
    ensures ParseFloat(NatText(n)) == Some(n as real)
  {
    var t := NatText(n);
    AllDigitsNoSpace(t);
    StripNoSpace(t);
    DigitsUnsigned(t);
    assert '.' !in t by {
      forall i | 0 <= i < |t| ensures t[i] != '.' { assert IsDigit(t[i]); }
    }
    SplitNoSep(t, '.');
    NatTextValue(n);
    assert ParseUnsignedDecimal(t) == Some(n as real);
  }

  /** Python's `float(x)` on a JSON leaf: numbers pass, text is parsed,
      `None` is a TypeError (here: no value). */
  function Float(v: Scalar): Option<real>
  {
    match v
    case Num(n) => Some(n)
    case Text(s) => ParseFloat(s)
    case Null => None
  }

  // ---------------------------------------------------------------------
  // Rounding and truncation
  // ---------------------------------------------------------------------

  /** Python's `round(x)`: the nearest integer, ties to the even one. */
  function RoundHalfEven(x: real): (r: int)
    ensures x - 0.5 <= r as real <= x + 0.5
    ensures (r as real == x - 0.5 || r as real == x + 0.5) ==> r % 2 == 0
  {
    var f := x.Floor;
    var d := x - f as real;
    if d < 0.5 then f
    else if d > 0.5 then f + 1
    else if f % 2 == 0 then f
    else f + 1
  }

  /** Python's `round(x, 2)`: to the nearest hundredth, ties to even. */
  function Round2(x: real): (r: real)
    ensures x - 0.005 <= r <= x + 0.005
  {
    RoundHalfEven(x * 100.0) as real / 100.0
  }

  /** Python's `int(x)` on a float: truncation toward zero. */
  function TruncInt(x: real): (r: int)
    ensures x >= 0.0 ==> 0 <= r && r as real <= x < r as real + 1.0
    ensures x < 0.0 ==> r <= 0 && r as real - 1.0 < x <= r as real
  {
    if x >= 0.0 then x.Floor else -((-x).Floor)
  }

  function Abs(x: real): real { if x < 0.0 then -x else x }

  function Min(a: int, b: int): int { if a <= b then a else b }

  function Max(a: int, b: int): int { if a >= b then a else b }

  function Sum(xs: seq<real>): real
    decreases |xs|
  {
    if |xs| == 0 then 0.0 else Sum(xs[..|xs| - 1]) + xs[|xs| - 1]
  }

  /** The arithmetic mean, as `sum(xs) / len(xs)`. */
  function Mean(xs: seq<real>): real
    requires |xs| > 0
  {
    Sum(xs) / |xs| as real
  }

  /** A mean lies between the smallest and the largest element. */
  lemma {:induction false} SumBounds(xs: seq<real>, lo: real, hi: real)
    requires forall i :: 0 <= i < |xs| ==> lo <= xs[i] <= hi
    ensures |xs| as real * lo <= Sum(xs) <= |xs| as real * hi
    decreases |xs|
  {
    if |xs| > 0 {
      var init := xs[..|xs| - 1];
      SumBounds(init, lo, hi);
      var m := |init| as real;
      assert |xs| as real == m + 1.0;
      assert Sum(xs) == Sum(init) + xs[|xs| - 1];
      assert lo <= xs[|xs| - 1] <= hi;
      assert (m + 1.0) * lo == m * lo + lo && (m + 1.0) * hi == m * hi + hi;
    }
  }

  lemma MeanBounds(xs: seq<real>, lo: real, hi: real)
    requires |xs| > 0
    requires forall i :: 0 <= i < |xs| ==> lo <= xs[i] <= hi
    ensures lo <= Mean(xs) <= hi
  {
    SumBounds(xs, lo, hi);
    var n := |xs| as real;
    assert n * lo <= Sum(xs) <= n * hi;
    assert lo == (n * lo) / n;
    assert hi == (n * hi) / n;
  }

  // ---------------------------------------------------------------------
  // ASCII case mapping (`str.upper()`, `str.lower()`)
  // ---------------------------------------------------------------------

  function UpperChar(c: char): char
  {
    if 'a' <= c <= 'z' then (c as int - 32) as char else c
  }

  function LowerChar(c: char): char
  {
    if 'A' <= c <= 'Z' then (c as int + 32) as char else c
  }

  function Upper(s: string): (r: string)
    ensures |r| == |s| && forall i :: 0 <= i < |s| ==> r[i] == UpperChar(s[i])
  {
    seq(|s|, i requires 0 <= i < |s| => UpperChar(s[i]))
  }

  function Lower(s: string): (r: string)
    ensures |r| == |s| && forall i :: 0 <= i < |s| ==> r[i] == LowerChar(s[i])
  {
    seq(|s|, i requires 0 <= i < |s| => LowerChar(s[i]))
  }
}

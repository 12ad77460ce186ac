/**
  * Numeric literals and the display rule for stack values.
  *
  * A token is a number when it reads as an optional minus sign, one or more
  * decimal digits and, optionally, a point followed by one or more digits.
  * A value is displayed truncated (not rounded) towards zero to ten
  * fractional digits, with trailing zeros and a bare point dropped, so that
  * integers print without a point ("3", "-1") and 5/2 prints as "2.5".
  */
module Numerals {
  import opened Wrappers

  /** 10^k */
  function Pow10(k: nat): (p: nat)
    ensures p >= 1
  {
    if k == 0 then 1 else 10 * Pow10(k - 1)
  }

  /** Number of fractional digits kept by the display rule. */
  const FractionDigits: nat := 10

  /** 10^FractionDigits: one displayed unit in the last place is 1/Scale. */
  const Scale: nat := 10_000_000_000

  lemma ScaleIsPow10()
    ensures Pow10(FractionDigits) == Scale
  {
  }

  lemma {:induction false} Pow10Add(a: nat, b: nat)
    ensures Pow10(a + b) == Pow10(a) * Pow10(b)
  {
    if a > 0 {
      Pow10Add(a - 1, b);
    }
  }

  predicate IsDigit(c: char) {
    '0' <= c <= '9'
  }

  predicate AllDigits(s: string) {
    forall i :: 0 <= i < |s| ==> IsDigit(s[i])
  }

  function DigitValue(c: char): (d: nat)
    requires IsDigit(c)
    ensures d < 10
  {
    c as int - '0' as int
  }

  function DigitChar(d: nat): (c: char)
    requires d < 10
    ensures IsDigit(c) && DigitValue(c) == d
  {
    ('0' as int + d) as char
  }

  /** The value of a string of decimal digits, most significant first. */
  function DigitsValue(s: string): nat
    requires AllDigits(s)
  {
    if s == [] then 0 else 10 * DigitsValue(s[..|s| - 1]) + DigitValue(s[|s| - 1])
  }

  /** The decimal digits of n without leading zeros ("0" for zero). */
  function NatToString(n: nat): (s: string)
    ensures s != [] && AllDigits(s)
    ensures n == 0 <==> s == "0"
    ensures |s| > 1 ==> s[0] != '0'
  {
    if n < 10 then [DigitChar(n)] else NatToString(n / 10) + [DigitChar(n % 10)]
  }

  lemma {:induction false} NatToStringValue(n: nat)
    ensures DigitsValue(NatToString(n)) == n
  {
    if n >= 10 {
      var s := NatToString(n);
      assert s[..|s| - 1] == NatToString(n / 10);
      NatToStringValue(n / 10);
    }
  }

  /** NatToString is canonical: a digit string without a leading zero is the
      rendering of its own value. */
  lemma {:induction false} NatToStringCanonical(s: string)
    requires s != [] && AllDigits(s)
    requires |s| > 1 ==> s[0] != '0'
    ensures NatToString(DigitsValue(s)) == s
  {
    var n := DigitsValue(s);
    var init := s[..|s| - 1];
    if |s| == 1 {
      assert init == [];
    } else {
      assert init[0] == s[0];
      if |init| > 1 {
        assert init[..|init| - 1][0] == s[0];
      }
      NatToStringCanonical(init);
      DigitsValuePositive(init);
      assert n / 10 == DigitsValue(init);
      assert s == init + [s[|s| - 1]];
    }
  }

  lemma {:induction false} DigitsValuePositive(s: string)
    requires s != [] && AllDigits(s) && s[0] != '0'
    ensures DigitsValue(s) >= 1
  {
    if |s| > 1 {
      assert s[..|s| - 1][0] == s[0];
      DigitsValuePositive(s[..|s| - 1]);
    }
  }

  lemma {:induction false} NatToStringLength(n: nat, k: nat)
    requires n < Pow10(k)
    ensures |NatToString(n)| <= k || (n == 0 && k == 0)
  {
    if n >= 10 {
      NatToStringLength(n / 10, k - 1);
    }
  }

  function Zeros(k: nat): (s: string)
    ensures |s| == k && AllDigits(s)
  {
    if k == 0 then [] else Zeros(k - 1) + ['0']
  }

  lemma {:induction false} LeadingZeroValue(s: string)
    requires AllDigits(s)
    ensures DigitsValue(['0'] + s) == DigitsValue(s)
  {
    if s != [] {
      var t := ['0'] + s;
      assert t[..|t| - 1] == ['0'] + s[..|s| - 1];
      LeadingZeroValue(s[..|s| - 1]);
    }
  }

  lemma {:induction false} LeadingZerosValue(k: nat, s: string)
    requires AllDigits(s)
    ensures AllDigits(Zeros(k) + s) && DigitsValue(Zeros(k) + s) == DigitsValue(s)
  {
    if k > 0 {
      var t := ['0'] + s;
      assert AllDigits(t);
      LeadingZeroValue(s);
      LeadingZerosValue(k - 1, t);
      assert Zeros(k) + s == Zeros(k - 1) + t;
    } else {
      assert Zeros(k) + s == s;
    }
  }

  /** s padded with leading zeros to at least width characters. */
  function PadLeft(s: string, width: nat): (r: string)
    ensures |r| == if |s| < width then width else |s|
  {
    if |s| < width then Zeros(width - |s|) + s else s
  }

  function StripTrailingZeros(s: string): (r: string)
    ensures |r| <= |s| && r == s[..|r|]
    ensures r != [] ==> r[|r| - 1] != '0'
  {
    if s != [] && s[|s| - 1] == '0' then StripTrailingZeros(s[..|s| - 1]) else s
  }

  lemma {:induction false} StripTrailingZerosValue(s: string)
    requires AllDigits(s)
    ensures AllDigits(StripTrailingZeros(s))
    ensures DigitsValue(StripTrailingZeros(s)) * Pow10(|s| - |StripTrailingZeros(s)|) == DigitsValue(s)
  {
    if s != [] && s[|s| - 1] == '0' {
      var init := s[..|s| - 1];
      StripTrailingZerosValue(init);
      var r := StripTrailingZeros(init);
      var e := |init| - |r|;
      assert StripTrailingZeros(s) == r && |s| - |r| == e + 1;
      assert Pow10(e + 1) == 10 * Pow10(e);
      assert DigitsValue(s) == 10 * DigitsValue(init) by {
        assert s[..|s| - 1] == init;
      }
      TimesTen(DigitsValue(r), Pow10(e));
    }
  }

  lemma TimesTen(d: nat, p: nat)
    ensures d * (10 * p) == 10 * (d * p)
  {
  }

  /** Position of the first '.' in s, or |s| when there is none. */
  function IndexOfPoint(s: string): (i: nat)
    ensures i <= |s|
    ensures i < |s| ==> s[i] == '.'
  {
    if s == [] then 0 else if s[0] == '.' then 0 else 1 + IndexOfPoint(s[1..])
  }

  /** The value of fractional digits q: q / 10^|q|. */
  function FractionValue(q: string): real
    requires AllDigits(q)
  {
    DigitsValue(q) as real / Pow10(|q|) as real
  }

  /** t units of 1/Scale, as a value. */
  function FromUnits(t: int): real {
    t as real / Scale as real
  }

  /** A numeric literal as written: a minus sign or none, the digits before
      the point, and the digits after it ("" for a literal without a point). */
  datatype Literal = Literal(negative: bool, whole: string, fraction: string)

  predicate WellFormed(l: Literal) {
    l.whole != [] && AllDigits(l.whole) && AllDigits(l.fraction)
  }

  /** The text of a literal without its sign; the point is written only
      before a fraction. */
  function UnsignedText(l: Literal): string {
    l.whole + (if l.fraction == [] then "" else "." + l.fraction)
  }

  /** The text of a literal. */
  function WriteLiteral(l: Literal): string {
    (if l.negative then "-" else "") + UnsignedText(l)
  }

  /** Reads digits, optionally followed by '.' and at least one more digit. */
  function ReadUnsigned(negative: bool, s: string): (r: Option<Literal>)
    ensures r.Some? ==> WellFormed(r.value) && r.value.negative == negative
  {
    var i := IndexOfPoint(s);
    if i == |s| then
      if s != [] && AllDigits(s) then Some(Literal(negative, s, "")) else None
    else
      var whole, fraction := s[..i], s[i + 1..];
      if whole != [] && fraction != [] && AllDigits(whole) && AllDigits(fraction) then
        Some(Literal(negative, whole, fraction))
      else
        None
  }

  /** Reads a token as a literal: an optional '-' before an unsigned literal. */
  function ReadLiteral(s: string): (r: Option<Literal>)
    ensures r.Some? ==> WellFormed(r.value)
  {
    if s != [] && s[0] == '-' then ReadUnsigned(true, s[1..]) else ReadUnsigned(false, s)
  }

  /** The value of a literal without its sign. */
  function Magnitude(l: Literal): real
    requires WellFormed(l)
  {
    DigitsValue(l.whole) as real + FractionValue(l.fraction)
  }

  /** The value a literal denotes. */
  function Value(l: Literal): real
    requires WellFormed(l)
  {
    if l.negative then -Magnitude(l) else Magnitude(l)
  }

  /** The numeric value of a token, or None when the token is not a literal. */
  function ParseNumber(s: string): Option<real> {
    match ReadLiteral(s)
    case Some(l) => Some(Value(l))
    case None => None
  }

  /** The characters a literal is written with: digits, the sign and the point. */
  predicate IsLiteralChar(c: char) {
    IsDigit(c) || c == '-' || c == '.'
  }

  /** Every number token is non-empty and written only with digits, the sign
      and the point; so a token that is empty or holds any other character is
      not a number. */
  lemma NumberCharacters(s: string)
    requires ParseNumber(s).Some?
    ensures s != [] && forall i :: 0 <= i < |s| ==> IsLiteralChar(s[i])
  {
    WriteRead(s);
    WrittenCharacters(ReadLiteral(s).value);
  }

  lemma WrittenCharacters(l: Literal)
    requires WellFormed(l)
    ensures var w := WriteLiteral(l); w != [] && forall i :: 0 <= i < |w| ==> IsLiteralChar(w[i])
  {
    var u := UnsignedText(l);
    assert forall i :: 0 <= i < |u| ==> IsLiteralChar(u[i]);
  }

  lemma {:induction false} IndexOfPointAfterDigits(d: string, rest: string)
    requires AllDigits(d)
    ensures IndexOfPoint(d + rest) == |d| + IndexOfPoint(rest)
  {
    if d != [] {
      assert (d + rest)[0] == d[0] != '.';
      assert (d + rest)[1..] == d[1..] + rest;
      IndexOfPointAfterDigits(d[1..], rest);
    } else {
      assert d + rest == rest;
    }
  }

  lemma PointedSlices(d: string, q: string)
    ensures var s := d + ("." + q);
      |s| == |d| + 1 + |q| && s[|d|] == '.' && s[..|d|] == d && s[|d| + 1..] == q
  {
    var s := d + ("." + q);
    assert s[..|d|] == d;
    assert s[|d| + 1..] == q;
  }

  /** The unsigned part of a written literal reads back as that literal. */
  lemma ReadUnsignedWritten(l: Literal)
    requires WellFormed(l)
    ensures ReadUnsigned(l.negative, UnsignedText(l)) == Some(l)
  {
    if l.fraction == [] {
      assert l.whole + "" == l.whole;
      IndexOfPointAfterDigits(l.whole, "");
    } else {
      IndexOfPointAfterDigits(l.whole, "." + l.fraction);
      PointedSlices(l.whole, l.fraction);
    }
  }

  /** Reading a written literal gives the literal back. */
  lemma ReadWrite(l: Literal)
    requires WellFormed(l)
    ensures ReadLiteral(WriteLiteral(l)) == Some(l)
  {
    ReadUnsignedWritten(l);
    if l.negative {
      ReadSigned(UnsignedText(l));
    } else {
      assert "" + UnsignedText(l) == UnsignedText(l);
      ReadUnsignedStart(l);
    }
  }

  /** A leading '-' marks the rest of the token as a negative literal. */
  lemma ReadSigned(u: string)
    ensures ReadLiteral("-" + u) == ReadUnsigned(true, u)
  {
    assert ("-" + u)[1..] == u;
  }

  /** Without a leading '-', a token is read as a non-negative literal. */
  lemma ReadUnsignedStart(l: Literal)
    requires WellFormed(l)
    ensures ReadLiteral(UnsignedText(l)) == ReadUnsigned(false, UnsignedText(l))
  {
    assert UnsignedText(l)[0] == l.whole[0];
  }

  /** What ReadUnsigned accepts is the text of the literal it returns. */
  lemma UnsignedRead(negative: bool, u: string)
    requires ReadUnsigned(negative, u).Some?
    ensures UnsignedText(ReadUnsigned(negative, u).value) == u
  {
    var i := IndexOfPoint(u);
    if i == |u| {
      assert u + "" == u;
    } else {
      assert u[..i] + ("." + u[i + 1..]) == u by {
        assert u == u[..i] + [u[i]] + u[i + 1..];
      }
    }
  }

  /** Whatever ReadLiteral accepts is the text of the literal it returns:
      reading loses nothing. */
  lemma WriteRead(s: string)
    requires ReadLiteral(s).Some?
    ensures WriteLiteral(ReadLiteral(s).value) == s
  {
    if s != [] && s[0] == '-' {
      UnsignedRead(true, s[1..]);
      assert s == "-" + s[1..];
    } else {
      UnsignedRead(false, s);
      assert "" + s == s;
    }
  }

  /** The text of a literal starts with a digit, or with '-' and a digit. */
  lemma LiteralStart(l: Literal)
    requires WellFormed(l)
    ensures var s := WriteLiteral(l);
      s != [] && (IsDigit(s[0]) || (|s| >= 2 && s[0] == '-' && IsDigit(s[1])))
  {
    var u := UnsignedText(l);
    assert u[0] == l.whole[0];
    if l.negative {
      assert WriteLiteral(l) == "-" + u;
    } else {
      assert WriteLiteral(l) == "" + u;
    }
  }

  /** A well-formed literal's text reads as its value. */
  lemma ParseWritten(l: Literal)
    requires WellFormed(l)
    ensures ParseNumber(WriteLiteral(l)) == Some(Value(l))
  {
    ReadWrite(l);
  }

  /** A string of digits reads as its decimal value. */
  lemma ParseDigits(s: string)
    requires s != [] && AllDigits(s)
    ensures ParseNumber(s) == Some(DigitsValue(s) as real)
  {
    var l := Literal(false, s, "");
    WrittenDigits(s);
    ParseWritten(l);
    assert Value(l) == DigitsValue(s) as real by {
      assert DigitsValue("") == 0 && Pow10(0) == 1;
      assert FractionValue("") == 0.0;
    }
  }

  lemma WrittenDigits(s: string)
    ensures WriteLiteral(Literal(false, s, "")) == s
  {
    assert UnsignedText(Literal(false, s, "")) == s + "" == s;
    assert "" + s == s;
  }

  function Abs(x: int): nat {
    if x < 0 then -x else x
  }

  /** v * Scale truncated towards zero: v in units of the last displayed digit. */
  function Truncated(v: real): int {
    var x := v * Scale as real;
    if x >= 0.0 then x.Floor else -((-x).Floor)
  }

  /** Truncation is towards zero: the kept units never exceed the magnitude of
      the value and miss it by less than one unit, and the sign is kept. */
  lemma TruncatedBounds(v: real)
    ensures var t, x := Truncated(v), v * Scale as real;
      (t < 0 ==> v < 0.0) && (t > 0 ==> v > 0.0) &&
      Abs(t) as real <= (if x < 0.0 then -x else x) < Abs(t) as real + 1.0
  {
  }

  /** The significant fractional digits of f units of 1/Scale: f zero-padded
      to FractionDigits places, trailing zeros dropped; "" when f is zero. */
  function SignificantFraction(f: nat): string
    requires f < Scale
  {
    if f == 0 then "" else StripTrailingZeros(PadLeft(NatToString(f), FractionDigits))
  }

  /** The literal that displays t units: sign, whole part, significant fraction. */
  function UnitsLiteral(t: int): Literal {
    var m := Abs(t);
    Literal(t < 0, NatToString(m / Scale), SignificantFraction(m % Scale))
  }

  /** The display of t units of 1/Scale. */
  function FormatUnits(t: int): (s: string)
    ensures s != []
  {
    var l := UnitsLiteral(t);
    assert |WriteLiteral(l)| >= |l.whole|;
    WriteLiteral(l)
  }

  /** The display of a stack value: truncated to Scale units, then written out. */
  function Format(v: real): (s: string)
    ensures s != []
  {
    FormatUnits(Truncated(v))
  }

  /** The values the display shows exactly: multiples of 1/Scale. */
  predicate DisplayExact(v: real) {
    (v * Scale as real).Floor as real == v * Scale as real
  }

  /** Zero-padded to FractionDigits places, a fraction count keeps its value. */
  lemma PaddedFraction(f: nat)
    requires 0 < f < Scale
    ensures var p := PadLeft(NatToString(f), FractionDigits);
      |p| == FractionDigits && AllDigits(p) && DigitsValue(p) == f
  {
    var digits := NatToString(f);
    ScaleIsPow10();
    NatToStringLength(f, FractionDigits);
    if |digits| < FractionDigits {
      LeadingZerosValue(FractionDigits - |digits|, digits);
    }
    NatToStringValue(f);
  }

  /** a / b == (a * c) / (b * c) over the reals, for positive b and c. */
  lemma ScaledQuotient(a: nat, b: nat, c: nat)
    requires b > 0 && c > 0
    ensures a as real / b as real == (a * c) as real / (b * c) as real
  {
    assert (a * c) as real == a as real * c as real;
    assert (b * c) as real == b as real * c as real;
  }

  /** Dropping trailing zeros from FractionDigits fractional digits keeps the
      value of the fraction, and leaves at least one digit when it is not zero. */
  lemma StrippedFraction(p: string)
    requires |p| == FractionDigits && AllDigits(p) && DigitsValue(p) > 0
    ensures var q := StripTrailingZeros(p);
      q != [] && AllDigits(q) && FractionValue(q) == FromUnits(DigitsValue(p))
  {
    var q := StripTrailingZeros(p);
    StripTrailingZerosValue(p);
    var e := FractionDigits - |q|;
    assert DigitsValue(q) * Pow10(e) == DigitsValue(p);
    assert q != [];
    Pow10Add(|q|, e);
    ScaleIsPow10();
    assert Pow10(|q|) * Pow10(e) == Scale;
    ScaledQuotient(DigitsValue(q), Pow10(|q|), Pow10(e));
  }

  /** The significant fraction of f units is empty exactly when f is zero, and
      its digits denote f / Scale. */
  lemma SignificantFractionValue(f: nat)
    requires f < Scale
    ensures var q := SignificantFraction(f);
      (f == 0 <==> q == []) && AllDigits(q) && FractionValue(q) == FromUnits(f)
  {
    if f > 0 {
      PaddedFraction(f);
      StrippedFraction(PadLeft(NatToString(f), FractionDigits));
    }
  }

  /** m units are w whole units and f units more, when m == w * Scale + f. */
  lemma SplitUnits(m: nat, w: nat, f: nat)
    requires m == w * Scale + f
    ensures FromUnits(m) == w as real + FromUnits(f)
  {
    assert m as real == (w * Scale) as real + f as real;
    assert (w * Scale) as real == w as real * Scale as real;
  }

  lemma NegativeUnits(t: int)
    requires t < 0
    ensures -FromUnits(Abs(t)) == FromUnits(t)
  {
  }

  /** The literal displaying t units is well formed and denotes t / Scale. */
  lemma UnitsLiteralValue(t: int)
    ensures WellFormed(UnitsLiteral(t)) && Value(UnitsLiteral(t)) == FromUnits(t)
  {
    var m := Abs(t);
    var w, f := m / Scale, m % Scale;
    var l := UnitsLiteral(t);
    NatToStringValue(w);
    SignificantFractionValue(f);
    assert Magnitude(l) == w as real + FromUnits(f);
    SplitUnits(m, w, f);
    if t < 0 {
      NegativeUnits(t);
    }
  }

  /** Reading back the display of t units gives t / Scale. */
  lemma ParseFormatUnits(t: int)
    ensures ParseNumber(FormatUnits(t)) == Some(FromUnits(t))
  {
    UnitsLiteralValue(t);
    ParseWritten(UnitsLiteral(t));
  }

  lemma DivideScaled(v: real, k: real)
    requires k > 0.0
    ensures (v * k) / k == v
  {
  }

  /** For an exactly displayable value, the truncated units are exact. */
  lemma TruncatedExact(v: real)
    requires DisplayExact(v)
    ensures FromUnits(Truncated(v)) == v
  {
    var k := Scale as real;
    var x := v * k;
    var t := Truncated(v);
    var m := Abs(t);
    if x >= 0.0 {
      assert t == x.Floor;
      assert m as real == x;
      DivideScaled(v, k);
      assert v >= 0.0;
    } else {
      assert (-x).Floor == -(x.Floor);
      assert t == x.Floor;
      assert m as real == -x;
      assert -x == (-v) * k;
      DivideScaled(-v, k);
    }
  }

  /** Reading back a display gives the value, whenever the display is exact. */
  lemma ParseFormat(v: real)
    requires DisplayExact(v)
    ensures ParseNumber(Format(v)) == Some(v)
  {
    ParseFormatUnits(Truncated(v));
    TruncatedExact(v);
  }

  /** The display of a whole number is its canonical numeral. */
  lemma FormatNatural(n: nat)
    ensures Format(n as real) == NatToString(n)
  {
    assert Truncated(n as real) == n * Scale;
    assert (n * Scale) / Scale == n;
    assert UnitsLiteral(n * Scale) == Literal(false, NatToString(n), "");
    WrittenDigits(NatToString(n));
  }

  /** A negative whole number displays as '-' and its numeral. */
  lemma FormatNegative(n: nat)
    requires n > 0
    ensures Format(-(n as real)) == "-" + NatToString(n)
  {
    var t := -(n * Scale);
    var x := -(n as real) * Scale as real;
    assert x == -((n * Scale) as real);
    assert (-x).Floor == n * Scale;
    assert Truncated(-(n as real)) == t;
    assert Abs(t) / Scale == n && Abs(t) % Scale == 0;
    assert UnitsLiteral(t) == Literal(true, NatToString(n), "");
    assert WriteLiteral(UnitsLiteral(t)) == "-" + (NatToString(n) + "");
    assert NatToString(n) + "" == NatToString(n);
  }

  lemma DigitsHaveNoSpace(s: string)
    requires AllDigits(s)
    ensures ' ' !in s
  {
  }

  /** A well-formed literal's text holds no space. */
  lemma WrittenHasNoSpace(l: Literal)
    requires WellFormed(l)
    ensures ' ' !in WriteLiteral(l)
  {
    DigitsHaveNoSpace(l.whole);
    DigitsHaveNoSpace(l.fraction);
  }

  /** A display is a single word: it never holds a space. */
  lemma FormatHasNoSpace(v: real)
    ensures ' ' !in Format(v)
  {
    UnitsLiteralValue(Truncated(v));
    WrittenHasNoSpace(UnitsLiteral(Truncated(v)));
  }
}

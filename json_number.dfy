/** The numbers an overlay's stored `position` and `timing` objects hold, as Python loads them
    from JSON: their value, Python's `>` and `-` on them, and `str()` of them, the text the FFmpeg
    filter graph is built from. */
module JsonNumbers {
  import opened Text

  /** A JSON number as Python loads it: an `int`, or a `float` written with `places` decimal
      places, worth `digits / 10^places` (`0.3` is `Float(3, 1)`, `5.0` is `Float(50, 1)`). */
  datatype Number = Int(i: int) | Float(digits: int, places: nat)

  function Pow10(n: nat): (r: nat)
    ensures r >= 1
  {
    if n == 0 then 1 else 10 * Pow10(n - 1)
  }

  lemma {:induction false} Pow10Add(a: nat, b: nat)
    ensures Pow10(a + b) == Pow10(a) * Pow10(b)
  {
    if a > 0 {
      Pow10Add(a - 1, b);
    }
  }

  /** The number's value. */
  function Value(n: Number): real
  {
    match n
    case Int(i) => i as real
    case Float(d, p) => d as real / Pow10(p) as real
  }

  /** Scaling the numerator and the denominator by the same factor keeps the quotient. */
  lemma ScaledQuotient(d: int, k: nat, q: nat)
    requires k >= 1 && q >= 1
    ensures (d * k) as real / (k * q) as real == d as real / q as real
  {
    var r := d as real / q as real;
    assert d as real == r * q as real;
    assert (d * k) as real == (r * q as real) * k as real;
    assert (k * q) as real == k as real * q as real;
  }

  /** Python's `x > 0`. */
  function Positive(n: Number): (b: bool)
    ensures b <==> Value(n) > 0.0
  {
    match n
    case Int(i) => i > 0
    case Float(d, _) => d > 0
  }

  function Digits(n: Number): int
  {
    match n
    case Int(i) => i
    case Float(d, _) => d
  }

  function Places(n: Number): nat
  {
    match n
    case Int(_) => 0
    case Float(_, p) => p
  }

  /** `d` hundredths, thousandths, ... rewritten with `m` places: the same value. */
  function Widen(d: int, p: nat, m: nat): (e: int)
    requires p <= m
    ensures e as real / Pow10(m) as real == d as real / Pow10(p) as real
  {
    Pow10Add(m - p, p);
    ScaledQuotient(d, Pow10(m - p), Pow10(p));
    d * Pow10(m - p)
  }

  lemma QuotientOfDifference(x: int, y: int, q: nat)
    requires q >= 1
    ensures (x - y) as real / q as real == x as real / q as real - y as real / q as real
  {
  }

  /** Python's `a - b`: an `int` when both are, otherwise a float (its rounding is not modelled). */
  function Sub(a: Number, b: Number): (r: Number)
    ensures r.Int? <==> a.Int? && b.Int?
    ensures Value(r) == Value(a) - Value(b)
  {
    if a.Int? && b.Int? then Int(a.i - b.i)
    else
      var m := if Places(a) < Places(b) then Places(b) else Places(a);
      var x, y := Widen(Digits(a), Places(a), m), Widen(Digits(b), Places(b), m);
      QuotientOfDifference(x, y, Pow10(m));
      Float(x - y, m)
  }

  // ---------------------------------------------------------------- str()

  /** The same float with its trailing zero places dropped: `Float(50, 2)` becomes `Float(5, 1)`. */
  function Trim(d: int, p: nat): (r: Number)
    decreases p
    ensures r.Float? && Value(r) == d as real / Pow10(p) as real
    ensures r.places <= p && (r.places == 0 || r.digits % 10 != 0)
  {
    if p > 0 && d % 10 == 0 then
      ScaledQuotient(d / 10, 10, Pow10(p - 1));
      Trim(d / 10, p - 1)
    else Float(d, p)
  }

  /** `s` with zeros in front, to length `width`. */
  function PadZeros(s: string, width: nat): (r: string)
    decreases width - |s|
  {
    if |s| >= width then s else PadZeros("0" + s, width)
  }

  /** The digits after the point: `f` written with exactly `p` digits, or "0" when `p` is zero. */
  function Fraction(f: nat, p: nat): string
  {
    if p == 0 then "0" else PadZeros(NatToDecimal(f), p)
  }

  function Magnitude(d: int): nat
  {
    if d < 0 then -d else d
  }

  /** `d / 10^p` in positional form: the sign, the whole part, the point and the fraction. */
  function Positional(d: int, p: nat): string
  {
    (if d < 0 then "-" else "") + UnsignedPositional(Magnitude(d), p)
  }

  /** `m / 10^p` for a natural `m`: the whole part, the point and the fraction. */
  function UnsignedPositional(m: nat, p: nat): string
  {
    var q := Pow10(p);
    NatToDecimal(Whole(m, q)) + "." + Fraction(Rest(m, q), p)
  }

  lemma DivisionOfNaturals(m: nat, q: nat)
    requires q >= 1
    ensures 0 <= m / q && 0 <= m % q < q && m == (m / q) * q + m % q
  {
  }

  /** `m // q` for natural numbers. */
  function Whole(m: nat, q: nat): (w: nat)
    requires q >= 1
    ensures w == m / q
  {
    DivisionOfNaturals(m, q);
    m / q
  }

  /** `m % q` for natural numbers: what is left after the whole part. */
  function Rest(m: nat, q: nat): (f: nat)
    requires q >= 1
    ensures f == m % q && f < q && m == Whole(m, q) * q + f
  {
    DivisionOfNaturals(m, q);
    m % q
  }

  /** Python's `str()` of a number: an int's numeral, or a float's shortest positional form with
      at least one digit after the point ("0.3", "5.0", "-0.05"). */
  function Str(n: Number): string
  {
    match n
    case Int(i) => IntToDecimal(i)
    case Float(d, p) => var t := Trim(d, p); Positional(t.digits, t.places)
  }

  // ------------------------------------------------------------- float()

  predicate IsNumeral(s: string)
  {
    |s| >= 1 && forall k :: 0 <= k < |s| ==> IsDigit(s[k])
  }

  /** `float(s)` for unsigned positional text: digits, optionally a point and more digits
      (anything else reads as 0). */
  function UnsignedValue(s: string): real
  {
    var k := IndexOf(s, '.');
    if k == |s| then (if IsNumeral(s) then DecimalValue(s) as real else 0.0)
    else if IsNumeral(s[..k]) && IsNumeral(s[k + 1..]) then PointValue(s[..k], s[k + 1..])
    else 0.0
  }

  /** The value of `whole.fraction`. */
  function PointValue(whole: string, fraction: string): real
    requires IsNumeral(whole) && IsNumeral(fraction)
  {
    DecimalValue(whole) as real + DecimalValue(fraction) as real / Pow10(|fraction|) as real
  }

  /** Python's `float(s)` on the text `Str` prints (anything else reads as 0). */
  function Read(s: string): real
  {
    if |s| >= 1 && s[0] == '-' then -UnsignedValue(s[1..]) else UnsignedValue(s)
  }

  lemma {:induction false} PadZerosShape(s: string, width: nat)
    requires IsNumeral(s)
    ensures var r := PadZeros(s, width);
            IsNumeral(r) && DecimalValue(r) == DecimalValue(s) && (|s| <= width ==> |r| == width)
    decreases width - |s|
  {
    if |s| < width {
      LeadingZero(s);
      PadZerosShape("0" + s, width);
    }
  }

  /** A leading zero does not change a numeral's value. */
  lemma {:induction false} LeadingZero(s: string)
    requires IsNumeral(s)
    ensures IsNumeral("0" + s) && DecimalValue("0" + s) == DecimalValue(s)
  {
    var z := "0" + s;
    if |s| > 1 {
      assert z[..|z| - 1] == "0" + s[..|s| - 1];
      LeadingZero(s[..|s| - 1]);
    } else {
      assert z[..|z| - 1] == "0";
    }
  }

  /** A number below `10^p` has at most `p` digits. */
  lemma {:induction false} NumeralWidth(f: nat, p: nat)
    requires p >= 1 && f < Pow10(p)
    ensures |NatToDecimal(f)| <= p
  {
    if f >= 10 {
      NumeralWidth(f / 10, p - 1);
    }
  }

  lemma NumeralHasNoPoint(s: string)
    requires IsNumeral(s)
    ensures IndexOf(s, '.') == |s|
  {
  }

  /** Digits, a point and digits read as the whole part plus the fraction. */
  lemma UnsignedOfPoint(a: string, b: string)
    requires IsNumeral(a) && IsNumeral(b)
    ensures UnsignedValue(a + "." + b) == PointValue(a, b)
  {
    var u := a + "." + b;
    assert '.' !in a;
    IndexOfSeparator(a, '.', b);
    var k := IndexOf(u, '.');
    assert k == |a| && k < |u| && |u| - k - 1 == |b|;
    assert u[..k] == a && u[k + 1..] == b;
  }

  /** `whole.fraction` reads back as `whole + fraction / 10^places`. */
  lemma ReadUnsigned(w: nat, f: nat, p: nat)
    requires p == 0 ==> f == 0
    requires p >= 1 ==> f < Pow10(p)
    ensures UnsignedValue(NatToDecimal(w) + "." + Fraction(f, p))
            == w as real + f as real / Pow10(p) as real
  {
    var frac := Fraction(f, p);
    DecimalRoundTrip(w);
    if p == 0 {
      assert frac == [DigitChar(0)];
      assert DecimalValue(frac) == 0;
    } else {
      NumeralWidth(f, p);
      PadZerosShape(NatToDecimal(f), p);
      DecimalRoundTrip(f);
    }
    UnsignedOfPoint(NatToDecimal(w), frac);
    assert PointValue(NatToDecimal(w), frac) == w as real + f as real / Pow10(p) as real;
  }

  /** The whole part and the fraction of `m / q` add up to it. */
  lemma QuotientOfParts(w: nat, f: nat, q: nat, m: nat)
    requires q >= 1 && m == w * q + f
    ensures w as real + f as real / q as real == m as real / q as real
  {
    assert m as real == w as real * q as real + f as real;
    assert (w as real * q as real) / q as real == w as real;
  }

  lemma NegatedQuotient(d: int, q: nat)
    requires d < 0 && q >= 1
    ensures -((-d) as real / q as real) == d as real / q as real
  {
  }

  lemma ReadUnsignedPositional(m: nat, p: nat)
    ensures UnsignedValue(UnsignedPositional(m, p)) == m as real / Pow10(p) as real
  {
    var q := Pow10(p);
    var w, f := Whole(m, q), Rest(m, q);
    ReadUnsigned(w, f, p);
    QuotientOfParts(w, f, q, m);
  }

  lemma ReadPositional(d: int, p: nat)
    ensures Read(Positional(d, p)) == d as real / Pow10(p) as real
  {
    var u := UnsignedPositional(Magnitude(d), p);
    ReadUnsignedPositional(Magnitude(d), p);
    if d < 0 {
      assert Positional(d, p) == "-" + u;
      assert ("-" + u)[1..] == u;
      assert Read("-" + u) == -UnsignedValue(u);
      NegatedQuotient(d, Pow10(p));
    } else {
      assert Positional(d, p) == u;
      assert IsDigit(u[0]);
      assert Read(u) == UnsignedValue(u);
    }
  }

  /** `float(str(x)) == x`: the printed text reads back as the number. */
  lemma ReadStr(n: Number)
    ensures Read(Str(n)) == Value(n)
  {
    match n {
      case Int(i) =>
        var s := IntToDecimal(i);
        if i < 0 {
          assert s[1..] == NatToDecimal(-i);
          NumeralHasNoPoint(NatToDecimal(-i));
          DecimalRoundTrip(-i);
        } else {
          NumeralHasNoPoint(s);
          DecimalRoundTrip(i);
        }
      case Float(d, p) =>
        var t := Trim(d, p);
        ReadPositional(t.digits, t.places);
    }
  }

  /** A float's text depends on its value, not on how many zero places it was written with. */
  lemma StrIgnoresTrailingZeros(d: int, p: nat, k: nat)
    ensures Str(Float(d * Pow10(k), p + k)) == Str(Float(d, p))
  {
    TrimIgnoresTrailingZeros(d, p, k);
  }

  lemma {:induction false} TrimIgnoresTrailingZeros(d: int, p: nat, k: nat)
    ensures Trim(d * Pow10(k), p + k) == Trim(d, p)
  {
    if k > 0 {
      var e := d * Pow10(k - 1);
      assert d * Pow10(k) == e * 10;
      assert (e * 10) % 10 == 0 && (e * 10) / 10 == e;
      assert Trim(e * 10, p + k) == Trim(e, p + k - 1);
      TrimIgnoresTrailingZeros(d, p, k - 1);
    }
  }

  lemma {:induction false} PadZerosCharacters(s: string, width: nat, c: char)
    requires c != '0' && c !in s
    ensures c !in PadZeros(s, width)
    decreases width - |s|
  {
    if |s| < width {
      PadZerosCharacters("0" + s, width, c);
    }
  }

  /** The text holds only digits, a leading minus sign and the point. */
  lemma StrCharacters(n: Number, c: char)
    requires c != '-' && c != '.' && !IsDigit(c)
    ensures c !in Str(n)
  {
    match n {
      case Int(i) => DecimalCharacters(i, c);
      case Float(d, p) =>
        var t := Trim(d, p);
        var m, q := Magnitude(t.digits), Pow10(t.places);
        assert Str(n) == (if t.digits < 0 then "-" else "") + UnsignedPositional(m, t.places);
        DecimalCharacters(Whole(m, q), c);
        DecimalCharacters(Rest(m, q), c);
        PadZerosCharacters(NatToDecimal(Rest(m, q)), t.places, c);
    }
  }

  /** A float with one non-zero decimal place prints as its two digits around the point. */
  lemma StrOfTenths(w: nat, t: nat)
    requires w < 10 && 0 < t < 10
    ensures Str(Float(10 * w + t, 1)) == [DigitChar(w), '.', DigitChar(t)]
  {
    assert Trim(10 * w + t, 1) == Float(10 * w + t, 1);
    assert Whole(10 * w + t, 10) == w && Rest(10 * w + t, 10) == t;
  }

  /** `str(5.0)` is "5.0". */
  lemma StrOfFivePointZero()
    ensures Str(Float(50, 1)) == "5.0"
  {
    assert Trim(50, 1) == Float(5, 0);
    assert Fraction(0, 0) == "0";
  }

  /** `str(5 - 0.3)` is "4.7". */
  lemma StrOfDifference()
    ensures Str(Sub(Int(5), Float(3, 1))) == "4.7"
  {
    assert Sub(Int(5), Float(3, 1)) == Float(47, 1);
    assert Fraction(7, 1) == "7";
  }
}

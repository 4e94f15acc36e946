/**
 * The price key of the client-side filter: the listing's `price` text with
 * `/ETB|[^0-9.-]+/g` replaced by nothing, trimmed, and read by `parseFloat`.
 * Numbers are exact reals; `None` stands for `NaN`.
 */
module Price {
  import opened Common
  import opened Text

  predicate IsDigit(c: char)
  {
    '0' <= c <= '9'
  }

  predicate AllDigits(s: string)
  {
    forall i :: 0 <= i < |s| ==> IsDigit(s[i])
  }

  /** The characters the regular expression's negated class spares: digits, `.` and `-`. */
  predicate IsPriceChar(c: char)
  {
    IsDigit(c) || c == '.' || c == '-'
  }

  /** Reference definition of the strip: the price characters of `s`, in order. */
  function KeepPriceChars(s: string): (r: string)
    ensures forall i :: 0 <= i < |r| ==> IsPriceChar(r[i])
    ensures |r| <= |s|
  {
    if s == [] then []
    else if IsPriceChar(s[0]) then [s[0]] + KeepPriceChars(s[1..])
    else KeepPriceChars(s[1..])
  }

  /** Length of the run of non-price characters at the head of `s`: what `[^0-9.-]+` matches there. */
  function JunkRun(s: string): (n: nat)
    ensures n <= |s|
    ensures forall i :: 0 <= i < n ==> !IsPriceChar(s[i])
    ensures n < |s| ==> IsPriceChar(s[n])
  {
    if s != [] && !IsPriceChar(s[0]) then 1 + JunkRun(s[1..]) else 0
  }

  /**
   * `s.replace(/ETB|[^0-9.-]+/g, "")`: scanning left to right, a match at a
   * position prefers the alternative `ETB`, else the longest run of
   * non-price characters; a price character is kept and the scan moves on.
   */
  function ReplaceJunk(s: string): (r: string)
    ensures |r| <= |s|
    ensures forall i :: 0 <= i < |r| ==> IsPriceChar(r[i])
    decreases |s|
  {
    if s == [] then []
    else if |s| >= 3 && s[..3] == "ETB" then ReplaceJunk(s[3..])
    else if !IsPriceChar(s[0]) then ReplaceJunk(s[JunkRun(s)..])
    else [s[0]] + ReplaceJunk(s[1..])
  }

  /** Dropping a prefix of non-price characters does not change what is kept. */
  lemma {:induction false} KeepSkipsJunk(s: string, n: nat)
    requires n <= |s|
    requires forall i :: 0 <= i < n ==> !IsPriceChar(s[i])
    ensures KeepPriceChars(s) == KeepPriceChars(s[n..])
  {
    if n > 0 {
      assert s[1..][n - 1..] == s[n..];
      KeepSkipsJunk(s[1..], n - 1);
    }
  }

  /** The regular expression removes exactly the characters other than digits, `.` and `-` (`ETB` among them). */
  lemma {:induction false} ReplaceJunkKeepsPriceChars(s: string)
    ensures ReplaceJunk(s) == KeepPriceChars(s)
    decreases |s|
  {
    if s == [] {
    } else if |s| >= 3 && s[..3] == "ETB" {
      assert s[0] == 'E' && s[1] == 'T' && s[2] == 'B';
      KeepSkipsJunk(s, 3);
      ReplaceJunkKeepsPriceChars(s[3..]);
    } else if !IsPriceChar(s[0]) {
      KeepSkipsJunk(s, JunkRun(s));
      ReplaceJunkKeepsPriceChars(s[JunkRun(s)..]);
    } else {
      ReplaceJunkKeepsPriceChars(s[1..]);
    }
  }

  /** Length of the run of decimal digits at the head of `s`. */
  function DigitRun(s: string): (n: nat)
    ensures n <= |s|
    ensures AllDigits(s[..n])
    ensures n < |s| ==> !IsDigit(s[n])
  {
    if s != [] && IsDigit(s[0]) then
      var n := 1 + DigitRun(s[1..]);
      assert s[..n] == [s[0]] + s[1..][..n - 1];
      n
    else 0
  }

  function Pow10(n: nat): (p: nat)
    ensures p >= 1
  {
    if n == 0 then 1 else 10 * Pow10(n - 1)
  }

  /** The value of a string of decimal digits, most significant first. */
  function DigitsValue(d: string): nat
    requires AllDigits(d)
    decreases |d|
  {
    if d == [] then 0 else 10 * DigitsValue(d[..|d| - 1]) + (d[|d| - 1] as int - '0' as int)
  }

  /** `m` times ten to the power `k`, by repeated multiplication or division by ten. */
  function Shift(m: real, k: int): real
    decreases if k < 0 then -k else k
  {
    if k == 0 then m
    else if k > 0 then 10.0 * Shift(m, k - 1)
    else Shift(m, k + 1) / 10.0
  }

  /** The power of ten contributed by an `ExponentPart` (`e`/`E`, optional sign, digits) at the head of `s`; 0 when there is none. */
  function ExponentOf(s: string): int
  {
    if s != [] && (s[0] == 'e' || s[0] == 'E') then
      var signed := |s| >= 2 && (s[1] == '+' || s[1] == '-');
      var digits := if signed then s[2..] else s[1..];
      var n := DigitRun(digits);
      if n == 0 then 0
      else if signed && s[1] == '-' then -(DigitsValue(digits[..n]) as int)
      else DigitsValue(digits[..n])
    else 0
  }

  /** The value of integer digits `d` followed by fraction digits `f`. */
  function Mantissa(d: string, f: string): real
    requires AllDigits(d) && AllDigits(f)
  {
    DigitsValue(d) as real + Shift(DigitsValue(f) as real, -|f|)
  }

  /**
   * The longest prefix of `s` that is a `StrUnsignedDecimalLiteral` without
   * `Infinity` (digits, an optional point and fraction, an optional exponent;
   * or a point, fraction digits and an optional exponent), read as a number.
   */
  function ParseUnsigned(s: string): Option<real>
  {
    var i := DigitRun(s);
    if i < |s| && s[i] == '.' then ParseFraction(s[..i], s[i + 1..])
    else if i == 0 then None
    else Some(Shift(Mantissa(s[..i], []), ExponentOf(s[i..])))
  }

  /** The rest of a literal after integer digits `d` and a point: fraction digits, then an optional exponent. */
  function ParseFraction(d: string, frac: string): Option<real>
    requires AllDigits(d)
  {
    var f := DigitRun(frac);
    if d == [] && f == 0 then None
    else Some(Shift(Mantissa(d, frac[..f]), ExponentOf(frac[f..])))
  }

  /** `parseFloat`: skip leading white space, an optional sign, then the longest numeric prefix; `None` is `NaN`. */
  function ParseFloat(s: string): (r: Option<real>)
    ensures r.Some? ==> var t := TrimStart(s); t != [] && (IsDigit(t[0]) || t[0] == '.' || t[0] == '+' || t[0] == '-')
  {
    var t := TrimStart(s);
    if t != [] && (t[0] == '+' || t[0] == '-') then
      match ParseUnsigned(t[1..])
      case None => None
      case Some(v) => Some(if t[0] == '-' then -v else v)
    else ParseUnsigned(t)
  }

  /** The price key of a listing: `parseFloat(price.replace(/ETB|[^0-9.-]+/g, "").trim())`. */
  function PriceKey(price: string): (r: Option<real>)
    ensures r == ParseFloat(KeepPriceChars(price))
  {
    ReplaceJunkKeepsPriceChars(price);
    TrimAfterStripIsNoop(price);
    ParseFloat(Trim(ReplaceJunk(price)))
  }

  /** A numeric literal can start here: a digit, or a point followed by a digit. */
  predicate StartsUnsigned(u: string)
  {
    (u != [] && IsDigit(u[0])) || (|u| >= 2 && u[0] == '.' && IsDigit(u[1]))
  }

  /** `parseFloat` yields a number, not `NaN`, exactly when an optional sign and a numeric literal start the trimmed text. */
  lemma ParseFloatDefined(s: string)
    ensures ParseFloat(s).Some? <==>
      var t := TrimStart(s);
      StartsUnsigned(t) || (t != [] && (t[0] == '+' || t[0] == '-') && StartsUnsigned(t[1..]))
  {
    var t := TrimStart(s);
    ParseUnsignedDefined(t);
    if t != [] {
      ParseUnsignedDefined(t[1..]);
    }
  }

  /** A sign in front of a numeric literal: `-` negates its value and `+` leaves it unchanged. */
  lemma SignedValue(u: string)
    requires StartsUnsigned(u)
    ensures ParseFloat("-" + u).Some? && ParseUnsigned(u).Some? && ParseFloat("-" + u).value == -ParseUnsigned(u).value
    ensures ParseFloat("+" + u) == ParseUnsigned(u)
  {
    ParseUnsignedDefined(u);
    var minus, plus := "-" + u, "+" + u;
    assert minus[0] == '-' && minus[1..] == u;
    assert plus[0] == '+' && plus[1..] == u;
    NoLeadingSpace(minus);
    NoLeadingSpace(plus);
  }

  /** Text that does not start with white space is its own `trimStart`. */
  lemma NoLeadingSpace(t: string)
    requires t != [] && !IsJsSpace(t[0])
    ensures TrimStart(t) == t
  {
  }

  lemma ParseUnsignedDefined(u: string)
    ensures ParseUnsigned(u).Some? <==> StartsUnsigned(u)
  {
    var i := DigitRun(u);
    if i == 0 && u != [] && u[0] == '.' && |u| >= 2 {
      assert u[i..][1..][0] == u[1];
    }
  }

  /** A digit string followed by text that cannot extend a number parses to that digit string's value. */
  lemma {:induction false} ParseDigitPrefix(d: string, rest: string)
    requires d != [] && AllDigits(d)
    requires rest == [] || !(IsDigit(rest[0]) || rest[0] == '.' || rest[0] == 'e' || rest[0] == 'E')
    ensures ParseFloat(d + rest) == Some(DigitsValue(d) as real)
  {
    var s := d + rest;
    DigitRunOfDigits(d, rest);
    UnsignedStart(s);
    assert s[..|d|] == d && s[|d|..] == rest;
    assert ExponentOf(rest) == 0;
    assert Mantissa(d, []) == DigitsValue(d) as real;
  }

  /** Digits, a point and fraction digits, followed by text that cannot extend the number, parse to integer part plus fraction. */
  lemma ParseDecimalPrefix(d: string, f: string, rest: string)
    requires AllDigits(d) && AllDigits(f) && (d != [] || f != [])
    requires rest == [] || !(IsDigit(rest[0]) || rest[0] == 'e' || rest[0] == 'E')
    ensures ParseFloat(d + "." + f + rest) == Some(DigitsValue(d) as real + DigitsValue(f) as real / Pow10(|f|) as real)
  {
    DecimalMantissa(d, f, rest);
    ParsedMantissa(ParseFloat(d + "." + f + rest), d, f);
  }

  lemma ParsedMantissa(v: Option<real>, d: string, f: string)
    requires AllDigits(d) && AllDigits(f)
    requires v == Some(Mantissa(d, f))
    ensures v == Some(DigitsValue(d) as real + DigitsValue(f) as real / Pow10(|f|) as real)
  {
    MantissaValue(d, f);
  }

  /** The mantissa is the integer part plus the fraction digits over their power of ten. */
  lemma MantissaValue(d: string, f: string)
    requires AllDigits(d) && AllDigits(f)
    ensures Mantissa(d, f) == DigitsValue(d) as real + DigitsValue(f) as real / Pow10(|f|) as real
  {
    ShiftDown(DigitsValue(f) as real, |f|);
  }

  lemma DecimalMantissa(d: string, f: string, rest: string)
    requires AllDigits(d) && AllDigits(f) && (d != [] || f != [])
    requires rest == [] || !(IsDigit(rest[0]) || rest[0] == 'e' || rest[0] == 'E')
    ensures ParseFloat(d + "." + f + rest) == Some(Mantissa(d, f))
  {
    var s := d + "." + f + rest;
    assert s == d + "." + (f + rest);
    UnsignedPoint(d, f + rest);
    FractionDigits(d, f, rest);
    UnsignedStart(s);
  }

  /** Digits, `e` and exponent digits, followed by a non-digit, parse to the digits' value times that power of ten. */
  lemma ParseExponentPrefix(d: string, e: string, rest: string)
    requires AllDigits(d) && AllDigits(e) && d != [] && e != []
    requires rest == [] || !IsDigit(rest[0])
    ensures ParseFloat(d + "e" + e + rest) == Some((DigitsValue(d) * Pow10(DigitsValue(e))) as real)
  {
    ExponentMantissa(d, e, rest);
    ParsedShift(d + "e" + e + rest, DigitsValue(d), DigitsValue(e));
  }

  lemma ParsedShift(x: string, m: nat, k: nat)
    requires ParseFloat(x) == Some(Shift(m as real, k))
    ensures ParseFloat(x) == Some((m * Pow10(k)) as real)
  {
    ShiftUp(m, k);
  }

  lemma ExponentMantissa(d: string, e: string, rest: string)
    requires AllDigits(d) && AllDigits(e) && d != [] && e != []
    requires rest == [] || !IsDigit(rest[0])
    ensures ParseFloat(d + "e" + e + rest) == Some(Shift(DigitsValue(d) as real, DigitsValue(e)))
  {
    var s := d + "e" + e + rest;
    var tail := "e" + e + rest;
    assert s == d + tail;
    DigitRunOfDigits(d, tail);
    assert s[..|d|] == d && s[|d|..] == tail;
    UnsignedStart(s);
    PositiveExponent(e, rest);
    assert DigitsValue([]) == 0;
    assert Mantissa(d, []) == DigitsValue(d) as real;
  }

  /** A non-negative shift of a natural number multiplies it by the power of ten. */
  lemma {:induction false} ShiftUp(m: nat, k: nat)
    ensures Shift(m as real, k) == (m * Pow10(k)) as real
  {
    if k > 0 {
      ShiftUp(m, k - 1);
      var p := Pow10(k - 1);
      assert m * Pow10(k) == 10 * (m * p) by {
        assert Pow10(k) == 10 * p;
      }
    }
  }

  /** A negative shift divides by the power of ten. */
  lemma {:induction false} ShiftDown(m: real, k: nat)
    ensures Shift(m, -(k as int)) == m / Pow10(k) as real
  {
    if k > 0 {
      ShiftDown(m, k - 1);
      var p := Pow10(k - 1) as real;
      assert Pow10(k) as real == 10.0 * p;
      assert (m / p) / 10.0 == m / (10.0 * p);
    }
  }

  /** A bound typed with a fraction: `parseFloat("1.5")` is one and a half. */
  lemma OneAndAHalf()
    ensures ParseFloat("1.5") == Some(1.5)
  {
    assert "1"[..0] == [] && "5"[..0] == [];
    assert DigitsValue("1") == 1 && DigitsValue("5") == 5;
    assert Shift(5.0, -1) == 0.5;
    assert Mantissa("1", "5") == 1.5;
    DecimalMantissa("1", "5", "");
    assert "1" + "." + "5" + "" == "1.5";
  }

  /** With no sign and no leading white space, `parseFloat` is the unsigned literal reader. */
  lemma UnsignedStart(s: string)
    requires s != [] && (IsDigit(s[0]) || s[0] == '.')
    ensures ParseFloat(s) == ParseUnsigned(s)
  {
    NoLeadingSpace(s);
  }

  /** After integer digits, a point hands the rest to the fraction reader. */
  lemma UnsignedPoint(d: string, frac: string)
    requires AllDigits(d)
    ensures ParseUnsigned(d + "." + frac) == ParseFraction(d, frac)
  {
    var s := d + "." + frac;
    var tail := "." + frac;
    assert s == d + tail;
    DigitRunOfDigits(d, tail);
    assert s[..|d|] == d && s[|d| + 1..] == frac;
  }

  /** Fraction digits followed by text that cannot extend the number: the value is the mantissa, unscaled. */
  lemma FractionDigits(d: string, f: string, rest: string)
    requires AllDigits(d) && AllDigits(f) && (d != [] || f != [])
    requires rest == [] || !(IsDigit(rest[0]) || rest[0] == 'e' || rest[0] == 'E')
    ensures ParseFraction(d, f + rest) == Some(Mantissa(d, f))
  {
    var frac := f + rest;
    DigitRunOfDigits(f, rest);
    assert frac[..|f|] == f && frac[|f|..] == rest;
    assert ExponentOf(rest) == 0;
  }

  /** An unsigned exponent `e<digits>` scales by that power of ten. */
  lemma PositiveExponent(e: string, rest: string)
    requires AllDigits(e) && e != []
    requires rest == [] || !IsDigit(rest[0])
    ensures ExponentOf("e" + e + rest) == DigitsValue(e)
  {
    var tail := "e" + e + rest;
    assert tail[1..] == e + rest;
    DigitRunOfDigits(e, rest);
    assert (e + rest)[..|e|] == e;
  }

  /** The digit run of `d + rest` is exactly `d` when `rest` does not start with a digit. */
  lemma {:induction false} DigitRunOfDigits(d: string, rest: string)
    requires AllDigits(d)
    requires rest == [] || !IsDigit(rest[0])
    ensures DigitRun(d + rest) == |d|
    decreases |d|
  {
    if d != [] {
      assert (d + rest)[1..] == d[1..] + rest;
      DigitRunOfDigits(d[1..], rest);
    } else {
      assert d + rest == rest;
    }
  }

  /** The decimal numeral of a natural number, as `String(n)` writes it. */
  function DecimalString(n: nat): (s: string)
    ensures s != [] && AllDigits(s)
    decreases n
  {
    (if n < 10 then [] else DecimalString(n / 10)) + [('0' as int + n % 10) as char]
  }

  /** Reading a numeral back gives the number that was written. */
  lemma {:induction false} DecimalStringValue(n: nat)
    ensures DigitsValue(DecimalString(n)) == n
    decreases n
  {
    var s := DecimalString(n);
    assert s[..|s| - 1] == if n < 10 then [] else DecimalString(n / 10);
    if n >= 10 {
      DecimalStringValue(n / 10);
    }
  }

  /** Round trip: `parseFloat(String(n)) == n`. */
  lemma ParseFloatOfDecimal(n: nat)
    ensures ParseFloat(DecimalString(n)) == Some(n as real)
  {
    DecimalStringValue(n);
    assert DecimalString(n) + [] == DecimalString(n);
    ParseDigitPrefix(DecimalString(n), []);
  }

  /** A price written `ETB <n>` has the key `n`. */
  lemma PriceKeyOfEtb(n: nat)
    ensures PriceKey("ETB " + DecimalString(n)) == Some(n as real)
  {
    var d := DecimalString(n);
    StripEtbPrefix(d);
    TrimAfterStripIsNoop("ETB " + d);
    ParseFloatOfDecimal(n);
  }

  /** Stripping `ETB ` off a string of price characters leaves that string. */
  lemma StripEtbPrefix(d: string)
    requires forall i :: 0 <= i < |d| ==> IsPriceChar(d[i])
    ensures ReplaceJunk("ETB " + d) == d
  {
    var p := "ETB " + d;
    ReplaceJunkKeepsPriceChars(p);
    assert forall i :: 0 <= i < 4 ==> !IsPriceChar(p[i]);
    KeepSkipsJunk(p, 4);
    assert p[4..] == d;
    KeepAllPriceChars(d);
  }

  /** A string of price characters is kept whole. */
  lemma {:induction false} KeepAllPriceChars(s: string)
    requires forall i :: 0 <= i < |s| ==> IsPriceChar(s[i])
    ensures KeepPriceChars(s) == s
  {
    if s != [] {
      KeepAllPriceChars(s[1..]);
    }
  }

  /** The strip leaves no white space, so the `trim` after it changes nothing. */
  lemma TrimAfterStripIsNoop(price: string)
    ensures Trim(ReplaceJunk(price)) == ReplaceJunk(price)
  {
    ReplaceJunkKeepsPriceChars(price);
    var k := ReplaceJunk(price);
    if k != [] {
      assert !IsJsSpace(k[0]) && !IsJsSpace(k[|k| - 1]);
    }
  }

  /** Thousands separators and the currency code disappear: `ETB 1,500,000` has the key 1500000. */
  lemma GroupedPriceKey()
    ensures PriceKey("ETB 1,500,000") == Some(1500000.0)
  {
    StripGrouped();
    TrimAfterStripIsNoop("ETB 1,500,000");
    ParseMillionAndAHalf();
  }

  lemma StripGrouped()
    ensures ReplaceJunk("ETB 1,500,000") == "1500000"
  {
    assert "ETB 1,500,000" == "ETB " + "1" + "," + "500" + "," + "000";
    StripThreeGroups("1", "500", "000");
    assert "1" + "500" + "000" == "1500000";
  }

  /** `ETB a,b,c` with digit groups `a`, `b`, `c` strips to the digits `abc`. */
  lemma StripThreeGroups(a: string, b: string, c: string)
    requires AllDigits(a) && AllDigits(b) && AllDigits(c)
    ensures ReplaceJunk("ETB " + a + "," + b + "," + c) == a + b + c
  {
    var x1 := "ETB " + a;
    var x2 := x1 + ",";
    var x3 := x2 + b;
    var x4 := x3 + ",";
    var p := x4 + c;
    ReplaceJunkKeepsPriceChars(p);
    KeepAllPriceChars(a);
    KeepAllPriceChars(b);
    KeepAllPriceChars(c);
    assert KeepPriceChars(",") == [];
    assert KeepPriceChars("ETB ") == [];
    KeepConcat("ETB ", a);
    assert KeepPriceChars(x1) == a;
    KeepConcat(x1, ",");
    assert KeepPriceChars(x2) == a;
    KeepConcat(x2, b);
    assert KeepPriceChars(x3) == a + b;
    KeepConcat(x3, ",");
    assert KeepPriceChars(x4) == a + b;
    KeepConcat(x4, c);
  }

  lemma ParseMillionAndAHalf()
    ensures ParseFloat("1500000") == Some(1500000.0)
  {
    assert "15"[..1] == "1";
    assert "150"[..2] == "15";
    assert "1500"[..3] == "150";
    assert "15000"[..4] == "1500";
    assert "150000"[..5] == "15000";
    assert "1500000"[..6] == "150000";
    assert DigitsValue("1500000") == 1500000;
    assert "1500000" + [] == "1500000";
    ParseDigitPrefix("1500000", []);
  }

  /** Stripping distributes over concatenation. */
  lemma {:induction false} KeepConcat(a: string, b: string)
    ensures KeepPriceChars(a + b) == KeepPriceChars(a) + KeepPriceChars(b)
  {
    if a != [] {
      assert (a + b)[1..] == a[1..] + b;
      KeepConcat(a[1..], b);
    } else {
      assert a + b == b;
    }
  }

  /** A price with no digit at all, the empty price among them, has no key (`NaN`). */
  lemma NoDigitNoKey(price: string)
    requires forall i :: 0 <= i < |price| ==> !IsDigit(price[i])
    ensures PriceKey(price).None?
  {
    ReplaceJunkKeepsPriceChars(price);
    NoDigitSurvives(price);
    TrimAfterStripIsNoop(price);
    ParseFloatDefined(ReplaceJunk(price));
  }

  lemma {:induction false} NoDigitSurvives(s: string)
    requires forall i :: 0 <= i < |s| ==> !IsDigit(s[i])
    ensures forall i :: 0 <= i < |KeepPriceChars(s)| ==> !IsDigit(KeepPriceChars(s)[i])
  {
    if s != [] {
      NoDigitSurvives(s[1..]);
    }
  }
}

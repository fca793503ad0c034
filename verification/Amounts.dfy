/** Money text: minor units to the provider's decimal string and back (internal/providers/yookassa/client.go). */
module Amounts {
  import opened Basics
  import opened Text

  const MAX_INT64: int := 0x7FFF_FFFF_FFFF_FFFF
  const MIN_INT64: int := -0x8000_0000_0000_0000

  const TWO64: int := 0x1_0000_0000_0000_0000

  predicate IsInt64(x: int) {
    MIN_INT64 <= x <= MAX_INT64
  }

  /** The int64 that two's-complement wrap-around leaves of an exact result. */
  function Wrap64(x: int): (r: int)
    ensures IsInt64(r)
    ensures IsInt64(x) ==> r == x
  {
    if IsInt64(x) then x else (x - MIN_INT64) % TWO64 + MIN_INT64
  }

  /** Go's integer division and remainder truncate toward zero. */
  function Quo(a: int, b: int): int
    requires b > 0
  {
    if a >= 0 then a / b else -(-a / b)
  }

  function Rem(a: int, b: int): int
    requires b > 0
  {
    a - b * Quo(a, b)
  }

  /** strconv.FormatInt(x, 10). */
  function FormatInt(x: int): string {
    if x < 0 then "-" + Decimal(-x) else Decimal(x)
  }

  /** fmt.Sprintf("%02d", x). */
  function Pad2(x: int): string {
    if 0 <= x < 10 then "0" + FormatInt(x) else FormatInt(x)
  }

  /** strconv.ParseInt(s, 10, 64); None stands for its error. */
  function ParseInt(s: string): (r: Option<int>)
    ensures r.Some? ==> IsInt64(r.value)
  {
    if s == "" then None
    else
      var digits := if s[0] == '-' || s[0] == '+' then s[1..] else s;
      if digits == "" || !AllDigits(digits) then None
      else
        var x: int := if s[0] == '-' then -(Value(digits) as int) else Value(digits);
        if IsInt64(x) then Some(x) else None
  }

  function FormatAmount(minor: int): string
    requires IsInt64(minor)
  {
    var m := if minor < 0 then Wrap64(-minor) else minor;
    (if minor < 0 then "-" else "") + FormatInt(Quo(m, 100)) + "." + Pad2(Rem(m, 100))
  }

  method FormatAmountMinor(value: int) returns (text: string)
    requires IsInt64(value)
    ensures text == FormatAmount(value)
  {
    var sign, minor := "", value;
    if minor < 0 {
      sign := "-";
      minor := Wrap64(-minor);
    }
    text := sign + FormatInt(Quo(minor, 100)) + "." + Pad2(Rem(minor, 100));
  }

  /** The first two digits of a fraction, a single digit standing for tenths. */
  function Fraction2(fraction: string): string {
    var padded := if |fraction| == 1 then fraction + "0" else fraction;
    if |padded| > 2 then padded[..2] else padded
  }

  function ParseAmount(value: string): (r: Option<int>)
    ensures r.Some? ==> IsInt64(r.value)
  {
    var text := TrimSpace(value);
    var dot := DotAt(text);
    var rubles := ParseInt(text[..dot]);
    var kopecks := if dot < |text| then ParseInt(Fraction2(text[dot + 1..])) else Some(0);
    if rubles.Some? && kopecks.Some? then Some(Wrap64(Wrap64(rubles.value * 100) + kopecks.value)) else None
  }

  method ParseAmountMinor(value: string) returns (minor: Option<int>)
    ensures minor == ParseAmount(value)
  {
    hide Wrap64, TrimSpace, DotAt, ParseInt;
    var text := TrimSpace(value);
    var dot := DotAt(text);
    var rubles := ParseInt(text[..dot]);
    if rubles.None? {
      return None;
    }
    var kopecks := 0;
    if dot < |text| {
      var fraction := text[dot + 1..];
      if |fraction| == 1 {
        fraction := fraction + "0";
      }
      if |fraction| > 2 {
        fraction := fraction[..2];
      }
      assert fraction == Fraction2(text[dot + 1..]);
      var parsed := ParseInt(fraction);
      if parsed.None? {
        return None;
      }
      kopecks := parsed.value;
    }
    minor := Some(Wrap64(Wrap64(rubles.value * 100) + kopecks));
  }

  /** Reading a text made of a whole part, a dot and a fraction, neither end being white space. */
  lemma {:induction false} ParseParts(whole: string, fraction: string)
    requires whole != "" && !IsSpace(whole[0])
    requires forall i :: 0 <= i < |whole| ==> whole[i] != '.'
    requires fraction != "" && !IsSpace(fraction[|fraction| - 1])
    ensures var r, k := ParseInt(whole), ParseInt(Fraction2(fraction));
            ParseAmount(whole + "." + fraction)
            == if r.Some? && k.Some? then Some(Wrap64(Wrap64(r.value * 100) + k.value)) else None
  {
    hide Wrap64, Value, ParseInt, Fraction2, Trim, TrimSpace, DotAt, IsSpace;
    var text := whole + "." + fraction;
    UntrimmedText(whole, fraction);
    DotAfter(whole, fraction);
    assert text[..|whole|] == whole;
    assert text[|whole| + 1..] == fraction;
  }

  lemma {:induction false} UntrimmedText(whole: string, fraction: string)
    requires whole != "" && !IsSpace(whole[0]) && fraction != "" && !IsSpace(fraction[|fraction| - 1])
    ensures TrimSpace(whole + "." + fraction) == whole + "." + fraction
  {
    hide IsSpace, Trim;
    TrimNothing(whole + "." + fraction, IsSpace);
  }

  lemma {:induction false} DotAfter(whole: string, fraction: string)
    requires forall i :: 0 <= i < |whole| ==> whole[i] != '.'
    ensures DotAt(whole + "." + fraction) == |whole|
  {
    hide DotAt;
    DotAtIs(whole + "." + fraction, |whole|);
  }

  lemma {:induction false} ParseDigits(s: string)
    requires s != "" && AllDigits(s)
    ensures ParseInt(s) == if Value(s) <= MAX_INT64 then Some(Value(s) as int) else None
  {
  }

  lemma {:induction false} Pad2Parses(x: nat)
    requires x < 100
    ensures |Pad2(x)| == 2 && AllDigits(Pad2(x)) && Value(Pad2(x)) == x
  {
    if x < 10 {
      assert Pad2(x) == ['0', DigitChar(x)];
      assert Pad2(x)[..1] == "0";
      assert Value("0") == 0 by { assert "0"[..0] == ""; }
    } else {
      var s := Pad2(x);
      assert Decimal(x) == Decimal(x / 10) + [DigitChar(x % 10)];
      assert Decimal(x / 10) == [DigitChar(x / 10)];
    }
  }

  lemma {:induction false} ParseSigned(negative: bool, n: nat)
    requires n <= MAX_INT64
    ensures ParseInt((if negative then "-" else "") + Decimal(n)) == Some(if negative then -(n as int) else n)
  {
    hide Decimal, Value;
    var s := (if negative then "-" else "") + Decimal(n);
    if negative {
      assert s[1..] == Decimal(n);
    } else {
      assert s == Decimal(n);
    }
  }

  function Signed(negative: bool, n: nat): int {
    if negative then -(n as int) else n
  }

  lemma {:induction false} FormatParts(m: int)
    requires MIN_INT64 < m <= MAX_INT64
    ensures var a := if m < 0 then -m else m;
            FormatAmount(m) == ((if m < 0 then "-" else "") + Decimal(a / 100)) + "." + Pad2(a % 100)
  {
  }

  lemma {:induction false} HundredsFit(negative: bool, a: nat)
    requires a <= MAX_INT64
    ensures var r := Signed(negative, a / 100);
            Wrap64(Wrap64(r * 100) + a % 100) == r * 100 + a % 100
  {
  }

  /** What the parser makes of a printed amount of either sign: the fraction is always added. */
  lemma {:induction false} ParseOfFormat(m: int)
    requires MIN_INT64 < m <= MAX_INT64
    ensures var a := if m < 0 then -m else m;
            ParseAmount(FormatAmount(m)) == Some(Signed(m < 0, a / 100) * 100 + a % 100)
  {
    hide ParseAmount, FormatAmount, ParseInt, Wrap64, Decimal, Value;
    var a := if m < 0 then -m else m;
    var whole, fraction := (if m < 0 then "-" else "") + Decimal(a / 100), Pad2(a % 100);
    FormatParts(m);
    Pad2Parses(a % 100);
    ParseParts(whole, fraction);
    assert Fraction2(fraction) == fraction;
    ParseSigned(m < 0, a / 100);
    ParseDigits(fraction);
    HundredsFit(m < 0, a);
  }

  lemma {:induction false} LowestText(m: int)
    requires m == MIN_INT64
    ensures FormatAmount(m) == ("-" + ("-" + Decimal(92233720368547758))) + "." + ("-" + Decimal(8))
  {
    assert Wrap64(-m) == m;
    assert Quo(m, 100) == -92233720368547758 && Rem(m, 100) == -8;
    assert FormatAmount(m) == ("-" + FormatInt(Quo(m, 100))) + "." + Pad2(Rem(m, 100));
  }

  lemma {:induction false} LowestAmount(m: int)
    requires m == MIN_INT64
    ensures ParseAmount(FormatAmount(m)).None?
  {
    hide ParseAmount, FormatAmount, ParseInt, Wrap64, Decimal, Value;
    var q, r: nat := 92233720368547758, 8;
    var whole, fraction := "-" + ("-" + Decimal(q)), "-" + Decimal(r);
    LowestText(m);
    ParseParts(whole, fraction);
    TwoSigns(whole);
  }

  lemma {:induction false} TwoSigns(s: string)
    requires |s| >= 2 && s[0] == '-' && s[1] == '-'
    ensures ParseInt(s).None?
  {
    assert s[1..][0] == '-';
  }

  lemma {:induction false} WholeUnless(m: int)
    ensures var a := if m < 0 then -m else m;
            Signed(m < 0, a / 100) * 100 + a % 100 == m <==> m >= 0 || (-m) % 100 == 0
  {
  }

  /** The printer and the parser undo each other exactly for non-negative amounts and whole negative ones. */
  lemma {:induction false} AmountRoundTrip(m: int)
    requires IsInt64(m)
    ensures ParseAmount(FormatAmount(m)) == Some(m) <==> m >= 0 || (-m) % 100 == 0
  {
    hide ParseAmount, FormatAmount;
    if m == MIN_INT64 {
      LowestAmount(m);
    } else {
      ParseOfFormat(m);
      WholeUnless(m);
    }
  }

  function Pow10(n: nat): (p: nat)
    ensures p >= 1
  {
    if n == 0 then 1 else 10 * Pow10(n - 1)
  }

  /** Dropping the digits after the first k divides the number by a power of ten, rounding down. */
  lemma {:induction false} ValueOfPrefix(s: string, k: nat)
    requires AllDigits(s) && k <= |s|
    ensures Value(s[..k]) == Value(s) / Pow10(|s| - k)
  {
    if k == |s| {
      assert s[..k] == s;
    } else {
      var t := s[..|s| - 1];
      ValueOfPrefix(t, k);
      assert t[..k] == s[..k];
      var v, d, p := Value(t), DigitValue(s[|s| - 1]), Pow10(|t| - k);
      assert Value(s) == 10 * v + d && Pow10(|s| - k) == 10 * p;
      DivDigit(v, d, p);
    }
  }

  lemma {:induction false} DivDigit(v: nat, d: nat, p: nat)
    requires d < 10 && p >= 1
    ensures (10 * v + d) / (10 * p) == v / p
  {
    var q := v / p;
    var r := v % p;
    assert v == q * p + r;
    assert 10 * v + d == q * (10 * p) + (10 * r + d);
    assert 10 * r + d < 10 * p;
    DivUnique(10 * v + d, 10 * p, q, 10 * r + d);
  }

  lemma {:induction false} MulMonotone(a: nat, b: nat, y: nat)
    requires a <= b
    ensures a * y <= b * y
  {
    assert b * y == a * y + (b - a) * y;
  }

  lemma {:induction false} DivUnique(x: nat, y: nat, q: nat, r: nat)
    requires y > 0 && r < y && x == q * y + r
    ensures x / y == q
  {
    var q', r' := x / y, x % y;
    assert x == y * q' + r' && 0 <= r' < y;
    if q' < q {
      MulMonotone(q' + 1, q, y);
    } else if q' > q {
      MulMonotone(q + 1, q', y);
    }
  }

  lemma {:induction false} TwoDigits(g: string)
    requires |g| == 2 && AllDigits(g)
    ensures Value(g) == 10 * DigitValue(g[0]) + DigitValue(g[1])
  {
    assert g[..1] == [g[0]] && [g[0]][..0] == "";
    assert Value([g[0]]) == 10 * Value("") + DigitValue(g[0]);
  }

  lemma {:induction false} OneDigit(f: string)
    requires |f| == 1 && AllDigits(f)
    ensures Fraction2(f) == f + "0" && Value(f + "0") == 10 * Value(f) && Value(f) * 100 / Pow10(1) == 10 * Value(f)
  {
    assert (f + "0")[..1] == f;
    assert Pow10(1) == 10 * Pow10(0);
  }

  /** The two fraction digits the parser keeps are the floor of a hundred times the fraction. */
  lemma {:induction false} FractionIsFloor(f: string)
    requires f != "" && AllDigits(f)
    ensures AllDigits(Fraction2(f)) && Fraction2(f) != "" && Value(Fraction2(f)) < 100
    ensures Value(Fraction2(f)) == Value(f) * 100 / Pow10(|f|)
  {
    TwoDigits(Fraction2(f));
    if |f| == 1 {
      OneDigit(f);
    } else {
      assert Fraction2(f) == f[..2];
      ValueOfPrefix(f, 2);
      var p := Pow10(|f| - 2);
      assert Pow10(|f| - 1) == 10 * p;
      assert Pow10(|f|) == 100 * p;
      DivScale(Value(f), p);
    }
  }

  lemma {:induction false} DivScale(v: nat, p: nat)
    requires p >= 1
    ensures v * 100 / (100 * p) == v / p
  {
    DivUnique(v * 100, 100 * p, v / p, 100 * (v % p));
  }

  /**
   * Reading digits.digits: an amount that fits 64 bits is the floor of a hundred times its value;
   * a larger one wraps around silently, unless already the whole part does not fit.
   */
  lemma {:induction false} ParseDecimal(w: string, f: string)
    requires w != "" && AllDigits(w) && f != "" && AllDigits(f)
    ensures var minor := (Value(w) * Pow10(|f|) + Value(f)) * 100 / Pow10(|f|);
            ParseAmount(w + "." + f) == if Value(w) <= MAX_INT64 then Some(Wrap64(minor)) else None
  {
    hide ParseAmount, ParseInt, Wrap64;
    FractionIsFloor(f);
    ParseParts(w, f);
    ParseDigits(w);
    ParseDigits(Fraction2(f));
    SplitFloor(Value(w), Value(f), Pow10(|f|));
    WrapTwice(Value(w) * 100, Value(Fraction2(f)));
  }

  lemma {:induction false} SplitFloor(w: nat, f: nat, p: nat)
    requires p >= 1
    ensures (w * p + f) * 100 / p == w * 100 + f * 100 / p
  {
    var k, r := f * 100 / p, f * 100 % p;
    assert (w * p + f) * 100 == (w * 100) * p + f * 100;
    assert f * 100 == p * k + r;
    assert (w * 100 + k) * p == (w * 100) * p + k * p;
    DivUnique((w * p + f) * 100, p, w * 100 + k, r);
  }

  lemma {:induction false} WrapTwice(a: int, b: int)
    ensures Wrap64(Wrap64(a) + b) == Wrap64(a + b)
  {
    var m := TWO64;
    var x := a - MIN_INT64;
    assert x == m * (x / m) + x % m;
    assert a + b - MIN_INT64 == (Wrap64(a) + b - MIN_INT64) + m * (x / m);
    ModShift(Wrap64(a) + b - MIN_INT64, x / m);
  }

  lemma {:induction false} ModShift(y: int, q: int)
    ensures (y + TWO64 * q) % TWO64 == y % TWO64
  {
  }

  /** A whole amount without a dot. */
  lemma {:induction false} ParseWhole(w: string)
    requires w != "" && AllDigits(w)
    ensures ParseAmount(w) == if Value(w) <= MAX_INT64 then Some(Wrap64(Value(w) * 100)) else None
  {
    ParseDigits(w);
    hide Wrap64, Value, ParseInt;
    TrimNothing(w, IsSpace);
    DotAtIs(w, |w|);
    assert w[..|w|] == w;
  }

  /** Digits, possibly behind a sign. */
  predicate Number(s: string) {
    s != "" && (if s[0] == '-' || s[0] == '+' then |s| > 1 && AllDigits(s[1..]) else AllDigits(s))
  }

  /** ParseInt reads numbers that fit 64 bits, with their sign, and nothing else. */
  lemma {:induction false} ParseIntExactly(s: string)
    ensures ParseInt(s).Some? <==> Number(s) && (s[0] == '-' ==> Value(s[1..]) <= MAX_INT64 + 1)
                                   && (s[0] == '+' ==> Value(s[1..]) <= MAX_INT64)
                                   && (s[0] != '-' && s[0] != '+' ==> Value(s) <= MAX_INT64)
    ensures ParseInt(s).Some? ==> ParseInt(s).value == if s[0] == '-' then -(Value(s[1..]) as int)
                                                       else if s[0] == '+' then Value(s[1..]) else Value(s)
  {
    hide Value;
  }

  /** A whole part, or a whole part, a dot and a fraction of which the first two characters count. */
  predicate AmountText(text: string, whole: string, fraction: string) {
    Number(whole) && (text == whole || (text == whole + "." + fraction && Number(Fraction2(fraction))))
  }

  /**
   * Whatever the parser accepts is, but for white space around it, a number, or a number, a dot and a fraction whose
   * first two characters are a number again: "1.-5" reads as 95 kopecks.
   */
  lemma {:induction false} OnlyNumbersParse(value: string)
    requires ParseAmount(value).Some?
    ensures exists whole, fraction :: AmountText(TrimSpace(value), whole, fraction)
  {
    hide TrimSpace, DotAt, Value, Wrap64;
    var text := TrimSpace(value);
    var dot := DotAt(text);
    ParseIntExactly(text[..dot]);
    var whole := text[..dot];
    if dot < |text| {
      var fraction := text[dot + 1..];
      ParseIntExactly(Fraction2(fraction));
      hide ParseInt, Number, Fraction2;
      assert text == whole + "." + fraction;
      assert AmountText(text, whole, fraction);
    } else {
      hide ParseInt, Number, Fraction2;
      assert AmountText(text, whole, "");
    }
  }

  lemma {:induction false} SignedFraction()
    ensures ParseAmount("1.-5") == Some(95)
  {
    hide ParseAmount;
    assert "1" + "." + "-5" == "1.-5";
    ParseParts("1", "-5");
    assert Fraction2("-5") == "-5";
    ParseIntExactly("-5");
    ParseIntExactly("1");
    assert "-5"[1..] == "5";
    OneDigitValue("5");
    OneDigitValue("1");
  }

  lemma {:induction false} OneDigitValue(s: string)
    requires |s| == 1 && AllDigits(s)
    ensures Value(s) == DigitValue(s[0])
  {
    assert s[..0] == "";
  }
}

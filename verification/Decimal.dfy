/**
 Decimal numerals: the strings that `strconv` prints and reads.
 Numbers are exact; hexadecimal, exponent, infinity and NaN forms are not part of the model.
 */
module Decimal {
  import opened Wrappers

  // ----- Digits of natural numbers -----

  predicate IsDigit(c: char) {
    '0' <= c <= '9'
  }

  predicate AllDigits(s: string) {
    forall i | 0 <= i < |s| :: IsDigit(s[i])
  }

  function DigitChar(d: nat): (c: char)
    requires d < 10
    ensures IsDigit(c) && DigitValue(c) == d
  {
    '0' + d as char
  }

  function DigitValue(c: char): nat
    requires IsDigit(c)
  {
    c as int - '0' as int
  }

  /** The number a string of digits denotes, most significant digit first; 0 for the empty string. */
  function NatOf(s: string): nat
    requires AllDigits(s)
  {
    if s == "" then 0 else 10 * NatOf(s[..|s| - 1]) + DigitValue(s[|s| - 1])
  }

  /** The canonical numeral of `n`, without leading zeros. */
  function Digits(n: nat): string {
    if n < 10 then [DigitChar(n)] else Digits(n / 10) + [DigitChar(n % 10)]
  }

  lemma {:induction false} NatOfDigits(n: nat)
    ensures AllDigits(Digits(n)) && NatOf(Digits(n)) == n
    ensures 0 < |Digits(n)| && (|Digits(n)| == 1 <==> n < 10)
  {
    if n < 10 {
      assert Digits(n)[..0] == "";
    } else {
      NatOfDigits(n / 10);
      assert Digits(n)[..|Digits(n)| - 1] == Digits(n / 10);
    }
  }

  const DIGITS: string := "0123456789"

  /** The digits by name: each stands for its position. */
  lemma DigitsByName(d: nat)
    requires d < 10
    ensures DigitChar(d) == DIGITS[d] && IsDigit(DIGITS[d]) && DigitValue(DIGITS[d]) == d
    ensures forall c :: IsDigit(c) <==> c in DIGITS
  {
    forall c | IsDigit(c) ensures c in DIGITS {
      assert c == DIGITS[DigitValue(c)];
    }
  }

  lemma NatOfMore(s: string, c: char)
    requires AllDigits(s) && IsDigit(c)
    ensures AllDigits(s + [c]) && NatOf(s + [c]) == 10 * NatOf(s) + DigitValue(c)
  {
    assert (s + [c])[..|s|] == s;
  }

  /** Positional value: the leading digit counts as often as its position says. */
  lemma {:induction false} NatOfLeading(c: char, s: string)
    requires IsDigit(c) && AllDigits(s)
    ensures AllDigits([c] + s) && NatOf([c] + s) == DigitValue(c) * Pow10(|s|) + NatOf(s)
    ensures NatOf(s) < Pow10(|s|)
  {
    if s == "" {
      assert [c] + s == "" + [c];
      NatOfMore("", c);
    } else {
      var front, last := s[..|s| - 1], s[|s| - 1];
      assert s == front + [last] && [c] + s == ([c] + front) + [last];
      NatOfLeading(c, front);
      NatOfMore([c] + front, last);
      NatOfMore(front, last);
      hide NatOf, AllDigits;
      TenTimes(DigitValue(c), Pow10(|front|), NatOf(front), DigitValue(last));
    }
  }

  lemma TenTimes(d: nat, p: nat, n: nat, e: nat)
    ensures 10 * (d * p + n) + e == d * (10 * p) + (10 * n + e)
  {}

  /** The numeral of a natural number: the only digits with its value and no leading zero. */
  lemma {:induction false} DigitsExactly(n: nat, s: string)
    ensures s == Digits(n) <==> s != "" && AllDigits(s) && NatOf(s) == n && (1 < |s| ==> s[0] != '0')
    decreases n
  {
    NatOfDigits(n);
    NoLeadingZero(n);
    if s != "" && AllDigits(s) && NatOf(s) == n && (1 < |s| ==> s[0] != '0') {
      var front, last := s[..|s| - 1], s[|s| - 1];
      assert s == front + [last];
      NatOfMore(front, last);
      assert last == DigitChar(n % 10);
      if front == "" {
        assert NatOf(front) == 0;
      } else {
        assert front[0] == s[0];
        NatOfPositive(front);
        DigitsExactly(n / 10, front);
      }
    }
  }

  lemma {:induction false} NoLeadingZero(n: nat)
    ensures 0 < n ==> Digits(n)[0] != '0'
    ensures |Digits(n)| == 1 || 0 < n
  {
    if 10 <= n {
      NatOfDigits(n / 10);
      NoLeadingZero(n / 10);
    }
  }

  lemma NatOfPositive(s: string)
    requires s != "" && AllDigits(s) && s[0] != '0'
    ensures 0 < NatOf(s)
  {
    var c, rest := s[0], s[1..];
    assert s == [c] + rest;
    NatOfLeading(c, rest);
    hide NatOf, AllDigits;
    assert 1 <= DigitValue(c);
    PositiveProduct(DigitValue(c), Pow10(|rest|));
  }

  lemma PositiveProduct(d: nat, p: nat)
    requires 0 < d && 0 < p
    ensures 0 < d * p
  {}

  // ----- Signed decimals: ParseFloat, ParseInt, Itoa -----

  const INT64_MIN: int := -0x8000_0000_0000_0000
  const INT64_MAX: int := 0x7FFF_FFFF_FFFF_FFFF

  function Pow10(k: nat): (p: nat)
    ensures 0 < p
  {
    if k == 0 then 1 else 10 * Pow10(k - 1)
  }

  /** The position of the first `c` in `s`, or `|s|`. */
  function IndexOf(s: string, c: char): (i: nat)
    ensures i <= |s|
    ensures forall j | 0 <= j < i :: s[j] != c
    ensures i < |s| ==> s[i] == c
  {
    if s == "" || s[0] == c then 0 else 1 + IndexOf(s[1..], c)
  }

  /** The value of a fraction's digits: `Fraction("25") == 0.25`. */
  function Fraction(frac: string): real
    requires AllDigits(frac)
  {
    NatOf(frac) as real / Pow10(|frac|) as real
  }

  function ParseUnsigned(s: string): Option<real> {
    var dot := IndexOf(s, '.');
    var whole := s[..dot];
    var frac := if dot < |s| then s[dot + 1..] else "";
    if AllDigits(whole) && AllDigits(frac) && 0 < |whole| + |frac| then
      Some(NatOf(whole) as real + Fraction(frac))
    else
      None
  }

  predicate Signed(s: string) {
    s != "" && (s[0] == '-' || s[0] == '+')
  }

  function ParseFloat(s: string): Option<real> {
    if Signed(s) then
      match ParseUnsigned(s[1..])
      case None => None
      case Some(x) => Some(if s[0] == '-' then -x else x)
    else
      ParseUnsigned(s)
  }

  /** `strconv.ParseInt(s, 10, 64)`: digits with an optional sign, within 64 bits. */
  function ParseInt(s: string): Option<int> {
    var digits := if Signed(s) then s[1..] else s;
    if digits != "" && AllDigits(digits) then
      var n: int := if s[0] == '-' then -(NatOf(digits) as int) else NatOf(digits);
      if INT64_MIN <= n <= INT64_MAX then Some(n) else None
    else
      None
  }

  function Itoa(n: int): string {
    if n < 0 then "-" + Digits(-n) else Digits(n)
  }

  lemma ParseDigits(s: string)
    requires s != "" && AllDigits(s)
    ensures ParseUnsigned(s) == Some(NatOf(s) as real)
    ensures !Signed(s) && IsDigit(s[0])
  {
    assert IndexOf(s, '.') == |s| by {
      var i := IndexOf(s, '.');
      assert i < |s| ==> IsDigit(s[i]);
    }
    assert s[..|s|] == s;
    assert IsDigit(s[0]);
  }

  /** What `ParseInt` accepts, `ParseFloat` accepts with the same value. */
  lemma ParseIntAgrees(s: string)
    ensures ParseInt(s).Some? ==> ParseFloat(s) == Some(ParseInt(s).value as real)
  {
    if ParseInt(s).Some? {
      ParseDigits(if Signed(s) then s[1..] else s);
    }
  }

  lemma ParseItoa(n: int)
    ensures ParseFloat(Itoa(n)) == Some(n as real)
    ensures INT64_MIN <= n <= INT64_MAX ==> ParseInt(Itoa(n)) == Some(n)
    ensures !(INT64_MIN <= n <= INT64_MAX) ==> ParseInt(Itoa(n)).None?
  {
    var m := if n < 0 then -n else n;
    NatOfDigits(m);
    ParseDigits(Digits(m));
    if n < 0 {
      assert Itoa(n)[1..] == Digits(m);
    }
  }

  /** A decimal numeral taken apart: an optional sign, digits, and an optional point with digits; one digit at least. */
  predicate IsNumeral(s: string, sign: string, whole: string, point: string, frac: string) {
    s == sign + whole + point + frac && sign in {"", "-", "+"} && point in {"", "."} && (point == "" ==> frac == "")
    && AllDigits(whole) && AllDigits(frac) && 0 < |whole| + |frac|
  }

  function NumeralValue(sign: string, whole: string, frac: string): real
    requires AllDigits(whole) && AllDigits(frac)
  {
    var x := NatOf(whole) as real + NatOf(frac) as real / Pow10(|frac|) as real;
    if sign == "-" then -x else x
  }

  /** What float parsing reads, and as what. */
  lemma ParseFloatExactly(s: string, x: real)
    ensures ParseFloat(s) == Some(x) <==>
            exists sign, whole, point, frac ::
              IsNumeral(s, sign, whole, point, frac) && NumeralValue(sign, whole, frac) == x
  {
    hide NatOf, Fraction, ParseUnsigned, IndexOf, AllDigits, NumeralValue, ParseFloat;
    if ParseFloat(s) == Some(x) {
      var sign, whole, point, frac := TakeApart(s);
    }
    if sign, whole, point, frac :| IsNumeral(s, sign, whole, point, frac) && NumeralValue(sign, whole, frac) == x {
      PutTogether(s, sign, whole, point, frac);
    }
  }

  lemma TakeApart(s: string) returns (sign: string, whole: string, point: string, frac: string)
    requires ParseFloat(s).Some?
    ensures IsNumeral(s, sign, whole, point, frac) && NumeralValue(sign, whole, frac) == ParseFloat(s).value
  {
    hide NatOf, ParseUnsigned, AllDigits;
    sign := if Signed(s) then [s[0]] else "";
    var rest := if Signed(s) then s[1..] else s;
    assert s == sign + rest;
    whole, point, frac := UnsignedApart(rest);
    assert s == sign + whole + point + frac;
  }

  lemma UnsignedApart(s: string) returns (whole: string, point: string, frac: string)
    requires ParseUnsigned(s).Some?
    ensures s == whole + point + frac && point in {"", "."} && (point == "" ==> frac == "")
    ensures AllDigits(whole) && AllDigits(frac) && 0 < |whole| + |frac|
    ensures ParseUnsigned(s).value == NatOf(whole) as real + NatOf(frac) as real / Pow10(|frac|) as real
  {
    hide NatOf, AllDigits;
    var dot := IndexOf(s, '.');
    whole := s[..dot];
    point := if dot < |s| then "." else "";
    frac := if dot < |s| then s[dot + 1..] else "";
  }

  lemma PutTogether(s: string, sign: string, whole: string, point: string, frac: string)
    requires IsNumeral(s, sign, whole, point, frac)
    ensures ParseFloat(s) == Some(NumeralValue(sign, whole, frac))
  {
    hide NatOf, IndexOf, ParseUnsigned;
    var rest := whole + point + frac;
    assert s == sign + rest;
    UnsignedTogether(whole, point, frac);
    NumeralUnsigned(whole, point, frac);
    if sign != "" {
      assert s[0] == sign[0] && s[1..] == rest;
    } else {
      assert s == rest;
    }
  }

  lemma NumeralUnsigned(whole: string, point: string, frac: string)
    requires point in {"", "."} && AllDigits(whole) && AllDigits(frac)
    ensures !Signed(whole + point + frac)
  {
    var rest := whole + point + frac;
    if rest != "" {
      assert rest[0] == if whole != "" then whole[0] else if point != "" then point[0] else frac[0];
      if whole != "" {
        DigitAt(whole, 0);
      } else if point == "" && frac != "" {
        DigitAt(frac, 0);
      }
    }
  }

  lemma UnsignedTogether(whole: string, point: string, frac: string)
    requires point in {"", "."} && (point == "" ==> frac == "")
    requires AllDigits(whole) && AllDigits(frac) && 0 < |whole| + |frac|
    ensures ParseUnsigned(whole + point + frac) ==
            Some(NatOf(whole) as real + NatOf(frac) as real / Pow10(|frac|) as real)
  {
    hide NatOf, AllDigits, ParseUnsigned, Pow10;
    if point == "" {
      assert whole + point + frac == whole;
      EmptyFraction();
      ParseDigits(whole);
    } else {
      PointTogether(whole, frac);
    }
  }

  lemma PointTogether(whole: string, frac: string)
    requires AllDigits(whole) && AllDigits(frac) && 0 < |whole| + |frac|
    ensures ParseUnsigned(whole + "." + frac) == Some(NatOf(whole) as real + Fraction(frac))
  {
    hide NatOf, AllDigits, IndexOf, Fraction;
    var s := whole + "." + frac;
    PointIndex(whole, frac);
    assert s[..|whole|] == whole && s[|whole| + 1..] == frac;
  }

  /** What integer parsing reads: an optional sign and digits, within 64 bits. */
  lemma ParseIntExactly(s: string, n: int)
    ensures ParseInt(s) == Some(n) <==>
            -0x8000_0000_0000_0000 <= n <= 0x7FFF_FFFF_FFFF_FFFF
            && exists sign, digits ::
                 s == sign + digits && sign in {"", "-", "+"} && digits != "" && AllDigits(digits)
                 && n == if sign == "-" then -(NatOf(digits) as int) else NatOf(digits)
  {
    hide NatOf;
    if ParseInt(s) == Some(n) {
      var sign, digits := if Signed(s) then [s[0]] else "", if Signed(s) then s[1..] else s;
      assert s == sign + digits;
    }
    if -0x8000_0000_0000_0000 <= n <= 0x7FFF_FFFF_FFFF_FFFF {
      if sign, digits :| s == sign + digits && sign in {"", "-", "+"} && digits != "" && AllDigits(digits)
                         && n == if sign == "-" then -(NatOf(digits) as int) else NatOf(digits)
      {
        if sign == "" {
          assert s == digits;
          DigitAt(digits, 0);
        } else {
          assert s[0] == sign[0] && s[1..] == digits;
        }
      }
    }
  }

  /** The printed integer: a minus exactly when it is negative, and its canonical digits. */
  lemma ItoaExactly(n: int, s: string)
    ensures s == Itoa(n) <==>
            exists digits :: digits != "" && AllDigits(digits) && (1 < |digits| ==> digits[0] != '0')
                             && s == (if n < 0 then "-" else "") + digits && NatOf(digits) == if n < 0 then -n else n
  {
    hide NatOf, Digits;
    var m := if n < 0 then -n else n;
    DigitsExactly(m, Digits(m));
    assert Itoa(n) == (if n < 0 then "-" else "") + Digits(m);
    if digits :| digits != "" && AllDigits(digits) && (1 < |digits| ==> digits[0] != '0')
                 && s == (if n < 0 then "-" else "") + digits && NatOf(digits) == m
    {
      DigitsExactly(m, digits);
    }
  }

  // ----- Rounding -----

  /** Conversion of a float to an integer: truncation toward zero. */
  function Trunc(x: real): int {
    if 0.0 <= x then x.Floor else -((-x).Floor)
  }

  /** The whole number next to `x` on the side of zero. */
  lemma TruncExactly(x: real, n: int)
    ensures n == Trunc(x) <==>
            if 0.0 <= x then n as real <= x < n as real + 1.0 else n as real - 1.0 < x <= n as real
  {}

  function Abs(x: real): real {
    if x < 0.0 then -x else x
  }

  /** The integer nearest to `y`, the even one of two equally near. */
  function HalfEven(y: real): (n: int)
    ensures 0.0 <= y ==> 0 <= n
  {
    var f := y.Floor;
    var rest := y - f as real;
    if rest < 0.5 || (rest == 0.5 && f % 2 == 0) then f else f + 1
  }

  /** `HalfEven` is characterised by nearness and evenness of ties. */
  lemma HalfEvenIsNearest(y: real, n: int)
    ensures n == HalfEven(y) <==>
            Abs(y - n as real) < 0.5 || (Abs(y - n as real) == 0.5 && n % 2 == 0)
  {}

  lemma HalfEvenMonotone(x: real, y: real)
    requires x <= y
    ensures HalfEven(x) <= HalfEven(y)
  {}

  // ----- Fixed-point printing and trimming -----

  /** A numeral with decimals, or without the point when it has none. */
  function Pointed(head: string, frac: string): (s: string)
    requires head != ""
    ensures s != ""
  {
    if frac == "" then head else head + "." + frac
  }

  function WithSign(negative: bool, s: string): string {
    if negative then "-" + s else s
  }

  /** `strconv.FormatFloat(x, 'f', 2, 64)`: sign, whole part, point, two digits. */
  function Fixed2(x: real): string {
    var cents := HalfEven(Abs(x) * 100.0);
    WithSign(x < 0.0, Digits(cents / 100)) + "." + [DigitChar(cents / 10 % 10), DigitChar(cents % 10)]
  }

  /** `strings.TrimRight(s, c)` for a cutset of one character. */
  function TrimRight(s: string, c: char): string {
    if s != "" && s[|s| - 1] == c then TrimRight(s[..|s| - 1], c) else s
  }

  /** The two trims that `formatCPU` applies to a fixed-point numeral. */
  function TrimNumeral(s: string): string {
    TrimRight(TrimRight(s, '0'), '.')
  }

  lemma DivideByTen(n: real, p: real)
    requires 0.0 < p
    ensures (10.0 * n) / (10.0 * p) == n / p
  {
    var q := n / p;
    assert q * p == n;
    assert q * (10.0 * p) == 10.0 * n;
  }

  lemma FractionTrailingZero(frac: string)
    requires AllDigits(frac)
    ensures Fraction(frac + "0") == Fraction(frac)
  {
    assert (frac + "0")[..|frac|] == frac;
    assert NatOf(frac + "0") == 10 * NatOf(frac);
    var n, p := NatOf(frac) as real, Pow10(|frac|) as real;
    assert (10 * NatOf(frac)) as real == 10.0 * n;
    assert Pow10(|frac| + 1) as real == 10.0 * p;
    DivideByTen(n, p);
  }

  lemma PointIndex(whole: string, frac: string)
    requires AllDigits(whole)
    ensures IndexOf(whole + "." + frac, '.') == |whole|
  {
    hide AllDigits;
    var s := whole + "." + frac;
    assert s[|whole|] == '.';
    forall i | 0 <= i < |whole| ensures s[i] != '.' {
      assert s[i] == whole[i];
      assert IsDigit(whole[i]) by { DigitAt(whole, i); }
    }
  }

  lemma EmptyFraction()
    ensures Fraction("") == 0.0
  {}

  lemma DigitAt(s: string, i: nat)
    requires AllDigits(s) && i < |s|
    ensures IsDigit(s[i])
  {}

  lemma DigitsPrefix(s: string, n: nat)
    requires AllDigits(s) && n <= |s|
    ensures AllDigits(s[..n])
  {}

  lemma ParsePointed(whole: string, frac: string)
    requires whole != "" && AllDigits(whole) && AllDigits(frac)
    ensures ParseUnsigned(Pointed(whole, frac)) == Some(NatOf(whole) as real + Fraction(frac))
    ensures IsDigit(Pointed(whole, frac)[0])
  {
    hide AllDigits, NatOf, IndexOf;
    DigitAt(whole, 0);
    if frac == "" {
      ParseDigits(whole);
      EmptyFraction();
    } else {
      var s := whole + "." + frac;
      PointIndex(whole, frac);
      assert s[..|whole|] == whole;
      assert s[|whole| + 1..] == frac;
    }
  }

  lemma TrimTrailingZero(s: string)
    ensures TrimNumeral(s + "0") == TrimNumeral(s)
  {}

  /** What the trims leave of a numeral: its head, and the decimals up to the last nonzero one. */
  lemma {:induction false} TrimShape(head: string, frac: string) returns (kept: string)
    requires head != "" && IsDigit(head[|head| - 1]) && AllDigits(frac)
    ensures AllDigits(kept) && Fraction(kept) == Fraction(frac)
    ensures TrimNumeral(head + "." + frac) == Pointed(head, kept)
    ensures kept == "" || kept[|kept| - 1] != '0'
    decreases |frac|
  {
    if frac == "" {
      kept := "";
      assert head + "." + frac == head + ".";
      assert TrimRight(head + ".", '0') == head + ".";
      assert (head + ".")[..|head|] == head;
      assert TrimRight(head, '.') == head;
    } else if frac[|frac| - 1] == '0' {
      var shorter := frac[..|frac| - 1];
      assert frac == shorter + "0";
      assert head + "." + frac == (head + "." + shorter) + "0";
      TrimTrailingZero(head + "." + shorter);
      FractionTrailingZero(shorter);
      kept := TrimShape(head, shorter);
    } else {
      kept := frac;
      var s := head + "." + frac;
      assert s[|s| - 1] == frac[|frac| - 1] && IsDigit(frac[|frac| - 1]);
    }
  }

  /** Trimming trailing zeros and the point keeps the value, whatever the number of decimals. */
  lemma TrimPreservesValue(negative: bool, whole: string, frac: string, x: real)
    requires whole != "" && AllDigits(whole) && AllDigits(frac)
    requires x == NatOf(whole) as real + Fraction(frac)
    ensures ParseFloat(TrimNumeral(WithSign(negative, whole) + "." + frac)) == Some(if negative then -x else x)
  {
    hide ParseFloat, ParseUnsigned, TrimNumeral, NatOf, Fraction, AllDigits, Pointed, WithSign;
    var head := WithSign(negative, whole);
    SignThenPoint(negative, whole, frac);
    DigitAt(whole, |whole| - 1);
    var kept := TrimShape(head, frac);
    var rest := Pointed(whole, kept);
    ParsePointed(whole, kept);
    SignThenPoint(negative, whole, kept);
    ParseWithSign(negative, rest, x);
  }

  /** A trimmed numeral has no trailing point, and no trailing zero after one. */
  lemma TrimmedIsShort(negative: bool, whole: string, frac: string)
    requires whole != "" && AllDigits(whole) && AllDigits(frac)
    ensures var s := TrimNumeral(WithSign(negative, whole) + "." + frac);
            s != "" && s[|s| - 1] != '.' && ('.' in s ==> s[|s| - 1] != '0')
  {
    hide TrimNumeral, NatOf, Fraction;
    var head := WithSign(negative, whole);
    SignThenPoint(negative, whole, frac);
    DigitAt(whole, |whole| - 1);
    var kept := TrimShape(head, frac);
    assert '.' !in whole;
    if kept != "" {
      DigitAt(kept, |kept| - 1);
    }
  }

  lemma SignThenPoint(negative: bool, whole: string, frac: string)
    requires whole != ""
    ensures var head := WithSign(negative, whole);
            head != "" && head[|head| - 1] == whole[|whole| - 1]
            && Pointed(head, frac) == WithSign(negative, Pointed(whole, frac))
  {}

  lemma ParseWithSign(negative: bool, rest: string, x: real)
    requires rest != "" && IsDigit(rest[0]) && ParseUnsigned(rest) == Some(x)
    ensures ParseFloat(WithSign(negative, rest)) == Some(if negative then -x else x)
  {}

  /** What is printed with two decimals and trimmed reads back as the number rounded to hundredths. */
  lemma ParseTrimmedFixed2(x: real)
    ensures var r := HalfEven(Abs(x) * 100.0) as real / 100.0;
            ParseFloat(TrimNumeral(Fixed2(x))) == Some(if x < 0.0 then -r else r)
  {
    hide ParseFloat, TrimNumeral, Digits, NatOf;
    var cents := HalfEven(Abs(x) * 100.0);
    var frac := [DigitChar(cents / 10 % 10), DigitChar(cents % 10)];
    NatOfDigits(cents / 100);
    TwoDigitFraction(cents);
    TrimPreservesValue(x < 0.0, Digits(cents / 100), frac, cents as real / 100.0);
  }

  lemma TwoDigitFraction(cents: nat)
    ensures (cents / 100) as real + Fraction([DigitChar(cents / 10 % 10), DigitChar(cents % 10)])
            == cents as real / 100.0
  {
    var frac := [DigitChar(cents / 10 % 10), DigitChar(cents % 10)];
    assert frac[..1] == [frac[0]] && frac[..1][..0] == "";
    assert NatOf(frac[..1]) == cents / 10 % 10;
    assert NatOf(frac) == cents % 100;
    assert Pow10(2) == 100;
  }
}

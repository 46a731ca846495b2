/**
 CPU and memory quantities: how `metrics` prints and reads them, how `runner` reads them,
 and why a printed allocation, the limit a container gets and the row recorded for it agree.
 */
module Quantities {
  import opened Wrappers
  import opened Decimal

  // ----- Reading -----

  function ValueOrZero(x: Option<real>): real {
    match x
    case None => 0.0
    case Some(f) => f
  }

  /** `metrics.ParseCPUToNano`. */
  function ParseCPUToNano(cpus: string): real {
    ValueOrZero(ParseFloat(cpus)) * 1_000_000_000.0
  }

  /** The characters `strings.TrimSpace` removes: Unicode white space. */
  predicate IsSpace(c: char) {
    c in {'\t', '\n', '\U{b}', '\U{c}', '\r', ' ', '\U{85}', '\U{a0}', '\U{1680}', '\U{2028}', '\U{2029}', '\U{202f}',
          '\U{205f}', '\U{3000}'}
    || '\U{2000}' <= c <= '\U{200a}'
  }

  function TrimSpace(s: string): string {
    if s == "" then s
    else if IsSpace(s[0]) then TrimSpace(s[1..])
    else if IsSpace(s[|s| - 1]) then TrimSpace(s[..|s| - 1])
    else s
  }

  /** `num` scaled by a suffix letter, in either case; nothing for any other character. */
  function Scaled(num: real, suffix: char): Option<real> {
    match suffix
    case 'g' | 'G' => Some(num * 1_073_741_824.0)
    case 'm' | 'M' => Some(num * 1_048_576.0)
    case 'k' | 'K' => Some(num * 1024.0)
    case _ => None
  }

  /** `metrics.ParseMemToBytes`: what it cannot read counts as zero. */
  function ParseMemToBytes(s: string): real {
    var mem := TrimSpace(s);
    if mem == "" then 0.0
    else
      match ParseFloat(mem[..|mem| - 1])
      case None => ValueOrZero(ParseFloat(mem))
      case Some(num) =>
        match Scaled(num, mem[|mem| - 1])
        case Some(bytes) => bytes
        case None => ValueOrZero(ParseFloat(mem))
  }

  /** `runner.parseCPUs`. */
  function ParseCPUs(cpus: string): Result<int> {
    match ParseFloat(cpus)
    case None => Err
    case Some(f) => Ok(Trunc(f * 1_000_000_000.0))
  }

  /** `runner.parseMemory`: stricter than `ParseMemToBytes`. */
  function ParseMemory(s: string): Result<int> {
    var mem := TrimSpace(s);
    if mem == "" then Err
    else
      match ParseFloat(mem[..|mem| - 1])
      case None => Err
      case Some(num) =>
        match Scaled(num, mem[|mem| - 1])
        case Some(bytes) => Ok(Trunc(bytes))
        case None =>
          match ParseInt(mem)
          case None => Err
          case Some(b) => Ok(b)
  }

  /** Whenever the runner accepts a quantity, the metrics parser truncates to the very same integer. */
  lemma ParsersAgree(s: string)
    ensures ParseCPUs(s).Ok? ==> ParseCPUs(s).value == Trunc(ParseCPUToNano(s))
    ensures ParseMemory(s).Ok? ==> ParseMemory(s).value == Trunc(ParseMemToBytes(s))
  {
    ParseIntAgrees(TrimSpace(s));
  }

  // ----- Printing -----

  /** `formatCPU`: a whole number, or at most two decimals without trailing zeros. */
  function FormatCPU(nanoCPUs: real): string {
    var cpus := nanoCPUs / 1_000_000_000.0;
    if cpus == Trunc(cpus) as real then Itoa(Trunc(cpus)) else TrimNumeral(Fixed2(cpus))
  }

  predicate WholeAndPositive(y: real) {
    y == Trunc(y) as real && y >= 1.0
  }

  /** `formatMemory`: whole gibibytes, whole mebibytes, or bytes. */
  function FormatMemory(bytes: real): string {
    var gb := bytes / 1_073_741_824.0;
    var mb := bytes / 1_048_576.0;
    if WholeAndPositive(gb) then Itoa(Trunc(gb)) + "g"
    else if WholeAndPositive(mb) then Itoa(Trunc(mb)) + "m"
    else Itoa(Trunc(bytes))
  }

  // ----- What printing keeps: the printable grid -----

  datatype Resource = Cpu | Mem

  /** The printable unit: 0.01 CPU in nanocpus, or one byte. */
  function Unit(r: Resource): real {
    match r
    case Cpu => 10_000_000.0
    case Mem => 1.0
  }

  /** A quantity counted in printable units. */
  function InUnits(r: Resource, x: real): real {
    match r
    case Cpu => x / 10_000_000.0
    case Mem => x
  }

  function FromUnits(r: Resource, n: int): real {
    match r
    case Cpu => (n * 10_000_000) as real
    case Mem => n as real
  }

  /** The number of units printed for `y` units: CPU rounds to the nearest, memory truncates. */
  function Round(r: Resource, y: real): int {
    match r
    case Cpu => if y < 0.0 then -HalfEven(-y) else HalfEven(y)
    case Mem => Trunc(y)
  }

  /** The printable quantity that is printed for `x`. */
  function Snap(r: Resource, x: real): real {
    FromUnits(r, Round(r, InUnits(r, x)))
  }

  predicate OnGrid(r: Resource, x: real) {
    InUnits(r, x) == Trunc(InUnits(r, x)) as real
  }

  function Format(r: Resource, x: real): string {
    match r
    case Cpu => FormatCPU(x)
    case Mem => FormatMemory(x)
  }

  /** The metrics parser of a resource. */
  function Parse(r: Resource, s: string): real {
    match r
    case Cpu => ParseCPUToNano(s)
    case Mem => ParseMemToBytes(s)
  }

  /** The runner's parser of a resource. */
  function Enforced(r: Resource, s: string): Result<int> {
    match r
    case Cpu => ParseCPUs(s)
    case Mem => ParseMemory(s)
  }

  lemma RoundMonotone(r: Resource, x: real, y: real)
    requires x <= y
    ensures Round(r, x) <= Round(r, y)
  {
    if r.Cpu? {
      if y < 0.0 {
        HalfEvenMonotone(-y, -x);
      } else if 0.0 <= x {
        HalfEvenMonotone(x, y);
      }
    }
  }

  lemma SnapMonotone(r: Resource, x: real, y: real)
    requires x <= y
    ensures Snap(r, x) <= Snap(r, y)
  {
    RoundMonotone(r, InUnits(r, x), InUnits(r, y));
  }

  lemma UnitsOf(r: Resource, n: int)
    ensures InUnits(r, FromUnits(r, n)) == n as real
    ensures Trunc(FromUnits(r, n)) as real == FromUnits(r, n)
    ensures OnGrid(r, FromUnits(r, n)) && Snap(r, FromUnits(r, n)) == FromUnits(r, n)
  {
    TruncInt(n);
    TruncInt(n * 10_000_000);
    RoundInt(r, n);
  }

  lemma TruncInt(n: int)
    ensures Trunc(n as real) == n
  {}

  lemma RoundInt(r: Resource, n: int)
    ensures Round(r, n as real) == n
  {
    TruncInt(n);
    TruncInt(-n);
  }

  lemma SnapOnGrid(r: Resource, x: real)
    ensures OnGrid(r, Snap(r, x))
    ensures OnGrid(r, x) ==> Snap(r, x) == x
    ensures Trunc(Snap(r, x)) as real == Snap(r, x)
  {
    UnitsOf(r, Round(r, InUnits(r, x)));
    if OnGrid(r, x) {
      var n := Trunc(InUnits(r, x));
      RoundInt(r, n);
      assert x == FromUnits(r, n);
    }
  }

  /** The most by which printing moves a quantity: half a CPU unit, or a byte. */
  function Slack(r: Resource): real {
    match r
    case Cpu => 5_000_000.0
    case Mem => 1.0
  }

  /** The most by which printing raises a quantity that is not negative. */
  function Gain(r: Resource): real {
    match r
    case Cpu => 5_000_000.0
    case Mem => 0.0
  }

  lemma SnapNear(r: Resource, x: real)
    ensures x - Slack(r) <= Snap(r, x) <= x + Slack(r)
    ensures 0.0 <= x ==> Snap(r, x) <= x + Gain(r)
  {
    RoundNear(r, InUnits(r, x));
  }

  lemma RoundNear(r: Resource, y: real)
    ensures Abs(Round(r, y) as real - y) <= 1.0
    ensures r.Cpu? ==> Abs(Round(r, y) as real - y) <= 0.5
    ensures r.Mem? && 0.0 <= y ==> Round(r, y) as real <= y
  {
    if r.Cpu? {
      HalfEvenIsNearest(Abs(y), HalfEven(Abs(y)));
    }
  }

  // ----- Round trips -----

  /** Printing and reading back: CPU comes back rounded to 0.01, memory truncated to a byte. */
  lemma FormatParse(r: Resource, x: real)
    ensures Parse(r, Format(r, x)) == Snap(r, x)
  {
    match r
    case Cpu => FormatParseCPU(x);
    case Mem => FormatParseMemory(x);
  }

  lemma FormatParseCPU(x: real)
    ensures ParseFloat(FormatCPU(x)).Some? && ParseCPUToNano(FormatCPU(x)) == Snap(Cpu, x)
  {
    hide ParseCPUToNano, ParseFloat, TrimNumeral, Fixed2, Itoa, HalfEven;
    var cpus := x / 1_000_000_000.0;
    var n := Trunc(cpus);
    if cpus == n as real {
      PrintedWhole(x, n);
    } else {
      var hundredths := HalfEven(Abs(cpus) * 100.0);
      PrintedHundredths(cpus, hundredths);
      assert Abs(cpus) * 100.0 == Abs(InUnits(Cpu, x));
      assert Round(Cpu, InUnits(Cpu, x)) == if x < 0.0 then -hundredths else hundredths;
    }
  }

  lemma PrintedWhole(x: real, n: int)
    requires x / 1_000_000_000.0 == n as real
    ensures ParseFloat(Itoa(n)).Some? && ParseCPUToNano(Itoa(n)) == Snap(Cpu, x)
  {
    ParseItoa(n);
    assert x == n as real * 1_000_000_000.0;
    assert x == FromUnits(Cpu, n * 100);
    UnitsOf(Cpu, n * 100);
  }

  lemma PrintedHundredths(cpus: real, hundredths: int)
    requires hundredths == HalfEven(Abs(cpus) * 100.0)
    ensures ParseFloat(TrimNumeral(Fixed2(cpus))).Some?
    ensures ParseCPUToNano(TrimNumeral(Fixed2(cpus))) == FromUnits(Cpu, if cpus < 0.0 then -hundredths else hundredths)
  {
    ParseTrimmedFixed2(cpus);
    var v := hundredths as real / 100.0;
    assert v * 1_000_000_000.0 == (hundredths * 10_000_000) as real;
  }

  /** Printed CPU quantities are short: no trailing point, no trailing zero after a point. */
  lemma FormatCPUIsShort(x: real)
    ensures var s := FormatCPU(x); s != "" && s[|s| - 1] != '.' && ('.' in s ==> s[|s| - 1] != '0')
  {
    hide TrimNumeral, HalfEven, Digits;
    var cpus := x / 1_000_000_000.0;
    if cpus == Trunc(cpus) as real {
      WholeIsShort(Trunc(cpus));
    } else {
      var cents := HalfEven(Abs(cpus) * 100.0);
      NatOfDigits(cents / 100);
      TrimmedIsShort(cpus < 0.0, Digits(cents / 100), [DigitChar(cents / 10 % 10), DigitChar(cents % 10)]);
    }
  }

  lemma WholeIsShort(n: int)
    ensures var s := Itoa(n); s != "" && s[|s| - 1] != '.' && '.' !in s
  {
    hide Digits, NatOf;
    NatOfDigits(if n < 0 then -n else n);
  }

  lemma TrimSpaceKeeps(s: string)
    requires s != "" && !IsSpace(s[0]) && !IsSpace(s[|s| - 1])
    ensures TrimSpace(s) == s
  {}

  lemma ItoaShape(n: int)
    ensures var s := Itoa(n);
            s != "" && !IsSpace(s[0]) && IsDigit(s[|s| - 1])
            && (ParseFloat(s[..|s| - 1]).Some? <==> 10 <= n || n <= -10)
  {
    hide NatOf, ParseUnsigned, AllDigits, Digits, IndexOf;
    var m := if n < 0 then -n else n;
    NatOfDigits(m);
    var d, s := Digits(m), Itoa(n);
    var front := d[..|d| - 1];
    DigitAt(d, 0);
    DigitAt(d, |d| - 1);
    assert s[..|s| - 1] == WithSign(n < 0, front);
    if 10 <= m {
      DigitsPrefix(d, |d| - 1);
      ParseDigits(front);
      ParseWithSign(n < 0, front, NatOf(front) as real);
    } else {
      assert front == "";
      NoDigits();
    }
  }

  lemma NoDigits()
    ensures ParseFloat("").None? && ParseFloat("-").None?
  {
    assert "-"[1..] == "";
  }

  /** What the runner's parser makes of a printed number of bytes. */
  function PrintedLimit(b: real): Result<int> {
    var n := Trunc(b);
    if WholeAndPositive(b / 1_048_576.0) || ((10 <= n || n <= -10) && INT64_MIN <= n <= INT64_MAX) then Ok(n) else Err
  }

  lemma FormatParseMemory(b: real)
    ensures ParseMemToBytes(FormatMemory(b)) == Trunc(b) as real
    ensures ParseMemory(FormatMemory(b)) == PrintedLimit(b)
  {
    hide ParseMemToBytes, ParseMemory, Itoa;
    var gb, mb := b / 1_073_741_824.0, b / 1_048_576.0;
    if WholeAndPositive(gb) {
      WholeMebibytes(b, Trunc(gb), 1024);
      WholeSuffix(b, Trunc(gb), 'g');
    } else if WholeAndPositive(mb) {
      WholeSuffix(b, Trunc(mb), 'm');
    } else {
      PlainMemory(Trunc(b));
    }
  }

  lemma WholeMebibytes(b: real, n: int, k: nat)
    requires 1 <= n && k == 1024 && b / 1_073_741_824.0 == n as real
    ensures WholeAndPositive(b / 1_048_576.0)
  {
    assert b == n as real * 1_073_741_824.0;
    assert b / 1_048_576.0 == (n * k) as real;
    TruncInt(n * k);
  }

  lemma PlainMemory(n: int)
    ensures ParseMemToBytes(Itoa(n)) == n as real
    ensures ParseMemory(Itoa(n)) == if (10 <= n || n <= -10) && INT64_MIN <= n <= INT64_MAX then Ok(n) else Err
  {
    hide TrimSpace, Itoa, ParseFloat, ParseInt;
    ItoaShape(n);
    TrimSpaceKeeps(Itoa(n));
    ParseItoa(n);
  }

  lemma WholeSuffix(b: real, n: int, suffix: char)
    requires (suffix == 'g' && b / 1_073_741_824.0 == n as real) || (suffix == 'm' && b / 1_048_576.0 == n as real)
    ensures ParseMemToBytes(Itoa(n) + [suffix]) == Trunc(b) as real
    ensures ParseMemory(Itoa(n) + [suffix]) == Ok(Trunc(b))
  {
    SuffixedMemory(n, suffix);
    if suffix == 'g' {
      assert b == (n * 1_073_741_824) as real;
      TruncInt(n * 1_073_741_824);
    } else {
      assert b == (n * 1_048_576) as real;
      TruncInt(n * 1_048_576);
    }
  }

  lemma SuffixedMemory(n: int, suffix: char)
    requires Scaled(n as real, suffix).Some?
    ensures Some(ParseMemToBytes(Itoa(n) + [suffix])) == Scaled(n as real, suffix)
    ensures ParseMemory(Itoa(n) + [suffix]) == Ok(Trunc(ParseMemToBytes(Itoa(n) + [suffix])))
  {
    hide Itoa, ParseFloat, ParseMemToBytes, ParseMemory, Scaled, Trunc;
    ParseItoa(n);
    SuffixedNumeral(Itoa(n), n as real, suffix);
  }

  lemma SuffixedNumeral(num: string, x: real, suffix: char)
    requires ParseFloat(num) == Some(x) && Scaled(x, suffix).Some?
    ensures Some(ParseMemToBytes(num + [suffix])) == Scaled(x, suffix)
    ensures ParseMemory(num + [suffix]) == Ok(Trunc(Scaled(x, suffix).value))
  {
    hide ParseFloat, TrimSpace, IsSpace, ParseInt, Trunc, Scaled;
    var s := num + [suffix];
    NumeralStart(num);
    SuffixIsNoSpace(x, suffix);
    TrimSpaceKeeps(s);
    assert s[..|s| - 1] == num;
  }

  lemma SuffixIsNoSpace(x: real, suffix: char)
    requires Scaled(x, suffix).Some?
    ensures !IsSpace(suffix)
  {}

  predicate AllSpace(s: string) {
    forall c | c in s :: IsSpace(c)
  }

  /** Both memory parsers ignore white space before and after the string. */
  lemma PaddingIgnored(before: string, s: string, after: string)
    requires AllSpace(before) && AllSpace(after)
    ensures ParseMemToBytes(before + s + after) == ParseMemToBytes(s)
    ensures ParseMemory(before + s + after) == ParseMemory(s)
  {
    hide IsSpace;
    TrimBefore(before, s + after);
    assert before + (s + after) == before + s + after;
    TrimAfter(s, after);
  }

  lemma {:induction false} TrimBefore(before: string, s: string)
    requires AllSpace(before)
    ensures TrimSpace(before + s) == TrimSpace(s)
  {
    hide IsSpace;
    if before == "" {
      assert before + s == s;
    } else {
      assert (before + s)[1..] == before[1..] + s;
      TrimBefore(before[1..], s);
    }
  }

  lemma {:induction false} TrimAfter(s: string, after: string)
    requires AllSpace(after)
    ensures TrimSpace(s + after) == TrimSpace(s)
  {
    hide IsSpace;
    if after == "" {
      assert s + after == s;
    } else {
      var d := after[|after| - 1];
      assert s + after == (s + after[..|after| - 1]) + [d];
      TrimLast(s + after[..|after| - 1], d);
      TrimAfter(s, after[..|after| - 1]);
    }
  }

  lemma {:induction false} TrimLast(s: string, d: char)
    requires IsSpace(d)
    ensures TrimSpace(s + [d]) == TrimSpace(s)
  {
    hide IsSpace;
    if s == "" {
      assert ([d])[1..] == "";
    } else if IsSpace(s[0]) {
      assert (s + [d])[1..] == s[1..] + [d];
      TrimLast(s[1..], d);
    } else {
      assert (s + [d])[..|s|] == s;
    }
  }

  /** A numeral does not begin with white space. */
  lemma NumeralStart(num: string)
    requires ParseFloat(num).Some?
    ensures num != "" && !IsSpace(num[0])
  {
    hide NatOf, Fraction;
    var digits := if Signed(num) then num[1..] else num;
    var dot := IndexOf(digits, '.');
    if digits != "" && dot != 0 {
      DigitAt(digits[..dot], 0);
    }
  }

  /** Each suffix, in either case, is 1024 of the one below, and k is 1024 bytes, for both parsers and any numeral. */
  lemma BinarySuffixes(num: string, x: real, lower: char, upper: char, bytes: real)
    requires ParseFloat(num) == Some(x)
    requires (lower, upper, bytes) in {('k', 'K', 1024.0), ('m', 'M', 1024.0 * 1024.0),
                                       ('g', 'G', 1024.0 * 1024.0 * 1024.0)}
    ensures ParseMemToBytes(num + [lower]) == ParseMemToBytes(num + [upper]) == x * bytes
    ensures ParseMemory(num + [lower]) == ParseMemory(num + [upper]) == Ok(Trunc(x * bytes))
  {
    hide ParseMemToBytes, ParseMemory, ParseFloat;
    SuffixedNumeral(num, x, lower);
    SuffixedNumeral(num, x, upper);
  }

  /**
   The runner's parser reads every printed CPU quantity as the printed one, and every printed memory
   quantity of at least ten bytes that fits in 64 bits.
   */
  lemma PrintedIsEnforced(r: Resource, x: real)
    ensures r.Cpu? ==> Enforced(r, Format(r, x)) == Ok(Trunc(Snap(r, x)))
    ensures r.Mem? && 10.0 <= x && Trunc(x) <= INT64_MAX ==> Enforced(r, Format(r, x)) == Ok(Trunc(Snap(r, x)))
    ensures r.Mem? && Abs(x) < 10.0 ==> Enforced(r, Format(r, x)) == Err
  {
    match r
    case Cpu =>
      FormatParseCPU(x);
      ParsersAgree(FormatCPU(x));
    case Mem =>
      FormatParseMemory(x);
  }

  // ----- The grammars written out -----

  /** Unicode white space, by code point. */
  lemma IsSpaceExactly(c: char)
    ensures IsSpace(c) <==>
            c as int in {9, 10, 11, 12, 13, 32, 0x85, 0xA0, 0x1680, 0x2028, 0x2029, 0x202F, 0x205F, 0x3000}
            || 0x2000 <= c as int <= 0x200A
  {}

  /** Begins and ends with something else than white space. */
  predicate Trimmed(t: string) {
    t == "" || (!IsSpace(t[0]) && !IsSpace(t[|t| - 1]))
  }

  /** Trimming removes the white space at both ends and nothing else. */
  lemma TrimSpaceExactly(s: string, t: string)
    ensures t == TrimSpace(s) <==>
            Trimmed(t) && exists before, after :: AllSpace(before) && AllSpace(after) && s == before + t + after
  {
    hide IsSpace, AllSpace, TrimSpace, Trimmed;
    var pre, post := TrimSpaceSplits(s);
    if before, after :| Trimmed(t) && AllSpace(before) && AllSpace(after) && s == before + t + after {
      TrimBetween(before, t, after);
    }
  }

  lemma TrimBetween(before: string, t: string, after: string)
    requires Trimmed(t) && AllSpace(before) && AllSpace(after)
    ensures TrimSpace(before + t + after) == t
  {
    hide IsSpace, AllSpace;
    TrimBefore(before, t + after);
    assert before + (t + after) == before + t + after;
    TrimAfter(t, after);
  }

  lemma {:induction false} TrimSpaceSplits(s: string) returns (before: string, after: string)
    ensures AllSpace(before) && AllSpace(after) && s == before + TrimSpace(s) + after && Trimmed(TrimSpace(s))
    decreases |s|
  {
    hide IsSpace, AllSpace;
    NoSpace();
    before, after := "", "";
    if s != "" && IsSpace(s[0]) {
      var rest := s[1..];
      before, after := TrimSpaceSplits(rest);
      OneMoreSpace(s[0], before);
      assert s == [s[0]] + rest;
      assert s == ([s[0]] + before) + TrimSpace(rest) + after;
      before := [s[0]] + before;
    } else if s != "" && IsSpace(s[|s| - 1]) {
      var rest := s[..|s| - 1];
      before, after := TrimSpaceSplits(rest);
      OneMoreSpace(s[|s| - 1], after);
      assert s == rest + [s[|s| - 1]];
      assert s == before + TrimSpace(rest) + (after + [s[|s| - 1]]);
      after := after + [s[|s| - 1]];
    }
  }

  lemma NoSpace()
    ensures AllSpace("")
  {}

  lemma OneMoreSpace(c: char, s: string)
    requires IsSpace(c) && AllSpace(s)
    ensures AllSpace([c] + s) && AllSpace(s + [c])
  {
    hide IsSpace;
  }

  /** A numeral is read as CPUs by both parsers; any other string is an error to the runner and zero to the metrics. */
  lemma CPUForms(s: string)
    ensures match ParseFloat(s)
            case Some(x) =>
              ParseCPUs(s) == Ok(Trunc(x * 1_000_000_000.0)) && ParseCPUToNano(s) == x * 1_000_000_000.0
            case None => ParseCPUs(s) == Err && ParseCPUToNano(s) == 0.0
  {}

  /** A numeral with one of the suffix letters, in either case. */
  predicate Suffixed(mem: string) {
    mem != "" && mem[|mem| - 1] in "kKmMgG" && ParseFloat(mem[..|mem| - 1]).Some?
  }

  /**
   Memory without a suffix, after trimming: the metrics parser reads any numeral as bytes. The runner reads integers
   that fit in 64 bits and still are a numeral without their last character. Everything else is an error to the runner
   and, if it is no numeral either, zero to the metrics.
   */
  lemma PlainForms(s: string)
    ensures var mem := TrimSpace(s);
            !Suffixed(mem) ==>
              && ParseMemToBytes(s) == ValueOrZero(ParseFloat(mem))
              && ParseMemory(s) == if ParseInt(mem).Some? && ParseFloat(mem[..|mem| - 1]).Some?
                                   then Ok(ParseInt(mem).value) else Err
  {
    hide TrimSpace, ParseFloat, ParseInt;
    NothingParses();
  }

  lemma NothingParses()
    ensures ParseFloat("").None? && ParseInt("").None?
  {}

  /** All digits, with a point and with suffixes, as both parsers read them. */
  lemma EveryDigitReads()
    ensures ParseCPUs("98765.43210") == Ok(98_765_432_100_000) && ParseCPUToNano("98765.43210") == 98_765_432_100_000.0
    ensures ParseMemory("9876543210k") == Ok(10_113_580_247_040)
    ensures ParseMemToBytes("9876543210k") == 10_113_580_247_040.0
    ensures ParseMemory("9876543210") == Ok(9_876_543_210) && ParseMemToBytes("9876543210") == 9_876_543_210.0
    ensures ParseCPUs("1.5") == Ok(1_500_000_000) && ParseMemory("512m") == Ok(536_870_912)
  {
    hide ParseFloat, ParseInt, ParseMemory, ParseMemToBytes, TrimSpace;
    EveryNumeral();
    CPUForms("98765.43210");
    CPUForms("1.5");
    SuffixedNumeral("9876543210", 9_876_543_210.0, 'k');
    SuffixedNumeral("512", 512.0, 'm');
    assert "9876543210" + "k" == "9876543210k" && "512" + "m" == "512m";
    PlainInteger();
  }

  lemma PlainInteger()
    ensures ParseMemory("9876543210") == Ok(9_876_543_210) && ParseMemToBytes("9876543210") == 9_876_543_210.0
  {
    hide ParseFloat, ParseInt, ParseMemory, ParseMemToBytes, IsSpace;
    EveryNumeral();
    var s := "9876543210";
    NumeralStart(s);
    SuffixIsNoSpace(1.0, 'k');
    assert !IsSpace('0') by { IsSpaceExactly('0'); }
    TrimSpaceKeeps(s);
    PlainForms(s);
    assert s[..|s| - 1] == "987654321";
  }

  lemma EveryNumeral()
    ensures ParseFloat("98765.43210") == Some(98765.4321) && ParseFloat("1.5") == Some(1.5)
    ensures ParseFloat("9876543210") == Some(9_876_543_210.0) && ParseInt("9876543210") == Some(9_876_543_210)
    ensures ParseFloat("987654321").Some? && ParseFloat("512") == Some(512.0)
  {
    hide ParseFloat, ParseInt, ParseUnsigned, NatOf, AllDigits, NumeralValue;
    EveryNatural();
    PutTogether("98765.43210", "", "98765", ".", "43210");
    PutTogether("1.5", "", "1", ".", "5");
    PutTogether("9876543210", "", "9876543210", "", "");
    PutTogether("987654321", "", "987654321", "", "");
    PutTogether("512", "", "512", "", "");
    EveryValue();
    assert "" + "9876543210" == "9876543210";
    ParseIntExactly("9876543210", 9_876_543_210);
  }

  lemma EveryValue()
    requires AllDigits("98765") && AllDigits("43210") && AllDigits("1") && AllDigits("5") && AllDigits("9876543210")
    requires AllDigits("512") && AllDigits("")
    requires NatOf("98765") == 98765 && NatOf("43210") == 43210 && NatOf("1") == 1 && NatOf("5") == 5
    requires NatOf("9876543210") == 9_876_543_210 && NatOf("512") == 512 && NatOf("") == 0
    ensures NumeralValue("", "98765", "43210") == 98765.4321 && NumeralValue("", "1", "5") == 1.5
    ensures NumeralValue("", "9876543210", "") == 9_876_543_210.0 && NumeralValue("", "512", "") == 512.0
  {
    hide NatOf, AllDigits;
    assert Pow10(2) == 100 && Pow10(4) == 10_000 && Pow10(5) == 100_000;
  }

  lemma EveryNatural()
    ensures AllDigits("98765") && AllDigits("43210") && AllDigits("1") && AllDigits("5") && AllDigits("9876543210")
    ensures AllDigits("987654321") && AllDigits("512") && AllDigits("")
    ensures NatOf("98765") == 98765 && NatOf("43210") == 43210 && NatOf("1") == 1 && NatOf("5") == 5
    ensures NatOf("9876543210") == 9_876_543_210 && NatOf("512") == 512 && NatOf("") == 0
  {
    hide NatOf, AllDigits;
    NoDigitsRead();
    Reads("", 0, '9', "9");
    Reads("9", 9, '8', "98");
    Reads("98", 98, '7', "987");
    Reads("987", 987, '6', "9876");
    Reads("9876", 9876, '5', "98765");
    Reads("98765", 98765, '4', "987654");
    Reads("987654", 987_654, '3', "9876543");
    Reads("9876543", 9_876_543, '2', "98765432");
    Reads("98765432", 98_765_432, '1', "987654321");
    Reads("987654321", 987_654_321, '0', "9876543210");
    Reads("", 0, '4', "4");
    Reads("4", 4, '3', "43");
    Reads("43", 43, '2', "432");
    Reads("432", 432, '1', "4321");
    Reads("4321", 4321, '0', "43210");
    Reads("", 0, '1', "1");
    Reads("", 0, '5', "5");
    Reads("5", 5, '1', "51");
    Reads("51", 51, '2', "512");
  }

  lemma NoDigitsRead()
    ensures AllDigits("") && NatOf("") == 0
  {}

  lemma Reads(s: string, n: nat, c: char, t: string)
    requires AllDigits(s) && NatOf(s) == n && IsDigit(c) && t == s + [c]
    ensures AllDigits(t) && NatOf(t) == 10 * n + (c as int - 48)
  {
    NatOfMore(s, c);
  }

  /**
   Printed memory: a whole number of bytes divisible by a gibibyte is printed in gibibytes, else one divisible by a
   mebibyte in mebibytes, and any other amount in bytes without a suffix.
   */
  lemma FormatMemoryExactly(x: real)
    ensures var b := Trunc(x);
            FormatMemory(x) ==
            if x == b as real && 0 < b && b % 1_073_741_824 == 0 then Itoa(b / 1_073_741_824) + "g"
            else if x == b as real && 0 < b && b % 1_048_576 == 0 then Itoa(b / 1_048_576) + "m"
            else Itoa(b)
  {
    hide Itoa;
    WholeMultiple(x, 1_073_741_824);
    WholeMultiple(x, 1_048_576);
  }

  lemma WholeMultiple(x: real, unit: nat)
    requires unit == 1_073_741_824 || unit == 1_048_576
    ensures var b := Trunc(x);
            && (WholeAndPositive(x / unit as real) <==> x == b as real && 0 < b && b % unit == 0)
            && (WholeAndPositive(x / unit as real) ==> Trunc(x / unit as real) == b / unit)
  {
    var y, b := x / unit as real, Trunc(x);
    assert x == y * unit as real;
    if WholeAndPositive(y) {
      var n := Trunc(y);
      assert x == (n * unit) as real;
      TruncInt(n * unit);
      assert b == n * unit;
    }
    if x == b as real && 0 < b && b % unit == 0 {
      var n := b / unit;
      assert b == n * unit;
      assert y == n as real;
      TruncInt(n);
    }
  }

  /** Two decimals as far as they are needed. */
  function Decimals(c: nat, d: nat): string
    requires c < 10 && d < 10
  {
    if d == 0 && c == 0 then "" else if d == 0 then "." + [DIGITS[c]] else "." + [DIGITS[c], DIGITS[d]]
  }

  /** Printed CPUs: the hundredths nearest to the quantity, with as many decimals as they need. */
  lemma FormatCPUExactly(x: real, h: nat)
    requires var y := Abs(x) / 10_000_000.0; Abs(y - h as real) < 0.5 || (Abs(y - h as real) == 0.5 && h % 2 == 0)
    ensures FormatCPU(x) == (if x < 0.0 then "-" else "") + Itoa(h / 100) + Decimals(h / 10 % 10, h % 10)
  {
    hide FormatCPU, Itoa, Decimals, HalfEven;
    NearestHundredth(x, h);
    FormatHundredths(x, h);
  }

  lemma NearestHundredth(x: real, h: nat)
    requires var y := Abs(x) / 10_000_000.0; Abs(y - h as real) < 0.5 || (Abs(y - h as real) == 0.5 && h % 2 == 0)
    ensures h == HalfEven(Abs(x / 1_000_000_000.0) * 100.0)
  {
    HalfEvenIsNearest(Abs(x) / 10_000_000.0, h);
    assert Abs(x / 1_000_000_000.0) * 100.0 == Abs(x) / 10_000_000.0;
  }

  lemma FormatHundredths(x: real, h: nat)
    requires h == HalfEven(Abs(x / 1_000_000_000.0) * 100.0)
    ensures FormatCPU(x) == (if x < 0.0 then "-" else "") + Itoa(h / 100) + Decimals(h / 10 % 10, h % 10)
  {
    hide HalfEven, Digits, TrimNumeral, Fixed2, Decimals, Abs, Trunc;
    var cpus := x / 1_000_000_000.0;
    if cpus == Trunc(cpus) as real {
      WholeHundredths(cpus, Trunc(cpus), h);
      WholeDecimals(h);
    } else {
      TrimFixed2(cpus, h);
    }
    assert cpus < 0.0 <==> x < 0.0;
  }

  lemma WholeDecimals(h: nat)
    ensures h % 100 == 0 ==> Decimals(h / 10 % 10, h % 10) == ""
  {}

  lemma TrimFixed2(x: real, h: nat)
    requires h == HalfEven(Abs(x) * 100.0)
    ensures TrimNumeral(Fixed2(x)) == WithSign(x < 0.0, Digits(h / 100)) + Decimals(h / 10 % 10, h % 10)
  {
    hide HalfEven, Digits, TrimNumeral, DigitChar, WithSign, Decimals, Abs;
    var c, d := h / 10 % 10, h % 10;
    DigitsByName(c);
    DigitsByName(d);
    HeadEndsInDigit(x < 0.0, h / 100);
    TrimTwo(WithSign(x < 0.0, Digits(h / 100)), c, d);
  }

  lemma HeadEndsInDigit(negative: bool, n: nat)
    ensures var head := WithSign(negative, Digits(n)); head != "" && IsDigit(head[|head| - 1])
  {
    hide Digits, NatOf, AllDigits;
    NatOfDigits(n);
    DigitAt(Digits(n), |Digits(n)| - 1);
  }

  lemma WholeHundredths(cpus: real, n: int, h: nat)
    requires cpus == n as real && h == HalfEven(Abs(cpus) * 100.0)
    ensures h == 100 * (if n < 0 then -n else n)
  {
    assert Abs(cpus) * 100.0 == (100 * (if n < 0 then -n else n)) as real;
  }

  lemma TrimTwo(head: string, c: nat, d: nat)
    requires c < 10 && d < 10 && head != "" && IsDigit(head[|head| - 1])
    ensures TrimNumeral(head + "." + [DIGITS[c], DIGITS[d]]) == head + Decimals(c, d)
  {
    DigitsByName(c);
    DigitsByName(d);
    var none, one, two := head + ".", head + "." + [DIGITS[c]], head + "." + [DIGITS[c], DIGITS[d]];
    assert two[..|two| - 1] == one && one[..|one| - 1] == none && none[..|none| - 1] == head;
    assert two[|two| - 1] == DIGITS[d] && one[|one| - 1] == DIGITS[c];
    assert (DIGITS[d] == '0' <==> d == 0) && (DIGITS[c] == '0' <==> c == 0) && DIGITS[d] != '.' && DIGITS[c] != '.';
    assert TrimRight(none, '0') == none && TrimRight(none, '.') == head;
    assert TrimRight(one, '0') == (if c == 0 then none else one) && TrimRight(one, '.') == one;
    assert TrimRight(two, '0') == (if d == 0 then TrimRight(one, '0') else two) && TrimRight(two, '.') == two;
    assert head + "" == head && none == head + "." && one == head + ("." + [DIGITS[c]]);
    assert two == head + ("." + [DIGITS[c], DIGITS[d]]);
  }
}

/** The two conversions of Go's `strconv` package that annotation values go
    through: `ParseBool` and `Atoi` (for a 64-bit `int`). Strings are sequences of
    characters; a character that is not an ASCII digit or sign makes both the
    byte-wise Go parser and this model fail in the same way. */
module Strconv {
  import opened Outcomes

  const MaxInt64: int := 0x7fff_ffff_ffff_ffff
  const MinInt64: int := -0x8000_0000_0000_0000
  const MaxUint64: int := 0xffff_ffff_ffff_ffff

  /** ParseUint's overflow guard: the smallest value whose product by ten no
      longer fits in 64 bits. */
  const UintCutoff: int := MaxUint64 / 10 + 1

  /** The spellings `ParseBool` reads as true and as false. */
  const TrueSpellings: set<string> := {"1", "t", "T", "TRUE", "true", "True"}
  const FalseSpellings: set<string> := {"0", "f", "F", "FALSE", "false", "False"}

  /** `strconv.ParseBool`: `None` stands for the syntax error. */
  function ParseBool(s: string): (r: Option<bool>)
    ensures r == Some(true) <==> s in TrueSpellings
    ensures r == Some(false) <==> s in FalseSpellings
    ensures r == None <==> s !in TrueSpellings && s !in FalseSpellings
  {
    if s == "1" || s == "t" || s == "T" || s == "TRUE" || s == "true" || s == "True" then Some(true)
    else if s == "0" || s == "f" || s == "F" || s == "FALSE" || s == "false" || s == "False" then Some(false)
    else None
  }

  /** `strconv.FormatBool`. */
  function FormatBool(b: bool): string
  {
    if b then "true" else "false"
  }

  lemma ParseFormatBool(b: bool)
    ensures ParseBool(FormatBool(b)) == Some(b)
  {
  }

  /** The error part of a numeric conversion. */
  datatype NumError = NoError | ErrSyntax | ErrRange

  /** What `Atoi`/`ParseInt` return: the value and the error, both always present. */
  datatype IntParse = IntParse(value: int, err: NumError)

  predicate IsDigit(c: char)
  {
    '0' <= c <= '9'
  }

  function DigitValue(c: char): (d: nat)
    requires IsDigit(c)
    ensures d <= 9
  {
    c as int - '0' as int
  }

  function DigitChar(d: nat): (c: char)
    requires d <= 9
    ensures IsDigit(c) && DigitValue(c) == d
  {
    ('0' as int + d) as char
  }

  function Pow10(k: nat): (p: nat)
    ensures p >= 1
  {
    if k == 0 then 1 else 10 * Pow10(k - 1)
  }

  /** Where ParseUint's digit loop stops. */
  datatype UintScan = Scanned(n: nat) | SyntaxStop | RangeStop

  /** The digit loop of `ParseUint(s, 10, 64)`, which reads `s` left to right and
      stops at the first non-digit or at the first overflow, whichever comes first.
      The state after reading `s` is computed from the state after reading all of
      `s` but its last character. */
  function ScanUint(s: string): (r: UintScan)
    ensures r.Scanned? ==> r.n <= MaxUint64
    decreases |s|
  {
    if |s| == 0 then Scanned(0)
    else
      var c := s[|s| - 1];
      match ScanUint(s[..|s| - 1])
      case SyntaxStop => SyntaxStop
      case RangeStop => RangeStop
      case Scanned(n) =>
        if !IsDigit(c) then SyntaxStop
        else if n >= UintCutoff then RangeStop
        else if n * 10 + DigitValue(c) > MaxUint64 then RangeStop
        else Scanned(n * 10 + DigitValue(c))
  }

  /** `strconv.ParseInt(s, 10, 64)`: an optional sign, then ParseUint on the rest;
      out-of-range values are clamped to the int64 bounds and reported. */
  function ParseInt(s: string): (r: IntParse)
    ensures MinInt64 <= r.value <= MaxInt64
    ensures r.err == ErrSyntax ==> r.value == 0
    ensures r.err == ErrRange ==> r.value == MinInt64 || r.value == MaxInt64
  {
    if |s| == 0 then IntParse(0, ErrSyntax)
    else
      var neg := s[0] == '-';
      var digits := if s[0] == '+' || s[0] == '-' then s[1..] else s;
      var scan := if |digits| == 0 then SyntaxStop else ScanUint(digits);
      match scan
      case SyntaxStop => IntParse(0, ErrSyntax)
      case RangeStop => if neg then IntParse(MinInt64, ErrRange) else IntParse(MaxInt64, ErrRange)
      case Scanned(un) =>
        if !neg && un > MaxInt64 then IntParse(MaxInt64, ErrRange)
        else if neg && un > -MinInt64 then IntParse(MinInt64, ErrRange)
        else var v: int := un; IntParse(if neg then -v else v, NoError)
  }

  /** The digit loop of Atoi's fast path, which never checks for overflow. */
  function FastDigits(s: string): Option<nat>
    decreases |s|
  {
    if |s| == 0 then Some(0)
    else
      var c := s[|s| - 1];
      match FastDigits(s[..|s| - 1])
      case None => None
      case Some(n) => if IsDigit(c) then Some(n * 10 + DigitValue(c)) else None
  }

  /** `strconv.Atoi` with a 64-bit `int`: strings shorter than 19 characters take
      the fast path, every other string goes through `ParseInt`. */
  function Atoi(s: string): IntParse
  {
    if 0 < |s| < 19 then
      var digits := if s[0] == '+' || s[0] == '-' then s[1..] else s;
      if |digits| == 0 then IntParse(0, ErrSyntax)
      else match FastDigits(digits)
        case None => IntParse(0, ErrSyntax)
        case Some(n) => var v: int := n; IntParse(if s[0] == '-' then -v else v, NoError)
    else ParseInt(s)
  }

  /** `strconv.FormatUint(u, 10)`. */
  function FormatUint(u: nat): (s: string)
    ensures |s| >= 1
    ensures forall i :: 0 <= i < |s| ==> IsDigit(s[i])
  {
    if u < 10 then [DigitChar(u)] else FormatUint(u / 10) + [DigitChar(u % 10)]
  }

  /** `strconv.FormatInt(n, 10)` / `strconv.Itoa`. */
  function FormatInt(n: int): string
  {
    if n < 0 then "-" + FormatUint(-n) else FormatUint(n)
  }

  /** On at most 18 characters the fast loop and ParseUint's loop agree, and the
      value stays below 10 to the number of digits, so no overflow is possible. */
  lemma {:induction false} ShortScansAgree(s: string)
    requires |s| <= 18
    ensures FastDigits(s).None? <==> ScanUint(s) == SyntaxStop
    ensures FastDigits(s).Some? ==> ScanUint(s) == Scanned(FastDigits(s).value)
    ensures FastDigits(s).Some? ==> FastDigits(s).value < Pow10(|s|)
    decreases |s|
  {
    if |s| > 0 {
      var p := s[..|s| - 1];
      ShortScansAgree(p);
      Pow10Monotone(|p|, 17);
      if FastDigits(p).Some? && IsDigit(s[|s| - 1]) {
        var n := FastDigits(p).value;
        var d := DigitValue(s[|s| - 1]);
        assert n * 10 + d < Pow10(|s|) by {
          assert n + 1 <= Pow10(|p|);
          assert (n + 1) * 10 <= Pow10(|p|) * 10;
        }
        Pow10Monotone(|s|, 18);
        Pow10Eighteen();
        assert n < UintCutoff;
      }
    }
  }

  lemma {:induction false} Pow10Monotone(i: nat, j: nat)
    requires i <= j
    ensures Pow10(i) <= Pow10(j)
    decreases j
  {
    if i < j {
      Pow10Monotone(i, j - 1);
    }
  }

  lemma Pow10Eighteen()
    ensures Pow10(17) == 100_000_000_000_000_000
    ensures Pow10(18) == 1_000_000_000_000_000_000
  {
    assert Pow10(1) == 10;
    assert Pow10(2) == 100;
    assert Pow10(3) == 1000;
    assert Pow10(4) == 10_000;
    assert Pow10(5) == 100_000;
    assert Pow10(6) == 1_000_000;
    assert Pow10(7) == 10_000_000;
    assert Pow10(8) == 100_000_000;
    assert Pow10(9) == 1_000_000_000;
    assert Pow10(10) == 10_000_000_000;
    assert Pow10(11) == 100_000_000_000;
    assert Pow10(12) == 1_000_000_000_000;
    assert Pow10(13) == 10_000_000_000_000;
    assert Pow10(14) == 100_000_000_000_000;
    assert Pow10(15) == 1_000_000_000_000_000;
    assert Pow10(16) == 10_000_000_000_000_000;
  }

  /** Atoi's fast path is only an optimisation: on every input it returns what
      `ParseInt(s, 10, 64)` returns. */
  lemma AtoiIsParseInt(s: string)
    ensures Atoi(s) == ParseInt(s)
  {
    if 0 < |s| < 19 {
      var digits := if s[0] == '+' || s[0] == '-' then s[1..] else s;
      if |digits| > 0 {
        ShortScansAgree(digits);
        Pow10Eighteen();
        Pow10Monotone(|digits|, 18);
      }
    }
  }

  /** Scanning the decimal digits of a 64-bit unsigned value yields that value. */
  lemma {:induction false} ScanFormatUint(u: nat)
    requires u <= MaxUint64
    ensures ScanUint(FormatUint(u)) == Scanned(u)
    decreases u
  {
    var s := FormatUint(u);
    if u >= 10 {
      assert s[..|s| - 1] == FormatUint(u / 10);
      ScanFormatUint(u / 10);
    } else {
      assert s[..|s| - 1] == [];
    }
  }

  /** `ParseInt` reads back what `FormatInt` writes, for every int64 value. */
  lemma ParseFormatInt(n: int)
    requires MinInt64 <= n <= MaxInt64
    ensures ParseInt(FormatInt(n)) == IntParse(n, NoError)
  {
    var s := FormatInt(n);
    if n < 0 {
      assert s[1..] == FormatUint(-n);
      ScanFormatUint(-n);
    } else {
      ScanFormatUint(n);
    }
  }

  /** `Atoi` reads back what `Itoa` writes, for every 64-bit int. */
  lemma AtoiFormatInt(n: int)
    requires MinInt64 <= n <= MaxInt64
    ensures Atoi(FormatInt(n)) == IntParse(n, NoError)
  {
    AtoiIsParseInt(FormatInt(n));
    ParseFormatInt(n);
  }
}

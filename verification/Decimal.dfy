/** Decimal numerals as Rust's formatting writes them and `str::parse` reads them. */
module Decimal {
  import opened Seqs

  predicate IsDigit(c: char) {
    '0' <= c <= '9'
  }

  function DigitOf(n: nat): (c: char)
    requires n < 10
    ensures IsDigit(c)
  {
    '0' + n as char
  }

  predicate AllDigits(s: string) {
    forall i | 0 <= i < |s| :: IsDigit(s[i])
  }

  /** `{n}`. */
  function Dec(n: nat): (s: string)
    ensures s != [] && AllDigits(s)
  {
    if n < 10 then [DigitOf(n)] else Dec(n / 10) + [DigitOf(n % 10)]
  }

  /** `{n:0width}`. */
  function Padded(n: nat, width: nat): (s: string)
    ensures s != [] && AllDigits(s)
  {
    ZeroFill(Dec(n), width)
  }

  function ZeroFill(s: string, width: nat): (r: string)
    requires s != [] && AllDigits(s)
    ensures r != [] && AllDigits(r)
    decreases width - |s|
  {
    if |s| >= width then s else ZeroFill("0" + s, width)
  }

  function Value(s: string): nat
    requires AllDigits(s)
  {
    if s == [] then 0 else 10 * Value(s[..|s| - 1]) + (s[|s| - 1] - '0') as nat
  }

  /** `parse::<u64>()` and its kin: an optional `+`, at least one digit, and no overflow past `max`. */
  function ParseUnsigned(s: string, max: nat): Option<nat> {
    var digits := if s != [] && s[0] == '+' then s[1..] else s;
    if digits == [] || !AllDigits(digits) || Value(digits) > max then None else Some(Value(digits))
  }

  /** `parse::<i32>()`. */
  function ParseSigned(s: string, max: nat): Option<int> {
    if s != [] && s[0] == '-' then
      var digits := s[1..];
      if digits == [] || !AllDigits(digits) || Value(digits) > max + 1 then None else Some(-(Value(digits) as int))
    else
      match ParseUnsigned(s, max)
      case None => None
      case Some(n) => Some(n)
  }

  /** `{n}` for a signed number. */
  function SignedDec(n: int): string {
    if n < 0 then "-" + Dec(-n) else Dec(n)
  }

  lemma {:induction false} DecValue(n: nat)
    ensures Value(Dec(n)) == n
  {
    if n >= 10 {
      DecValue(n / 10);
      assert Dec(n)[..|Dec(n)| - 1] == Dec(n / 10);
    }
  }

  lemma {:induction false} LeadingZero(s: string)
    requires AllDigits(s)
    ensures Value("0" + s) == Value(s)
  {
    if s == [] {
      assert ("0" + s)[..0] == [];
    } else {
      LeadingZero(s[..|s| - 1]);
      assert ("0" + s)[..|s|] == "0" + s[..|s| - 1];
    }
  }

  lemma {:induction false} ZeroFillValue(s: string, width: nat)
    requires s != [] && AllDigits(s)
    ensures Value(ZeroFill(s, width)) == Value(s)
    decreases width - |s|
  {
    if |s| < width {
      LeadingZero(s);
      ZeroFillValue("0" + s, width);
    }
  }

  /** Padding never changes what a number parses to, at any width. */
  lemma PaddedParses(n: nat, width: nat, max: nat)
    requires n <= max
    ensures ParseUnsigned(Padded(n, width), max) == Some(n)
  {
    DecValue(n);
    ZeroFillValue(Dec(n), width);
  }

  lemma SignedParses(n: int, max: nat)
    requires -(max as int) - 1 <= n <= max
    ensures ParseSigned(SignedDec(n), max) == Some(n)
  {
    if n < 0 {
      DecValue(-n);
    } else {
      DecValue(n);
    }
  }

  lemma ZeroFillStep(s: string, width: nat)
    requires s != [] && AllDigits(s)
    ensures AllDigits("0" + s) && (if |s| >= width then ZeroFill(s, width) == s
                                   else ZeroFill(s, width) == ZeroFill("0" + s, width))
  {
  }

  /** Digits are written most significant first. */
  lemma DigitsLookLike()
    ensures Dec(7) == "7" && Dec(1205) == "1205" && SignedDec(-42) == "-42" && SignedDec(0) == "0"
  {
    assert Dec(1) == "1" && Dec(12) == "12" && Dec(120) == "120" && Dec(4) == "4" && Dec(42) == "42";
  }

  lemma TwoDigits()
    ensures Padded(7, 2) == "07"
  {
    DigitsLookLike();
    hide Dec, ZeroFill;
    assert "0" + "7" == "07";
    ZeroFillStep("7", 2);
    ZeroFillStep("07", 2);
  }

  /** And padded with zeros in front. */
  lemma PaddedLookLike()
    ensures Padded(7, 2) == "07" && Padded(7, 6) == "000007"
  {
    TwoDigits();
    DigitsLookLike();
    hide Dec, ZeroFill;
    assert "0" + "7" == "07" && "0" + "07" == "007" && "0" + "007" == "0007" && "0" + "0007" == "00007";
    assert "0" + "00007" == "000007";
    ZeroFillStep("7", 6);
    ZeroFillStep("07", 6);
    ZeroFillStep("007", 6);
    ZeroFillStep("0007", 6);
    ZeroFillStep("00007", 6);
    ZeroFillStep("000007", 6);
  }

  /** What is parsed lies in the range of the type. */
  lemma ParsedIsInRange(s: string, max: nat)
    ensures ParseUnsigned(s, max).Some? ==> ParseUnsigned(s, max).value <= max
    ensures ParseSigned(s, max).Some? ==> -(max as int) - 1 <= ParseSigned(s, max).value <= max
  {
  }
}

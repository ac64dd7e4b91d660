/** Printing and parsing of decimal integers, as labels, cache keys and device ids use them. */
module Decimal {
  import opened ApiTypes

  const MIN_INT64 := -0x8000_0000_0000_0000
  const MAX_INT64 := 0x7fff_ffff_ffff_ffff

  predicate IsDigit(c: char) {
    '0' <= c <= '9'
  }

  function DigitChar(d: nat): (c: char)
    requires d < 10
    ensures IsDigit(c) && c as int - '0' as int == d
  {
    ('0' as int + d) as char
  }

  function Digits(n: nat): (s: string)
    ensures s != ""
    ensures forall i :: 0 <= i < |s| ==> IsDigit(s[i])
  {
    if n < 10 then [DigitChar(n)] else Digits(n / 10) + [DigitChar(n % 10)]
  }

  /** Print an integer. */
  function Itoa(n: int): string {
    if n < 0 then "-" + Digits(-n) else Digits(n)
  }

  /** The number a digit string denotes; None when it is empty or holds anything else. */
  function Value(s: string): Option<nat> {
    if s == "" then None
    else if !IsDigit(s[|s| - 1]) then None
    else
      var d := s[|s| - 1] as int - '0' as int;
      if |s| == 1 then Some(d)
      else
        match Value(s[..|s| - 1])
        case None => None
        case Some(v) => Some(10 * v + d)
  }

  /** Parse a signed 64-bit integer: an optional sign and at least one digit, nothing else, within range. */
  function ParseInt(s: string): Option<int> {
    var negative := s != "" && s[0] == '-';
    var signed := s != "" && (s[0] == '-' || s[0] == '+');
    match Value(if signed then s[1..] else s)
    case None => None
    case Some(v) =>
      var n := if negative then -(v as int) else v as int;
      if MIN_INT64 <= n <= MAX_INT64 then Some(n) else None
  }

  lemma {:induction false} ValueOfDigits(n: nat)
    ensures Value(Digits(n)) == Some(n)
  {
    if n >= 10 {
      ValueOfDigits(n / 10);
      assert Digits(n)[..|Digits(n)| - 1] == Digits(n / 10);
    }
  }

  /** Parsing what was printed gives the number back, over the whole 64-bit range. */
  lemma ParsePrinted(n: int)
    requires MIN_INT64 <= n <= MAX_INT64
    ensures ParseInt(Itoa(n)) == Some(n)
  {
    if n < 0 {
      ValueOfDigits(-n);
      assert Itoa(n)[1..] == Digits(-n);
    } else {
      ValueOfDigits(n);
      assert IsDigit(Itoa(n)[0]);
    }
  }

  lemma FirstChar(n: int)
    ensures Itoa(n) != "" && (Itoa(n)[0] == '-' <==> n < 0)
  {
    assert n >= 0 ==> IsDigit(Itoa(n)[0]);
  }

  /** Different numbers print differently. */
  lemma PrintIsInjective(m: int, n: int)
    requires Itoa(m) == Itoa(n)
    ensures m == n
  {
    FirstChar(m);
    FirstChar(n);
    if m >= 0 {
      ValueOfDigits(m);
      ValueOfDigits(n);
    } else {
      ValueOfDigits(-m);
      ValueOfDigits(-n);
      assert Itoa(m)[1..] == Digits(-m) && Itoa(n)[1..] == Digits(-n);
    }
  }

  // ---------- Numerals ----------

  /** At least one digit and nothing else. */
  predicate IsNumeral(s: string) {
    s != "" && forall i :: 0 <= i < |s| ==> IsDigit(s[i])
  }

  lemma {:induction false} NumeralsHaveValues(s: string)
    ensures Value(s).Some? <==> IsNumeral(s)
  {
    if |s| > 1 {
      var front := s[..|s| - 1];
      NumeralsHaveValues(front);
      assert s == front + [s[|s| - 1]];
    }
  }

  lemma {:induction false} LeadingZero(s: string)
    requires IsNumeral(s)
    ensures Value("0" + s) == Value(s)
  {
    var t := "0" + s;
    assert t[|t| - 1] == s[|s| - 1];
    if |s| == 1 {
      assert t[..1] == "0" && s[..0] == "";
    } else {
      assert t[..|t| - 1] == "0" + s[..|s| - 1];
      LeadingZero(s[..|s| - 1]);
    }
  }

  predicate AllZeros(s: string) {
    forall i :: 0 <= i < |s| ==> s[i] == '0'
  }

  lemma ValueStep(s: string)
    requires |s| > 1 && IsNumeral(s)
    ensures var front := s[..|s| - 1];
            IsNumeral(front) && Value(front).Some? && s == front + [s[|s| - 1]]
            && Value(s) == Some(10 * Value(front).value + (s[|s| - 1] as int - '0' as int))
  {
    NumeralsHaveValues(s[..|s| - 1]);
  }

  /** A numeral is the printed form of its value, with zeros in front. */
  lemma {:induction false} NumeralIsPrinted(s: string) returns (zeros: string)
    requires IsNumeral(s)
    ensures AllZeros(zeros) && Value(s).Some? && s == zeros + Digits(Value(s).value)
  {
    zeros := "";
    if |s| == 1 {
      assert s == [s[0]];
    } else {
      ValueStep(s);
      var front, last := s[..|s| - 1], s[|s| - 1];
      zeros := NumeralIsPrinted(front);
      DigitsStep(Value(front).value, last);
      if Value(front).value == 0 {
        zeros := zeros + Digits(0);
      }
    }
  }

  lemma DigitsStep(n: nat, last: char)
    requires IsDigit(last)
    ensures Digits(10 * n + (last as int - '0' as int)) == if n == 0 then [last] else Digits(n) + [last]
  {
  }

  /** An optional sign and a numeral. */
  predicate IsNumber(s: string) {
    IsNumeral(s) || (s != "" && (s[0] == '-' || s[0] == '+') && IsNumeral(s[1..]))
  }

  /** The number within the 64-bit range, if it is. */
  function Ranged(n: int): Option<int> {
    if MIN_INT64 <= n <= MAX_INT64 then Some(n) else None
  }

  /** Exactly the numbers within range are parsed, to the value of their digits with their sign. */
  lemma ParseExactly(s: string)
    ensures !IsNumber(s) ==> ParseInt(s) == None
    ensures IsNumeral(s) ==> Value(s).Some? && ParseInt(s) == Ranged(Value(s).value)
    ensures s != "" && s[0] == '+' && IsNumeral(s[1..]) ==> Value(s[1..]).Some? && ParseInt(s) == Ranged(Value(s[1..]).value)
    ensures s != "" && s[0] == '-' && IsNumeral(s[1..]) ==> Value(s[1..]).Some? && ParseInt(s) == Ranged(-(Value(s[1..]).value as int))
  {
    NumeralsHaveValues(s);
    if s != "" {
      NumeralsHaveValues(s[1..]);
    }
  }
}

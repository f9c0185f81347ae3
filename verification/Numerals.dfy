/** Decimal numerals, as fmt's %d and strconv.Itoa print them for numbers that are not negative. */
module Numerals {
  import opened Wrappers

  predicate IsDigit(c: char) {
    '0' <= c <= '9'
  }

  function Digit(d: nat): (c: char)
    requires d < 10
    ensures IsDigit(c) && c as int == '0' as int + d
  {
    '0' + d as char
  }

  function Decimal(n: nat): (s: string)
    ensures |s| > 0 && forall k | 0 <= k < |s| :: IsDigit(s[k])
  {
    if n < 10 then [Digit(n)] else Decimal(n / 10) + [Digit(n % 10)]
  }

  function ParseDecimal(s: string): Option<nat> {
    if s == [] then None
    else
      var last := s[|s| - 1];
      if !IsDigit(last) then None
      else if |s| == 1 then Some(last as int - '0' as int)
      else match ParseDecimal(s[..|s| - 1])
        case None => None
        case Some(n) => Some(10 * n + (last as int - '0' as int))
  }

  lemma {:induction false} DecimalRoundTrip(n: nat)
    ensures ParseDecimal(Decimal(n)) == Some(n)
  {
    if n >= 10 {
      DecimalRoundTrip(n / 10);
      var s := Decimal(n);
      assert s[..|s| - 1] == Decimal(n / 10);
    }
  }

  /** What can be read is digits, and nothing else. */
  lemma {:induction false} ParsesIff(s: string)
    ensures ParseDecimal(s).Some? <==> s != "" && forall k | 0 <= k < |s| :: '0' <= s[k] <= '9'
  {
    if |s| > 1 {
      ParsesIff(s[..|s| - 1]);
    }
  }

  /** What is read is what prints like that, behind zeros. */
  lemma {:induction false} ParsedIsPrinted(s: string) returns (zeros: nat)
    requires ParseDecimal(s).Some?
    ensures zeros <= |s| && (forall k | 0 <= k < zeros :: s[k] == '0')
    ensures s[zeros..] == Decimal(ParseDecimal(s).value)
  {
    var init, last := s[..|s| - 1], s[|s| - 1];
    LastIsDigit(s);
    hide ParseDecimal, Decimal;
    OneDigit(last);
    if |s| == 1 {
      zeros := 0;
      assert s == [last];
    } else if ParseDecimal(init) == Some(0) {
      zeros := |init|;
      ZerosAre(init);
      assert s[zeros..] == [last];
    } else {
      zeros := ParsedIsPrinted(init);
      DigitBehind(ParseDecimal(init).value, last);
      assert s[zeros..] == init[zeros..] + [last];
    }
  }

  lemma LastIsDigit(s: string)
    requires ParseDecimal(s).Some?
    ensures s != [] && IsDigit(s[|s| - 1])
    ensures var init, last := s[..|s| - 1], s[|s| - 1] as int - '0' as int;
            if |s| == 1 then ParseDecimal(s) == Some(last)
            else ParseDecimal(init).Some? && ParseDecimal(s) == Some(10 * ParseDecimal(init).value + last)
  {}

  lemma OneDigit(c: char)
    requires IsDigit(c)
    ensures [c] == Decimal(c as int - '0' as int)
  {}

  lemma DigitBehind(n: nat, c: char)
    requires n > 0 && IsDigit(c)
    ensures Decimal(10 * n + (c as int - '0' as int)) == Decimal(n) + [c]
  {}

  lemma {:induction false} ZerosAre(s: string)
    requires ParseDecimal(s) == Some(0)
    ensures forall k | 0 <= k < |s| :: s[k] == '0'
  {
    if |s| > 1 {
      ZerosAre(s[..|s| - 1]);
    }
  }

  function Pow10(k: nat): (p: nat)
    ensures p > 0
  {
    if k == 0 then 1 else 10 * Pow10(k - 1)
  }

  lemma {:induction false} DecimalLength(n: nat, k: nat)
    requires k > 0 && n < Pow10(k)
    ensures |Decimal(n)| <= k
  {
    if n >= 10 {
      assert k > 1;
      DecimalLength(n / 10, k - 1);
    }
  }
}

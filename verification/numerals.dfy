/**
 * Integer text as the profit column holds it: `"{:,}"`-style digit groups
 * separated by commas, and the integer parsing `pd.to_numeric` applies once
 * the commas are gone.
 */
module Numerals {
  import opened Wrappers
  import opened Digits
  import opened Commas

  /**
   * An integer literal as `int()` and `pd.to_numeric` accept it here: an
   * optional sign followed by one or more digits. Anything else, a comma
   * included, fails.
   */
  function ParseInt(s: string): (r: Option<int>)
    ensures r.Some? ==> ',' !in s
  {
    if |s| > 0 && (s[0] == '-' || s[0] == '+') then
      var body := s[1..];
      if |body| > 0 && AllDigits(body) then
        assert forall i :: 1 <= i < |s| ==> s[i] == body[i - 1];
        var magnitude: int := DigitsValue(body);
        Some(if s[0] == '-' then -magnitude else magnitude)
      else None
    else if |s| > 0 && AllDigits(s) then Some(DigitsValue(s))
    else None
  }

  /** `"{:,}".format(n)` for a natural number: digit groups of three separated by commas. */
  function GroupedNat(n: nat): string
  {
    if n < 1000 then ShowNat(n) else GroupedNat(n / 1000) + "," + Pad3(n % 1000)
  }

  /** `"{:,}".format(n)`: a minus sign, if any, before the grouped digits. */
  function Grouped(n: int): string
  {
    if n < 0 then "-" + GroupedNat(-n) else GroupedNat(n)
  }

  /** Grouped digits are digits once the commas are gone, with the same value. */
  lemma {:induction false} GroupedNatDigits(n: nat)
    ensures |StripCommas(GroupedNat(n))| > 0
    ensures AllDigits(StripCommas(GroupedNat(n)))
    ensures DigitsValue(StripCommas(GroupedNat(n))) == n
  {
    if n < 1000 {
      assert ',' !in ShowNat(n) by {
        assert forall i :: 0 <= i < |ShowNat(n)| ==> IsDigit(ShowNat(n)[i]);
      }
      StripCommasNoComma(ShowNat(n));
    } else {
      var high := GroupedNat(n / 1000);
      var low := Pad3(n % 1000);
      GroupedNatDigits(n / 1000);
      assert ',' !in low by {
        assert forall i :: 0 <= i < |low| ==> IsDigit(low[i]);
      }
      StripSeparator(high, low);
      DigitsValueAppend(StripCommas(high), low);
      assert Pow10(3) == 1000;
    }
  }

  /** The digits of a negative number follow its minus sign. */
  lemma ParseNegative(digits: string, m: nat)
    requires |digits| > 0 && AllDigits(digits) && DigitsValue(digits) == m
    ensures ParseInt("-" + digits) == Some(-(m as int))
  {
    assert ("-" + digits)[1..] == digits;
  }

  /** A plain digit string parses to its value. */
  lemma ParseDigits(digits: string, m: nat)
    requires |digits| > 0 && AllDigits(digits) && DigitsValue(digits) == m
    ensures ParseInt(digits) == Some(m)
  {
    assert IsDigit(digits[0]);
  }

  /** The minus sign of a negative number survives the stripping. */
  lemma StripNegative(m: nat)
    requires m > 0
    ensures StripCommas(Grouped(-(m as int))) == "-" + StripCommas(GroupedNat(m))
  {
    assert Grouped(-(m as int)) == "-" + GroupedNat(m);
    StripCommasAppend("-", GroupedNat(m));
    StripCommasNoComma("-");
  }

  /** The stripped digits of a negative number, behind its minus sign, parse back to it. */
  lemma ParseStrippedNegative(m: nat)
    ensures ParseInt("-" + StripCommas(GroupedNat(m))) == Some(-(m as int))
  {
    GroupedNatDigits(m);
    ParseNegative(StripCommas(GroupedNat(m)), m);
  }

  /** The round trip for a negative number. */
  lemma NegativeRoundTrip(m: nat)
    requires m > 0
    ensures ParseInt(StripCommas(Grouped(-(m as int)))) == Some(-(m as int))
  {
    StripNegative(m);
    ParseStrippedNegative(m);
  }

  /** The round trip for a natural number. */
  lemma NaturalRoundTrip(n: nat)
    ensures ParseInt(StripCommas(Grouped(n))) == Some(n)
  {
    var digits := StripCommas(GroupedNat(n));
    calc {
      ParseInt(StripCommas(Grouped(n)));
      ParseInt(digits);
      { GroupedNatDigits(n); ParseDigits(digits, n); }
      Some(n);
    }
  }

  /** Stripping the commas from `"{:,}".format(n)` and parsing gives `n` back. */
  lemma GroupedRoundTrip(n: int)
    ensures ParseInt(StripCommas(Grouped(n))) == Some(n)
  {
    if n < 0 {
      NegativeRoundTrip(-n);
    } else {
      NaturalRoundTrip(n);
    }
  }
}

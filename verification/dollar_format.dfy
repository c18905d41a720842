/**
 * `format_dollars` in plotting.py: an amount becomes "<x>M" for millions,
 * "<x>K" for thousands, or its plain text below a thousand. The decimal
 * rendering of a float is not modelled: `fixed2` stands for the `.2f`
 * format and `show` for `str`.
 */
module DollarFormat {
  /** The three branches of the formatter. */
  datatype Tier = Millions | Thousands | Plain
  {
    /** The amount one unit of the tier stands for. */
    function Unit(): real
    {
      match this
      case Millions => 1000000.0
      case Thousands => 1000.0
      case Plain => 1.0
    }

    /** The letter written after the scaled amount. */
    function Suffix(): string
    {
      match this
      case Millions => "M"
      case Thousands => "K"
      case Plain => ""
    }

    /** Tiers ordered by size: plain below thousands below millions. */
    function Rank(): nat
    {
      match this
      case Plain => 0
      case Thousands => 1
      case Millions => 2
    }
  }

  /**
   * The branch `format_dollars` takes for `v`: the first threshold `v`
   * reaches, both inclusive. That is the largest unit that does not exceed
   * `v`, with millions as the largest and plain covering everything below a
   * thousand.
   */
  function TierOf(v: real): (t: Tier)
    ensures t != Plain ==> t.Unit() <= v
    ensures t != Millions ==> v < 1000.0 * t.Unit()
  {
    if v >= Millions.Unit() then Millions
    else if v >= Thousands.Unit() then Thousands
    else Plain
  }

  /** Which branch applies, stated as the ranges of the amount; together the three cover every amount once. */
  lemma TierRanges(v: real)
    ensures TierOf(v) == Millions <==> 1000000.0 <= v
    ensures TierOf(v) == Thousands <==> 1000.0 <= v < 1000000.0
    ensures TierOf(v) == Plain <==> v < 1000.0
  {
  }

  /** A larger amount never takes a smaller tier. */
  lemma TierMonotonic(a: real, b: real)
    requires a <= b
    ensures TierOf(a).Rank() <= TierOf(b).Rank()
  {
  }

  /**
   * The amount that is printed: `v` divided by its tier's unit. A scaled
   * thousand or million lies in [1, 1000) or is at least 1, and scaling
   * back gives `v`.
   */
  function Scaled(v: real): (m: real)
    ensures m * TierOf(v).Unit() == v
    ensures TierOf(v) == Millions ==> m >= 1.0
    ensures TierOf(v) == Thousands ==> 1.0 <= m < 1000.0
    ensures TierOf(v) == Plain ==> m < 1000.0
  {
    v / TierOf(v).Unit()
  }

  /** `format_dollars(v)`, with the float rendering left to `fixed2` (`.2f`) and `show` (`str`). */
  function FormatDollars(v: real, fixed2: real -> string, show: real -> string): (s: string)
    ensures v >= 1000000.0 ==> s == fixed2(v / 1000000.0) + "M"
    ensures 1000.0 <= v < 1000000.0 ==> s == fixed2(v / 1000.0) + "K"
    ensures v < 1000.0 ==> s == show(v)
  {
    var tier := TierOf(v);
    if tier == Plain then show(v) else fixed2(Scaled(v)) + tier.Suffix()
  }

  /** Both thresholds belong to the higher tier; a negative amount is printed plainly. */
  lemma ThresholdsInclusive(fixed2: real -> string, show: real -> string)
    ensures FormatDollars(1000000.0, fixed2, show) == fixed2(1.0) + "M"
    ensures FormatDollars(1000.0, fixed2, show) == fixed2(1.0) + "K"
    ensures FormatDollars(999.99, fixed2, show) == show(999.99)
    ensures FormatDollars(-2500000.0, fixed2, show) == show(-2500000.0)
  {
  }

  /** A rendering whose last character is a decimal digit. */
  predicate EndsInDigit(s: string)
  {
    |s| > 0 && '0' <= s[|s| - 1] <= '9'
  }

  /**
   * When the number renderings end in a digit, the last character of the
   * result tells the branch back: "M" exactly for millions, "K" exactly for
   * thousands.
   */
  lemma SuffixNamesTier(v: real, fixed2: real -> string, show: real -> string)
    requires forall x :: EndsInDigit(fixed2(x))
    requires EndsInDigit(show(v))
    ensures var s := FormatDollars(v, fixed2, show);
      && |s| > 0
      && (s[|s| - 1] == 'M' <==> TierOf(v) == Millions)
      && (s[|s| - 1] == 'K' <==> TierOf(v) == Thousands)
  {
    var s := FormatDollars(v, fixed2, show);
    if TierOf(v) != Plain {
      assert EndsInDigit(fixed2(Scaled(v)));
      assert s[|s| - 1] == TierOf(v).Suffix()[0];
    }
  }
}

/** Thousands separators: deleting every comma from a text, as `s.replace(',', '')` does. */
module Commas {
  /** `s.replace(',', '')`: every comma deleted, every other character kept in order. */
  function StripCommas(s: string): (r: string)
    ensures ',' !in r
  {
    if |s| == 0 then []
    else StripCommas(s[..|s| - 1]) + (if s[|s| - 1] == ',' then [] else [s[|s| - 1]])
  }

  /** A text without commas is left as it is. */
  lemma {:induction false} StripCommasNoComma(s: string)
    requires ',' !in s
    ensures StripCommas(s) == s
  {
    if |s| > 0 {
      var init := s[..|s| - 1];
      assert ',' !in init by {
        assert forall i :: 0 <= i < |init| ==> init[i] == s[i];
      }
      StripCommasNoComma(init);
      assert s == init + [s[|s| - 1]];
    }
  }

  /** Stripping works piece by piece. */
  lemma {:induction false} StripCommasAppend(a: string, b: string)
    ensures StripCommas(a + b) == StripCommas(a) + StripCommas(b)
  {
    if |b| == 0 {
      assert a + b == a;
    } else {
      var init := b[..|b| - 1];
      assert (a + b)[..|a + b| - 1] == a + init;
      StripCommasAppend(a, init);
    }
  }

  /** Stripping twice is stripping once. */
  lemma StripCommasIdempotent(s: string)
    ensures StripCommas(StripCommas(s)) == StripCommas(s)
  {
    StripCommasNoComma(StripCommas(s));
  }

  /** Stripping removes exactly the commas: every other character keeps its count. */
  lemma {:induction false} StripCommasCounts(s: string)
    ensures forall c :: multiset(StripCommas(s))[c] == if c == ',' then 0 else multiset(s)[c]
  {
    if |s| > 0 {
      var init, last := s[..|s| - 1], s[|s| - 1];
      assert s == init + [last];
      StripCommasCounts(init);
    }
  }

  /** A comma at the end is dropped. */
  lemma StripTrailingComma(s: string)
    ensures StripCommas(s + ",") == StripCommas(s)
  {
    assert (s + ",")[..|s|] == s;
  }

  /** Stripping a group separator joins the groups. */
  lemma StripSeparator(high: string, low: string)
    requires ',' !in low
    ensures StripCommas(high + "," + low) == StripCommas(high) + low
  {
    calc {
      StripCommas(high + "," + low);
      { StripCommasAppend(high + ",", low); }
      StripCommas(high + ",") + StripCommas(low);
      { StripCommasNoComma(low); }
      StripCommas(high + ",") + low;
      { StripTrailingComma(high); }
      StripCommas(high) + low;
    }
  }
}

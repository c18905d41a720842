/**
 * The data-shaping half of `salesMonth` in plotting.py: the month column
 * becomes an ordered categorical, the rows are sorted by calendar month, the
 * profit column is cleaned of thousands separators where it holds text, and
 * the yearly total is the sum of the profit column.
 */
module SalesMonth {
  import opened Wrappers
  import opened Sums
  import opened Commas
  import opened Numerals

  /** The calendar order of the categories. */
  const MonthOrder: seq<string> := [
    "January", "February", "March", "April", "May", "June",
    "July", "August", "September", "October", "November", "December"
  ]

  /** A row of the sales frame: its month (`None` when missing) and its profit cell. */
  datatype Row<P> = Row(month: Option<string>, profit: P)

  /** The position of `m` in the calendar, if it is one of the twelve names. */
  function MonthIndex(m: string): (r: Option<nat>)
    ensures r.Some? ==> r.value < |MonthOrder| && MonthOrder[r.value] == m
    ensures r.None? ==> m !in MonthOrder
  {
    IndexFrom(m, 0)
  }

  /** The first position at or after `from` where `MonthOrder` holds `m`. */
  function IndexFrom(m: string, from: nat): (r: Option<nat>)
    requires from <= |MonthOrder|
    ensures r.Some? ==> from <= r.value < |MonthOrder| && MonthOrder[r.value] == m
    ensures r.None? ==> forall i :: from <= i < |MonthOrder| ==> MonthOrder[i] != m
    decreases |MonthOrder| - from
  {
    if from == |MonthOrder| then None
    else if MonthOrder[from] == m then Some(from)
    else IndexFrom(m, from + 1)
  }

  /**
   * `pd.Categorical(month, categories=month_order, ordered=True)` for one value:
   * a calendar name stays, anything else becomes a missing value.
   */
  function Categorize(m: Option<string>): (r: Option<string>)
    ensures r.Some? <==> m.Some? && m.value in MonthOrder
    ensures r.Some? ==> r == m
  {
    match m
    case Some(name) => if MonthIndex(name).Some? then m else None
    case None => None
  }

  /** The month column converted to the ordered categorical, row by row. */
  function CategorizeRows<P>(rows: seq<Row<P>>): (r: seq<Row<P>>)
    ensures |r| == |rows|
    ensures forall i :: 0 <= i < |rows| ==> r[i] == Row(Categorize(rows[i].month), rows[i].profit)
  {
    if |rows| == 0 then []
    else CategorizeRows(rows[..|rows| - 1]) + [Row(Categorize(rows[|rows| - 1].month), rows[|rows| - 1].profit)]
  }

  /** The sort key of a categorical month: its calendar position, a missing value after December. */
  function MonthKey(m: Option<string>): (k: nat)
    ensures k <= 12
  {
    match m
    case None => 12
    case Some(name) => Otherwise(MonthIndex(name), 12)
  }

  /** A calendar month sorts by its position in the calendar; anything else sorts last. */
  lemma MonthKeySpec(m: Option<string>)
    ensures m.Some? && m.value in MonthOrder ==> MonthKey(m) < 12 && MonthOrder[MonthKey(m)] == m.value
    ensures m.None? || m.value !in MonthOrder ==> MonthKey(m) == 12
  {
  }

  /** Rows appear in calendar order of their months. */
  predicate SortedByMonth<P>(rows: seq<Row<P>>)
  {
    forall i, j :: 0 <= i < j < |rows| ==> MonthKey(rows[i].month) <= MonthKey(rows[j].month)
  }

  /** A row no later than the first of a sorted sequence can go in front of it. */
  lemma SortedCons<P>(head: Row<P>, rows: seq<Row<P>>)
    requires SortedByMonth(rows)
    requires |rows| > 0 ==> MonthKey(head.month) <= MonthKey(rows[0].month)
    ensures SortedByMonth([head] + rows)
  {
    var r := [head] + rows;
    forall i, j | 0 <= i < j < |r|
      ensures MonthKey(r[i].month) <= MonthKey(r[j].month)
    {
      assert r[j] == rows[j - 1];
      if i > 0 {
        assert r[i] == rows[i - 1];
      }
    }
  }

  /** Puts `x` into a month-sorted sequence of rows, before the first row of a later or equal month. */
  function Insert<P(==)>(x: Row<P>, rows: seq<Row<P>>): (r: seq<Row<P>>)
    requires SortedByMonth(rows)
    ensures SortedByMonth(r)
    ensures multiset(r) == multiset(rows) + multiset{x}
    ensures |r| > 0 && (r[0] == x || (|rows| > 0 && r[0] == rows[0]))
  {
    if |rows| == 0 || MonthKey(x.month) <= MonthKey(rows[0].month) then
      SortedCons(x, rows);
      [x] + rows
    else
      var head := rows[0];
      SortedTail(rows);
      var rest := Insert(x, rows[1..]);
      SortedCons(head, rest);
      assert rows == [head] + rows[1..];
      [head] + rest
  }

  /** Dropping the first row keeps a sequence sorted. */
  lemma SortedTail<P>(rows: seq<Row<P>>)
    requires SortedByMonth(rows) && |rows| > 0
    ensures SortedByMonth(rows[1..])
  {
    forall i, j | 0 <= i < j < |rows| - 1
      ensures MonthKey(rows[1..][i].month) <= MonthKey(rows[1..][j].month)
    {
      assert rows[1..][i] == rows[i + 1] && rows[1..][j] == rows[j + 1];
    }
  }

  /**
   * `df.sort_values("sales_month")`: the same rows in calendar order. Rows of
   * the same month may come out in any order: pandas' default sort is not
   * stable, so only sortedness and the multiset of rows are promised.
   */
  function SortByMonth<P(==)>(rows: seq<Row<P>>): (r: seq<Row<P>>)
    ensures SortedByMonth(r)
    ensures multiset(r) == multiset(rows)
  {
    if |rows| == 0 then []
    else
      assert rows == [rows[0]] + rows[1..];
      Insert(rows[0], SortByMonth(rows[1..]))
  }

  /** Stripping commas keeps every month in place, so a month-sorted column stays sorted. */
  lemma StripColumnSorted(rows: seq<Row<string>>)
    requires SortedByMonth(rows)
    ensures SortedByMonth(StripColumn(rows))
  {
    var r := StripColumn(rows);
    forall i, j | 0 <= i < j < |r|
      ensures MonthKey(r[i].month) <= MonthKey(r[j].month)
    {
      assert r[i].month == rows[i].month && r[j].month == rows[j].month;
    }
  }

  /**
   * The frame after the month conversion: the profit column holds either
   * numbers or, when it was read as text, strings.
   */
  datatype SalesFrame = Numeric(nums: seq<Row<int>>) | Textual(texts: seq<Row<string>>)

  /** Every text of the column parses as an integer once its commas are gone. */
  function ParseColumn(rows: seq<Row<string>>): (r: Option<seq<Row<int>>>)
    ensures r.Some? <==> forall i :: 0 <= i < |rows| ==> ParseInt(rows[i].profit).Some?
    ensures r.Some? ==> |r.value| == |rows|
    ensures r.Some? ==> forall i :: 0 <= i < |rows| ==>
              r.value[i] == Row(rows[i].month, ParseInt(rows[i].profit).value)
  {
    if |rows| == 0 then Some([])
    else
      var last := rows[|rows| - 1];
      match ParseColumn(rows[..|rows| - 1])
      case None => None
      case Some(init) =>
        match ParseInt(last.profit)
        case None => None
        case Some(v) => Some(init + [Row(last.month, v)])
  }

  /** `.str.replace(',', '')` on the profit column, row by row. */
  function StripColumn(rows: seq<Row<string>>): (r: seq<Row<string>>)
    ensures |r| == |rows|
    ensures forall i :: 0 <= i < |rows| ==> r[i] == Row(rows[i].month, StripCommas(rows[i].profit))
  {
    if |rows| == 0 then []
    else StripColumn(rows[..|rows| - 1]) + [Row(rows[|rows| - 1].month, StripCommas(rows[|rows| - 1].profit))]
  }

  /**
   * The `try` block around the profit conversion. A numeric column has no
   * `.str` accessor, so the first statement raises and the column is left
   * as it was; a text column is stripped of commas, and if `pd.to_numeric`
   * then fails the exception is swallowed with the stripped text kept.
   */
  function Clean(frame: SalesFrame): (r: SalesFrame)
    ensures frame.Numeric? ==> r == frame
    ensures frame.Textual? && r.Textual? ==> r.texts == StripColumn(frame.texts)
    ensures frame.Textual? ==> (r.Numeric? <==> ParseColumn(StripColumn(frame.texts)).Some?)
    ensures frame.Textual? && r.Numeric? ==> r.nums == ParseColumn(StripColumn(frame.texts)).value
  {
    match frame
    case Numeric(_) => frame
    case Textual(texts) =>
      var stripped := StripColumn(texts);
      match ParseColumn(stripped)
      case Some(nums) => Numeric(nums)
      case None => Textual(stripped)
  }

  /** `sum()` over a text column fails: `0 + str` raises `TypeError`. */
  datatype SumError = TypeError

  /** The profit of a numeric row. */
  function ProfitOf(row: Row<int>): int
  {
    row.profit
  }

  /**
   * `sum(df['total_profit'])`: the sum of a numeric column; over a text column
   * Python's `sum` starts from 0 and fails on the first string.
   */
  function YearlyProfit(frame: SalesFrame): (r: Result<int, SumError>)
    ensures frame.Numeric? ==> r == Success(SumBy(frame.nums, ProfitOf))
    ensures frame.Textual? ==> (r.Failure? <==> |frame.texts| > 0)
    ensures frame.Textual? && |frame.texts| == 0 ==> r == Success(0)
  {
    match frame
    case Numeric(nums) => Success(SumBy(nums, ProfitOf))
    case Textual(texts) => if |texts| == 0 then Success(0) else Failure(TypeError)
  }

  /**
   * `pd.Categorical(...)` then `sort_values("sales_month")`: the frame keeps its
   * kind, and its rows are the input rows, months converted, in calendar order.
   */
  function SortFrame(frame: SalesFrame): (r: SalesFrame)
    ensures r.Numeric? == frame.Numeric?
    ensures frame.Numeric? ==>
      SortedByMonth(r.nums) && multiset(r.nums) == multiset(CategorizeRows(frame.nums))
    ensures frame.Textual? ==>
      SortedByMonth(r.texts) && multiset(r.texts) == multiset(CategorizeRows(frame.texts))
  {
    match frame
    case Numeric(nums) => Numeric(SortByMonth(CategorizeRows(nums)))
    case Textual(texts) => Textual(SortByMonth(CategorizeRows(texts)))
  }

  /**
   * The data-shaping part of `salesMonth`: convert and sort the months, clean
   * the profits, sum them. A numeric column totals the input profits whatever
   * their order; a text column has a total exactly when it is empty or every
   * cell parses once its commas are stripped, and the total is then the sum of
   * the parsed input cells.
   */
  function SalesMonth(frame: SalesFrame): (r: (SalesFrame, Result<int, SumError>))
    ensures frame.Numeric? ==> r.0.Numeric? && SortedByMonth(r.0.nums)
    ensures frame.Numeric? ==> multiset(r.0.nums) == multiset(CategorizeRows(frame.nums))
    ensures frame.Textual? ==> (r.0.Numeric? <==> AllParse(frame.texts))
    ensures frame.Textual? && r.0.Textual? ==> SortedByMonth(r.0.texts)
    ensures frame.Textual? && r.0.Numeric? ==> SortedByMonth(r.0.nums)
    ensures frame.Textual? && r.0.Textual? ==>
      multiset(r.0.texts) == multiset(StripColumn(CategorizeRows(frame.texts)))
    ensures frame.Textual? && r.0.Numeric? ==>
      ParseColumn(StripColumn(CategorizeRows(frame.texts))).Some? &&
      multiset(r.0.nums) == multiset(ParseColumn(StripColumn(CategorizeRows(frame.texts))).value)
    ensures frame.Numeric? ==> r.1 == Success(SumBy(frame.nums, ProfitOf))
    ensures frame.Textual? ==> (r.1.Success? <==> |frame.texts| == 0 || AllParse(frame.texts))
    ensures frame.Textual? && AllParse(frame.texts) ==> r.1 == Success(SumBy(frame.texts, ParsedProfit))
  {
    var cleaned := Clean(SortFrame(frame));
    match frame
    case Numeric(nums) =>
      SortedNumbers(nums);
      (cleaned, YearlyProfit(cleaned))
    case Textual(texts) =>
      var sorted := SortByMonth(CategorizeRows(texts));
      SortedTexts(texts);
      CleanColumn(sorted);
      CleanedTotal(sorted);
      CleanSorted(sorted);
      CleanPermutation(sorted, CategorizeRows(texts));
      (cleaned, YearlyProfit(cleaned))
  }

  /** Parsing keeps every month in place, so a month-sorted column stays sorted. */
  lemma ParseColumnSorted(rows: seq<Row<string>>)
    requires SortedByMonth(rows) && ParseColumn(rows).Some?
    ensures SortedByMonth(ParseColumn(rows).value)
  {
    var r := ParseColumn(rows).value;
    forall i, j | 0 <= i < j < |r|
      ensures MonthKey(r[i].month) <= MonthKey(r[j].month)
    {
      assert r[i].month == rows[i].month && r[j].month == rows[j].month;
    }
  }

  /** Cleaning a month-sorted text column leaves it month-sorted, converted or not. */
  lemma CleanSorted(rows: seq<Row<string>>)
    requires SortedByMonth(rows)
    ensures Clean(Textual(rows)).Textual? ==> SortedByMonth(Clean(Textual(rows)).texts)
    ensures Clean(Textual(rows)).Numeric? ==> SortedByMonth(Clean(Textual(rows)).nums)
  {
    StripColumnSorted(rows);
    if ParseColumn(StripColumn(rows)).Some? {
      ParseColumnSorted(StripColumn(rows));
    }
  }

  /** One row with the commas taken out of its profit cell. */
  function StripRow(row: Row<string>): Row<string>
  {
    Row(row.month, StripCommas(row.profit))
  }

  /** One row with its profit cell read as an integer; zero where it does not parse. */
  function ParsedRow(row: Row<string>): Row<int>
  {
    Row(row.month, Otherwise(ParseInt(row.profit), 0))
  }

  /** Stripping commas from two reorderings of the same rows gives two reorderings of the same stripped rows. */
  lemma StripColumnPermutation(s: seq<Row<string>>, t: seq<Row<string>>)
    requires multiset(s) == multiset(t)
    ensures multiset(StripColumn(s)) == multiset(StripColumn(t))
  {
    assert StripColumn(s) == MapBy(s, StripRow);
    assert StripColumn(t) == MapBy(t, StripRow);
    MapByPermutation(s, t, StripRow);
  }

  /** When one reordering of some rows parses, so does any other, and the two give reorderings of the same numbers. */
  lemma ParseColumnPermutation(s: seq<Row<string>>, t: seq<Row<string>>)
    requires multiset(s) == multiset(t) && ParseColumn(s).Some?
    ensures ParseColumn(t).Some?
    ensures multiset(ParseColumn(s).value) == multiset(ParseColumn(t).value)
  {
    forall i | 0 <= i < |t|
      ensures ParseInt(t[i].profit).Some?
    {
      assert t[i] in multiset(s);
      var j :| 0 <= j < |s| && s[j] == t[i];
    }
    assert ParseColumn(s).value == MapBy(s, ParsedRow);
    assert ParseColumn(t).value == MapBy(t, ParsedRow);
    MapByPermutation(s, t, ParsedRow);
  }

  /**
   * Cleaning a reordering of a text column gives a reordering of the cleaned
   * column: the same stripped texts, or the same parsed numbers.
   */
  lemma CleanPermutation(rows: seq<Row<string>>, original: seq<Row<string>>)
    requires multiset(rows) == multiset(original)
    ensures Clean(Textual(rows)).Textual? ==>
      multiset(Clean(Textual(rows)).texts) == multiset(StripColumn(original))
    ensures Clean(Textual(rows)).Numeric? ==>
      ParseColumn(StripColumn(original)).Some? &&
      multiset(Clean(Textual(rows)).nums) == multiset(ParseColumn(StripColumn(original)).value)
  {
    StripColumnPermutation(rows, original);
    if ParseColumn(StripColumn(rows)).Some? {
      ParseColumnPermutation(StripColumn(rows), StripColumn(original));
    }
  }

  /** A text cell that parses as an integer once its commas are gone. */
  predicate Parses(row: Row<string>)
  {
    ParseInt(StripCommas(row.profit)).Some?
  }

  /** The number a text cell stands for after cleaning; zero where it does not parse. */
  function ParsedProfit(row: Row<string>): int
  {
    Otherwise(ParseInt(StripCommas(row.profit)), 0)
  }

  /** Every text cell of the column parses after cleaning. */
  predicate AllParse(rows: seq<Row<string>>)
  {
    forall i :: 0 <= i < |rows| ==> Parses(rows[i])
  }

  /** Whether every cell parses does not depend on the order of the rows. */
  lemma AllParsePermutation(s: seq<Row<string>>, t: seq<Row<string>>)
    requires multiset(s) == multiset(t)
    ensures AllParse(s) <==> AllParse(t)
  {
    forall i | 0 <= i < |s| && AllParse(t)
      ensures Parses(s[i])
    {
      assert s[i] in multiset(t);
    }
    forall i | 0 <= i < |t| && AllParse(s)
      ensures Parses(t[i])
    {
      assert t[i] in multiset(s);
    }
  }

  /** The cleaned column is numeric exactly when every cell parses, and then holds the parsed values. */
  lemma CleanColumn(rows: seq<Row<string>>)
    ensures ParseColumn(StripColumn(rows)).Some? <==> AllParse(rows)
    ensures AllParse(rows) ==>
      SumBy(ParseColumn(StripColumn(rows)).value, ProfitOf) == SumBy(rows, ParsedProfit)
  {
    var stripped := StripColumn(rows);
    if AllParse(rows) {
      SumByPointwise(ParseColumn(stripped).value, ProfitOf, rows, ParsedProfit);
    } else {
      var i :| 0 <= i < |rows| && !Parses(rows[i]);
      assert stripped[i].profit == StripCommas(rows[i].profit);
    }
  }

  /** Converting and sorting the months keeps every profit, so the sum of the numbers is unchanged. */
  lemma SortedNumbers(nums: seq<Row<int>>)
    ensures SumBy(SortByMonth(CategorizeRows(nums)), ProfitOf) == SumBy(nums, ProfitOf)
  {
    var categorized := CategorizeRows(nums);
    SumByPointwise(categorized, ProfitOf, nums, ProfitOf);
    SumByPermutation(SortByMonth(categorized), categorized, ProfitOf);
  }

  /** Cleaning a text column and summing it succeeds exactly when the column is empty or every cell parses. */
  lemma CleanedTotal(rows: seq<Row<string>>)
    ensures YearlyProfit(Clean(Textual(rows))).Success? <==> |rows| == 0 || AllParse(rows)
    ensures AllParse(rows) ==> YearlyProfit(Clean(Textual(rows))) == Success(SumBy(rows, ParsedProfit))
  {
    CleanColumn(rows);
  }

  /** Converting the months keeps every cell, so parsing and the sum of the parsed cells are unchanged. */
  lemma CategorizedTexts(texts: seq<Row<string>>)
    ensures AllParse(CategorizeRows(texts)) <==> AllParse(texts)
    ensures SumBy(CategorizeRows(texts), ParsedProfit) == SumBy(texts, ParsedProfit)
  {
    var categorized := CategorizeRows(texts);
    assert forall i :: 0 <= i < |texts| ==> categorized[i].profit == texts[i].profit;
    SumByPointwise(categorized, ParsedProfit, texts, ParsedProfit);
  }

  /** Converting and sorting the months keeps the cells, so parsing and the sum of the parsed cells are unchanged. */
  lemma SortedTexts(texts: seq<Row<string>>)
    ensures |SortByMonth(CategorizeRows(texts))| == |texts|
    ensures AllParse(SortByMonth(CategorizeRows(texts))) <==> AllParse(texts)
    ensures SumBy(SortByMonth(CategorizeRows(texts)), ParsedProfit) == SumBy(texts, ParsedProfit)
  {
    var categorized := CategorizeRows(texts);
    var sorted := SortByMonth(categorized);
    CategorizedTexts(texts);
    AllParsePermutation(sorted, categorized);
    assert |multiset(sorted)| == |multiset(categorized)|;
    SumByPermutation(sorted, categorized, ParsedProfit);
  }

  /**
   * The chart's annotation `f"Total Yearly Profit: {total / 1_000_000:,.2f} M"`;
   * `fmt` stands for the `,.2f` rendering of the quotient.
   */
  function YearlyLabel(total: int, fmt: real -> string): (s: string)
    ensures |s| >= 23
    ensures s[..21] == "Total Yearly Profit: " && s[|s| - 2..] == " M"
    ensures s[21..|s| - 2] == fmt(total as real / 1000000.0)
  {
    "Total Yearly Profit: " + fmt(total as real / 1000000.0) + " M"
  }

  /** January is the first month of the calendar. */
  lemma JanuaryKey()
    ensures MonthKey(Some("January")) == 0
  {
    assert MonthOrder[0] == "January";
  }

  /** April is the fourth month of the calendar. */
  lemma AprilKey()
    ensures MonthKey(Some("April")) == 3
  {
    assert MonthOrder[0] != "April" && MonthOrder[1] != "April" && MonthOrder[2] != "April";
    assert MonthOrder[3] == "April";
  }

  /** Months sort by the calendar, not by name: April sorts after January. */
  lemma CalendarNotAlphabetical()
    ensures SortByMonth([Row(Some("April"), 1), Row(Some("January"), 2)])
         == [Row(Some("January"), 2), Row(Some("April"), 1)]
  {
    JanuaryKey();
    AprilKey();
    var rows := [Row(Some("April"), 1), Row(Some("January"), 2)];
    assert rows[1..] == [Row(Some("January"), 2)];
    assert SortByMonth(rows[1..]) == [Row(Some("January"), 2)] by {
      assert rows[1..][1..] == [];
    }
  }
}

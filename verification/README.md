# UK store sales: region table, map annotation and month ordering

A Dafny model of the data-shaping logic of a small UK retail sales dashboard.
The dashboard has three pieces of logic that can be stated precisely, and the
model covers them:

- **`displayMap`** (plotting.py). Store rows are grouped by region, and the
  profit and store count of each region are summed. Every boundary feature of
  the UK region map is then given its region's store count and a
  "£… Millions" profit text. A region without stores gets the defaults `0`
  and `"£0"`.
- **`salesMonth`** (plotting.py). The month column is turned into an ordered
  categorical and the rows are sorted by calendar month. The profit column is
  cleaned of thousands separators, with the conversion failure swallowed, and
  the yearly total is the sum of the column.
- **`format_dollars`** (plotting.py). An amount is written as millions "M",
  thousands "K" or plain, by two inclusive thresholds.
- **`city_to_region`** (city_to_region.py). A constant dictionary from 67
  upper-case town names to 12 UK region names.

Modules, one per file:

| module | file | what it holds |
|---|---|---|
| `Wrappers` | wrappers.dfy | `Option` and `Result` |
| `Sums` | sums.dfy | `sum()` over a column; the sum is independent of order |
| `StringOrder` | string_order.dfy | the code-point order pandas sorts group keys by |
| `RegionTotals` | region_totals.dfy | `groupby("region").agg(sum)` as a sorted table |
| `FeatureAnnotation` | feature_annotation.dfy | the feature loop of `displayMap` |
| `Digits` | digits.dfy | decimal digit strings and their values |
| `Commas` | commas.dfy | `.str.replace(',', '')` |
| `Numerals` | numerals.dfy | integer parsing, and `"{:,}"` grouping as its inverse |
| `SalesMonth` | sales_month.dfy | month ordering, profit cleaning, yearly total |
| `DollarFormat` | dollar_format.dfy | `format_dollars` |
| `Dictionaries` | dictionaries.dfy | a dictionary display built from groups of entries |
| `CityToRegion` | city_to_region.dfy | the `city_to_region` literal |

Modelling choices:

- Amounts are `int`. A division by a million is a `real`.
- The decimal rendering of a float (`.2f`, `,.2f`, `str`) is a function
  parameter. Contracts speak about the text around it and about which number
  it is given.
- `groupby` sorts its keys by default and drops rows whose key is missing.
  The grouped table is therefore a strictly sorted sequence of rows, one per
  region, and a store row's region is an `Option`.
- A month name outside the twelve becomes a missing value of the categorical,
  as `pd.Categorical` does. Missing months sort last. The sort is not stable,
  so only sortedness and the multiset of rows are promised.
- When the profit column holds text, the code strips the commas and assigns
  the result before `pd.to_numeric` runs. If parsing then fails, the column
  keeps the stripped text, not the original. This follows the code; a reading
  in which a failed conversion leaves the column "unchanged" would be wrong
  about the commas.
- A feature without an `rgn19nm` property makes the loop raise `KeyError`.
  A feature whose `rgn19nm` is a list or an object makes `region in
  region_lookup.index` raise `TypeError`, because the value cannot be hashed.
  Both are modelled as a `Failure` naming the first such feature and the
  cause. Any other non-string name (a number, `true`, `null`) is simply not
  in the index and gets the defaults.

## Model

| member | source | states |
|---|---|---|
| Dictionaries.UnionKeys | city_to_region.py:1-92 | a dictionary display has exactly the keys written in any of its groups of entries |
| Dictionaries.UnionKeepsLastWriter | city_to_region.py:1-92 | an entry not repeated later in the display keeps the value written for it |
| Dictionaries.UnionSize | city_to_region.py:1-92 | when no key is written twice, the dictionary has one key per written entry |
| CityToRegion.HeadingsDisjoint | city_to_region.py:2-91 | no town is listed under two of the twelve comment headings |
| CityToRegion.TableSize | city_to_region.py:1-92 | the dictionary has exactly 67 distinct keys, so no key of the literal is repeated |
| CityToRegion.TableAt | city_to_region.py:1-92 | every town maps to the value written beside it, whichever heading it sits under |
| CityToRegion.KeysAreCityKeys | city_to_region.py:3-91 | every key is a non-empty name made only of capital letters, spaces and hyphens |
| CityToRegion.LowerCaseMisses | city_to_region.py:3-91 | any name containing an ASCII lower-case letter (a-z) is not a key |
| CityToRegion.NameRoundTrip | city_to_region.py:3-91 | each of the twelve region values is a distinct string that names its region back |
| CityToRegion.RegionOf | city_to_region.py:1-92 | lookup finds a value exactly when the name is a key, and the value is one of the twelve region names |
| CityToRegion.EveryRegionReached | city_to_region.py:3-91 | each of the twelve regions is the value of at least one town |
| CityToRegion.ExactKeysHit | city_to_region.py:3-26 | "LONDON" and "ST IVES", spelt as written, find London and South West |
| CityToRegion.OtherSpellingsMiss | city_to_region.py:3-26 | "London" and "st ives" find nothing: the match is exact and case-sensitive |
| CityToRegion.MisfiledEntries | city_to_region.py:15-82 | ROYSTON, ASHBORNE, ALSTON and GARRIGILL map to the region written as their value, not the region of their heading |
| Sums.SumByPermutation | plotting.py:174 | the sum of a column does not depend on the order of its rows |
| StringOrder.LessTransitive | plotting.py:32 | the order group keys are sorted by is transitive |
| StringOrder.LessTotal | plotting.py:32 | any two distinct region names are ordered one way or the other |
| RegionTotals.Lookup | plotting.py:40-57 | `region in region_lookup.index` holds exactly for the table's regions, and `.loc` gives that region's row |
| RegionTotals.Merge | plotting.py:30-37 | adding a store row keeps the table sorted and adds its region to the table's regions |
| RegionTotals.MergeLookup | plotting.py:30-37 | adding a store row changes only its own region's row, by its profit and store count |
| RegionTotals.AddRow | plotting.py:30-37 | a store row without a region leaves the table as it is, as `groupby` drops missing keys; a row with one adds its region to the table's regions |
| RegionTotals.Aggregate | plotting.py:30-37 | the grouped table is sorted and has a row for exactly the regions the rows name |
| RegionTotals.AggregateKeysUnique | plotting.py:30-40 | no two table rows share a region, so a feature matches at most one row |
| RegionTotals.AggregateLookup | plotting.py:30-40 | a named region's row holds the sums of profit and store count over that region's rows; other names have no row |
| RegionTotals.AggregateSum | plotting.py:32-36 | the table's profit and store-count totals equal the totals over all rows that have a region |
| RegionTotals.WithRegionIsAll | plotting.py:32-36 | when every row has a region, those totals are the totals of the whole input |
| RegionTotals.SortedCanonical | plotting.py:30-37 | a sorted table is determined by what it holds for each region |
| RegionTotals.AggregateOrderIndependent | plotting.py:30-37 | reordering the input rows leaves the grouped table unchanged |
| FeatureAnnotation.ProfitText | plotting.py:59 | a region's profit text starts with "£", ends with " Millions", and has the rendered quotient between |
| FeatureAnnotation.ProfitTextNotDefault | plotting.py:59-63 | a region's profit text never equals the default "£0" |
| FeatureAnnotation.RowFor | plotting.py:53-57 | an unhashable name raises `TypeError`; otherwise a row is selected exactly when the name is a string key, and it is the row of that name |
| FeatureAnnotation.Annotate | plotting.py:52-63 | a feature without `rgn19nm` fails with `KeyError` and one with an unhashable name with `TypeError`; otherwise only `store_count` and `total_profit` are written, and every other property and the geometry are unchanged |
| FeatureAnnotation.AnnotateMatched | plotting.py:56-59 | a feature whose region has a row gets that row's store count and profit text |
| FeatureAnnotation.AnnotateUnmatched | plotting.py:60-63 | a feature whose region has no row gets store count 0 and profit text "£0" |
| FeatureAnnotation.AnnotateAll | plotting.py:52-63 | every feature is annotated in order and the list keeps its length; the first feature that raises stops the loop, and its cause is reported |
| FeatureAnnotation.AnnotatedShows | plotting.py:30-63 | one annotated feature, traced through the grouped table: a name of an input region shows that region's summed store count and profit, any other name 0 and "£0" |
| FeatureAnnotation.DisplayMap | plotting.py:30-63 | end to end: the loop completes exactly when no feature raises, and otherwise stops at the first feature that does; on completion every feature keeps its geometry and every property other than `store_count` and `total_profit`, gains exactly those two, and shows its region's summed store count and profit, or 0 and "£0" when no input row names it |
| SalesMonth.MonthIndex | plotting.py:148-151 | a calendar name is found at its position in the month list, and any other text is found nowhere |
| SalesMonth.Categorize | plotting.py:154-156 | a month value stays exactly when it is one of the twelve names, and becomes missing otherwise |
| SalesMonth.CategorizeRows | plotting.py:154-156 | converting the month column keeps every row's position and profit |
| SalesMonth.MonthKeySpec | plotting.py:154-159 | the sort key is a month's calendar position, and a missing month sorts after December |
| SalesMonth.Insert | plotting.py:159 | inserting a row into month-sorted rows keeps them sorted and adds exactly that row |
| SalesMonth.SortByMonth | plotting.py:159 | the sorted rows are a permutation of the input in non-decreasing calendar order |
| SalesMonth.SortFrame | plotting.py:154-159 | after conversion and sorting, the frame keeps its kind and holds the converted input rows in calendar order |
| SalesMonth.CalendarNotAlphabetical | plotting.py:148-159 | January sorts before April, although April comes first alphabetically |
| SalesMonth.StripColumn | plotting.py:163 | every text cell has its commas removed, and month and position are kept |
| SalesMonth.ParseColumn | plotting.py:164 | the conversion succeeds exactly when every cell parses, and then holds each cell's value in place |
| SalesMonth.Clean | plotting.py:161-166 | a numeric column is left as it is; a text column becomes numeric exactly when every stripped cell parses, and otherwise keeps the stripped text |
| SalesMonth.CleanPermutation | plotting.py:159-166 | cleaning a reordered text column gives a reordering of the cleaned column: the same stripped texts, or the same parsed numbers, the original column then parsing as well |
| SalesMonth.CleanColumn | plotting.py:161-166 | a text column converts exactly when every cell parses after stripping, and then sums to the parsed input values |
| SalesMonth.AllParsePermutation | plotting.py:159-164 | whether every cell parses does not depend on the order of the rows |
| SalesMonth.YearlyProfit | plotting.py:174 | a numeric column sums its profits; an empty text column sums to 0 and a non-empty one makes `sum` fail |
| SalesMonth.SalesMonth | plotting.py:154-174 | a numeric frame comes out as the converted input rows in calendar order and totals the input profits, whatever their order; a text column comes out as the converted input rows, reordered into calendar order and cleaned: the stripped texts, or, exactly when every stripped cell parses, their parsed numbers; and it has a total exactly when it is empty or every cell parses, the total then being the sum of the parsed input cells |
| SalesMonth.YearlyLabel | plotting.py:174 | the annotation reads "Total Yearly Profit: ", then the rendered total in millions, then " M" |
| Commas.StripCommas | plotting.py:163 | the cleaned text contains no comma |
| Commas.StripCommasNoComma | plotting.py:163 | a text without commas is left as it is |
| Commas.StripCommasAppend | plotting.py:163 | stripping works piece by piece, keeping the order of the other characters |
| Commas.StripCommasCounts | plotting.py:163 | exactly the commas are deleted: every other character keeps its number of occurrences |
| Commas.StripCommasIdempotent | plotting.py:163 | cleaning twice is cleaning once |
| Numerals.ParseInt | plotting.py:164 | only a text without commas can parse to a number |
| Numerals.GroupedNatDigits | plotting.py:163-164 | a comma-grouped natural number becomes its own digits once the commas are gone |
| Numerals.GroupedRoundTrip | plotting.py:163-164 | stripping the commas of a comma-grouped integer and parsing gives the integer back |
| DollarFormat.TierOf | plotting.py:292-297 | the branch taken is named by the largest unit not above the amount, millions being the largest and plain taking everything below a thousand |
| DollarFormat.TierRanges | plotting.py:291-297 | the "M" branch covers amounts of at least 1,000,000, the "K" branch amounts from 1,000 to below 1,000,000, and the plain branch everything below 1,000, negatives included |
| DollarFormat.TierMonotonic | plotting.py:291-297 | a larger amount never takes a smaller tier |
| DollarFormat.Scaled | plotting.py:292-295 | the printed number times the tier's unit is the amount; a thousands mantissa lies in [1, 1000) and a millions mantissa is at least 1 |
| DollarFormat.FormatDollars | plotting.py:291-297 | millions print as the two-decimal quotient by 1,000,000 followed by "M", thousands as the quotient by 1,000 followed by "K", and smaller amounts as `str` |
| DollarFormat.ThresholdsInclusive | plotting.py:292-294 | 1,000,000 is already millions and 1,000 already thousands; 999.99 and negative amounts are plain |
| DollarFormat.SuffixNamesTier | plotting.py:291-297 | when the renderings end in a digit, the last character of the result tells which branch was taken |

## Left out

- Map rendering is not modelled. This covers the folium base map, the choropleth, the style, highlight and tooltip layers, and the CSS (plotting.py:68-135). It is presentation through an external library.
- Reading `uk_regions.geojson` (plotting.py:45-46) is file input. The features are a parameter instead. A `features` or `properties` key missing from the file is not modelled.
- Chart drawing in `salesMonth` (plotting.py:169-193) and `displayDonut` (plotting.py:199-226) is presentation. The one piece of data it shows, the yearly total text, is modelled.
- `confidence_interval` and its plot (plotting.py:232-285) are floating-point statistics through numpy and scipy calls.
- The unused `ttest_ind` import has no behaviour.
- Float rendering (`.2f`, `,.2f`, `str`) depends on binary floating-point rounding. It is a function parameter, so contracts state the surrounding text and the quotient passed in, not the digits.
- No code joins the city table to the `region` column. The table is modelled on its own.
- Numerals.ParseInt: accepts only an optional sign followed by digits. `pd.to_numeric` also accepts decimals, exponents, surrounding spaces and the empty string (as a missing value); a column holding such text is modelled as one that does not parse.
- SalesMonth.YearlyProfit: missing profit cells (NaN) and columns mixing numbers with text are not modelled. The column is wholly numeric or wholly text.
- RegionTotals.Aggregate: profits and store counts are integers. Float profits and NaN cells, which `sum` skips, are not modelled.
- RegionTotals.Aggregate: sums are unbounded integers. pandas holds integer columns as 64-bit `int64`, and the grouped sums wrap around on overflow; that wrap-around is not modelled, so the contracts hold only while every sum fits in 64 bits.
- SalesMonth.YearlyProfit: the total is an unbounded integer. Python's `sum` over an `int64` column wraps around past 64 bits, and `pd.to_numeric` turns integer text outside the 64-bit range into a float; neither is modelled, so the contracts hold only while every value and the total fit in 64 bits.
- FeatureAnnotation.Annotate: the `int(row.store_count)` cast is the identity, because store counts are integers here.
- DollarFormat.FormatDollars: amounts are real numbers, so the float values NaN and infinity are not modelled. NaN fails both comparisons and `str` prints it as "nan"; infinity passes the first test and prints as "infM". A real also cannot tell an `int` argument from a `float` one: below a thousand `str(250)` is "250" but `str(250.0)` is "250.0", and the single `show` parameter stands for whichever of the two the caller passed.

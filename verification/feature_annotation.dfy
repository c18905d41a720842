/**
 * The annotation half of `displayMap` in plotting.py: every boundary feature
 * of the region map is given its region's figures from the grouped table, or
 * the defaults when its region has no stores.
 */
module FeatureAnnotation {
  import opened Wrappers
  import opened Sums
  import opened RegionTotals

  /**
   * A JSON value held in a feature's properties. Strings and numbers are what
   * the annotation reads and writes; `Scalar` is any other hashable value
   * (`true`, `null`, a float), and `Compound` a list or an object, which
   * Python cannot hash.
   */
  datatype PropValue = Text(text: string) | Count(count: int) | Scalar(id: nat) | Compound(id: nat)

  /** A GeoJSON feature: its properties object and the rest of it (geometry and type), kept opaque. */
  datatype Feature = Feature(properties: map<string, PropValue>, rest: nat)

  /**
   * Why the loop body raises for a feature: `feature["properties"]["rgn19nm"]`
   * is a `KeyError` when the property is absent, and `region in
   * region_lookup.index` a `TypeError` when its value cannot be hashed.
   */
  datatype FeatureError = MissingRegionName | UnhashableRegionName

  /** The property holding the region's name. */
  const NameKey: string := "rgn19nm"

  /** The property the store count is written to. */
  const StoreCountKey: string := "store_count"

  /** The property the profit text is written to. */
  const TotalProfitKey: string := "total_profit"

  /** The profit text written for a region without data. */
  const NoProfitText: string := "£0"

  /**
   * `f"£{profit / 1000000:,.2f} Millions"`; `fmt` stands for the `,.2f`
   * rendering of the quotient.
   */
  function ProfitText(profit: int, fmt: real -> string): (s: string)
    ensures |s| >= 10 && s[..1] == "£" && s[|s| - 9..] == " Millions"
    ensures s[1..|s| - 9] == fmt(profit as real / 1000000.0)
  {
    "£" + fmt(profit as real / 1000000.0) + " Millions"
  }

  /** A region's profit text can never be mistaken for the default text. */
  lemma ProfitTextNotDefault(profit: int, fmt: real -> string)
    ensures ProfitText(profit, fmt) != NoProfitText
  {
    assert |ProfitText(profit, fmt)| >= 10 > |NoProfitText|;
  }

  /**
   * `region in region_lookup.index`, then `region_lookup.loc[region]`: the
   * table row a region-name value selects. The index is one of strings, so
   * only a string that is a key matches; an unhashable value raises.
   */
  function RowFor(name: PropValue, t: seq<RegionTotal>): (r: Result<Option<RegionTotal>, FeatureError>)
    ensures r.Failure? <==> name.Compound?
    ensures r.Failure? ==> r.error == UnhashableRegionName
    ensures r.Success? ==> (r.value.Some? <==> name.Text? && name.text in KeysOf(t))
    ensures r.Success? && r.value.Some? ==> r.value.value.region == name.text && r.value.value in t
  {
    match name
    case Text(k) => Success(Lookup(t, k))
    case Compound(_) => Failure(UnhashableRegionName)
    case _ => Success(None)
  }

  /** A feature the loop body gets through: it has a region name, and the name can be hashed. */
  predicate Annotatable(f: Feature)
  {
    NameKey in f.properties && !f.properties[NameKey].Compound?
  }

  /** The loop body of `displayMap` for one feature. */
  function Annotate(f: Feature, t: seq<RegionTotal>, fmt: real -> string): (r: Result<Feature, FeatureError>)
    ensures r.Success? <==> Annotatable(f)
    ensures r.Failure? ==> r.error == if NameKey in f.properties then UnhashableRegionName else MissingRegionName
    ensures r.Success? ==> r.value.rest == f.rest
    ensures r.Success? ==> r.value.properties.Keys == f.properties.Keys + {StoreCountKey, TotalProfitKey}
    ensures r.Success? ==>
      forall key :: key in f.properties && key != StoreCountKey && key != TotalProfitKey ==>
        r.value.properties[key] == f.properties[key]
  {
    if NameKey !in f.properties then Failure(MissingRegionName)
    else
      match RowFor(f.properties[NameKey], t)
      case Failure(e) => Failure(e)
      case Success(found) =>
        var (count, profit) :=
          match found
          case Some(e) => (Count(e.storeCount), Text(ProfitText(e.totalProfit, fmt)))
          case None => (Count(0), Text(NoProfitText));
        Success(Feature(f.properties[StoreCountKey := count][TotalProfitKey := profit], f.rest))
  }

  /** A feature whose region has a row gets that row's store count and profit text. */
  lemma AnnotateMatched(f: Feature, t: seq<RegionTotal>, fmt: real -> string, e: RegionTotal)
    requires NameKey in f.properties && RowFor(f.properties[NameKey], t) == Success(Some(e))
    ensures Annotate(f, t, fmt).Success?
    ensures Annotate(f, t, fmt).value.properties[StoreCountKey] == Count(e.storeCount)
    ensures Annotate(f, t, fmt).value.properties[TotalProfitKey] == Text(ProfitText(e.totalProfit, fmt))
  {
  }

  /** A feature whose region has no row gets the defaults 0 and "£0". */
  lemma AnnotateUnmatched(f: Feature, t: seq<RegionTotal>, fmt: real -> string)
    requires NameKey in f.properties && RowFor(f.properties[NameKey], t) == Success(None)
    ensures Annotate(f, t, fmt).Success?
    ensures Annotate(f, t, fmt).value.properties[StoreCountKey] == Count(0)
    ensures Annotate(f, t, fmt).value.properties[TotalProfitKey] == Text(NoProfitText)
  {
  }

  /** The `for feature in uk_geo["features"]` loop stops at the first feature that raises. */
  datatype AnnotateError = AnnotateError(index: nat, cause: FeatureError)

  /** Annotates every feature in order, or reports the first one that raises and why. */
  function AnnotateAll(fs: seq<Feature>, t: seq<RegionTotal>, fmt: real -> string): (r: Result<seq<Feature>, AnnotateError>)
    ensures r.Success? <==> forall i :: 0 <= i < |fs| ==> Annotatable(fs[i])
    ensures r.Failure? ==>
      var i := r.error.index;
      && i < |fs| && !Annotatable(fs[i]) && Annotate(fs[i], t, fmt) == Failure(r.error.cause)
      && forall j :: 0 <= j < i ==> Annotatable(fs[j])
    ensures r.Success? ==> |r.value| == |fs|
    ensures r.Success? ==> forall i :: 0 <= i < |fs| ==> Annotate(fs[i], t, fmt) == Success(r.value[i])
  {
    if |fs| == 0 then Success([])
    else
      var last := |fs| - 1;
      match AnnotateAll(fs[..last], t, fmt)
      case Failure(e) => Failure(e)
      case Success(gs) =>
        match Annotate(fs[last], t, fmt)
        case Failure(cause) => Failure(AnnotateError(last, cause))
        case Success(g) => Success(gs + [g])
  }

  /**
   * What an annotated feature `g` shows when its region name was `name`: the
   * summed store count and profit of that region's input rows, or the
   * defaults when no input row names it.
   */
  predicate Shows(g: Feature, name: PropValue, rows: seq<StoreRow>, fmt: real -> string)
  {
    && StoreCountKey in g.properties && TotalProfitKey in g.properties
    && if name.Text? && name.text in RegionsOf(rows) then
         && g.properties[StoreCountKey] == Count(Tally(rows, name.text, StoreCount))
         && g.properties[TotalProfitKey] == Text(ProfitText(Tally(rows, name.text, TotalProfit), fmt))
       else
         && g.properties[StoreCountKey] == Count(0)
         && g.properties[TotalProfitKey] == Text(NoProfitText)
  }

  /** One annotated feature, traced back through the grouped table to the input rows. */
  lemma AnnotatedShows(f: Feature, rows: seq<StoreRow>, fmt: real -> string)
    requires Annotatable(f)
    ensures Annotate(f, Aggregate(rows), fmt).Success?
    ensures Shows(Annotate(f, Aggregate(rows), fmt).value, f.properties[NameKey], rows, fmt)
  {
    var name := f.properties[NameKey];
    if name.Text? {
      AggregateLookup(rows, name.text);
    }
  }

  /** Every annotated feature of the loop, traced back to the input rows. */
  lemma AnnotatedAllShow(rows: seq<StoreRow>, features: seq<Feature>, fmt: real -> string)
    requires AnnotateAll(features, Aggregate(rows), fmt).Success?
    ensures forall i :: 0 <= i < |features| ==>
      Shows(AnnotateAll(features, Aggregate(rows), fmt).value[i], features[i].properties[NameKey], rows, fmt)
  {
    forall i | 0 <= i < |features|
      ensures Shows(AnnotateAll(features, Aggregate(rows), fmt).value[i], features[i].properties[NameKey], rows, fmt)
    {
      AnnotatedShows(features[i], rows, fmt);
    }
  }

  /**
   * The data-shaping part of `displayMap`: group the rows, then annotate the
   * features. End to end, a feature named after a region of the input shows
   * the sums of that region's store counts and profits, and any other feature
   * shows 0 and "£0".
   */
  function DisplayMap(rows: seq<StoreRow>, features: seq<Feature>, fmt: real -> string): (r: Result<seq<Feature>, AnnotateError>)
    ensures r.Success? <==> forall i :: 0 <= i < |features| ==> Annotatable(features[i])
    ensures r.Failure? ==> r.error.index < |features| && !Annotatable(features[r.error.index])
    ensures r.Failure? ==> forall j :: 0 <= j < r.error.index ==> Annotatable(features[j])
    ensures r.Success? ==> |r.value| == |features|
    ensures r.Success? ==> forall i :: 0 <= i < |features| ==>
      && r.value[i].rest == features[i].rest
      && Shows(r.value[i], features[i].properties[NameKey], rows, fmt)
    ensures r.Success? ==> forall i :: 0 <= i < |features| ==>
      r.value[i].properties.Keys == features[i].properties.Keys + {StoreCountKey, TotalProfitKey}
    ensures r.Success? ==> forall i, key ::
      0 <= i < |features| && key in features[i].properties && key != StoreCountKey && key != TotalProfitKey ==>
        r.value[i].properties[key] == features[i].properties[key]
  {
    var r := AnnotateAll(features, Aggregate(rows), fmt);
    if r.Success? then
      AnnotatedAllShow(rows, features, fmt);
      r
    else
      r
  }
}

/** The comparison table: a fixed list of features rated for three
    providers, a keyword filter chosen by four buttons, and the way each
    cell value is drawn. */
module Comparison {
  import Lists
  import Text

  /** A cell of the table: a yes/no flag or a piece of text (the text
      "partial" is drawn specially). */
  datatype CellValue = Flag(b: bool) | Words(s: string)

  /** One row: the feature and the value for each provider column. */
  datatype Feature = Feature(name: string, creditGuard: CellValue, experian: CellValue, transUnion: CellValue)

  const Yes := Flag(true)
  const No := Flag(false)
  const Partial := Words("partial")

  /** The table's rows, in display order. */
  const Features: seq<Feature> := [
    Feature("Real-time Credit Monitoring", Yes, Yes, Yes),
    Feature("Instant Credit Decisions (<1s)", Yes, Partial, No),
    Feature("Fraud Detection AI", Yes, Yes, Partial),
    Feature("Custom Risk Scoring Models", Yes, Partial, No),
    Feature("API Response Time", Words("<50ms"), Words("~200ms"), Words("~300ms")),
    Feature("Data Accuracy Rate", Words("99.8%"), Words("98.5%"), Words("97.9%")),
    Feature("Global Coverage", Yes, Yes, Partial),
    Feature("White-label Solutions", Yes, No, No),
    Feature("Dedicated Support", Words("24/7"), Words("Business Hours"), Words("Business Hours")),
    Feature("Custom Integrations", Yes, Partial, No),
    Feature("Compliance Dashboard", Yes, Yes, Yes),
    Feature("Historical Data (Years)", Words("10+"), Words("7"), Words("7"))
  ]

  /** The values of the four filter buttons, in button order. */
  const FilterValues: seq<string> := ["all", "speed", "features", "support"]

  // ---------------------------------------------------------------------
  // Filtering

  /** The predicate passed to `features.filter`: a case-sensitive keyword
      test for the three named filters; "all" and any other value keep the
      row. */
  predicate KeepFeature(name: string, filter: string)
  {
    if filter == "all" then true
    else if filter == "speed" then Text.Includes(name, "Time") || Text.Includes(name, "Instant")
    else if filter == "features" then Text.Includes(name, "Detection") || Text.Includes(name, "Scoring")
    else if filter == "support" then Text.Includes(name, "Support") || Text.Includes(name, "Dashboard")
    else true
  }

  /** The row test handed to `filter`. */
  function KeepRow(filter: string): Feature -> bool
  {
    (ft: Feature) => KeepFeature(ft.name, filter)
  }

  /** `filteredFeatures`: the rows the current filter keeps. */
  function FilterFeatures(features: seq<Feature>, filter: string): seq<Feature>
  {
    Lists.Filter(features, KeepRow(filter))
  }

  /** The keywords a filter looks for; none for "all" and unknown values. */
  function Keywords(filter: string): (ks: seq<string>)
    ensures |ks| == 0 || |ks| == 2
    ensures ks == [] <==> filter !in FilterValues[1..]
  {
    if filter == "speed" then ["Time", "Instant"]
    else if filter == "features" then ["Detection", "Scoring"]
    else if filter == "support" then ["Support", "Dashboard"]
    else []
  }

  /** Any filtered view lists rows of the table, in table order, each kept
      row being one whose name contains a keyword of the filter (or any row
      when the filter has no keywords); no qualifying row is dropped. */
  lemma FilterFeaturesSpec(features: seq<Feature>, filter: string)
    ensures Lists.IsSublist(FilterFeatures(features, filter), features)
    ensures |FilterFeatures(features, filter)| <= |features|
    ensures forall ft :: ft in FilterFeatures(features, filter) ==>
              ft in features && (Keywords(filter) == [] || exists k :: k in Keywords(filter) && Text.Occurs(ft.name, k))
    ensures forall ft :: ft in features && (Keywords(filter) == [] || exists k :: k in Keywords(filter) && Text.Occurs(ft.name, k)) ==>
              ft in FilterFeatures(features, filter)
    ensures forall ft :: multiset(FilterFeatures(features, filter))[ft] ==
              if KeepFeature(ft.name, filter) then multiset(features)[ft] else 0
  {
    Lists.FilterSpec(features, KeepRow(filter));
    forall ft: Feature
      ensures KeepFeature(ft.name, filter) <==>
        (Keywords(filter) == [] || exists k :: k in Keywords(filter) && Text.Occurs(ft.name, k))
    {
      KeepFeatureIff(ft.name, filter);
    }
  }

  /** The filter predicate is "the name contains one of the keywords". */
  lemma KeepFeatureIff(name: string, filter: string)
    ensures KeepFeature(name, filter) <==>
      (Keywords(filter) == [] || exists k :: k in Keywords(filter) && Text.Occurs(name, k))
  {
    var ks := Keywords(filter);
    if ks != [] {
      Text.IncludesIffOccurs(name, ks[0]);
      Text.IncludesIffOccurs(name, ks[1]);
      assert forall k :: k in ks <==> k == ks[0] || k == ks[1];
    }
  }

  /** "all", and any value that is not a named filter, shows every row in
      table order. */
  lemma NoKeywordsShowsAll(features: seq<Feature>, filter: string)
    requires filter !in FilterValues[1..]
    ensures FilterFeatures(features, filter) == features
  {
    Lists.FilterKeepsAll(features, KeepRow(filter));
  }

  /** Matching is case-sensitive: without a capital T and a capital I a
      name cannot contain "Time" or "Instant". */
  lemma SpeedNeedsCapitals(name: string)
    requires 'T' !in name && 'I' !in name
    ensures !KeepFeature(name, "speed")
  {
    Text.NotIncludedMissingChar(name, "Time", 'T');
    Text.NotIncludedMissingChar(name, "Instant", 'I');
  }

  lemma RealTimeLacksCapitals()
    ensures 'T' !in "Real-time Credit Monitoring" && 'I' !in "Real-time Credit Monitoring"
  {
  }

  /** "speed" drops "Real-time Credit Monitoring", whose "time" is
      lower-case... */
  lemma SpeedDropsRealTime()
    ensures Features[0].name == "Real-time Credit Monitoring"
    ensures !KeepFeature("Real-time Credit Monitoring", "speed")
  {
    RealTimeLacksCapitals();
    SpeedNeedsCapitals("Real-time Credit Monitoring");
  }

  /** ...but keeps "API Response Time". */
  lemma SpeedKeepsResponseTime()
    ensures Features[4].name == "API Response Time"
    ensures KeepFeature("API Response Time", "speed")
  {
    Text.IncludedAt("API Response Time", "Time", 13);
  }

  function FeatureName(ft: Feature): string
  {
    ft.name
  }

  /** Rows are keyed by name: no two rows share a name. */
  predicate NamesDistinct(features: seq<Feature>)
  {
    Lists.KeysDistinct(features, FeatureName)
  }

  /** Filtering keeps the names distinct, so the rows' keys never clash. */
  lemma FilteredRowKeysDistinct(features: seq<Feature>, filter: string)
    requires NamesDistinct(features)
    ensures NamesDistinct(FilterFeatures(features, filter))
  {
    FilterFeaturesSpec(features, filter);
    Lists.SublistKeysDistinct(FilterFeatures(features, filter), features, FeatureName);
  }

  /** A number that tells the table's twelve names apart: the length and
      the first letter. */
  function NameCode(name: string): int
  {
    if name == [] then 0 else |name| * 128 + name[0] as int
  }

  /** `NameCode` of each row of the table, in order. */
  const NameCodes: seq<int> := [
    27 * 128 + 'R' as int, 30 * 128 + 'I' as int, 18 * 128 + 'F' as int, 26 * 128 + 'C' as int,
    17 * 128 + 'A' as int, 18 * 128 + 'D' as int, 15 * 128 + 'G' as int, 21 * 128 + 'W' as int,
    17 * 128 + 'D' as int, 19 * 128 + 'C' as int, 20 * 128 + 'C' as int, 23 * 128 + 'H' as int]

  lemma FeatureCodesListed()
    ensures |Features| == 12
    ensures forall i :: 0 <= i < 12 ==> NameCode(Features[i].name) == NameCodes[i]
  {
  }

  lemma NameCodesDistinct()
    ensures forall i, j :: 0 <= i < j < |NameCodes| ==> NameCodes[i] != NameCodes[j]
  {
  }

  /** The table's rows have pairwise different names. */
  lemma FeatureNamesDistinct()
    ensures NamesDistinct(Features)
  {
    FeatureCodesListed();
    NameCodesDistinct();
    forall i, j | 0 <= i < j < |Features|
      ensures FeatureName(Features[i]) != FeatureName(Features[j])
    {
      assert NameCode(Features[i].name) != NameCode(Features[j].name);
    }
  }

  // ---------------------------------------------------------------------
  // Drawing a cell

  /** The three provider columns. */
  datatype Column = CreditGuard | Experian | TransUnion

  /** What `renderValue` draws: a check mark on a circle of the given
      background colour, a cross, a minus, or the value's own text. */
  datatype Mark = Check(background: string) | Cross | Dash | Plain(text: string)

  /** The check circle is solid emerald in the product's own column and
      pale elsewhere. */
  function CheckBackground(column: Column): (colour: string)
    ensures colour == "#10b981" <==> column == CreditGuard
  {
    if column == CreditGuard then "#10b981" else "#d1fae5"
  }

  /** `renderValue`: a dispatch on the cell value, tried in the order
      true, false, "partial", anything else. */
  function RenderValue(value: CellValue, column: Column): Mark
  {
    if value == Flag(true) then Check(CheckBackground(column))
    else if value == Flag(false) then Cross
    else if value == Partial then Dash
    else Plain(value.s)
  }

  /** Every value is drawn one way, and the way it is drawn tells the value
      back: distinct values in a column never look the same, and text is
      shown as it is (never the word "partial"). */
  lemma RenderValueClassifies(value: CellValue, column: Column)
    ensures RenderValue(value, column).Check? <==> value == Flag(true)
    ensures RenderValue(value, column).Cross? <==> value == Flag(false)
    ensures RenderValue(value, column).Dash? <==> value == Words("partial")
    ensures RenderValue(value, column).Plain? <==> value.Words? && value.s != "partial"
    ensures RenderValue(value, column).Plain? ==> RenderValue(value, column).text == value.s
  {
  }

  /** The value a drawn mark stands for. */
  function Unrender(m: Mark): CellValue
  {
    match m
    case Check(_) => Flag(true)
    case Cross => Flag(false)
    case Dash => Partial
    case Plain(t) => Words(t)
  }

  /** Reading a drawn cell gives back the value it was drawn from; hence
      `RenderValue` is injective in each column. */
  lemma RenderValueRoundTrip(value: CellValue, column: Column)
    ensures Unrender(RenderValue(value, column)) == value
  {
  }

  lemma RenderValueInjective(v: CellValue, w: CellValue, column: Column)
    requires RenderValue(v, column) == RenderValue(w, column)
    ensures v == w
  {
    RenderValueRoundTrip(v, column);
    RenderValueRoundTrip(w, column);
  }

  // ---------------------------------------------------------------------
  // The component

  /** The table's filter state; the rows on screen are derived from it. */
  class ComparisonTable {
    var filter: string

    /** The rows on screen. */
    function Rows(): (rows: seq<Feature>)
      reads this
      ensures Lists.IsSublist(rows, Features)
      ensures forall ft :: ft in rows <==> ft in Features && KeepFeature(ft.name, filter)
      ensures forall ft :: multiset(rows)[ft] == if KeepFeature(ft.name, filter) then multiset(Features)[ft] else 0
      ensures NamesDistinct(rows)
    {
      Lists.FilterSpec(Features, KeepRow(filter));
      FeatureNamesDistinct();
      FilteredRowKeysDistinct(Features, filter);
      FilterFeatures(Features, filter)
    }

    /** The table opens on "All Features": every row, in order. */
    constructor ()
      ensures filter == "all" && Rows() == Features
    {
      filter := "all";
      new;
      NoKeywordsShowsAll(Features, "all");
    }

    /** A filter button's click. */
    method SetFilter(value: string)
      requires value in FilterValues
      modifies this
      ensures filter == value
      ensures forall ft :: ft in Rows() <==> ft in Features && KeepFeature(ft.name, value)
    {
      filter := value;
      Lists.FilterSpec(Features, KeepRow(filter));
    }
  }
}

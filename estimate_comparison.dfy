/** Side-by-side comparison of contractors' estimates
    (src/components/EstimateComparison.tsx): a selection of at most three
    estimates, the lowest, highest and average total of the selected ones, and
    the rule-based remarks shown under them. */
module EstimateComparison {
  import opened Common
  import opened Types

  // ---------------------------------------------------------------------------
  // The selection
  // ---------------------------------------------------------------------------

  const MaxSelected := 3

  /** `estimates.slice(0, 3).map(e => e.id)`. */
  function InitialSelection(estimates: seq<Estimate>): (selection: seq<string>)
    ensures |selection| == if |estimates| < MaxSelected then |estimates| else MaxSelected
    ensures forall i :: 0 <= i < |selection| ==> selection[i] == estimates[i].id
  {
    MapSeq(if |estimates| < MaxSelected then estimates else estimates[..MaxSelected], EstimateId)
  }

  /** `toggleEstimateSelection(id)`: a selected id is dropped; an unselected one is
      appended while fewer than three are selected; otherwise nothing changes. */
  function Toggle(selection: seq<string>, id: string): (r: seq<string>)
    ensures id in selection ==> id !in r && IsSubsequence(r, selection)
    ensures id in selection ==> forall x :: x in selection && x != id ==> x in r
    ensures id !in selection && |selection| < MaxSelected ==> r == selection + [id]
    ensures id !in selection && |selection| >= MaxSelected ==> r == selection
  {
    if id in selection then
      WithoutIsSubsequence(selection, TagText, id);
      Without(selection, TagText, id)
    else if |selection| < MaxSelected then selection + [id]
    else selection
  }

  /** The selection never holds more than three ids nor any id twice. */
  lemma ToggleKeepsSelectionValid(selection: seq<string>, id: string)
    requires |selection| <= MaxSelected && NoDuplicates(selection)
    ensures |Toggle(selection, id)| <= MaxSelected && NoDuplicates(Toggle(selection, id))
  {
    var r := Toggle(selection, id);
    if id in selection {
      WithoutIsSubsequence(selection, TagText, id);
      SubsequenceNoDuplicates(r, selection);
    }
  }

  /** Toggling an unselected id twice while there is room gives the selection
      back. (A selected id toggled twice is dropped and then appended, so it
      moves to the end.) */
  lemma ToggleAddThenRemove(selection: seq<string>, id: string)
    requires id !in selection && |selection| < MaxSelected
    ensures Toggle(Toggle(selection, id), id) == selection
  {
    assert Toggle(selection, id) == selection + [id];
    assert forall x :: x in selection ==> TagText(x) != id;
    WithoutAppend(selection, [id], TagText, id);
    WithoutAbsent(selection, TagText, id);
    assert Without([id], TagText, id) == [];
  }

  /** `estimates.filter(e => selectedEstimates.includes(e.id))`. */
  function Selected(estimates: seq<Estimate>, selection: seq<string>): (selected: seq<Estimate>)
    ensures |selected| <= |estimates|
    ensures forall e :: e in selected ==> e in estimates && e.id in selection
    ensures forall e :: e in estimates && e.id in selection ==> e in selected
    ensures IsSubsequence(selected, estimates)
  {
    if estimates == [] then []
    else
      var rest := Selected(estimates[1..], selection);
      if estimates[0].id in selection then
        assert ([estimates[0]] + rest)[1..] == rest;
        [estimates[0]] + rest
      else
        SubsequenceOfTail(rest, estimates);
        rest
  }

  // ---------------------------------------------------------------------------
  // Prices
  // ---------------------------------------------------------------------------

  function Totals(selected: seq<Estimate>): (totals: seq<int>)
    ensures |totals| == |selected| && forall i :: 0 <= i < |selected| ==> totals[i] == selected[i].totalAmount
  {
    seq(|selected|, i requires 0 <= i < |selected| => selected[i].totalAmount)
  }

  /** `Math.min(...xs)` of a non-empty list. */
  function MinOf(xs: seq<int>): (m: int)
    requires xs != []
    ensures m in xs && forall x :: x in xs ==> m <= x
  {
    if |xs| == 1 then xs[0]
    else
      var rest := MinOf(xs[1..]);
      assert forall x :: x in xs ==> x == xs[0] || x in xs[1..];
      if xs[0] < rest then xs[0] else rest
  }

  /** `Math.max(...xs)` of a non-empty list. */
  function MaxOf(xs: seq<int>): (m: int)
    requires xs != []
    ensures m in xs && forall x :: x in xs ==> x <= m
  {
    if |xs| == 1 then xs[0]
    else
      var rest := MaxOf(xs[1..]);
      assert forall x :: x in xs ==> x == xs[0] || x in xs[1..];
      if xs[0] > rest then xs[0] else rest
  }

  /** `xs.reduce((a, b) => a + b, 0)`. */
  function Sum(xs: seq<int>): int {
    if xs == [] then 0 else Sum(xs[..|xs| - 1]) + xs[|xs| - 1]
  }

  /** The sum lies between `|xs|` times the minimum and `|xs|` times the maximum. */
  lemma {:induction false} SumBounds(xs: seq<int>, lo: int, hi: int)
    requires forall x :: x in xs ==> lo <= x <= hi
    ensures |xs| * lo <= Sum(xs) <= |xs| * hi
  {
    if xs != [] {
      var init := xs[..|xs| - 1];
      assert forall x :: x in init ==> x in xs;
      SumBounds(init, lo, hi);
      var n, last := |init|, xs[|xs| - 1];
      assert last in xs;
      assert Sum(xs) == Sum(init) + last;
      assert |xs| * lo == n * lo + lo && |xs| * hi == n * hi + hi;
    }
  }

  /** The average lies between the lowest and the highest total. */
  lemma AverageBetween(totals: seq<int>)
    requires totals != []
    ensures (MinOf(totals) as real) <= (Sum(totals) as real) / (|totals| as real) <= (MaxOf(totals) as real)
  {
    var n := |totals|;
    SumBounds(totals, MinOf(totals), MaxOf(totals));
    QuotientBetween(Sum(totals), n, MinOf(totals), MaxOf(totals));
  }

  /** JavaScript's `((num / den) * 100) > k` on integers: a division by zero gives
      an infinity of the sign of `num`, or `NaN` when `num` is zero. */
  predicate PercentExceeds(num: int, den: int, k: int) {
    if den != 0 then ((num as real) / (den as real)) * 100.0 > (k as real)
    else num > 0
  }

  /** The same comparison on integers only. */
  lemma PercentExceedsIff(num: int, den: int, k: int)
    ensures den > 0 ==> (PercentExceeds(num, den, k) <==> 100 * num > k * den)
    ensures den < 0 ==> (PercentExceeds(num, den, k) <==> 100 * num < k * den)
    ensures den == 0 ==> (PercentExceeds(num, den, k) <==> num > 0)
  {
    if den != 0 {
      var q := (num as real) / (den as real);
      assert q * (den as real) == num as real;
      assert (q * 100.0) * (den as real) == ((100 * num) as real);
      if den > 0 {
        assert q * 100.0 > (k as real) <==> (q * 100.0) * (den as real) > (k as real) * (den as real);
      } else {
        assert q * 100.0 > (k as real) <==> (q * 100.0) * (den as real) < (k as real) * (den as real);
      }
    }
  }

  /** The marks of one price in the comparison table (`PriceComparisonCell`). */
  datatype PriceMarks = PriceMarks(isLowest: bool, isHighest: bool, showsIncrease: bool, showsLowestLabel: bool)

  function PriceCell(price: int, lowestPrice: int, highestPrice: int): (marks: PriceMarks)
    ensures marks.isLowest <==> price == lowestPrice
    ensures marks.isHighest <==> price == highestPrice
    ensures marks.showsLowestLabel <==> marks.isLowest
    ensures marks.showsIncrease ==> !marks.isLowest
  {
    var isLowest := price == lowestPrice;
    PriceMarks(isLowest, price == highestPrice, !isLowest && PercentExceeds(price - lowestPrice, lowestPrice, 0), isLowest)
  }

  /** With a non-negative lowest price that really is the lowest, the increase is
      shown exactly for the prices above it. */
  lemma PriceCellIncrease(price: int, lowestPrice: int, highestPrice: int)
    requires 0 <= lowestPrice <= price
    ensures PriceCell(price, lowestPrice, highestPrice).showsIncrease <==> price > lowestPrice
  {
    PercentExceedsIff(price - lowestPrice, lowestPrice, 0);
  }

  // ---------------------------------------------------------------------------
  // Item names
  // ---------------------------------------------------------------------------

  /** The lower-cased names of the items, in order. */
  function NamesOf(items: seq<EstimateItem>): (names: seq<string>)
    ensures |names| == |items| && forall i :: 0 <= i < |items| ==> names[i] == Lower(items[i].name)
  {
    if items == [] then [] else NamesOf(items[..|items| - 1]) + [Lower(items[|items| - 1].name)]
  }

  /** `set.add(name)` on a set kept in insertion order. */
  function AddName(names: seq<string>, name: string): (r: seq<string>)
    ensures forall x :: x in r <==> x in names || x == name
    ensures NoDuplicates(names) ==> NoDuplicates(r)
  {
    if name in names then names else names + [name]
  }

  function AddNames(acc: seq<string>, names: seq<string>): (r: seq<string>)
    ensures forall x :: x in r <==> x in acc || x in names
    ensures NoDuplicates(acc) ==> NoDuplicates(r)
  {
    if names == [] then acc
    else
      var init := names[..|names| - 1];
      assert forall x :: x in names <==> x in init || x == names[|names| - 1];
      AddName(AddNames(acc, init), names[|names| - 1])
  }

  /** `allItemNames`: every lower-cased item name of the selected estimates, each
      once, in the order first met. */
  function AllItemNames(selected: seq<Estimate>): seq<string> {
    if selected == [] then []
    else AddNames(AllItemNames(selected[..|selected| - 1]), NamesOf(selected[|selected| - 1].items))
  }

  predicate HasItemNamed(estimate: Estimate, name: string) {
    name in NamesOf(estimate.items)
  }

  /** Some selected estimate has an item of this name. */
  predicate NamedIn(selected: seq<Estimate>, name: string) {
    exists j :: 0 <= j < |selected| && HasItemNamed(selected[j], name)
  }

  lemma NamedInSnoc(selected: seq<Estimate>, name: string)
    requires selected != []
    ensures NamedIn(selected, name) <==>
      NamedIn(selected[..|selected| - 1], name) || HasItemNamed(selected[|selected| - 1], name)
  {
    var init := selected[..|selected| - 1];
    if NamedIn(init, name) {
      var j :| 0 <= j < |init| && HasItemNamed(init[j], name);
      assert selected[j] == init[j];
    }
    if NamedIn(selected, name) {
      var j :| 0 <= j < |selected| && HasItemNamed(selected[j], name);
      if j < |init| {
        assert init[j] == selected[j];
      }
    }
  }

  /** The union holds each name of some selected estimate, and only those, once. */
  lemma {:induction false} AllItemNamesSpec(selected: seq<Estimate>)
    ensures NoDuplicates(AllItemNames(selected))
    ensures forall name :: name in AllItemNames(selected) <==> NamedIn(selected, name)
  {
    if selected != [] {
      var init := selected[..|selected| - 1];
      AllItemNamesSpec(init);
      forall name ensures name in AllItemNames(selected) <==> NamedIn(selected, name) {
        NamedInSnoc(selected, name);
      }
    }
  }

  /** `[...allItemNames].filter(name => !estimateItemNames.has(name))`. */
  function MissingNames(names: seq<string>, estimate: Estimate): (missing: seq<string>)
    ensures forall x :: x in missing <==> x in names && !HasItemNamed(estimate, x)
  {
    if names == [] then []
    else
      assert forall x :: x in names <==> x == names[0] || x in names[1..];
      (if HasItemNamed(estimate, names[0]) then [] else [names[0]]) + MissingNames(names[1..], estimate)
  }

  /** `xs.join(sep)`. */
  function Join(xs: seq<string>, sep: string): string {
    if xs == [] then ""
    else if |xs| == 1 then xs[0]
    else xs[0] + sep + Join(xs[1..], sep)
  }

  // ---------------------------------------------------------------------------
  // Remarks
  // ---------------------------------------------------------------------------

  datatype InsightKind = Warning | Info | Success

  /** A remark under the comparison, by the rule that produced it. */
  datatype Insight =
    | MissingItems(contractorName: string, missing: seq<string>)
    | PriceSpread(lowestPrice: int, highestPrice: int)
    | NoMaterials

  function Kind(insight: Insight): InsightKind {
    match insight
    case MissingItems(_, _) => Warning
    case PriceSpread(_, _) => Info
    case NoMaterials => Warning
  }

  /** `missing.slice(0, 2)`: the names a missing-items warning cites. */
  function CitedNames(missing: seq<string>): (cited: seq<string>)
    ensures |cited| == if |missing| < 2 then |missing| else 2
    ensures cited == missing[..|cited|]
  {
    if |missing| < 2 then missing else missing[..2]
  }

  /** `priceDiffPercent.toFixed(0)`: the spread as a whole percentage, rounded
      to the nearest integer, or `Infinity` when the lowest total is 0. */
  function SpreadPercent(lowestPrice: int, highestPrice: int): (s: string)
    ensures lowestPrice == 0 ==> s == "Infinity"
    ensures lowestPrice != 0 ==> exists p {:trigger ShowInt(p)} ::
      (s == ShowInt(p) && (p as real) <= (100 * (highestPrice - lowestPrice)) as real / lowestPrice as real + 0.5 < (p as real) + 1.0)
  {
    if lowestPrice != 0 then
      var p := RoundDiv(100 * (highestPrice - lowestPrice), lowestPrice);
      ShowInt(p)
    else "Infinity"
  }

  const MissingItemsLead := " nie uwzględnia: "
  const SpreadLead := "Różnica między ofertami wynosi "
  const SpreadTail := "% - zapytaj o szczegóły"
  const NoMaterialsText := "Niektóre wyceny mogą nie zawierać materiałów - potwierdź z wykonawcą"

  /** The text shown: a missing-items warning names the contractor and cites at
      most the first two missing names; the spread note gives the rounded
      percentage; the materials warning is fixed. */
  function Text(insight: Insight): (t: string)
    ensures insight.MissingItems? ==> t == insight.contractorName + MissingItemsLead + Join(CitedNames(insight.missing), ", ")
    ensures insight.PriceSpread? ==> t == SpreadLead + SpreadPercent(insight.lowestPrice, insight.highestPrice) + SpreadTail
    ensures insight.NoMaterials? ==> t == NoMaterialsText
  {
    match insight
    case MissingItems(contractorName, missing) =>
      contractorName + MissingItemsLead + Join(CitedNames(missing), ", ")
    case PriceSpread(lowestPrice, highestPrice) =>
      SpreadLead + SpreadPercent(lowestPrice, highestPrice) + SpreadTail
    case NoMaterials =>
      NoMaterialsText
  }

  const MaterialsCategory := "materiały"

  predicate IncludesMaterials(estimate: Estimate) {
    exists i :: 0 <= i < |estimate.items| && estimate.items[i].category == Some(MaterialsCategory)
  }

  /** One warning per selected estimate that lacks some of the names, in order. */
  function MissingWarnings(names: seq<string>, selected: seq<Estimate>): seq<Insight> {
    if selected == [] then []
    else
      var last := selected[|selected| - 1];
      var missing := MissingNames(names, last);
      MissingWarnings(names, selected[..|selected| - 1])
      + (if |missing| > 0 then [MissingItems(last.contractorName, missing)] else [])
  }

  /** The number of warnings is the number of selected estimates lacking a name. */
  function LackingCount(names: seq<string>, selected: seq<Estimate>): (n: nat)
    ensures n <= |selected|
  {
    if selected == [] then 0
    else LackingCount(names, selected[..|selected| - 1]) + (if |MissingNames(names, selected[|selected| - 1]) | > 0 then 1 else 0)
  }

  lemma {:induction false} MissingWarningsCount(names: seq<string>, selected: seq<Estimate>)
    ensures |MissingWarnings(names, selected)| == LackingCount(names, selected)
    ensures forall w :: w in MissingWarnings(names, selected) ==> w.MissingItems?
  {
    if selected != [] {
      MissingWarningsCount(names, selected[..|selected| - 1]);
    }
  }

  /** An estimate gets a warning exactly when some other selected estimate has an
      item name it lacks. */
  lemma LacksSomeNameIff(selected: seq<Estimate>, estimate: Estimate)
    ensures |MissingNames(AllItemNames(selected), estimate)| > 0 <==>
      exists j, name :: 0 <= j < |selected| && HasItemNamed(selected[j], name) && !HasItemNamed(estimate, name)
  {
    AllItemNamesSpec(selected);
    var missing := MissingNames(AllItemNames(selected), estimate);
    if |missing| > 0 {
      assert missing[0] in missing;
      var j :| 0 <= j < |selected| && HasItemNamed(selected[j], missing[0]);
    }
    if exists j, name :: 0 <= j < |selected| && HasItemNamed(selected[j], name) && !HasItemNamed(estimate, name) {
      var j, name :| 0 <= j < |selected| && HasItemNamed(selected[j], name) && !HasItemNamed(estimate, name);
      assert name in missing;
    }
  }

  // ---------------------------------------------------------------------------
  // The comparison
  // ---------------------------------------------------------------------------

  datatype Comparison = Comparison(
    selected: seq<Estimate>,
    lowestPrice: int,
    highestPrice: int,
    avgPrice: real,
    insights: seq<Insight>)

  predicate SomeLacksMaterials(selected: seq<Estimate>) {
    exists j :: 0 <= j < |selected| && !IncludesMaterials(selected[j])
  }

  /** The remarks in the order the component pushes them. */
  function InsightsOf(selected: seq<Estimate>, lowestPrice: int, highestPrice: int): seq<Insight> {
    MissingWarnings(AllItemNames(selected), selected)
    + (if PercentExceeds(highestPrice - lowestPrice, lowestPrice, 20) then [PriceSpread(lowestPrice, highestPrice)] else [])
    + (if SomeLacksMaterials(selected) then [NoMaterials] else [])
  }

  /** `comparisonData`: nothing when no estimate is selected. */
  function ComparisonOf(estimates: seq<Estimate>, selection: seq<string>): Option<Comparison> {
    var selected := Selected(estimates, selection);
    if |selected| == 0 then None
    else
      var totals := Totals(selected);
      var lowest, highest := MinOf(totals), MaxOf(totals);
      Some(Comparison(selected, lowest, highest, (Sum(totals) as real) / (|totals| as real),
                      InsightsOf(selected, lowest, highest)))
  }

  /** The first loop of `comparisonData`: every item name of every selected
      estimate, lower-cased, added to an insertion-ordered set. */
  method CollectItemNames(selected: seq<Estimate>) returns (allItemNames: seq<string>)
    ensures allItemNames == AllItemNames(selected)
  {
    allItemNames := [];
    for i := 0 to |selected|
      invariant allItemNames == AllItemNames(selected[..i])
    {
      allItemNames := AddItemNames(allItemNames, selected[i].items);
      assert selected[..i + 1][..i] == selected[..i];
    }
    assert selected[..|selected|] == selected;
  }

  /** The inner loop: each lower-cased item name added to the set in turn. */
  method AddItemNames(acc: seq<string>, items: seq<EstimateItem>) returns (r: seq<string>)
    ensures r == AddNames(acc, NamesOf(items))
  {
    r := acc;
    for j := 0 to |items|
      invariant r == AddNames(acc, NamesOf(items[..j]))
    {
      ghost var names := NamesOf(items[..j + 1]);
      assert items[..j + 1][..j] == items[..j];
      assert names[..|names| - 1] == NamesOf(items[..j]);
      r := AddName(r, Lower(items[j].name));
    }
    assert items[..|items|] == items;
  }

  /** The second loop of `comparisonData`: a warning pushed for each selected
      estimate that lacks some of the names. */
  method CollectMissingWarnings(allItemNames: seq<string>, selected: seq<Estimate>) returns (insights: seq<Insight>)
    ensures insights == MissingWarnings(allItemNames, selected)
  {
    insights := [];
    for i := 0 to |selected|
      invariant insights == MissingWarnings(allItemNames, selected[..i])
    {
      var missingItems := MissingNames(allItemNames, selected[i]);
      assert selected[..i + 1][..i] == selected[..i];
      if |missingItems| > 0 {
        insights := insights + [MissingItems(selected[i].contractorName, missingItems)];
      }
    }
    assert selected[..|selected|] == selected;
  }

  /** The remarks of `comparisonData`: the missing-item warnings, then the spread
      note and the materials warning when their rules fire. */
  method CollectInsights(selected: seq<Estimate>, lowestPrice: int, highestPrice: int) returns (insights: seq<Insight>)
    ensures insights == InsightsOf(selected, lowestPrice, highestPrice)
  {
    var allItemNames := CollectItemNames(selected);
    insights := CollectMissingWarnings(allItemNames, selected);
    ghost var warnings := insights;
    if PercentExceeds(highestPrice - lowestPrice, lowestPrice, 20) {
      insights := insights + [PriceSpread(lowestPrice, highestPrice)];
    }
    ghost var withSpread := insights;
    assert withSpread == warnings + (if PercentExceeds(highestPrice - lowestPrice, lowestPrice, 20) then [PriceSpread(lowestPrice, highestPrice)] else []);
    var hasNoMaterials := SomeLacksMaterials(selected);
    if hasNoMaterials {
      insights := insights + [NoMaterials];
    }
    assert insights == withSpread + (if hasNoMaterials then [NoMaterials] else []);
  }

  /** The comparison as the component computes it. */
  method ComputeComparison(estimates: seq<Estimate>, selection: seq<string>) returns (data: Option<Comparison>)
    ensures data == ComparisonOf(estimates, selection)
  {
    var selected := Selected(estimates, selection);
    if |selected| == 0 {
      return None;
    }
    var totals := Totals(selected);
    var lowestPrice := MinOf(totals);
    var highestPrice := MaxOf(totals);
    var avgPrice := (Sum(totals) as real) / (|totals| as real);
    var insights := CollectInsights(selected, lowestPrice, highestPrice);
    data := Some(Comparison(selected, lowestPrice, highestPrice, avgPrice, insights));
  }

  /** There is a comparison exactly when some estimate is selected; its estimates
      are the selected ones in the order of the list, its lowest and highest
      prices are the minimum and maximum of their totals, and the average lies
      between them. */
  lemma ComparisonSpec(estimates: seq<Estimate>, selection: seq<string>)
    ensures ComparisonOf(estimates, selection).None? <==> forall e :: e in estimates ==> e.id !in selection
    ensures ComparisonOf(estimates, selection).Some? ==>
      var c := ComparisonOf(estimates, selection).value;
      c.selected == Selected(estimates, selection)
      && (exists e :: e in c.selected && e.totalAmount == c.lowestPrice)
      && (exists e :: e in c.selected && e.totalAmount == c.highestPrice)
      && (forall e :: e in c.selected ==> c.lowestPrice <= e.totalAmount <= c.highestPrice)
      && (c.lowestPrice as real) <= c.avgPrice <= (c.highestPrice as real)
  {
    var selected := Selected(estimates, selection);
    if |selected| != 0 {
      assert selected[0] in estimates && selected[0].id in selection;
      var totals := Totals(selected);
      AverageBetween(totals);
      forall e | e in selected ensures MinOf(totals) <= e.totalAmount <= MaxOf(totals) {
        var i :| 0 <= i < |selected| && selected[i] == e;
        assert totals[i] in totals;
      }
      var lo :| 0 <= lo < |totals| && totals[lo] == MinOf(totals);
      assert selected[lo] in selected;
      var hi :| 0 <= hi < |totals| && totals[hi] == MaxOf(totals);
      assert selected[hi] in selected;
    }
  }

  /** The spread remark appears exactly when the highest total exceeds the lowest
      by more than 20% of it (any positive highest total when the lowest is 0). */
  lemma SpreadInsightIff(lowestPrice: int, highestPrice: int)
    ensures lowestPrice > 0 ==> (PercentExceeds(highestPrice - lowestPrice, lowestPrice, 20) <==> 5 * (highestPrice - lowestPrice) > lowestPrice)
    ensures lowestPrice == 0 ==> (PercentExceeds(highestPrice - lowestPrice, lowestPrice, 20) <==> highestPrice > 0)
  {
    PercentExceedsIff(highestPrice - lowestPrice, lowestPrice, 20);
  }

  /** The remarks: one warning per estimate lacking a name, then the spread note,
      then the materials warning, each exactly when its rule fires. */
  lemma InsightsSpec(selected: seq<Estimate>, lowestPrice: int, highestPrice: int)
    ensures var insights := InsightsOf(selected, lowestPrice, highestPrice);
      var spread := PercentExceeds(highestPrice - lowestPrice, lowestPrice, 20);
      |insights| == LackingCount(AllItemNames(selected), selected) + (if spread then 1 else 0)
        + (if SomeLacksMaterials(selected) then 1 else 0)
      && (spread <==> PriceSpread(lowestPrice, highestPrice) in insights)
      && (SomeLacksMaterials(selected) <==> NoMaterials in insights)
  {
    var w := MissingWarnings(AllItemNames(selected), selected);
    MissingWarningsCount(AllItemNames(selected), selected);
    var spread := PercentExceeds(highestPrice - lowestPrice, lowestPrice, 20);
    var s1: seq<Insight> := if spread then [PriceSpread(lowestPrice, highestPrice)] else [];
    var s2: seq<Insight> := if SomeLacksMaterials(selected) then [NoMaterials] else [];
    var insights := InsightsOf(selected, lowestPrice, highestPrice);
    assert insights == w + s1 + s2;
    assert PriceSpread(lowestPrice, highestPrice) in insights <==> PriceSpread(lowestPrice, highestPrice) in s1;
    assert NoMaterials in insights <==> NoMaterials in s2;
  }
}

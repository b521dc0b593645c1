/** The costs screen (src/screens/CostsScreen.tsx): the budget summary card with
    its bar and colour, one row per section comparing the planned with the
    actual amount, and the screen's fixed budget figures. */
module CostsScreen {
  import opened Common
  import opened Types

  datatype BarColour = Success | Warning | Error

  /** What the summary card derives from planned and spent. */
  datatype Summary = Summary(percentage: JsNumber, remaining: int, isOverBudget: bool, barWidth: JsNumber, colour: BarColour)

  /** `BudgetSummaryCard`: the percentage is not guarded, so a zero plan gives
      an infinity or `NaN`. */
  function SummaryOf(planned: int, spent: int): (s: Summary)
    ensures s.remaining == planned - spent
    ensures s.isOverBudget <==> spent > planned
    ensures s.percentage == RoundedPercent(spent, planned)
    ensures s.barWidth == MinWith(s.percentage, 100)
  {
    var percentage := RoundedPercent(spent, planned);
    var remaining := planned - spent;
    var isOverBudget := remaining < 0;
    var colour := if isOverBudget then Error else if Above(percentage, 80) then Warning else Success;
    Summary(percentage, remaining, isOverBudget, MinWith(percentage, 100), colour)
  }

  /** The colour rule: red over budget, else amber above 80 %, else green. */
  lemma SummaryColour(planned: int, spent: int)
    ensures SummaryOf(planned, spent).colour == Error <==> spent > planned
    ensures SummaryOf(planned, spent).colour == Warning <==> spent <= planned && Above(RoundedPercent(spent, planned), 80)
    ensures planned > 0 && spent <= planned ==>
      (SummaryOf(planned, spent).colour == Warning <==> (100 * spent - 80 * planned) * 2 >= planned)
  {
    if planned > 0 && spent <= planned {
      var p := RoundedPercent(spent, planned);
      assert 100.0 * (spent as real) / (planned as real) == ((100 * spent) as real) / (planned as real);
      RoundAbove(100 * spent, planned, 80);
    }
  }

  /** `Math.round(n / d) > k` on integers, for a positive `d`. */
  lemma RoundAbove(n: int, d: int, k: int)
    requires d > 0
    ensures RoundDiv(n, d) > k <==> (n - k * d) * 2 >= d
  {
    assert RoundDiv(n, d) == (2 * n + d) / (2 * d);
    DivAtLeast(2 * n + d, 2 * d, k + 1);
    assert (k + 1) * (2 * d) == 2 * (k * d) + 2 * d;
  }

  /** Over a positive plan, spending more than planned rounds to at least 100 %
      and fills the bar; spending within the plan stays within [0, 100]. */
  lemma SummaryBar(planned: int, spent: int)
    requires planned > 0
    ensures spent > planned ==> SummaryOf(planned, spent).barWidth == Finite(100)
    ensures 0 <= spent <= planned ==>
      SummaryOf(planned, spent).percentage.Finite?
      && 0 <= SummaryOf(planned, spent).percentage.value <= 100
      && SummaryOf(planned, spent).barWidth == SummaryOf(planned, spent).percentage
  {
    var p := RoundedPercent(spent, planned);
    assert 100.0 * (spent as real) / (planned as real) == ((100 * spent) as real) / (planned as real);
    if spent > planned {
      QuotientBetween(100 * spent, planned, 100, 100 * spent);
    } else if 0 <= spent {
      QuotientBetween(100 * spent, planned, 0, 100);
    }
  }

  /** With nothing planned, any spending shows an infinite percentage and a
      full red bar; nothing spent shows `NaN` and a green bar. */
  lemma SummaryZeroPlan(spent: int)
    ensures spent > 0 ==> SummaryOf(0, spent).barWidth == Finite(100) && SummaryOf(0, spent).colour == Error
    ensures spent == 0 ==> SummaryOf(0, spent).percentage == NaN && SummaryOf(0, spent).colour == Success
  {
  }

  // ---------------------------------------------------------------------------
  // One section row
  // ---------------------------------------------------------------------------

  /** What `CostItemRow` derives: the difference, its rounded percentage of
      the plan (0 without a positive plan), and whether it shows a plus sign
      and the negative style. */
  datatype RowFigures = RowFigures(diff: int, diffPercent: int, showsPlus: bool)

  function RowOf(planned: int, actual: int): (r: RowFigures)
    ensures r.diff == actual - planned
    ensures planned <= 0 ==> r.diffPercent == 0
    ensures r.showsPlus <==> actual > planned
  {
    var diff := actual - planned;
    RowFigures(diff, if planned > 0 then RoundDiv(100 * diff, planned) else 0, diff > 0)
  }

  /** The percentage of a row never has the opposite sign of its difference,
      and it is within half a percent of the exact ratio. */
  lemma RowPercentSign(planned: int, actual: int)
    requires planned > 0
    ensures var r := RowOf(planned, actual);
      (r.diff > 0 ==> r.diffPercent >= 0) && (r.diff < 0 ==> r.diffPercent <= 0) && (r.diff == 0 ==> r.diffPercent == 0)
      && (r.diffPercent as real) <= ((100 * r.diff) as real) / (planned as real) + 0.5 < (r.diffPercent as real) + 1.0
  {
    var diff := actual - planned;
    if diff > 0 {
      QuotientBetween(100 * diff, planned, 0, 100 * diff);
    } else if diff < 0 {
      QuotientBetween(100 * diff, planned, 100 * diff, 0);
    }
  }

  // ---------------------------------------------------------------------------
  // The screen's figures
  // ---------------------------------------------------------------------------

  datatype SectionBudget = SectionBudget(section: SectionType, planned: int, actual: int, contractor: Option<string>)

  const PlannedTotal := 100000
  const SpentTotal := 67500

  const SectionBudgets: seq<SectionBudget> := [
    SectionBudget(Electrical, 30000, 32400, Some("ElektroPro")),
    SectionBudget(Plumbing, 15000, 14200, Some("HydroMax")),
    SectionBudget(Carpentry, 20000, 18500, None),
    SectionBudget(Finishing, 25000, 2400, None),
    SectionBudget(Plan, 5000, 0, None),
    SectionBudget(Costs, 5000, 0, None)
  ]

  function PlannedSum(rows: seq<SectionBudget>): int {
    if rows == [] then 0 else rows[0].planned + PlannedSum(rows[1..])
  }

  function ActualSum(rows: seq<SectionBudget>): int {
    if rows == [] then 0 else rows[0].actual + ActualSum(rows[1..])
  }

  /** The screen's totals agree with its sections; the summary shows 68 % in
      green, and the electrical row 8 % over plan. */
  lemma ScreenFiguresConsistent()
    ensures PlannedSum(SectionBudgets) == PlannedTotal
    ensures ActualSum(SectionBudgets) == SpentTotal
    ensures SummaryOf(PlannedTotal, SpentTotal).percentage == Finite(68)
    ensures SummaryOf(PlannedTotal, SpentTotal).colour == Success
    ensures RowOf(30000, 32400) == RowFigures(2400, 8, true)
  {
    var rows := SectionBudgets;
    assert PlannedSum(rows[5..]) == 5000;
    assert PlannedSum(rows[4..]) == 10000;
    assert PlannedSum(rows[3..]) == 35000;
    assert PlannedSum(rows[2..]) == 55000;
    assert PlannedSum(rows[1..]) == 70000;
    assert ActualSum(rows[5..]) == 0;
    assert ActualSum(rows[4..]) == 0;
    assert ActualSum(rows[3..]) == 2400;
    assert ActualSum(rows[2..]) == 20900;
    assert ActualSum(rows[1..]) == 35100;
  }
}

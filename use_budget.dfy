/** The budget hook `useBudget` (src/hooks/useProject.ts): the figures of the
    current project's budget, with zero for a missing project or field. */
module UseBudget {
  import opened Common
  import opened Types
  import CostsScreen
  import DashboardScreen

  datatype Budget = Budget(planned: int, spent: int, remaining: int, percentage: int, isOverBudget: bool)

  /** `useBudget`: `|| 0` on both fields, the percentage guarded by a positive
      plan. The project id the hook takes plays no part. */
  function BudgetOf(project: Option<Project>): (b: Budget)
    ensures project.None? ==> b.planned == 0 && b.spent == 0
    ensures project.Some? ==> b.planned == project.value.budgetPlanned && b.spent == project.value.budgetSpent
    ensures b.remaining == b.planned - b.spent
    ensures b.isOverBudget <==> b.spent > b.planned
    ensures b.planned <= 0 ==> b.percentage == 0
    ensures b.planned > 0 ==>
      (b.percentage as real) <= 100.0 * (b.spent as real) / (b.planned as real) + 0.5 < (b.percentage as real) + 1.0
  {
    var planned := if project.Some? then project.value.budgetPlanned else 0;
    var spent := if project.Some? then project.value.budgetSpent else 0;
    var remaining := planned - spent;
    var percentage :=
      if planned > 0 then
        assert ((100 * spent) as real) / (planned as real) == 100.0 * (spent as real) / (planned as real);
        RoundDiv(100 * spent, planned)
      else 0;
    Budget(planned, spent, remaining, percentage, remaining < 0)
  }

  /** Within a positive plan the percentage lies in [0, 100]; spending more
      than planned gives at least 100, and over budget means spending the
      full plan and more. */
  lemma BudgetPercentageRange(project: Option<Project>)
    ensures var b := BudgetOf(project);
      (b.planned > 0 && 0 <= b.spent <= b.planned ==> 0 <= b.percentage <= 100)
      && (b.planned > 0 && b.isOverBudget ==> b.percentage >= 100)
  {
    var b := BudgetOf(project);
    if b.planned > 0 {
      assert b.percentage == RoundDiv(100 * b.spent, b.planned);
      PercentRange(b.planned, b.spent);
    }
  }

  lemma PercentRange(planned: int, spent: int)
    requires planned > 0
    ensures 0 <= spent <= planned ==> 0 <= RoundDiv(100 * spent, planned) <= 100
    ensures spent > planned ==> RoundDiv(100 * spent, planned) >= 100
  {
    assert RoundDiv(100 * spent, planned) == (2 * (100 * spent) + planned) / (2 * planned);
    DivAtLeast(2 * (100 * spent) + planned, 2 * planned, 0);
    DivAtLeast(2 * (100 * spent) + planned, 2 * planned, 101);
    DivAtLeast(2 * (100 * spent) + planned, 2 * planned, 100);
  }

  /** The hook and the costs screen's summary card agree on every figure the
      hook computes whenever the plan is positive; with no plan the hook
      reports 0 % where the card has no finite percentage. */
  lemma BudgetAgreesWithSummary(project: Option<Project>)
    ensures var b := BudgetOf(project);
      var s := CostsScreen.SummaryOf(b.planned, b.spent);
      s.remaining == b.remaining && s.isOverBudget == b.isOverBudget
      && (b.planned > 0 ==> s.percentage == Finite(b.percentage))
      && (b.planned == 0 ==> !s.percentage.Finite?)
  {
    var b := BudgetOf(project);
    if b.planned > 0 {
      assert ((100 * b.spent) as real) / (b.planned as real) == 100.0 * (b.spent as real) / (b.planned as real);
    }
  }

  /** The hook and the dashboard widget read the same project; they show the
      same figures exactly when both fields are non-zero. */
  lemma BudgetAgreesWithWidget(project: Option<Project>)
    ensures var b := BudgetOf(project);
      var w := DashboardScreen.WidgetOf(project);
      (w.planned == b.planned && w.spent == b.spent) <==>
        project.Some? && project.value.budgetPlanned != 0 && project.value.budgetSpent != 0
  {
  }
}

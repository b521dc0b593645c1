/** The dashboard (src/screens/DashboardScreen.tsx): the budget widget with its
    demo defaults, the suggestion card showing the first suggestion not yet
    dismissed, and the status mark of each section. */
module DashboardScreen {
  import opened Common
  import opened Types
  import Store

  const DefaultPlanned := 100000
  const DefaultSpent := 45000

  /** `currentProject?.budgetPlanned || 100000`: a missing project or a zero
      plan falls back to the default. */
  function WidgetPlanned(project: Option<Project>): (planned: int)
    ensures planned != 0
    ensures project.Some? && project.value.budgetPlanned != 0 ==> planned == project.value.budgetPlanned
  {
    if project.Some? && project.value.budgetPlanned != 0 then project.value.budgetPlanned else DefaultPlanned
  }

  /** `currentProject?.budgetSpent || 45000`. */
  function WidgetSpent(project: Option<Project>): int {
    if project.Some? && project.value.budgetSpent != 0 then project.value.budgetSpent else DefaultSpent
  }

  /** What the widget shows: the percentage, the bar width, whether the bar is
      red and whether the spent amount is styled as overspent. */
  datatype Widget = Widget(planned: int, spent: int, percentage: int, barWidth: int, errorColour: bool, overspent: bool)

  function WidgetOf(project: Option<Project>): (w: Widget)
    ensures w.planned == WidgetPlanned(project) && w.spent == WidgetSpent(project)
    ensures w.barWidth <= 100 && (w.barWidth == w.percentage || w.barWidth == 100)
    ensures w.errorColour <==> w.percentage > 100
    ensures w.overspent <==> w.spent > w.planned
  {
    var planned, spent := WidgetPlanned(project), WidgetSpent(project);
    var percentage := RoundDiv(100 * spent, planned);
    Widget(planned, spent, percentage, if percentage < 100 then percentage else 100, percentage > 100, spent > planned)
  }

  /** Because a zero plan is replaced, the widget's percentage is always a
      finite number: the rounded ratio of spent to planned. */
  lemma WidgetPercentage(project: Option<Project>)
    ensures var w := WidgetOf(project);
      RoundedPercent(w.spent, w.planned) == Finite(w.percentage)
  {
    var w := WidgetOf(project);
    assert 100.0 * (w.spent as real) / (w.planned as real) == ((100 * w.spent) as real) / (w.planned as real);
  }

  /** Without a project the widget shows the demo figures, 45 %; a project
      with nothing spent yet also shows 45 000 spent. */
  lemma WidgetDefaults(project: Option<Project>)
    ensures project.None? ==> WidgetOf(project) == Widget(100000, 45000, 45, 45, false, false)
    ensures project.Some? && project.value.budgetSpent == 0 ==> WidgetOf(project).spent == 45000
  {
  }

  /** Over a positive plan the red bar and the overspent style agree except
      within half a percent above the plan, where the amount is already
      overspent but the percentage still rounds to 100. */
  lemma WidgetColourAndOverspent(project: Option<Project>)
    requires WidgetPlanned(project) > 0
    ensures WidgetOf(project).errorColour ==> WidgetOf(project).overspent
    ensures WidgetOf(project).overspent && !WidgetOf(project).errorColour ==>
      2 * (100 * WidgetOf(project).spent - 100 * WidgetOf(project).planned) < WidgetOf(project).planned
  {
    var w := WidgetOf(project);
    assert w.percentage == (2 * (100 * w.spent) + w.planned) / (2 * w.planned);
    if w.errorColour {
      assert (2 * (100 * w.spent) + w.planned) / (2 * w.planned) >= 101;
      DivAtLeast(2 * (100 * w.spent) + w.planned, 2 * w.planned, 101);
    }
    if w.overspent && !w.errorColour {
      DivAtLeast(2 * (100 * w.spent) + w.planned, 2 * w.planned, 101);
    }
  }

  /** `suggestions.find(s => !s.dismissed)`. */
  function ActiveSuggestion(suggestions: seq<AISuggestion>): (r: Option<AISuggestion>)
    ensures r.Some? ==> r.value in suggestions && !r.value.dismissed
    ensures r.None? <==> forall i :: 0 <= i < |suggestions| ==> suggestions[i].dismissed
  {
    if suggestions == [] then None
    else if !suggestions[0].dismissed then Some(suggestions[0])
    else
      var r := ActiveSuggestion(suggestions[1..]);
      assert forall i :: 1 <= i < |suggestions| ==> suggestions[i] == suggestions[1..][i - 1];
      r
  }

  /** The card shows the earliest suggestion not dismissed: every one before it
      is dismissed. */
  lemma {:induction false} ActiveSuggestionIsFirst(suggestions: seq<AISuggestion>)
    requires ActiveSuggestion(suggestions).Some?
    ensures exists i :: (0 <= i < |suggestions| && suggestions[i] == ActiveSuggestion(suggestions).value &&
                         forall j :: 0 <= j < i ==> suggestions[j].dismissed)
  {
    if !suggestions[0].dismissed {
      assert suggestions[0] == ActiveSuggestion(suggestions).value;
    } else {
      ActiveSuggestionIsFirst(suggestions[1..]);
      var i :| 0 <= i < |suggestions[1..]| && suggestions[1..][i] == ActiveSuggestion(suggestions[1..]).value
        && forall j :: 0 <= j < i ==> suggestions[1..][j].dismissed;
      assert suggestions[i + 1] == ActiveSuggestion(suggestions).value;
      assert forall j :: 0 <= j < i + 1 ==> suggestions[j].dismissed by {
        forall j | 0 <= j < i + 1 ensures suggestions[j].dismissed {
          if j > 0 { assert suggestions[j] == suggestions[1..][j - 1]; }
        }
      }
    }
  }

  /** Dismissing the suggestion on the card takes it off the card. */
  lemma DismissActive(suggestions: seq<AISuggestion>)
    requires ActiveSuggestion(suggestions).Some?
    ensures var id := ActiveSuggestion(suggestions).value.id;
      ActiveSuggestion(Store.Dismissed(suggestions, id)).None?
      || ActiveSuggestion(Store.Dismissed(suggestions, id)).value.id != id
  {
    var id := ActiveSuggestion(suggestions).value.id;
    var after := Store.Dismissed(suggestions, id);
    if ActiveSuggestion(after).Some? {
      var s := ActiveSuggestion(after).value;
      var i :| 0 <= i < |after| && after[i] == s;
      assert after[i].dismissed == (suggestions[i].dismissed || suggestions[i].id == id);
    }
  }

  /** `statusIcon`. */
  function StatusIcon(status: SectionStatus): (icon: string)
    ensures icon == "✓" <==> status == Completed
    ensures icon == "◐" <==> status == InProgress
    ensures icon == "○" <==> status == NotStarted
  {
    match status
    case Completed => "✓"
    case InProgress => "◐"
    case NotStarted => "○"
  }
}

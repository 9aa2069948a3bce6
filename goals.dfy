/**
 * The Goals view (components/GoalsTracker.tsx) and the dashboard's goals
 * chart (components/dashboard/FinancialGoals.tsx).
 */
module GoalsView {
  import opened Wrappers
  import opened Types
  import opened Forms
  import opened Progress
  import Store

  /** The share of the target saved so far; the bar is drawn at this width, uncapped. */
  function GoalPercentage(g: Goal): real {
    Percentage(g.currentAmount, g.targetAmount)
  }

  /** A goal whose progress was added through the store never reads over 100 percent. */
  lemma ProgressKeepsBarWithinTarget(g: Goal, amount: real)
    requires g.targetAmount > 0.0
    ensures GoalPercentage(Store.AddProgress(g, amount)) <= 100.0
  {
    PercentageComparesPartToWhole(Store.AddProgress(g, amount).currentAmount, g.targetAmount);
  }

  /** The line under a goal's name. */
  datatype DeadlineLabel = DeadlinePassed | DueToday | DaysLeft(days: nat)

  /**
   * `daysLeft`: the deadline and today, both at midnight, as day numbers;
   * before today the deadline has passed, on today it is due, after it the
   * label counts the days.
   */
  function DeadlineLabelOf(deadline: int, today: int): (l: DeadlineLabel)
    ensures l == DeadlinePassed <==> deadline < today
    ensures l == DueToday <==> deadline == today
    ensures l.DaysLeft? ==> l.days > 0 && today + l.days == deadline
  {
    var diffDays := deadline - today;
    if diffDays < 0 then DeadlinePassed
    else if diffDays == 0 then DueToday
    else DaysLeft(diffDays)
  }

  /** A day later the count drops by one, reaching "due" and then "passed", where it stays. */
  lemma DeadlineLabelCountsDown(deadline: int, today: int)
    ensures match DeadlineLabelOf(deadline, today)
      case DaysLeft(n) => DeadlineLabelOf(deadline, today + 1) == if n == 1 then DueToday else DaysLeft(n - 1)
      case DueToday => DeadlineLabelOf(deadline, today + 1) == DeadlinePassed
      case DeadlinePassed => DeadlineLabelOf(deadline, today + 1) == DeadlinePassed
  {
  }

  /** The goal form: the target is the text of a number input. */
  datatype GoalForm = GoalForm(name: string, targetAmount: string, deadline: string)

  /**
   * `handleSaveGoal`: with name, target and deadline filled, a new goal, or
   * the edited goal with only its name, target and deadline replaced.
   */
  function SaveGoal(form: GoalForm, editing: Option<Goal>, numberOf: string -> real)
    : (r: SaveOutcome<GoalDraft, Goal>)
    ensures r.Rejected? <==> !(Filled(form.name) && Filled(form.targetAmount) && Filled(form.deadline))
    ensures r.Create? ==> editing.None? && r.draft == GoalDraft(form.name, numberOf(form.targetAmount), form.deadline)
    ensures r.Replace? ==> editing.Some? && r.entity.id == editing.value.id
    ensures r.Replace? ==> r.entity.currentAmount == editing.value.currentAmount
    ensures r.Replace? ==>
      r.entity.name == form.name && r.entity.targetAmount == numberOf(form.targetAmount) && r.entity.deadline == form.deadline
  {
    if Filled(form.name) && Filled(form.targetAmount) && Filled(form.deadline) then
      if editing.Some? then
        Replace(editing.value.(name := form.name, targetAmount := numberOf(form.targetAmount), deadline := form.deadline))
      else Create(GoalDraft(form.name, numberOf(form.targetAmount), form.deadline))
    else Rejected
  }

  /** A saved edit, applied to the store, leaves the saved amount of the goal as it was. */
  lemma SavedEditKeepsProgress(form: GoalForm, g: Goal, numberOf: string -> real, prev: Store.FinancialData, i: nat)
    requires SaveGoal(form, Some(g), numberOf).Replace?
    requires i < |prev.goals| && prev.goals[i] == g
    ensures var next := Store.Apply(Store.UpdateGoal(SaveGoal(form, Some(g), numberOf).entity), prev).goals;
      next[i].id == g.id && next[i].currentAmount == g.currentAmount &&
      next[i].name == form.name && next[i].deadline == form.deadline
  {
  }

  /** The "add progress" dialog: the goal it was opened for and the amount typed. */
  datatype ProgressDialog = ProgressDialog(selected: Option<Goal>, amount: string)

  /** `handleUpdateProgress`: the store request it makes, if any, and the dialog afterwards. */
  datatype ProgressSubmit = ProgressSubmit(request: Option<Store.Updater>, dialog: ProgressDialog)

  function SubmitProgress(d: ProgressDialog, numberOf: string -> real): (r: ProgressSubmit)
    ensures r.request.Some? <==> d.selected.Some? && Filled(d.amount)
    ensures r.request.Some? ==>
      r.request.value == Store.UpdateGoalProgress(d.selected.value.id, numberOf(d.amount)) &&
      r.dialog == ProgressDialog(None, "")
    ensures r.request.None? ==> r.dialog == d
  {
    if d.selected.Some? && Filled(d.amount) then
      ProgressSubmit(Some(Store.UpdateGoalProgress(d.selected.value.id, numberOf(d.amount))), ProgressDialog(None, ""))
    else ProgressSubmit(None, d)
  }

  /**
   * The submitted progress reaches exactly the selected goal: the typed
   * amount is added to it, capped at its target; every other goal is unchanged.
   */
  lemma SubmittedProgressReachesGoal(d: ProgressDialog, numberOf: string -> real, prev: Store.FinancialData, i: nat)
    requires SubmitProgress(d, numberOf).request.Some?
    requires i < |prev.goals|
    ensures var next := Store.Apply(SubmitProgress(d, numberOf).request.value, prev).goals;
      |next| == |prev.goals| &&
      (prev.goals[i].id == d.selected.value.id ==>
        next[i] == Store.AddProgress(prev.goals[i], numberOf(d.amount)) &&
        next[i].currentAmount <= next[i].targetAmount && next[i].targetAmount == prev.goals[i].targetAmount) &&
      (prev.goals[i].id != d.selected.value.id ==> next[i] == prev.goals[i])
  {
    Store.GoalProgressRewritesMatches(d.selected.value.id, numberOf(d.amount), prev);
  }

  // The dashboard's goals chart.

  const GoalColors: seq<string> := ["#065F46", "#047857", "#6B7280", "#9CA3AF"]

  /** One bar of the chart: the goal's name, its saved amount and its target. */
  datatype GoalBar = GoalBar(name: string, value: real, target: real)

  /** `chartData`: one bar per goal, in goal order. */
  function ChartData(goals: seq<Goal>): (bars: seq<GoalBar>)
    ensures |bars| == |goals|
    ensures forall i :: 0 <= i < |bars| ==>
      bars[i].name == goals[i].name && bars[i].value == goals[i].currentAmount && bars[i].target == goals[i].targetAmount
  {
    seq(|goals|, i requires 0 <= i < |goals| => GoalBar(goals[i].name, goals[i].currentAmount, goals[i].targetAmount))
  }

  /** `colors[index % colors.length]`. */
  function GoalBarColor(index: nat): (c: string)
    ensures c in GoalColors
    ensures c == GoalColors[index % 4]
  {
    GoalColors[index % 4]
  }

  /** Bars four apart share a colour and neighbours within four differ. */
  lemma GoalColorsCycle(i: nat, j: nat)
    requires i < j
    ensures GoalBarColor(i) == GoalBarColor(j) <==> (j - i) % 4 == 0
  {
    assert (j - i) % 4 == 0 <==> i % 4 == j % 4;
  }

  /** Progress through the store changes no bar but the goal's own, and only its value. */
  lemma ProgressMovesOneBar(goalId: string, amount: real, prev: Store.FinancialData, i: nat)
    requires i < |prev.goals|
    ensures var before := ChartData(prev.goals);
      var after := ChartData(Store.Apply(Store.UpdateGoalProgress(goalId, amount), prev).goals);
      |after| == |before| &&
      after[i].name == before[i].name && after[i].target == before[i].target &&
      (prev.goals[i].id != goalId ==> after[i] == before[i])
  {
    Store.GoalProgressRewritesMatches(goalId, amount, prev);
  }

  /** The demo's Goa goal: 22000 of 50000 saved reads as 44 percent. */
  lemma DemoGoaGoal()
    ensures GoalPercentage(Goal("g1", "Goa Vacation", 50000.0, 22000.0, "")) == 44.0
  {
  }
}

/**
 * The Budgets view (components/Budgets.tsx) and the dashboard's monthly
 * budget card (components/dashboard/MonthlyBudget.tsx): spending per
 * category against each budget's limit.
 */
module BudgetsView {
  import opened Wrappers
  import opened Types
  import opened Forms
  import opened Progress
  import opened Ledger
  import Seqs
  import Grouping

  function CategoryOf(t: Transaction): string {
    t.category
  }

  /** The `(category, amount)` pair of each expense. */
  function SpendingPairs(expenses: seq<Transaction>): seq<(string, real)> {
    Grouping.Pairs(expenses, CategoryOf, Amount)
  }

  /** `spentByCategory`: one pass over the expenses, adding each amount to its category. */
  method SpentByCategory(expenses: seq<Transaction>) returns (spent: Grouping.Groups)
    ensures spent == Grouping.GroupSums(SpendingPairs(expenses))
  {
    var keys, sums := Grouping.Accumulate(SpendingPairs(expenses));
    spent := Grouping.Groups(keys, sums);
  }

  /** `spentByCategory[c] || 0`. */
  function Spent(spent: Grouping.Groups, category: string): real {
    Grouping.Lookup(spent, category)
  }

  /**
   * What a budget shows as spent is the sum of the amounts of exactly the
   * expenses in its category, and 0 when there are none.
   */
  lemma SpentIsCategoryTotal(expenses: seq<Transaction>, category: string)
    ensures Spent(Grouping.GroupSums(SpendingPairs(expenses)), category)
         == Seqs.SumOf(Seqs.Filter(expenses, Grouping.HasKey(CategoryOf, category)), Amount)
    ensures (forall t :: t in expenses ==> t.category != category) ==>
              Spent(Grouping.GroupSums(SpendingPairs(expenses)), category) == 0.0
  {
    Grouping.LookupIsSumFor(SpendingPairs(expenses), category);
    Grouping.SumForIsFilteredSum(expenses, CategoryOf, Amount, category);
    if forall t :: t in expenses ==> t.category != category {
      Grouping.SumForAbsent(SpendingPairs(expenses), category);
    }
  }

  /** The caption under a budget's bar. */
  datatype RemainingLabel = Remaining(amount: real) | Overspent(amount: real)

  /**
   * `remaining = limit - spent`, shown as "Remaining" when it is not
   * negative and otherwise as "Overspent", with its absolute value.
   */
  function RemainingLabelOf(limit: real, spent: real): (l: RemainingLabel)
    ensures l.amount >= 0.0
    ensures l.Overspent? <==> spent > limit
    ensures l.Remaining? ==> spent + l.amount == limit
    ensures l.Overspent? ==> spent - l.amount == limit
  {
    var remaining := limit - spent;
    if remaining >= 0.0 then Remaining(remaining) else Overspent(-remaining)
  }

  /** A budget with a positive limit is overspent exactly when its bar reads over 100 percent, and then the bar is full. */
  lemma OverspentMeansFullBar(limit: real, spent: real)
    requires limit > 0.0
    ensures RemainingLabelOf(limit, spent).Overspent? <==> Percentage(spent, limit) > 100.0
    ensures RemainingLabelOf(limit, spent).Overspent? ==> BarWidth(Percentage(spent, limit)) == 100.0
  {
    PercentageComparesPartToWhole(spent, limit);
  }

  /** The three bar colours. */
  datatype BarColor = PositiveColor | PrimaryColor | NegativeColor

  /** `getProgressBarColor`. */
  function ProgressBarColor(p: real): (c: BarColor)
    ensures c == PositiveColor <==> p < 50.0
    ensures c == PrimaryColor <==> 50.0 <= p < 90.0
    ensures c == NegativeColor <==> p >= 90.0
  {
    if p < 50.0 then PositiveColor
    else if p < 90.0 then PrimaryColor
    else NegativeColor
  }

  /** With a positive limit, the bar turns to the warning colour once 90 percent of the limit is spent, whatever the bar's width. */
  lemma WarningColorAtNinetyPercent(limit: real, spent: real)
    requires limit > 0.0
    ensures ProgressBarColor(Percentage(spent, limit)) == NegativeColor <==> spent * 10.0 >= limit * 9.0
    ensures ProgressBarColor(Percentage(spent, limit)) == PositiveColor <==> spent * 2.0 < limit
  {
    PercentageThreshold(spent, limit, 90.0);
    PercentageThreshold(spent, limit, 50.0);
  }

  /** The budget form: the limit is the text of a number input. */
  datatype BudgetForm = BudgetForm(category: string, limit: string)

  /** `handleSaveBudget`: with category and limit filled, a new budget or the edited one under its own id. */
  function SaveBudget(form: BudgetForm, editing: Option<Budget>, numberOf: string -> real)
    : (r: SaveOutcome<BudgetDraft, Budget>)
    ensures r.Rejected? <==> !(Filled(form.category) && Filled(form.limit))
    ensures r.Create? ==> editing.None? && r.draft == BudgetDraft(form.category, numberOf(form.limit))
    ensures r.Replace? ==> editing.Some? && r.entity == Budget(editing.value.id, form.category, numberOf(form.limit))
  {
    if Filled(form.category) && Filled(form.limit) then
      var data := BudgetDraft(form.category, numberOf(form.limit));
      if editing.Some? then Replace(data.WithId(editing.value.id)) else Create(data)
    else Rejected
  }

  // The dashboard's monthly budget card.

  const BudgetColors: seq<string> := ["bg-[#5252ff]", "bg-[#ff52a8]", "bg-[#f7b731]", "bg-[#14f195]"]

  /** One bar of the card: the category, its percentage spent and its colour. */
  datatype BudgetBar = BudgetBar(name: string, spent: real, color: string)

  /** `budgetData`: one bar per budget, in budget order, coloured by position. */
  function BudgetData(budgets: seq<Budget>, spent: Grouping.Groups): (bars: seq<BudgetBar>)
    ensures |bars| == |budgets|
    ensures forall i :: 0 <= i < |bars| ==> bars[i].name == budgets[i].category
    ensures forall i :: 0 <= i < |bars| ==>
      bars[i].spent == Percentage(Spent(spent, budgets[i].category), budgets[i].limit)
    ensures forall i :: 0 <= i < |bars| ==> bars[i].color == BudgetColors[i % 4]
  {
    seq(|budgets|, i requires 0 <= i < |budgets| =>
      BudgetBar(budgets[i].category, Percentage(Spent(spent, budgets[i].category), budgets[i].limit), BudgetColors[i % 4]))
  }

  /** The colours cycle with period four: bars four apart share a colour, and any four consecutive bars all differ. */
  lemma BudgetColorsCycle(bars: seq<BudgetBar>, budgets: seq<Budget>, spent: Grouping.Groups, i: nat, j: nat)
    requires bars == BudgetData(budgets, spent)
    requires i < j < |bars|
    ensures bars[i].color == bars[j].color <==> (j - i) % 4 == 0
  {
    assert (j - i) % 4 == 0 <==> i % 4 == j % 4;
  }

  /** `budgetData.slice(0, 4)` with the bar widths: at most four bars, never wider than full. */
  function ShownBars(bars: seq<BudgetBar>): (shown: seq<(string, real)>)
    ensures |shown| == if |bars| < 4 then |bars| else 4
    ensures forall i :: 0 <= i < |shown| ==> shown[i] == (bars[i].name, BarWidth(bars[i].spent))
    ensures forall i :: 0 <= i < |shown| ==> shown[i].1 <= 100.0
  {
    var n := if |bars| < 4 then |bars| else 4;
    seq(n, i requires 0 <= i < n => (bars[i].name, BarWidth(bars[i].spent)))
  }

  /** The demo's Food budget: 6500 and 850 spent of 10000 is 73.5 percent, in the middle colour. */
  lemma DemoFoodBudget()
    ensures Percentage(6500.0 + 850.0, 10000.0) == 73.5
    ensures ProgressBarColor(Percentage(6500.0 + 850.0, 10000.0)) == PrimaryColor
    ensures RemainingLabelOf(10000.0, 6500.0 + 850.0) == Remaining(2650.0)
  {
  }
}

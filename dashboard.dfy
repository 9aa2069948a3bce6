/**
 * The dashboard (components/Dashboard.tsx) and its cards: the three
 * summary cards with their mini charts (components/dashboard/SummaryCard.tsx),
 * the last-seven-days expense breakdown
 * (components/dashboard/WeeklyExpenses.tsx) and the monthly savings chart
 * (components/dashboard/SavingsChart.tsx).
 */
module DashboardView {
  import opened Types
  import opened Ledger
  import Seqs
  import Grouping
  import Sorting
  import Store

  /** The figures of the three summary cards. */
  datatype Totals = Totals(income: real, expenses: real, savings: real)

  /** Income and expense totals, and savings as their difference. */
  function DashboardTotals(ts: seq<Transaction>): (r: Totals)
    ensures r.income == TotalIncome(ts) && r.expenses == TotalExpenses(ts)
    ensures r.savings == r.income - r.expenses
  {
    Totals(TotalIncome(ts), TotalExpenses(ts), TotalIncome(ts) - TotalExpenses(ts))
  }

  /** The savings figure is the signed sum of all transactions. */
  lemma SavingsIsSignedSum(ts: seq<Transaction>)
    ensures DashboardTotals(ts).savings == Seqs.SumOf(ts, Signed)
  {
    SignedSumIsNet(ts);
  }

  /** Adding a transaction through the store moves its own total, and the savings, by its amount, and leaves the other total alone. */
  lemma AddingTransactionMovesTotals(draft: TransactionDraft, newId: string, prev: Store.FinancialData)
    ensures var before := DashboardTotals(prev.transactions);
      var after := DashboardTotals(Store.Apply(Store.AddTransaction(draft, newId), prev).transactions);
      (draft.kind == Income ==> after.income == before.income + draft.amount && after.expenses == before.expenses) &&
      (draft.kind == Expense ==> after.expenses == before.expenses + draft.amount && after.income == before.income) &&
      after.savings == before.savings + Signed(draft.WithId(newId))
  {
    var t := draft.WithId(newId);
    var ts := prev.transactions;
    assert Store.Apply(Store.AddTransaction(draft, newId), prev).transactions == ts + [t];
    SplitSnoc(ts, t);
    if t.kind == Income {
      Seqs.SumOfConcat(Incomes(ts), [t], Amount);
      assert Expenses(ts) + [] == Expenses(ts);
    } else {
      Seqs.SumOfConcat(Expenses(ts), [t], Amount);
      assert Incomes(ts) + [] == Incomes(ts);
    }
  }

  // The summary cards' mini charts.

  /** Which card a mini chart belongs to: the savings card passes no type. */
  datatype CardKind = IncomeCard | ExpenseCard | SavingsCard

  function DateOf(t: Transaction): string {
    t.date
  }

  /** The `(date, signed amount)` pairs the savings chart accumulates. */
  function NetPairs(ts: seq<Transaction>): seq<(string, real)> {
    Grouping.Pairs(ts, DateOf, Signed)
  }

  /** `netFlows`: the reduce over the transactions, adding each signed amount to its date. */
  method NetFlows(ts: seq<Transaction>) returns (net: Grouping.Groups)
    ensures net == Grouping.GroupSums(NetPairs(ts))
  {
    var keys, sums := Grouping.Accumulate(NetPairs(ts));
    net := Grouping.Groups(keys, sums);
  }

  /** The points of a card's chart, before the last 30 are taken. */
  function ChartSeries(kind: CardKind, ts: seq<Transaction>): seq<real> {
    match kind
    case IncomeCard => Seqs.Map(Incomes(ts), Amount)
    case ExpenseCard => Seqs.Map(Expenses(ts), Amount)
    case SavingsCard => Grouping.Values(Grouping.GroupSums(NetPairs(ts)))
  }

  /** `data.slice(-30)`: the points plotted. */
  function PlottedSeries(kind: CardKind, ts: seq<Transaction>): (r: seq<real>)
    ensures |r| <= 30 && |r| <= |ChartSeries(kind, ts)|
    ensures |ChartSeries(kind, ts)| >= 30 ==> |r| == 30
    ensures forall k :: 0 <= k < |r| ==> r[k] == ChartSeries(kind, ts)[|ChartSeries(kind, ts)| - |r| + k]
  {
    Seqs.LastN(ChartSeries(kind, ts), 30)
  }

  /** Each chart's points add up to its card's figure: income, expenses, and income minus expenses. */
  lemma ChartSeriesSumsToCard(kind: CardKind, ts: seq<Transaction>)
    ensures Seqs.SumOf(ChartSeries(kind, ts), Seqs.Identity) == match kind
      case IncomeCard => DashboardTotals(ts).income
      case ExpenseCard => DashboardTotals(ts).expenses
      case SavingsCard => DashboardTotals(ts).savings
  {
    match kind
    case IncomeCard => Seqs.SumOfMap(Incomes(ts), Amount);
    case ExpenseCard => Seqs.SumOfMap(Expenses(ts), Amount);
    case SavingsCard =>
      var g := Grouping.GroupSums(NetPairs(ts));
      Grouping.ValuesSum(g.keys, g.sums);
      Grouping.GroupSumsTotal(NetPairs(ts));
      Grouping.PairsTotal(ts, DateOf, Signed);
      SignedSumIsNet(ts);
  }

  /**
   * The savings chart has one point per distinct transaction date, in the
   * order the dates first occur, and each point is the income minus the
   * expenses of that date.
   */
  lemma NetSeriesOnePointPerDate(ts: seq<Transaction>)
    ensures var g := Grouping.GroupSums(NetPairs(ts));
      |ChartSeries(SavingsCard, ts)| == |g.keys| &&
      Grouping.DistinctKeys(g.keys) &&
      (forall d :: d in g.keys <==> exists i :: 0 <= i < |ts| && ts[i].date == d) &&
      (forall i :: 0 <= i < |g.keys| ==>
        ChartSeries(SavingsCard, ts)[i] == Seqs.SumOf(Seqs.Filter(ts, Grouping.HasKey(DateOf, g.keys[i])), Signed))
  {
    var g := Grouping.GroupSums(NetPairs(ts));
    Grouping.GroupSumsKeys(NetPairs(ts));
    forall i | 0 <= i < |g.keys|
      ensures ChartSeries(SavingsCard, ts)[i] == Seqs.SumOf(Seqs.Filter(ts, Grouping.HasKey(DateOf, g.keys[i])), Signed)
    {
      Grouping.LookupIsSumFor(NetPairs(ts), g.keys[i]);
      Grouping.SumForIsFilteredSum(ts, DateOf, Signed, g.keys[i]);
    }
  }

  // The weekly expense breakdown.

  const DayMs: int := 24 * 60 * 60 * 1000

  /** `oneWeekAgo`: the current time less seven days. */
  function OneWeekAgo(now: int): int {
    now - 7 * DayMs
  }

  /** An expense dated no earlier than a week ago. */
  predicate InLastWeek(t: Transaction, now: int, timeOf: string -> int) {
    t.kind == Expense && timeOf(t.date) >= OneWeekAgo(now)
  }

  function LastWeekFilter(now: int, timeOf: string -> int): Transaction -> bool {
    (t: Transaction) => InLastWeek(t, now, timeOf)
  }

  /** The expenses the breakdown counts. */
  function LastWeekExpenses(ts: seq<Transaction>, now: int, timeOf: string -> int): seq<Transaction> {
    Seqs.Filter(ts, LastWeekFilter(now, timeOf))
  }

  function CategoryOf(t: Transaction): string {
    t.category
  }

  /** The `(category, amount)` pairs of the counted expenses. */
  function WeeklyPairs(ts: seq<Transaction>, now: int, timeOf: string -> int): seq<(string, real)> {
    Grouping.Pairs(LastWeekExpenses(ts, now, timeOf), CategoryOf, Amount)
  }

  /**
   * `weeklyData`: the counted expenses, each added to its category in one
   * pass, then the categories with their totals.
   */
  method WeeklyData(ts: seq<Transaction>, now: int, timeOf: string -> int) returns (entries: seq<(string, real)>)
    ensures entries == Grouping.Entries(Grouping.GroupSums(WeeklyPairs(ts, now, timeOf)))
  {
    var counted := Seqs.Filter(ts, LastWeekFilter(now, timeOf));
    var keys, sums := Grouping.Accumulate(Grouping.Pairs(counted, CategoryOf, Amount));
    entries := Grouping.Entries(Grouping.Groups(keys, sums));
  }

  /**
   * The breakdown has exactly one slice per category with a counted
   * expense, each the total of that category's counted expenses; the
   * slices add up to all counted expenses, and there are none (the
   * "no expenses" message) exactly when nothing is counted.
   */
  lemma WeeklyBreakdownCorrect(ts: seq<Transaction>, now: int, timeOf: string -> int)
    ensures var g := Grouping.GroupSums(WeeklyPairs(ts, now, timeOf));
      var es := Grouping.Entries(g);
      var counted := LastWeekExpenses(ts, now, timeOf);
      Grouping.DistinctKeys(g.keys) &&
      (forall c :: c in g.keys <==> exists t :: t in counted && t.category == c) &&
      (forall i :: 0 <= i < |es| ==> es[i].1 == Seqs.SumOf(Seqs.Filter(counted, Grouping.HasKey(CategoryOf, es[i].0)), Amount)) &&
      Seqs.SumOf(Grouping.Values(g), Seqs.Identity) == Seqs.SumOf(counted, Amount) &&
      (es == [] <==> counted == [])
  {
    var counted := LastWeekExpenses(ts, now, timeOf);
    Grouping.GroupedKeys(counted, CategoryOf, Amount);
    Grouping.GroupedEntries(counted, CategoryOf, Amount);
    Grouping.GroupedTotal(counted, CategoryOf, Amount);
    if counted != [] {
      assert counted[0] in counted;
    }
  }

  // The monthly savings chart.

  /** What a transaction adds to its month's income. */
  function IncomePart(t: Transaction): real {
    if t.kind == Income then t.amount else 0.0
  }

  /** What a transaction adds to its month's expense: every transaction that is not income. */
  function ExpensePart(t: Transaction): real {
    if t.kind == Income then 0.0 else t.amount
  }

  /*
   * `monthOf(t)` is the short month name of the transaction's date, such
   * as "Mar" (the year plays no part), and `monthIndex` the month number a
   * name parses back to.
   */

  function MonthlyIncome(ts: seq<Transaction>, monthOf: Transaction -> string): Grouping.Groups {
    Grouping.GroupSums(Grouping.Pairs(ts, monthOf, IncomePart))
  }

  function MonthlyExpense(ts: seq<Transaction>, monthOf: Transaction -> string): Grouping.Groups {
    Grouping.GroupSums(Grouping.Pairs(ts, monthOf, ExpensePart))
  }

  /** One point of the chart. */
  datatype MonthNet = MonthNet(name: string, net: real)

  /** A month's point: its income less its expense. */
  function NetOf(income: Grouping.Groups, expense: Grouping.Groups): string -> MonthNet {
    m => MonthNet(m, Grouping.Lookup(income, m) - Grouping.Lookup(expense, m))
  }

  /** The chart: the month labels ordered by month, each with its income less its expense. */
  function SavingsSeries(ts: seq<Transaction>, monthOf: Transaction -> string, monthIndex: string -> int): seq<MonthNet> {
    var income := MonthlyIncome(ts, monthOf);
    Seqs.Map(Sorting.SortBy(income.keys, monthIndex), NetOf(income, MonthlyExpense(ts, monthOf)))
  }

  /**
   * One step of `savingsData`: create the month's income and expense at
   * zero if it has none yet, then add the amount to its income or to its
   * expense. This is one accumulation step on each dictionary.
   */
  method AddToMonth(months: seq<string>, income: map<string, real>, expense: map<string, real>, month: string, t: Transaction)
    returns (months': seq<string>, income': map<string, real>, expense': map<string, real>)
    requires forall k :: k in income <==> k in months
    requires forall k :: k in expense <==> k in months
    ensures Grouping.Groups(months', income') == Grouping.AddTo(Grouping.Groups(months, income), month, IncomePart(t))
    ensures Grouping.Groups(months', expense') == Grouping.AddTo(Grouping.Groups(months, expense), month, ExpensePart(t))
  {
    months', income', expense' := months, income, expense;
    if month !in income' {
      months' := months' + [month];
      income' := income'[month := 0.0];
      expense' := expense'[month := 0.0];
    }
    if t.kind == Income {
      income' := income'[month := income'[month] + t.amount];
      assert expense' == expense'[month := expense'[month] + 0.0];
    } else {
      expense' := expense'[month := expense'[month] + t.amount];
      assert income' == income'[month := income'[month] + 0.0];
    }
  }

  /**
   * `savingsData`: one pass creating each month's income and expense at
   * zero on its first transaction and adding each amount to one of them,
   * then the months sorted by month index.
   */
  method SavingsData(ts: seq<Transaction>, monthOf: Transaction -> string, monthIndex: string -> int)
    returns (data: seq<MonthNet>)
    ensures data == SavingsSeries(ts, monthOf, monthIndex)
  {
    var months: seq<string> := [];
    var income: map<string, real> := map[];
    var expense: map<string, real> := map[];
    var i := 0;
    while i < |ts|
      invariant 0 <= i <= |ts|
      invariant Grouping.Groups(months, income) == MonthlyIncome(ts[..i], monthOf)
      invariant Grouping.Groups(months, expense) == MonthlyExpense(ts[..i], monthOf)
    {
      months, income, expense := AddToMonth(months, income, expense, monthOf(ts[i]), ts[i]);
      assert ts[..i + 1] == ts[..i] + [ts[i]];
      Grouping.GroupedSnoc(ts[..i], ts[i], monthOf, IncomePart);
      Grouping.GroupedSnoc(ts[..i], ts[i], monthOf, ExpensePart);
      i := i + 1;
    }
    assert ts[..|ts|] == ts;
    var sorted := Sorting.SortBy(months, monthIndex);
    data := Seqs.Map(sorted, NetOf(Grouping.Groups(months, income), Grouping.Groups(months, expense)));
  }

  function NameOf(p: MonthNet): string {
    p.name
  }

  /** The month names along the chart's axis. */
  function Names(s: seq<MonthNet>): seq<string> {
    Seqs.Map(s, NameOf)
  }

  /**
   * The chart's names are the distinct month names of the transactions,
   * each once, rearranged in month-index order.
   */
  lemma SavingsMonths(ts: seq<Transaction>, monthOf: Transaction -> string, monthIndex: string -> int)
    ensures var months := MonthlyIncome(ts, monthOf).keys;
      var names := Names(SavingsSeries(ts, monthOf, monthIndex));
      Grouping.DistinctKeys(months) &&
      (forall m :: m in months <==> exists t :: t in ts && monthOf(t) == m) &&
      multiset(names) == multiset(months) &&
      Sorting.SortedBy(names, monthIndex)
  {
    var income := MonthlyIncome(ts, monthOf);
    var sorted := Sorting.SortBy(income.keys, monthIndex);
    Grouping.GroupedKeys(ts, monthOf, IncomePart);
    Sorting.SortByCorrect(income.keys, monthIndex);
    assert Names(SavingsSeries(ts, monthOf, monthIndex)) == sorted;
  }

  /** Each point of the savings chart is the signed total (income less expense) of its month's transactions. */
  lemma SavingsNets(ts: seq<Transaction>, monthOf: Transaction -> string, monthIndex: string -> int)
    ensures var s := SavingsSeries(ts, monthOf, monthIndex);
      forall k :: 0 <= k < |s| ==> s[k].net == Seqs.SumOf(Seqs.Filter(ts, Grouping.HasKey(monthOf, s[k].name)), Signed)
  {
    var s := SavingsSeries(ts, monthOf, monthIndex);
    forall k | 0 <= k < |s|
      ensures s[k].net == Seqs.SumOf(Seqs.Filter(ts, Grouping.HasKey(monthOf, s[k].name)), Signed)
    {
      var m := s[k].name;
      Grouping.LookupIsSumFor(Grouping.Pairs(ts, monthOf, IncomePart), m);
      Grouping.LookupIsSumFor(Grouping.Pairs(ts, monthOf, ExpensePart), m);
      Grouping.SumForDifference(ts, monthOf, IncomePart, ExpensePart, Signed, m);
      Grouping.SumForIsFilteredSum(ts, monthOf, Signed, m);
    }
  }
}

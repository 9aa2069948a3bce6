/**
 * The translation function `t` of contexts/LanguageContext.tsx: a dotted
 * key is walked through the current language's nested table, and a path
 * that runs out anywhere is looked up again in English.
 */
module Language {
  import opened Wrappers
  import opened Strings

  datatype Lang = En | Hi

  /** A value of a translation table: a text, or a nested table. */
  datatype Entry = Text(s: string) | Table(entries: map<string, Entry>)

  /** The English table. */
  function English(): Entry {
    Table(map[
      "sidebar" := EnglishSidebar(),
      "dashboard" := EnglishDashboard(),
      "goals" := EnglishGoals(),
      "transactions" := EnglishTransactions(),
      "accounts" := EnglishAccounts(),
      "budgets" := EnglishBudgets(),
      "debts" := EnglishDebts(),
      "investments" := EnglishInvestments(),
      "calendar" := EnglishCalendar(),
      "advisor" := EnglishAdvisor()])
  }

  function EnglishSidebar(): Entry {
    Table(map[
      "dashboard" := Text("Dashboard"),
      "transactions" := Text("Transactions"),
      "accounts" := Text("Accounts"),
      "budgets" := Text("Budgets"),
      "debts" := Text("Debts"),
      "goals" := Text("Goals"),
      "investments" := Text("Investments"),
      "calendar" := Text("Calendar"),
      "aiAdvisor" := Text("AI Advisor"),
      "language" := Text("Language"),
      "theme" := Text("Theme"),
      "logout" := Text("Logout")])
  }

  function EnglishDashboard(): Entry {
    Table(map[
      "title" := Text("Welcome Back"),
      "totalBalance" := Text("Total Balance"),
      "income" := Text("Income"),
      "expenses" := Text("Expenses"),
      "savings" := Text("Savings"),
      "monthlyBudget" := Text("Monthly Budget"),
      "financialGoals" := Text("Financial Goals"),
      "weeklyExpenses" := Text("Weekly Expenses")])
  }

  function EnglishGoals(): Entry {
    Table(map[
      "title" := Text("Financial Goals"),
      "addGoal" := Text("Add Goal"),
      "deadlinePassed" := Text("Deadline Passed"),
      "dueToday" := Text("Due Today"),
      "daysLeft" := Text("days left"),
      "saved" := Text("Saved"),
      "target" := Text("Target"),
      "addProgress" := Text("Add Progress"),
      "emptyTitle" := Text("Set Your First Goal!"),
      "emptyDescription" := Text("Define your financial targets to start your journey."),
      "modalAddTitle" := Text("Set a New Goal"),
      "placeholderName" := Text("Goal Name (e.g., Buy a new laptop)"),
      "placeholderTargetAmount" := Text("Target Amount"),
      "placeholderTargetDate" := Text("Target Date"),
      "setGoal" := Text("Set Goal"),
      "modalUpdateTitle" := Text("Update Progress for"),
      "currentProgress" := Text("Current Progress"),
      "placeholderAmountToAdd" := Text("Amount to add"),
      "saveProgress" := Text("Save Progress")])
  }

  function EnglishTransactions(): Entry {
    Table(map[
      "title" := Text("Transactions"),
      "addTransaction" := Text("Add Transaction"),
      "all" := Text("All"),
      "income" := Text("Income"),
      "expense" := Text("Expense"),
      "searchPlaceholder" := Text("Search by name or category..."),
      "table" := Table(map[
        "name" := Text("Name"),
        "category" := Text("Category"),
        "amount" := Text("Amount"),
        "date" := Text("Date")]),
      "modalTitle" := Text("Add a New Transaction"),
      "placeholderName" := Text("Transaction Name"),
      "placeholderCategory" := Text("Category"),
      "placeholderAmount" := Text("Amount"),
      "placeholderDate" := Text("Date")])
  }

  function EnglishAccounts(): Entry {
    Table(map[
      "title" := Text("Accounts"),
      "addAccount" := Text("Add Account"),
      "searchPlaceholder" := Text("Search accounts..."),
      "modalTitle" := Text("Add a New Account"),
      "placeholderName" := Text("Account Name (e.g., HDFC Savings)"),
      "placeholderBalance" := Text("Current Balance")])
  }

  function EnglishBudgets(): Entry {
    Table(map[
      "title" := Text("Budgets"),
      "addBudget" := Text("Add Budget"),
      "modalTitle" := Text("Add New Budget"),
      "placeholderCategory" := Text("Category (e.g., Food)"),
      "placeholderLimit" := Text("Monthly Limit")])
  }

  function EnglishDebts(): Entry {
    Table(map[
      "title" := Text("Debt Management"),
      "addDebt" := Text("Add Debt"),
      "apr" := Text("APR"),
      "paid" := Text("Paid"),
      "total" := Text("Total"),
      "remaining" := Text("Remaining"),
      "emptyTitle" := Text("You're Debt-Free!"),
      "emptyDescription" := Text("No debts to display. Add one to start tracking."),
      "modalTitle" := Text("Add a New Debt"),
      "placeholderName" := Text("Debt Name (e.g., Car Loan)")])
  }

  function EnglishInvestments(): Entry {
    Table(map[
      "title" := Text("Investment Portfolio"),
      "sip" := Text("SIP"),
      "fd" := Text("FD"),
      "stock" := Text("Stock"),
      "add" := Text("Add"),
      "tabs" := Table(map[
        "stocks" := Text("Stocks"),
        "sips" := Text("SIPs"),
        "fds" := Text("Fixed Deposits")]),
      "stocksTable" := Table(map[
        "company" := Text("Company"),
        "shares" := Text("Shares"),
        "totalValue" := Text("Total Value"),
        "gainLoss" := Text("P/L")]),
      "sipsTable" := Table(map[
        "fundName" := Text("Fund Name"),
        "monthlyAmount" := Text("Monthly Amount"),
        "startDate" := Text("Start Date")]),
      "fdsTable" := Table(map[
        "bank" := Text("Bank"),
        "principal" := Text("Principal"),
        "interestRate" := Text("Interest Rate"),
        "maturityDate" := Text("Maturity Date")]),
      "modal" := Table(map[
        "fundNamePlaceholder" := Text("Fund Name"),
        "monthlyAmountPlaceholder" := Text("Monthly Amount"),
        "startDatePlaceholder" := Text("Start Date"),
        "bankNamePlaceholder" := Text("Bank Name"),
        "principalPlaceholder" := Text("Principal Amount"),
        "interestRatePlaceholder" := Text("Interest Rate (%)"),
        "maturityDatePlaceholder" := Text("Maturity Date"),
        "tickerPlaceholder" := Text("Ticker (e.g., TATAMOTORS)"),
        "companyNamePlaceholder" := Text("Company Name"),
        "sharesPlaceholder" := Text("Number of Shares"),
        "purchasePricePlaceholder" := Text("Purchase Price per Share"),
        "currentPricePlaceholder" := Text("Current Price per Share"),
        "addSipTitle" := Text("Add New SIP"),
        "addFdTitle" := Text("Add New Fixed Deposit"),
        "addStockTitle" := Text("Add New Stock Holding")])])
  }

  function EnglishCalendar(): Entry {
    Table(map[
      "title" := Text("Financial Calendar")])
  }

  function EnglishAdvisor(): Entry {
    Table(map[
      "title" := Text("AI Financial Advisor"),
      "subtitle" := Text("Get personalized insights and recommendations on your financial data from our advanced AI."),
      "buttonGenerate" := Text("Generate Advice"),
      "buttonGenerating" := Text("Generating..."),
      "error" := Text("Sorry, I couldn't generate advice right now. Please try again later."),
      "emptyTitle" := Text("Ready for your financial check-up?"),
      "emptyDescription" := Text("Click the button above to get your personalized financial analysis.")])
  }

  /** The Hindi table: only the sidebar and the dashboard are translated. */
  function Hindi(): Entry {
    Table(map[
      "sidebar" := HindiSidebar(),
      "dashboard" := HindiDashboard()])
  }

  function HindiSidebar(): Entry {
    Table(map[
      "dashboard" := Text("डैशबोर्ड"),
      "transactions" := Text("लेन-देन"),
      "accounts" := Text("खाते"),
      "budgets" := Text("बजट"),
      "debts" := Text("कर्ज"),
      "goals" := Text("लक्ष्य"),
      "investments" := Text("निवेश"),
      "calendar" := Text("कैलेंडर"),
      "aiAdvisor" := Text("एआई सलाहकार"),
      "language" := Text("भाषा"),
      "theme" := Text("थीम"),
      "logout" := Text("लॉग आउट")])
  }

  function HindiDashboard(): Entry {
    Table(map[
      "title" := Text("वापसी पर स्वागत है"),
      "totalBalance" := Text("कुल शेष"),
      "income" := Text("आय"),
      "expenses" := Text("खर्च"),
      "savings" := Text("बचत"),
      "monthlyBudget" := Text("मासिक बजट"),
      "financialGoals" := Text("वित्तीय लक्ष्य"),
      "weeklyExpenses" := Text("साप्ताहिक खर्च")])
  }

  function Translations(lang: Lang): Entry {
    match lang
    case En => English()
    case Hi => Hindi()
  }

  /** `result?.[k]`: missing once the walk has left the tables, or when there is no such key. */
  function Step(e: Option<Entry>, k: string): Option<Entry> {
    if e.Some? && e.value.Table? && k in e.value.entries then Some(e.value.entries[k]) else None
  }

  /** The walk along a whole path, one step per key. */
  function Walk(e: Option<Entry>, keys: seq<string>): Option<Entry> {
    if keys == [] then e else Step(Walk(e, keys[..|keys| - 1]), keys[|keys| - 1])
  }

  /** JavaScript truthiness of a table value: a table, or a non-empty text. */
  predicate Truthy(e: Entry) {
    e.Table? || e.s != ""
  }

  /** `found || key`. */
  function OrKey(found: Option<Entry>, key: string): Entry {
    if found.Some? && Truthy(found.value) then found.value else Text(key)
  }

  /**
   * What `t(key)` returns over the current table `current` and the English
   * table `english`: the value at the dotted path in `current` when every
   * step exists there, otherwise the value at the same path in `english`;
   * in both cases the key itself when that value is missing or empty.
   */
  function Lookup(current: Entry, english: Entry, key: string): Entry {
    var keys := Split(key, '.');
    var found := Walk(Some(current), keys);
    if found.None? then OrKey(Walk(Some(english), keys), key) else OrKey(found, key)
  }

  /** `t(key)` in language `lang`. */
  function Translation(lang: Lang, key: string): Entry {
    Lookup(Translations(lang), English(), key)
  }

  /** Once a step is missing, the rest of the walk is missing too. */
  lemma {:induction false} WalkStaysMissing(e: Option<Entry>, keys: seq<string>, n: nat)
    requires n <= |keys|
    requires Walk(e, keys[..n]) == None
    ensures Walk(e, keys) == None
    decreases |keys| - n
  {
    if n < |keys| {
      assert keys[..n + 1][..n] == keys[..n];
      WalkStaysMissing(e, keys, n + 1);
    } else {
      assert keys[..n] == keys;
    }
  }

  /** The inner loop of `t`: the walk along the whole path from `start`, one step per key. */
  method WalkPath(start: Option<Entry>, keys: seq<string>) returns (found: Option<Entry>)
    ensures found == Walk(start, keys)
  {
    found := start;
    var j := 0;
    while j < |keys|
      invariant 0 <= j <= |keys|
      invariant found == Walk(start, keys[..j])
    {
      assert keys[..j + 1][..j] == keys[..j];
      found := Step(found, keys[j]);
      j := j + 1;
    }
    assert keys[..|keys|] == keys;
  }

  /**
   * `t`: the loop of the source, stepping down the path and switching to
   * the English walk at the first missing step.
   */
  method Translate(current: Entry, english: Entry, key: string) returns (r: Entry)
    ensures r == Lookup(current, english, key)
  {
    var keys := Split(key, '.');
    var root := Some(current);
    var result := root;
    var i := 0;
    while i < |keys|
      invariant 0 <= i <= |keys|
      invariant result.Some?
      invariant result == Walk(root, keys[..i])
    {
      assert keys[..i + 1][..i] == keys[..i];
      result := Step(result, keys[i]);
      if result.None? {
        WalkStaysMissing(root, keys, i + 1);
        var fallback := WalkPath(Some(english), keys);
        return OrKey(fallback, key);
      }
      i := i + 1;
    }
    assert keys[..|keys|] == keys;
    return OrKey(result, key);
  }

  /** A path the current table lacks reads exactly as it does in English. */
  lemma MissingFallsBackToEnglish(current: Entry, english: Entry, key: string)
    requires Walk(Some(current), Split(key, '.')) == None
    ensures Lookup(current, english, key) == Lookup(english, english, key)
  {
  }

  /** A path that leads to a non-empty text in the current table reads as that text. */
  lemma ResolvedPathReadsAsText(current: Entry, english: Entry, key: string, s: string)
    requires Walk(Some(current), Split(key, '.')) == Some(Text(s))
    requires s != ""
    ensures Lookup(current, english, key) == Text(s)
  {
  }

  /** A path that neither the current table nor the English one has reads as the key itself. */
  lemma UnknownKeyReadsAsItself(current: Entry, english: Entry, key: string)
    requires Walk(Some(current), Split(key, '.')) == None
    requires Walk(Some(english), Split(key, '.')) == None
    ensures Lookup(current, english, key) == Text(key)
  {
  }

  /** A dotted key whose first part the current table lacks reads as it does in English. */
  lemma FirstKeyMissing(current: Entry, english: Entry, first: string, rest: string)
    requires '.' !in first
    requires current.Table? && first !in current.entries
    ensures Lookup(current, english, first + "." + rest) == Lookup(english, english, first + "." + rest)
  {
    var key := first + "." + rest;
    assert key == first + ['.'] + rest;
    SplitAround(first, rest, '.');
    var keys := Split(key, '.');
    assert keys[..1] == [first];
    assert Walk(Some(current), keys[..1]) == None;
    WalkStaysMissing(Some(current), keys, 1);
    MissingFallsBackToEnglish(current, english, key);
  }

  /**
   * Every `goals.*` key is missing from the Hindi table, so in Hindi it
   * reads as it does in the English table, whatever that table holds.
   */
  lemma GoalKeysReadInEnglish(english: Entry, rest: string)
    ensures Lookup(Hindi(), english, "goals." + rest) == Lookup(english, english, "goals." + rest)
  {
    var hindi := Hindi();
    assert hindi.Table? && "goals" !in hindi.entries;
    FirstKeyMissing(hindi, english, "goals", rest);
    assert "goals" + "." + rest == "goals." + rest;
  }
}

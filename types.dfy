/**
 * The entity records and enumerations of the application (types.ts).
 * Money and other JavaScript numbers are exact reals; dates stay the strings
 * the records hold, and are interpreted by the components that read them.
 * The TypeScript field `type` is called `kind` here (`type` is a keyword).
 */
module Types {
  import opened Wrappers

  /** The nine views of the application. */
  datatype Page = Dashboard | Transactions | Accounts | Budgets | Calendar | Investments | Debts | Goals | AIAdvisor

  /** The string value of each `Page` member. */
  function PageLabel(p: Page): string {
    match p
    case Dashboard => "Dashboard"
    case Transactions => "Transactions"
    case Accounts => "Accounts"
    case Budgets => "Budgets"
    case Calendar => "Calendar"
    case Investments => "Investments"
    case Debts => "Debts"
    case Goals => "Goals"
    case AIAdvisor => "AI Advisor"
  }

  const AllPages: seq<Page> :=
    [Dashboard, Transactions, Accounts, Budgets, Calendar, Investments, Debts, Goals, AIAdvisor]

  /** The enumeration has exactly nine members, each with its own label. */
  lemma PagesEnumerated()
    ensures |AllPages| == 9
    ensures forall p: Page :: p in AllPages
    ensures forall i, j :: 0 <= i < j < |AllPages| ==> PageLabel(AllPages[i]) != PageLabel(AllPages[j])
  {
    forall p: Page ensures p in AllPages {
      var k := match p
        case Dashboard => 0 case Transactions => 1 case Accounts => 2
        case Budgets => 3 case Calendar => 4 case Investments => 5
        case Debts => 6 case Goals => 7 case AIAdvisor => 8;
      assert AllPages[k] == p;
    }
  }

  datatype TransactionType = Income | Expense

  function TransactionTypeName(t: TransactionType): string {
    match t
    case Income => "income"
    case Expense => "expense"
  }

  /** Reads a `TransactionType` from its exact string value; anything else is not one. */
  function ParseTransactionType(s: string): (r: Option<TransactionType>)
    ensures r.Some? <==> (s == "income" || s == "expense")
  {
    if s == "income" then Some(Income)
    else if s == "expense" then Some(Expense)
    else None
  }

  /** The two string values are exactly the two transaction types. */
  lemma TransactionTypeRoundTrip(t: TransactionType, s: string)
    ensures ParseTransactionType(TransactionTypeName(t)) == Some(t)
    ensures ParseTransactionType(s).Some? ==> TransactionTypeName(ParseTransactionType(s).value) == s
  {
  }

  datatype Transaction = Transaction(id: string, name: string, category: string, amount: real, date: string, kind: TransactionType)

  /** `Expense = Transaction & { type: 'expense' }`. */
  type ExpenseTransaction = t: Transaction | t.kind == Expense
    witness Transaction("", "", "", 0.0, "", Expense)

  datatype DebtType = CreditCard | PersonalLoan | Mortgage | Other

  function DebtTypeName(d: DebtType): string {
    match d
    case CreditCard => "Credit Card"
    case PersonalLoan => "Personal Loan"
    case Mortgage => "Mortgage"
    case Other => "Other"
  }

  /** The four debt types have four distinct string values. */
  lemma DebtTypeNamesDistinct(a: DebtType, b: DebtType)
    ensures DebtTypeName(a) == DebtTypeName(b) <==> a == b
  {
  }

  datatype Debt = Debt(id: string, name: string, kind: DebtType, totalAmount: real, amountPaid: real, interestRate: real)

  datatype SIP = SIP(id: string, fundName: string, monthlyAmount: real, startDate: string)

  datatype FixedDeposit = FixedDeposit(id: string, bankName: string, principal: real, interestRate: real, maturityDate: string)

  datatype Stock = Stock(id: string, ticker: string, companyName: string, shares: real, purchasePrice: real, currentPrice: real)

  datatype Goal = Goal(id: string, name: string, targetAmount: real, currentAmount: real, deadline: string)

  datatype AccountType = Savings | Checking | CreditCardAccount

  function AccountTypeName(a: AccountType): string {
    match a
    case Savings => "Savings"
    case Checking => "Checking"
    case CreditCardAccount => "Credit Card"
  }

  /** The three account types have three distinct string values. */
  lemma AccountTypeNamesDistinct(a: AccountType, b: AccountType)
    ensures AccountTypeName(a) == AccountTypeName(b) <==> a == b
  {
  }

  datatype Account = Account(id: string, name: string, kind: AccountType, balance: real)

  datatype Budget = Budget(id: string, category: string, limit: real)

  datatype User = User(id: string, name: string, email: string, passwordHash: string)

  // The `Omit<X, 'id'>` shapes the forms and the importer hand to the store;
  // `WithId` is the spread `{ ...draft, id }` the store performs.

  datatype TransactionDraft = TransactionDraft(name: string, category: string, amount: real, date: string, kind: TransactionType) {
    function WithId(id: string): Transaction {
      Transaction(id, name, category, amount, date, kind)
    }
  }

  datatype DebtDraft = DebtDraft(name: string, kind: DebtType, totalAmount: real, amountPaid: real, interestRate: real) {
    function WithId(id: string): Debt {
      Debt(id, name, kind, totalAmount, amountPaid, interestRate)
    }
  }

  datatype SIPDraft = SIPDraft(fundName: string, monthlyAmount: real, startDate: string) {
    function WithId(id: string): SIP {
      SIP(id, fundName, monthlyAmount, startDate)
    }
  }

  datatype FixedDepositDraft = FixedDepositDraft(bankName: string, principal: real, interestRate: real, maturityDate: string) {
    function WithId(id: string): FixedDeposit {
      FixedDeposit(id, bankName, principal, interestRate, maturityDate)
    }
  }

  datatype StockDraft = StockDraft(ticker: string, companyName: string, shares: real, purchasePrice: real, currentPrice: real) {
    function WithId(id: string): Stock {
      Stock(id, ticker, companyName, shares, purchasePrice, currentPrice)
    }
  }

  /** `Omit<Goal, 'id' | 'currentAmount'>`: a new goal carries no progress of its own. */
  datatype GoalDraft = GoalDraft(name: string, targetAmount: real, deadline: string)

  datatype AccountDraft = AccountDraft(name: string, kind: AccountType, balance: real) {
    function WithId(id: string): Account {
      Account(id, name, kind, balance)
    }
  }

  datatype BudgetDraft = BudgetDraft(category: string, limit: real) {
    function WithId(id: string): Budget {
      Budget(id, category, limit)
    }
  }
}

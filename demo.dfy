/**
 * The demo fixture (demoData.ts). Its dates are relative to the day the
 * page is opened, so they are parameters: `pastDate(n)` is the date `n`
 * days ago, and the three future dates are given as they are computed.
 */
module Demo {
  import opened Types
  import opened Store

  function DemoTransactions(pastDate: nat -> string): seq<Transaction> {
    [ Transaction("t1", "Salary", "Income", 85000.0, pastDate(15), Income),
      Transaction("t2", "Rent", "Housing", 25000.0, pastDate(14), Expense),
      Transaction("t3", "Groceries", "Food", 6500.0, pastDate(10), Expense),
      Transaction("t4", "Zomato Order", "Food", 850.0, pastDate(8), Expense),
      Transaction("t5", "Electricity Bill", "Utilities", 1200.0, pastDate(5), Expense),
      Transaction("t6", "Netflix Subscription", "Entertainment", 649.0, pastDate(4), Expense),
      Transaction("t7", "Freelance Project", "Income", 15000.0, pastDate(3), Income),
      Transaction("t8", "Shopping - Zara", "Shopping", 4200.0, pastDate(2), Expense) ]
  }

  const DemoDebt := Debt("d1", "ICICI Credit Card Bill", CreditCard, 35000.0, 15000.0, 36.0)

  const DemoBudgets: seq<Budget> :=
    [Budget("b1", "Food", 10000.0), Budget("b2", "Shopping", 8000.0), Budget("b3", "Utilities", 4000.0)]

  const DemoStock := Stock("st1", "TATAMOTORS", "Tata Motors", 50.0, 450.0, 950.0)

  const DemoUser := User("demo-user", "Demo User", "", "")

  /** The whole fixture shown in demo mode. */
  function DemoData(pastDate: nat -> string, goaDeadline: string, macbookDeadline: string, fdMaturity: string): FinancialData {
    FinancialData(
      DemoTransactions(pastDate),
      [DemoDebt],
      [ Goal("g1", "Goa Vacation", 50000.0, 22000.0, goaDeadline),
        Goal("g2", "New Macbook Pro", 180000.0, 65000.0, macbookDeadline) ],
      [SIP("s1", "Mirae Asset Large Cap Fund", 5000.0, "2022-01-05")],
      [FixedDeposit("fd1", "HDFC Bank", 100000.0, 7.1, fdMaturity)],
      [DemoStock],
      [ Account("a1", "HDFC Savings Account", Savings, 142830.0),
        Account("a2", "ICICI Credit Card", CreditCardAccount, 35000.0) ],
      DemoBudgets)
  }
}

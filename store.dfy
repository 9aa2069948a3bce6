/**
 * The per-user financial record and the pure updaters that the application
 * hands to its guarded `updateFinancialData` (App.tsx). Each updater is a
 * value of `Updater`; `Apply` is the `prev => next` function it denotes.
 * Fresh ids are part of the updater, as the caller supplies them.
 */
module Store {
  import opened Types
  import Seqs

  /** The eight collections kept for one user. */
  datatype FinancialData = FinancialData(
    transactions: seq<Transaction>,
    debts: seq<Debt>,
    goals: seq<Goal>,
    sips: seq<SIP>,
    fds: seq<FixedDeposit>,
    stocks: seq<Stock>,
    accounts: seq<Account>,
    budgets: seq<Budget>)

  /** Names the eight collections. */
  datatype Collection = TransactionList | DebtList | GoalList | SipList | FdList | StockList | AccountList | BudgetList

  const AllCollections: seq<Collection> := [TransactionList, DebtList, GoalList, SipList, FdList, StockList, AccountList, BudgetList]

  function TransactionId(t: Transaction): string { t.id }
  function DebtId(x: Debt): string { x.id }
  function GoalId(x: Goal): string { x.id }
  function SipId(x: SIP): string { x.id }
  function FdId(x: FixedDeposit): string { x.id }
  function StockId(x: Stock): string { x.id }
  function AccountId(x: Account): string { x.id }
  function BudgetId(x: Budget): string { x.id }

  /** The ids of collection `c`, in order: the observable shape of a collection. */
  function Ids(d: FinancialData, c: Collection): seq<string> {
    match c
    case TransactionList => Seqs.Map(d.transactions, TransactionId)
    case DebtList => Seqs.Map(d.debts, DebtId)
    case GoalList => Seqs.Map(d.goals, GoalId)
    case SipList => Seqs.Map(d.sips, SipId)
    case FdList => Seqs.Map(d.fds, FdId)
    case StockList => Seqs.Map(d.stocks, StockId)
    case AccountList => Seqs.Map(d.accounts, AccountId)
    case BudgetList => Seqs.Map(d.budgets, BudgetId)
  }

  /** Collection `c` is identical in `d` and `e`. */
  predicate SameCollection(d: FinancialData, e: FinancialData, c: Collection) {
    match c
    case TransactionList => d.transactions == e.transactions
    case DebtList => d.debts == e.debts
    case GoalList => d.goals == e.goals
    case SipList => d.sips == e.sips
    case FdList => d.fds == e.fds
    case StockList => d.stocks == e.stocks
    case AccountList => d.accounts == e.accounts
    case BudgetList => d.budgets == e.budgets
  }

  /** The collections kept on the ledger pages: transactions, accounts, budgets and debts. */
  predicate OnLedgerPages(c: Collection) {
    c == TransactionList || c == AccountList || c == BudgetList || c == DebtList
  }

  /** Every collection is empty. */
  predicate IsEmpty(d: FinancialData) {
    forall c :: Ids(d, c) == []
  }

  /** `getInitialUserData()`: the record of a new user. */
  function InitialUserData(): (d: FinancialData)
    ensures IsEmpty(d)
  {
    FinancialData([], [], [], [], [], [], [], [])
  }

  /** An empty record is exactly the initial one. */
  lemma EmptyIsInitial(d: FinancialData)
    requires IsEmpty(d)
    ensures d == InitialUserData()
  {
    assert Ids(d, TransactionList) == [] && Ids(d, DebtList) == [] && Ids(d, GoalList) == [] && Ids(d, SipList) == [];
    assert Ids(d, FdList) == [] && Ids(d, StockList) == [] && Ids(d, AccountList) == [] && Ids(d, BudgetList) == [];
  }

  /** `Math.min(g.currentAmount + additionalAmount, g.targetAmount)` applied to one goal. */
  function AddProgress(g: Goal, additionalAmount: real): (r: Goal)
    ensures r.currentAmount <= g.targetAmount
    ensures r.currentAmount == g.currentAmount + additionalAmount || r.currentAmount == g.targetAmount
    ensures g.currentAmount + additionalAmount <= g.targetAmount ==> r.currentAmount == g.currentAmount + additionalAmount
    ensures r.(currentAmount := g.currentAmount) == g
  {
    var sum := g.currentAmount + additionalAmount;
    g.(currentAmount := if sum < g.targetAmount then sum else g.targetAmount)
  }

  /** The clamp is from above only: a negative amount can take a goal below zero. */
  lemma ProgressHasNoLowerClamp()
    ensures AddProgress(Goal("g", "Trip", 100.0, 10.0, "2025-01-01"), -50.0).currentAmount == -40.0
  {
  }

  /** The demo "Goa Vacation" goal at 22000 of 50000 is capped at its target when 40000 is added. */
  lemma ProgressCapsAtTarget()
    ensures AddProgress(Goal("g1", "Goa Vacation", 50000.0, 22000.0, ""), 40000.0).currentAmount == 50000.0
  {
  }

  /** One `prev => next` updater of App.tsx, with the fresh ids it uses. */
  datatype Updater =
    | AddTransaction(transactionDraft: TransactionDraft, newId: string)
    | AddTransactions(batch: seq<(TransactionDraft, string)>)
    | UpdateTransaction(transaction: Transaction)
    | DeleteTransaction(id: string)
    | AddAccount(accountDraft: AccountDraft, newId: string)
    | UpdateAccount(account: Account)
    | DeleteAccount(id: string)
    | AddBudget(budgetDraft: BudgetDraft, newId: string)
    | UpdateBudget(budget: Budget)
    | DeleteBudget(id: string)
    | AddDebt(debtDraft: DebtDraft, newId: string)
    | UpdateDebt(debt: Debt)
    | DeleteDebt(id: string)
    | AddGoal(goalDraft: GoalDraft, newId: string)
    | UpdateGoal(goal: Goal)
    | DeleteGoal(id: string)
    | UpdateGoalProgress(goalId: string, additionalAmount: real)
    | AddSip(sipDraft: SIPDraft, newId: string)
    | UpdateSip(sip: SIP)
    | DeleteSip(id: string)
    | AddFd(fdDraft: FixedDepositDraft, newId: string)
    | UpdateFd(fd: FixedDeposit)
    | DeleteFd(id: string)
    | AddStock(stockDraft: StockDraft, newId: string)
    | UpdateStock(stock: Stock)
    | DeleteStock(id: string)
  {
    /** The one collection the updater rewrites. */
    function Target(): Collection {
      match this
      case AddTransaction(_, _) => TransactionList
      case AddTransactions(_) => TransactionList
      case UpdateTransaction(_) => TransactionList
      case DeleteTransaction(_) => TransactionList
      case AddAccount(_, _) => AccountList
      case UpdateAccount(_) => AccountList
      case DeleteAccount(_) => AccountList
      case AddBudget(_, _) => BudgetList
      case UpdateBudget(_) => BudgetList
      case DeleteBudget(_) => BudgetList
      case AddDebt(_, _) => DebtList
      case UpdateDebt(_) => DebtList
      case DeleteDebt(_) => DebtList
      case AddGoal(_, _) => GoalList
      case UpdateGoal(_) => GoalList
      case DeleteGoal(_) => GoalList
      case UpdateGoalProgress(_, _) => GoalList
      case AddSip(_, _) => SipList
      case UpdateSip(_) => SipList
      case DeleteSip(_) => SipList
      case AddFd(_, _) => FdList
      case UpdateFd(_) => FdList
      case DeleteFd(_) => FdList
      case AddStock(_, _) => StockList
      case UpdateStock(_) => StockList
      case DeleteStock(_) => StockList
    }

    /** The updater appends one entity under `newId`. */
    predicate IsAdd() {
      AddTransaction? || AddAccount? || AddBudget? || AddDebt? || AddGoal? || AddSip? || AddFd? || AddStock?
    }

    /** The updater replaces the entities that carry the id of the entity it holds. */
    predicate IsUpdate() {
      UpdateTransaction? || UpdateAccount? || UpdateBudget? || UpdateDebt? || UpdateGoal? || UpdateSip? || UpdateFd? || UpdateStock?
    }

    /** The updater removes the entities that carry `id`. */
    predicate IsDelete() {
      DeleteTransaction? || DeleteAccount? || DeleteBudget? || DeleteDebt? || DeleteGoal? || DeleteSip? || DeleteFd? || DeleteStock?
    }

    /** The id of the entity an update carries. */
    function UpdatedId(): string
      requires IsUpdate()
    {
      match this
      case UpdateTransaction(x) => x.id
      case UpdateAccount(x) => x.id
      case UpdateBudget(x) => x.id
      case UpdateDebt(x) => x.id
      case UpdateGoal(x) => x.id
      case UpdateSip(x) => x.id
      case UpdateFd(x) => x.id
      case UpdateStock(x) => x.id
    }
  }

  /**
   * The record an updater produces from `prev`: its target collection is
   * rewritten and every other collection is carried over by the spread.
   */
  function Apply(u: Updater, prev: FinancialData): (next: FinancialData)
    ensures u.Target() != TransactionList ==> next.transactions == prev.transactions
    ensures u.Target() != DebtList ==> next.debts == prev.debts
    ensures u.Target() != GoalList ==> next.goals == prev.goals
    ensures u.Target() != SipList ==> next.sips == prev.sips
    ensures u.Target() != FdList ==> next.fds == prev.fds
    ensures u.Target() != StockList ==> next.stocks == prev.stocks
    ensures u.Target() != AccountList ==> next.accounts == prev.accounts
    ensures u.Target() != BudgetList ==> next.budgets == prev.budgets
  {
    match u.Target()
    case TransactionList => prev.(transactions := ApplyToTransactions(u, prev.transactions))
    case AccountList => prev.(accounts := ApplyToAccounts(u, prev.accounts))
    case BudgetList => prev.(budgets := ApplyToBudgets(u, prev.budgets))
    case DebtList => prev.(debts := ApplyToDebts(u, prev.debts))
    case GoalList => prev.(goals := ApplyToGoals(u, prev.goals))
    case SipList => prev.(sips := ApplyToSips(u, prev.sips))
    case FdList => prev.(fds := ApplyToFds(u, prev.fds))
    case StockList => prev.(stocks := ApplyToStocks(u, prev.stocks))
  }

  /** `setTransactions`'s updaters: add one, add a batch, replace by id, remove by id. */
  function ApplyToTransactions(u: Updater, ts: seq<Transaction>): seq<Transaction>
    requires u.Target() == TransactionList
  {
    if u.AddTransaction? then ts + [u.transactionDraft.WithId(u.newId)]
    else if u.AddTransactions? then ts + Seqs.Map(u.batch, (p: (TransactionDraft, string)) => p.0.WithId(p.1))
    else if u.UpdateTransaction? then Seqs.ReplaceById(ts, TransactionId, u.transaction)
    else Seqs.RemoveById(ts, TransactionId, u.id)
  }

  /** `setAccounts`'s updaters. */
  function ApplyToAccounts(u: Updater, xs: seq<Account>): seq<Account>
    requires u.Target() == AccountList
  {
    if u.AddAccount? then xs + [u.accountDraft.WithId(u.newId)]
    else if u.UpdateAccount? then Seqs.ReplaceById(xs, AccountId, u.account)
    else Seqs.RemoveById(xs, AccountId, u.id)
  }

  /** `setBudgets`'s updaters. */
  function ApplyToBudgets(u: Updater, xs: seq<Budget>): seq<Budget>
    requires u.Target() == BudgetList
  {
    if u.AddBudget? then xs + [u.budgetDraft.WithId(u.newId)]
    else if u.UpdateBudget? then Seqs.ReplaceById(xs, BudgetId, u.budget)
    else Seqs.RemoveById(xs, BudgetId, u.id)
  }

  /** `setDebts`'s updaters. */
  function ApplyToDebts(u: Updater, xs: seq<Debt>): seq<Debt>
    requires u.Target() == DebtList
  {
    if u.AddDebt? then xs + [u.debtDraft.WithId(u.newId)]
    else if u.UpdateDebt? then Seqs.ReplaceById(xs, DebtId, u.debt)
    else Seqs.RemoveById(xs, DebtId, u.id)
  }

  /** `setGoals`'s updaters: a new goal starts at zero; progress rewrites the goals carrying the id. */
  function ApplyToGoals(u: Updater, xs: seq<Goal>): seq<Goal>
    requires u.Target() == GoalList
  {
    if u.AddGoal? then xs + [Goal(u.newId, u.goalDraft.name, u.goalDraft.targetAmount, 0.0, u.goalDraft.deadline)]
    else if u.UpdateGoal? then Seqs.ReplaceById(xs, GoalId, u.goal)
    else if u.DeleteGoal? then Seqs.RemoveById(xs, GoalId, u.id)
    else Seqs.Map(xs, (g: Goal) => if g.id == u.goalId then AddProgress(g, u.additionalAmount) else g)
  }

  /** `setSips`'s updaters. */
  function ApplyToSips(u: Updater, xs: seq<SIP>): seq<SIP>
    requires u.Target() == SipList
  {
    if u.AddSip? then xs + [u.sipDraft.WithId(u.newId)]
    else if u.UpdateSip? then Seqs.ReplaceById(xs, SipId, u.sip)
    else Seqs.RemoveById(xs, SipId, u.id)
  }

  /** `setFds`'s updaters. */
  function ApplyToFds(u: Updater, xs: seq<FixedDeposit>): seq<FixedDeposit>
    requires u.Target() == FdList
  {
    if u.AddFd? then xs + [u.fdDraft.WithId(u.newId)]
    else if u.UpdateFd? then Seqs.ReplaceById(xs, FdId, u.fd)
    else Seqs.RemoveById(xs, FdId, u.id)
  }

  /** `setStocks`'s updaters. */
  function ApplyToStocks(u: Updater, xs: seq<Stock>): seq<Stock>
    requires u.Target() == StockList
  {
    if u.AddStock? then xs + [u.stockDraft.WithId(u.newId)]
    else if u.UpdateStock? then Seqs.ReplaceById(xs, StockId, u.stock)
    else Seqs.RemoveById(xs, StockId, u.id)
  }

  /** An updater never changes a collection other than its target. */
  lemma OtherCollectionsUnchanged(u: Updater, prev: FinancialData, c: Collection)
    requires c != u.Target()
    ensures SameCollection(prev, Apply(u, prev), c)
  {
  }

  /** An add appends exactly its fresh id at the end of the target collection. */
  lemma AddAppendsId(u: Updater, prev: FinancialData)
    requires u.IsAdd()
    ensures Ids(Apply(u, prev), u.Target()) == Ids(prev, u.Target()) + [u.newId]
    ensures var next := Apply(u, prev);
      (u.AddTransaction? ==> Seqs.Appended(prev.transactions, next.transactions, u.transactionDraft.WithId(u.newId))) &&
      (u.AddAccount? ==> Seqs.Appended(prev.accounts, next.accounts, u.accountDraft.WithId(u.newId))) &&
      (u.AddBudget? ==> Seqs.Appended(prev.budgets, next.budgets, u.budgetDraft.WithId(u.newId))) &&
      (u.AddDebt? ==> Seqs.Appended(prev.debts, next.debts, u.debtDraft.WithId(u.newId))) &&
      (u.AddGoal? ==> Seqs.Appended(prev.goals, next.goals,
                        Goal(u.newId, u.goalDraft.name, u.goalDraft.targetAmount, 0.0, u.goalDraft.deadline))) &&
      (u.AddSip? ==> Seqs.Appended(prev.sips, next.sips, u.sipDraft.WithId(u.newId))) &&
      (u.AddFd? ==> Seqs.Appended(prev.fds, next.fds, u.fdDraft.WithId(u.newId))) &&
      (u.AddStock? ==> Seqs.Appended(prev.stocks, next.stocks, u.stockDraft.WithId(u.newId)))
  {
    if OnLedgerPages(u.Target()) {
      AddAppendsIdOnLedgerPages(u, prev);
    } else {
      AddAppendsIdOnSavingsPages(u, prev);
    }
  }

  /** `AddAppendsId` for the collections of the ledger pages. */
  lemma AddAppendsIdOnLedgerPages(u: Updater, prev: FinancialData)
    requires u.IsAdd() && OnLedgerPages(u.Target())
    ensures Ids(Apply(u, prev), u.Target()) == Ids(prev, u.Target()) + [u.newId]
  {
    if u.AddTransaction? {
      Seqs.MapConcat(prev.transactions, [u.transactionDraft.WithId(u.newId)], TransactionId);
    } else if u.AddAccount? {
      Seqs.MapConcat(prev.accounts, [u.accountDraft.WithId(u.newId)], AccountId);
    } else if u.AddBudget? {
      Seqs.MapConcat(prev.budgets, [u.budgetDraft.WithId(u.newId)], BudgetId);
    } else {
      Seqs.MapConcat(prev.debts, [u.debtDraft.WithId(u.newId)], DebtId);
    }
  }

  /** `AddAppendsId` for the collections of the goals and investments pages. */
  lemma AddAppendsIdOnSavingsPages(u: Updater, prev: FinancialData)
    requires u.IsAdd() && !OnLedgerPages(u.Target())
    ensures Ids(Apply(u, prev), u.Target()) == Ids(prev, u.Target()) + [u.newId]
  {
    if u.AddGoal? {
      Seqs.MapConcat(prev.goals, [Goal(u.newId, u.goalDraft.name, u.goalDraft.targetAmount, 0.0, u.goalDraft.deadline)], GoalId);
    } else if u.AddSip? {
      Seqs.MapConcat(prev.sips, [u.sipDraft.WithId(u.newId)], SipId);
    } else if u.AddFd? {
      Seqs.MapConcat(prev.fds, [u.fdDraft.WithId(u.newId)], FdId);
    } else {
      Seqs.MapConcat(prev.stocks, [u.stockDraft.WithId(u.newId)], StockId);
    }
  }

  /** Adding a goal starts it with no progress; the other fields come from the form. */
  lemma AddGoalStartsAtZero(g: GoalDraft, id: string, prev: FinancialData)
    ensures var goals := Apply(AddGoal(g, id), prev).goals;
      |goals| == |prev.goals| + 1 && goals[..|prev.goals|] == prev.goals &&
      goals[|prev.goals|] == Goal(id, g.name, g.targetAmount, 0.0, g.deadline)
  {
  }

  /** A batch import appends the batch, in order, under its own ids. */
  lemma AddTransactionsAppendsIds(batch: seq<(TransactionDraft, string)>, prev: FinancialData)
    ensures Ids(Apply(AddTransactions(batch), prev), TransactionList)
         == Ids(prev, TransactionList) + Seqs.Map(batch, (p: (TransactionDraft, string)) => p.1)
  {
    var added := Seqs.Map(batch, (p: (TransactionDraft, string)) => p.0.WithId(p.1));
    Seqs.MapConcat(prev.transactions, added, TransactionId);
  }

  /** An update never changes the ids of its collection, so it neither adds nor removes entities. */
  lemma UpdateKeepsIds(u: Updater, prev: FinancialData)
    requires u.IsUpdate()
    ensures Ids(Apply(u, prev), u.Target()) == Ids(prev, u.Target())
  {
    if OnLedgerPages(u.Target()) {
      UpdateKeepsIdsOnLedgerPages(u, prev);
    } else {
      UpdateKeepsIdsOnSavingsPages(u, prev);
    }
  }

  /** `UpdateKeepsIds` for the collections of the ledger pages. */
  lemma UpdateKeepsIdsOnLedgerPages(u: Updater, prev: FinancialData)
    requires u.IsUpdate() && OnLedgerPages(u.Target())
    ensures Ids(Apply(u, prev), u.Target()) == Ids(prev, u.Target())
  {
    if u.UpdateTransaction? {
      Seqs.ReplaceByIdKeepsIds(prev.transactions, TransactionId, u.transaction);
    } else if u.UpdateAccount? {
      Seqs.ReplaceByIdKeepsIds(prev.accounts, AccountId, u.account);
    } else if u.UpdateBudget? {
      Seqs.ReplaceByIdKeepsIds(prev.budgets, BudgetId, u.budget);
    } else {
      Seqs.ReplaceByIdKeepsIds(prev.debts, DebtId, u.debt);
    }
  }

  /** `UpdateKeepsIds` for the collections of the goals and investments pages. */
  lemma UpdateKeepsIdsOnSavingsPages(u: Updater, prev: FinancialData)
    requires u.IsUpdate() && !OnLedgerPages(u.Target())
    ensures Ids(Apply(u, prev), u.Target()) == Ids(prev, u.Target())
  {
    if u.UpdateGoal? {
      Seqs.ReplaceByIdKeepsIds(prev.goals, GoalId, u.goal);
    } else if u.UpdateSip? {
      Seqs.ReplaceByIdKeepsIds(prev.sips, SipId, u.sip);
    } else if u.UpdateFd? {
      Seqs.ReplaceByIdKeepsIds(prev.fds, FdId, u.fd);
    } else {
      Seqs.ReplaceByIdKeepsIds(prev.stocks, StockId, u.stock);
    }
  }

  /** An update whose id no entity carries leaves the record unchanged. */
  lemma UpdateOfMissingIdIsNoOp(u: Updater, prev: FinancialData)
    requires u.IsUpdate() && u.UpdatedId() !in Ids(prev, u.Target())
    ensures Apply(u, prev) == prev
  {
    if OnLedgerPages(u.Target()) {
      UpdateOfMissingIdIsNoOpOnLedgerPages(u, prev);
    } else {
      UpdateOfMissingIdIsNoOpOnSavingsPages(u, prev);
    }
  }

  /** `UpdateOfMissingIdIsNoOp` for the collections of the ledger pages. */
  lemma UpdateOfMissingIdIsNoOpOnLedgerPages(u: Updater, prev: FinancialData)
    requires u.IsUpdate() && u.UpdatedId() !in Ids(prev, u.Target()) && OnLedgerPages(u.Target())
    ensures Apply(u, prev) == prev
  {
    if u.UpdateTransaction? {
      assert forall t :: t in prev.transactions ==> t.id in Ids(prev, TransactionList);
      Seqs.ReplaceMissingIdIsIdentity(prev.transactions, TransactionId, u.transaction);
    } else if u.UpdateAccount? {
      assert forall t :: t in prev.accounts ==> t.id in Ids(prev, AccountList);
      Seqs.ReplaceMissingIdIsIdentity(prev.accounts, AccountId, u.account);
    } else if u.UpdateBudget? {
      assert forall t :: t in prev.budgets ==> t.id in Ids(prev, BudgetList);
      Seqs.ReplaceMissingIdIsIdentity(prev.budgets, BudgetId, u.budget);
    } else {
      assert forall t :: t in prev.debts ==> t.id in Ids(prev, DebtList);
      Seqs.ReplaceMissingIdIsIdentity(prev.debts, DebtId, u.debt);
    }
  }

  /** `UpdateOfMissingIdIsNoOp` for the collections of the goals and investments pages. */
  lemma UpdateOfMissingIdIsNoOpOnSavingsPages(u: Updater, prev: FinancialData)
    requires u.IsUpdate() && u.UpdatedId() !in Ids(prev, u.Target()) && !OnLedgerPages(u.Target())
    ensures Apply(u, prev) == prev
  {
    if u.UpdateGoal? {
      assert forall t :: t in prev.goals ==> t.id in Ids(prev, GoalList);
      Seqs.ReplaceMissingIdIsIdentity(prev.goals, GoalId, u.goal);
    } else if u.UpdateSip? {
      assert forall t :: t in prev.sips ==> t.id in Ids(prev, SipList);
      Seqs.ReplaceMissingIdIsIdentity(prev.sips, SipId, u.sip);
    } else if u.UpdateFd? {
      assert forall t :: t in prev.fds ==> t.id in Ids(prev, FdList);
      Seqs.ReplaceMissingIdIsIdentity(prev.fds, FdId, u.fd);
    } else {
      assert forall t :: t in prev.stocks ==> t.id in Ids(prev, StockList);
      Seqs.ReplaceMissingIdIsIdentity(prev.stocks, StockId, u.stock);
    }
  }

  /** A delete removes exactly its id from the collection and keeps every other entity in order. */
  lemma DeleteRemovesId(u: Updater, prev: FinancialData)
    requires u.IsDelete()
    ensures Ids(Apply(u, prev), u.Target()) == Seqs.Without(Ids(prev, u.Target()), u.id)
    ensures var next := Apply(u, prev);
      (u.DeleteTransaction? ==> next.transactions == Seqs.RemoveById(prev.transactions, TransactionId, u.id)) &&
      (u.DeleteAccount? ==> next.accounts == Seqs.RemoveById(prev.accounts, AccountId, u.id)) &&
      (u.DeleteBudget? ==> next.budgets == Seqs.RemoveById(prev.budgets, BudgetId, u.id)) &&
      (u.DeleteDebt? ==> next.debts == Seqs.RemoveById(prev.debts, DebtId, u.id)) &&
      (u.DeleteGoal? ==> next.goals == Seqs.RemoveById(prev.goals, GoalId, u.id)) &&
      (u.DeleteSip? ==> next.sips == Seqs.RemoveById(prev.sips, SipId, u.id)) &&
      (u.DeleteFd? ==> next.fds == Seqs.RemoveById(prev.fds, FdId, u.id)) &&
      (u.DeleteStock? ==> next.stocks == Seqs.RemoveById(prev.stocks, StockId, u.id))
  {
    if OnLedgerPages(u.Target()) {
      DeleteRemovesIdOnLedgerPages(u, prev);
    } else {
      DeleteRemovesIdOnSavingsPages(u, prev);
    }
  }

  /** `DeleteRemovesId` for the collections of the ledger pages. */
  lemma DeleteRemovesIdOnLedgerPages(u: Updater, prev: FinancialData)
    requires u.IsDelete() && OnLedgerPages(u.Target())
    ensures Ids(Apply(u, prev), u.Target()) == Seqs.Without(Ids(prev, u.Target()), u.id)
  {
    if u.DeleteTransaction? {
      assert Apply(u, prev).transactions == Seqs.RemoveById(prev.transactions, TransactionId, u.id);
      Seqs.RemoveByIdIds(prev.transactions, TransactionId, u.id);
    } else if u.DeleteAccount? {
      assert Apply(u, prev).accounts == Seqs.RemoveById(prev.accounts, AccountId, u.id);
      Seqs.RemoveByIdIds(prev.accounts, AccountId, u.id);
    } else if u.DeleteBudget? {
      assert Apply(u, prev).budgets == Seqs.RemoveById(prev.budgets, BudgetId, u.id);
      Seqs.RemoveByIdIds(prev.budgets, BudgetId, u.id);
    } else {
      assert Apply(u, prev).debts == Seqs.RemoveById(prev.debts, DebtId, u.id);
      Seqs.RemoveByIdIds(prev.debts, DebtId, u.id);
    }
  }

  /** `DeleteRemovesId` for the collections of the goals and investments pages. */
  lemma DeleteRemovesIdOnSavingsPages(u: Updater, prev: FinancialData)
    requires u.IsDelete() && !OnLedgerPages(u.Target())
    ensures Ids(Apply(u, prev), u.Target()) == Seqs.Without(Ids(prev, u.Target()), u.id)
  {
    if u.DeleteGoal? {
      assert Apply(u, prev).goals == Seqs.RemoveById(prev.goals, GoalId, u.id);
      Seqs.RemoveByIdIds(prev.goals, GoalId, u.id);
    } else if u.DeleteSip? {
      assert Apply(u, prev).sips == Seqs.RemoveById(prev.sips, SipId, u.id);
      Seqs.RemoveByIdIds(prev.sips, SipId, u.id);
    } else if u.DeleteFd? {
      assert Apply(u, prev).fds == Seqs.RemoveById(prev.fds, FdId, u.id);
      Seqs.RemoveByIdIds(prev.fds, FdId, u.id);
    } else {
      assert Apply(u, prev).stocks == Seqs.RemoveById(prev.stocks, StockId, u.id);
      Seqs.RemoveByIdIds(prev.stocks, StockId, u.id);
    }
  }

  /** Deleting an id that no entity of the collection carries leaves the record unchanged. */
  lemma DeleteOfMissingIdIsNoOp(u: Updater, prev: FinancialData)
    requires u.IsDelete() && u.id !in Ids(prev, u.Target())
    ensures Apply(u, prev) == prev
  {
    if OnLedgerPages(u.Target()) {
      DeleteOfMissingIdIsNoOpOnLedgerPages(u, prev);
    } else {
      DeleteOfMissingIdIsNoOpOnSavingsPages(u, prev);
    }
  }

  /** `DeleteOfMissingIdIsNoOp` for the collections of the ledger pages. */
  lemma DeleteOfMissingIdIsNoOpOnLedgerPages(u: Updater, prev: FinancialData)
    requires u.IsDelete() && u.id !in Ids(prev, u.Target()) && OnLedgerPages(u.Target())
    ensures Apply(u, prev) == prev
  {
    if u.DeleteTransaction? {
      assert forall t :: t in prev.transactions ==> t.id in Ids(prev, TransactionList);
      Seqs.RemoveByIdLength(prev.transactions, TransactionId, u.id);
    } else if u.DeleteAccount? {
      assert forall t :: t in prev.accounts ==> t.id in Ids(prev, AccountList);
      Seqs.RemoveByIdLength(prev.accounts, AccountId, u.id);
    } else if u.DeleteBudget? {
      assert forall t :: t in prev.budgets ==> t.id in Ids(prev, BudgetList);
      Seqs.RemoveByIdLength(prev.budgets, BudgetId, u.id);
    } else {
      assert forall t :: t in prev.debts ==> t.id in Ids(prev, DebtList);
      Seqs.RemoveByIdLength(prev.debts, DebtId, u.id);
    }
  }

  /** `DeleteOfMissingIdIsNoOp` for the collections of the goals and investments pages. */
  lemma DeleteOfMissingIdIsNoOpOnSavingsPages(u: Updater, prev: FinancialData)
    requires u.IsDelete() && u.id !in Ids(prev, u.Target()) && !OnLedgerPages(u.Target())
    ensures Apply(u, prev) == prev
  {
    if u.DeleteGoal? {
      assert forall t :: t in prev.goals ==> t.id in Ids(prev, GoalList);
      Seqs.RemoveByIdLength(prev.goals, GoalId, u.id);
    } else if u.DeleteSip? {
      assert forall t :: t in prev.sips ==> t.id in Ids(prev, SipList);
      Seqs.RemoveByIdLength(prev.sips, SipId, u.id);
    } else if u.DeleteFd? {
      assert forall t :: t in prev.fds ==> t.id in Ids(prev, FdList);
      Seqs.RemoveByIdLength(prev.fds, FdId, u.id);
    } else {
      assert forall t :: t in prev.stocks ==> t.id in Ids(prev, StockList);
      Seqs.RemoveByIdLength(prev.stocks, StockId, u.id);
    }
  }

  /**
   * `updateGoalProgress` rewrites only the goals carrying `goalId`, each to
   * `min(current + amount, target)`, and leaves the others as they were.
   */
  lemma GoalProgressRewritesMatches(goalId: string, amount: real, prev: FinancialData)
    ensures var goals := Apply(UpdateGoalProgress(goalId, amount), prev).goals;
      |goals| == |prev.goals| &&
      (forall i :: 0 <= i < |goals| && prev.goals[i].id == goalId ==>
         goals[i] == AddProgress(prev.goals[i], amount) &&
         goals[i] == prev.goals[i].(currentAmount := goals[i].currentAmount) &&
         goals[i].currentAmount <= goals[i].targetAmount &&
         (goals[i].currentAmount == prev.goals[i].currentAmount + amount || goals[i].currentAmount == goals[i].targetAmount)) &&
      (forall i :: 0 <= i < |goals| && prev.goals[i].id != goalId ==> goals[i] == prev.goals[i])
  {
  }

  /** Progress never changes which goals exist. */
  lemma GoalProgressKeepsIds(goalId: string, amount: real, prev: FinancialData)
    ensures Ids(Apply(UpdateGoalProgress(goalId, amount), prev), GoalList) == Ids(prev, GoalList)
  {
  }
}

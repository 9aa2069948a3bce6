/** The Accounts view (components/Accounts.tsx). */
module AccountsView {
  import opened Wrappers
  import opened Strings
  import opened Types
  import opened Forms
  import Seqs

  /** The search test: the lower-cased query in the lower-cased name or type. */
  predicate MatchesQuery(a: Account, lowerQuery: string) {
    Contains(ToLower(a.name), lowerQuery) || Contains(ToLower(AccountTypeName(a.kind)), lowerQuery)
  }

  function QueryFilter(lowerQuery: string): Account -> bool {
    a => MatchesQuery(a, lowerQuery)
  }

  /**
   * `filteredAccounts`: the whole list for an empty query, otherwise the
   * accounts whose name or type contains the query, ignoring case.
   */
  function FilteredAccounts(accounts: seq<Account>, query: string): (r: seq<Account>)
    ensures query == "" ==> r == accounts
    ensures query != "" ==> forall a :: a in r <==> a in accounts && MatchesQuery(a, ToLower(query))
    ensures |r| <= |accounts|
  {
    if query == "" then accounts else Seqs.Filter(accounts, QueryFilter(ToLower(query)))
  }

  /** The search keeps list order: searching a list in two parts searches each part. */
  lemma SearchKeepsOrder(a: seq<Account>, b: seq<Account>, query: string)
    ensures FilteredAccounts(a + b, query) == FilteredAccounts(a, query) + FilteredAccounts(b, query)
  {
    if query != "" {
      Seqs.FilterConcat(a, b, QueryFilter(ToLower(query)));
    }
  }

  /** The search ignores the case of the query. */
  lemma SearchIgnoresQueryCase(accounts: seq<Account>, query: string)
    requires query != ""
    ensures FilteredAccounts(accounts, ToLower(query)) == FilteredAccounts(accounts, query)
  {
    ToLowerIdempotent(query);
    assert ToLower(query) != "" by {
      assert |ToLower(query)| == |query|;
    }
  }

  /** The two account icons. */
  datatype AccountIcon = BanknoteIcon | CreditCardIcon

  /** `getIcon`: savings and checking accounts share the banknote, credit cards get the card. */
  function IconFor(kind: AccountType): (icon: AccountIcon)
    ensures icon == CreditCardIcon <==> kind == CreditCardAccount
  {
    match kind
    case Savings => BanknoteIcon
    case Checking => BanknoteIcon
    case CreditCardAccount => CreditCardIcon
  }

  /** The account form: the balance is the text of a number input. */
  datatype AccountForm = AccountForm(name: string, kind: AccountType, balance: string)

  /** `handleSaveAccount`: with name and balance filled, a new account or the edited one under its own id. */
  function SaveAccount(form: AccountForm, editing: Option<Account>, numberOf: string -> real)
    : (r: SaveOutcome<AccountDraft, Account>)
    ensures r.Rejected? <==> !(Filled(form.name) && Filled(form.balance))
    ensures r.Create? ==> editing.None? && r.draft == AccountDraft(form.name, form.kind, numberOf(form.balance))
    ensures r.Replace? ==> editing.Some? && r.entity == Account(editing.value.id, form.name, form.kind, numberOf(form.balance))
  {
    if Filled(form.name) && Filled(form.balance) then
      var data := AccountDraft(form.name, form.kind, numberOf(form.balance));
      if editing.Some? then Replace(data.WithId(editing.value.id)) else Create(data)
    else Rejected
  }
}

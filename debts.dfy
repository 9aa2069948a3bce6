/** The Debts view (components/DebtTracker.tsx). */
module DebtsView {
  import opened Wrappers
  import opened Types
  import opened Forms
  import opened Progress
  import Seqs
  import Demo

  /** The share of the debt paid off; the bar is drawn at this width, uncapped. */
  function PercentagePaid(d: Debt): real {
    Percentage(d.amountPaid, d.totalAmount)
  }

  /** What is still owed; negative once more than the total has been paid. */
  function RemainingAmount(d: Debt): (r: real)
    ensures r + d.amountPaid == d.totalAmount
  {
    d.totalAmount - d.amountPaid
  }

  /** With a positive total, the debt reads under 100 percent paid exactly while something remains. */
  lemma PaidOffAtHundredPercent(d: Debt)
    requires d.totalAmount > 0.0
    ensures PercentagePaid(d) < 100.0 <==> RemainingAmount(d) > 0.0
    ensures PercentagePaid(d) == 100.0 <==> RemainingAmount(d) == 0.0
  {
    PercentageComparesPartToWhole(d.amountPaid, d.totalAmount);
  }

  /** `d.type === 'Credit Card'`. */
  predicate IsCreditCard(d: Debt) {
    DebtTypeName(d.kind) == "Credit Card"
  }

  predicate IsLoan(d: Debt) {
    !IsCreditCard(d)
  }

  /** The string test selects exactly the credit-card debt type. */
  lemma CreditCardByName(d: Debt)
    ensures IsCreditCard(d) <==> d.kind == CreditCard
  {
    DebtTypeNamesDistinct(d.kind, CreditCard);
  }

  function CreditCardDebts(debts: seq<Debt>): seq<Debt> {
    Seqs.Filter(debts, IsCreditCard)
  }

  function LoanDebts(debts: seq<Debt>): seq<Debt> {
    Seqs.Filter(debts, IsLoan)
  }

  /**
   * The two sections share out the debts: every debt is in exactly one of
   * them, as often as in the list, and each section keeps list order.
   */
  lemma {:induction false} SectionsPartitionDebts(debts: seq<Debt>)
    ensures multiset(CreditCardDebts(debts)) + multiset(LoanDebts(debts)) == multiset(debts)
    ensures forall d :: d in CreditCardDebts(debts) <==> d in debts && d.kind == CreditCard
    ensures forall d :: d in LoanDebts(debts) <==> d in debts && d.kind != CreditCard
  {
    forall d ensures IsCreditCard(d) <==> d.kind == CreditCard {
      CreditCardByName(d);
    }
    if debts != [] {
      SectionsPartitionDebts(debts[1..]);
      assert debts == [debts[0]] + debts[1..];
    }
  }

  /** Sections are built piecewise, so they keep the relative order of the list. */
  lemma SectionsKeepOrder(a: seq<Debt>, b: seq<Debt>)
    ensures CreditCardDebts(a + b) == CreditCardDebts(a) + CreditCardDebts(b)
    ensures LoanDebts(a + b) == LoanDebts(a) + LoanDebts(b)
  {
    Seqs.FilterConcat(a, b, IsCreditCard);
    Seqs.FilterConcat(a, b, IsLoan);
  }

  /** The debt form: the amounts are the texts of number inputs. */
  datatype DebtForm = DebtForm(name: string, kind: DebtType, totalAmount: string, amountPaid: string, interestRate: string)

  /** `handleSaveDebt`: with name and all three numbers filled, a new debt or the edited one under its own id. */
  function SaveDebt(form: DebtForm, editing: Option<Debt>, numberOf: string -> real)
    : (r: SaveOutcome<DebtDraft, Debt>)
    ensures r.Rejected? <==>
      !(Filled(form.name) && Filled(form.totalAmount) && Filled(form.amountPaid) && Filled(form.interestRate))
    ensures r.Create? ==> editing.None?
    ensures r.Create? ==>
      r.draft == DebtDraft(form.name, form.kind, numberOf(form.totalAmount), numberOf(form.amountPaid), numberOf(form.interestRate))
    ensures r.Replace? ==> editing.Some?
    ensures r.Replace? ==>
      r.entity == Debt(editing.value.id, form.name, form.kind, numberOf(form.totalAmount), numberOf(form.amountPaid), numberOf(form.interestRate))
  {
    if Filled(form.name) && Filled(form.totalAmount) && Filled(form.amountPaid) && Filled(form.interestRate) then
      var data := DebtDraft(form.name, form.kind, numberOf(form.totalAmount), numberOf(form.amountPaid), numberOf(form.interestRate));
      if editing.Some? then Replace(data.WithId(editing.value.id)) else Create(data)
    else Rejected
  }

  /** The demo's credit-card bill: 15000 of 35000 paid is 300/7 percent, with 20000 remaining, and it sits in the credit-card section. */
  lemma DemoDebtCard()
    ensures PercentagePaid(Demo.DemoDebt) == 300.0 / 7.0
    ensures RemainingAmount(Demo.DemoDebt) == 20000.0
    ensures CreditCardDebts([Demo.DemoDebt]) == [Demo.DemoDebt] && LoanDebts([Demo.DemoDebt]) == []
  {
    assert IsCreditCard(Demo.DemoDebt);
  }
}

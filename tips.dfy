/**
 * The tip of the day (components/dashboard/TipOfTheDay.tsx): a fixed list
 * of thirty tips, one picked by the day of the month.
 */
module Tips {
  /** The tips, in order. */
  const Tip01 := "Review your bank statements each month to catch fraudulent charges."
  const Tip02 := "Automate your savings to ensure you're consistently putting money away."
  const Tip03 := "The 50/30/20 rule: 50% on needs, 30% on wants, and 20% on savings."
  const Tip04 := "Build an emergency fund that covers 3-6 months of living expenses."
  const Tip05 := "Pay off high-interest debt, like credit cards, as quickly as possible."
  const Tip06 := "Check your credit score regularly and understand what affects it."
  const Tip07 := "Always pay your bills on time to avoid late fees and protect your credit."
  const Tip08 := "Negotiate your bills, such as cable and internet, to lower your monthly costs."
  const Tip09 := "Create a detailed budget to track where your money is going."
  const Tip10 := "Take full advantage of employer-sponsored retirement plans, like a 401(k) match."
  const Tip11 := "Diversify your investments to spread risk."
  const Tip12 := "Understand the power of compound interest and start investing early."
  const Tip13 := "Avoid making emotional investment decisions. Stick to your long-term plan."
  const Tip14 := "Increase your insurance deductibles to lower your premiums."
  const Tip15 := "Use a cashback credit card for everyday purchases, but pay it off monthly."
  const Tip16 := "Plan your meals for the week to save money on groceries and eating out."
  const Tip17 := "Unsubscribe from marketing emails to reduce the temptation of impulse buys."
  const Tip18 := "Wait 24 hours before making a large, non-essential purchase."
  const Tip19 := "Set clear financial goals to stay motivated."
  const Tip20 := "Educate yourself about personal finance through books, podcasts, and blogs."
  const Tip21 := "Review your insurance coverage annually to ensure it still meets your needs."
  const Tip22 := "When you get a raise, increase your savings rate, not just your spending."
  const Tip23 := "Don't be afraid to talk about money with your partner or family."
  const Tip24 := "Keep your financial records organized in one secure place."
  const Tip25 := "Understand the tax implications of your financial decisions."
  const Tip26 := "Create a will and an estate plan to protect your assets and loved ones."
  const Tip27 := "Use a high-yield savings account for your emergency fund to earn more interest."
  const Tip28 := "Compare prices before making significant purchases."
  const Tip29 := "Prioritize experiences over material possessions for greater long-term happiness."
  const Tip30 := "Regularly contribute to a retirement account, even if it's a small amount."

  function FinancialTips(): (tips: seq<string>)
    ensures |tips| == 30
  {
    [Tip01, Tip02, Tip03, Tip04, Tip05, Tip06, Tip07, Tip08, Tip09, Tip10, Tip11, Tip12, Tip13, Tip14, Tip15, Tip16, Tip17, Tip18, Tip19, Tip20, Tip21, Tip22, Tip23, Tip24, Tip25, Tip26, Tip27, Tip28, Tip29, Tip30]
  }

  /**
   * `tipIndex`: the day of the month (1 to 31, as `getDate` returns it)
   * less one, modulo the number of tips.
   */
  function TipIndex(dayOfMonth: int): (i: nat)
    requires 1 <= dayOfMonth <= 31
    ensures i < |FinancialTips()|
    ensures dayOfMonth <= 30 ==> i == dayOfMonth - 1
    ensures dayOfMonth == 31 ==> i == 0
  {
    (dayOfMonth - 1) % |FinancialTips()|
  }

  /** The tip shown on a given day of the month. */
  function TipOfTheDay(dayOfMonth: int): (tip: string)
    requires 1 <= dayOfMonth <= 31
    ensures tip in FinancialTips()
  {
    FinancialTips()[TipIndex(dayOfMonth)]
  }

  /**
   * Two days of the month pick the same tip exactly when they are the same
   * day, or are the 1st and the 31st: the list wraps around once.
   */
  lemma SameTipIndexIff(d1: int, d2: int)
    requires 1 <= d1 <= 31 && 1 <= d2 <= 31
    ensures TipIndex(d1) == TipIndex(d2) <==> d1 == d2 || (d1 == 1 && d2 == 31) || (d1 == 31 && d2 == 1)
  {
  }

  /** The 31st shows the tip of the 1st. */
  lemma ThirtyFirstRepeatsFirst()
    ensures TipOfTheDay(31) == TipOfTheDay(1) == Tip01
  {
  }
}

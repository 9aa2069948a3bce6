/** The Investments view (components/InvestmentTracker.tsx): stock gain/loss and the per-tab save. */
module InvestmentsView {
  import opened Wrappers
  import opened Types
  import opened Forms
  import Store
  import Demo

  function TotalValue(s: Stock): real {
    s.shares * s.currentPrice
  }

  function TotalCost(s: Stock): real {
    s.shares * s.purchasePrice
  }

  /** The profit or loss of a holding, shown in the positive colour with a '+' when it is not negative. */
  function GainLoss(s: Stock): (g: real)
    ensures g == s.shares * (s.currentPrice - s.purchasePrice)
  {
    TotalValue(s) - TotalCost(s)
  }

  predicate IsGain(s: Stock) {
    GainLoss(s) >= 0.0
  }

  /** A holding of some shares is a gain exactly when the price has not fallen below the purchase price. */
  lemma GainIffPriceHeld(s: Stock)
    requires s.shares > 0.0
    ensures IsGain(s) <==> s.currentPrice >= s.purchasePrice
  {
    if s.currentPrice < s.purchasePrice {
      assert s.shares * (s.currentPrice - s.purchasePrice) < 0.0;
    } else {
      assert s.shares * (s.currentPrice - s.purchasePrice) >= 0.0;
    }
  }

  /** The demo holding: 50 shares bought at 450, now at 950, is a gain of 25000 on a value of 47500. */
  lemma DemoStockGain()
    ensures TotalValue(Demo.DemoStock) == 47500.0
    ensures GainLoss(Demo.DemoStock) == 25000.0 && IsGain(Demo.DemoStock)
  {
  }

  datatype Tab = StocksTab | SipsTab | FdsTab

  /** The three forms of the modal, one per tab; every field is the text of an input. */
  datatype SipForm = SipForm(fundName: string, monthlyAmount: string, startDate: string)
  datatype FdForm = FdForm(bankName: string, principal: string, interestRate: string, maturityDate: string)
  datatype StockForm = StockForm(ticker: string, companyName: string, shares: string, purchasePrice: string, currentPrice: string)

  predicate SipFormFilled(f: SipForm) {
    Filled(f.fundName) && Filled(f.monthlyAmount) && Filled(f.startDate)
  }

  predicate FdFormFilled(f: FdForm) {
    Filled(f.bankName) && Filled(f.principal) && Filled(f.interestRate) && Filled(f.maturityDate)
  }

  predicate StockFormFilled(f: StockForm) {
    Filled(f.ticker) && Filled(f.companyName) && Filled(f.shares) && Filled(f.purchasePrice) && Filled(f.currentPrice)
  }

  /** The collection each tab edits. */
  function TabCollection(tab: Tab): Store.Collection {
    match tab
    case StocksTab => Store.StockList
    case SipsTab => Store.SipList
    case FdsTab => Store.FdList
  }

  /** The id a saved item carries: the edited item's, or the one the store assigns to an add. */
  function SavedId(editingId: Option<string>, newId: string): string {
    if editingId.Some? then editingId.value else newId
  }

  /** `r` adds or replaces exactly the SIP `s`. */
  predicate SavesSip(r: Store.Updater, s: SIP) {
    (r.AddSip? && r.sipDraft.WithId(r.newId) == s) || (r.UpdateSip? && r.sip == s)
  }

  /** `r` adds or replaces exactly the fixed deposit `d`. */
  predicate SavesFd(r: Store.Updater, d: FixedDeposit) {
    (r.AddFd? && r.fdDraft.WithId(r.newId) == d) || (r.UpdateFd? && r.fd == d)
  }

  /** `r` adds or replaces exactly the holding `s`. */
  predicate SavesStock(r: Store.Updater, s: Stock) {
    (r.AddStock? && r.stockDraft.WithId(r.newId) == s) || (r.UpdateStock? && r.stock == s)
  }

  /**
   * `handleSave`: the store request the active tab makes, if its form is
   * filled in. An add gets the id the store assigns (`newId`); an edit
   * keeps the edited item's id. Shares go through `parseInt`, the other
   * numbers through `parseFloat`.
   */
  function HandleSave(tab: Tab, sip: SipForm, fd: FdForm, stock: StockForm, editingId: Option<string>,
                      newId: string, parseFloat: string -> real, parseInt: string -> int)
    : (request: Option<Store.Updater>)
    ensures request.Some? <==> match tab
      case SipsTab => SipFormFilled(sip)
      case FdsTab => FdFormFilled(fd)
      case StocksTab => StockFormFilled(stock)
    ensures request.Some? ==> request.value.Target() == TabCollection(tab)
    ensures request.Some? ==> (request.value.IsUpdate() <==> editingId.Some?)
    ensures request.Some? && editingId.Some? ==> request.value.UpdatedId() == editingId.value
    ensures request.Some? && editingId.None? ==> request.value.IsAdd() && request.value.newId == newId
    ensures request.Some? && tab == SipsTab ==>
      SavesSip(request.value, SIP(SavedId(editingId, newId), sip.fundName, parseFloat(sip.monthlyAmount), sip.startDate))
    ensures request.Some? && tab == FdsTab ==>
      SavesFd(request.value, FixedDeposit(SavedId(editingId, newId), fd.bankName, parseFloat(fd.principal),
                                          parseFloat(fd.interestRate), fd.maturityDate))
    ensures request.Some? && tab == StocksTab ==>
      SavesStock(request.value, Stock(SavedId(editingId, newId), stock.ticker, stock.companyName, parseInt(stock.shares) as real,
                                      parseFloat(stock.purchasePrice), parseFloat(stock.currentPrice)))
  {
    match tab
    case SipsTab =>
      if SipFormFilled(sip) then
        var data := SIPDraft(sip.fundName, parseFloat(sip.monthlyAmount), sip.startDate);
        Some(if editingId.Some? then Store.UpdateSip(data.WithId(editingId.value)) else Store.AddSip(data, newId))
      else None
    case FdsTab =>
      if FdFormFilled(fd) then
        var data := FixedDepositDraft(fd.bankName, parseFloat(fd.principal), parseFloat(fd.interestRate), fd.maturityDate);
        Some(if editingId.Some? then Store.UpdateFd(data.WithId(editingId.value)) else Store.AddFd(data, newId))
      else None
    case StocksTab =>
      if StockFormFilled(stock) then
        var data := StockDraft(stock.ticker, stock.companyName, parseInt(stock.shares) as real,
                               parseFloat(stock.purchasePrice), parseFloat(stock.currentPrice));
        Some(if editingId.Some? then Store.UpdateStock(data.WithId(editingId.value)) else Store.AddStock(data, newId))
      else None
  }

  /** A save on one tab leaves the other two investment lists, and everything else, as they were. */
  lemma SaveTouchesOnlyItsTab(tab: Tab, sip: SipForm, fd: FdForm, stock: StockForm, editingId: Option<string>,
                              newId: string, parseFloat: string -> real, parseInt: string -> int,
                              prev: Store.FinancialData, c: Store.Collection)
    requires HandleSave(tab, sip, fd, stock, editingId, newId, parseFloat, parseInt).Some?
    requires c != TabCollection(tab)
    ensures Store.SameCollection(prev, Store.Apply(HandleSave(tab, sip, fd, stock, editingId, newId, parseFloat, parseInt).value, prev), c)
  {
    Store.OtherCollectionsUnchanged(HandleSave(tab, sip, fd, stock, editingId, newId, parseFloat, parseInt).value, prev, c);
  }
}

/** The accounting page (pages/AccountingPage.tsx): which view `renderContent` shows for an open-tab string. */
module AccountingPage {
  import MainLayout

  datatype AccountingView = CurrencyManager | AccountDashboard

  /** `renderContent()` as written: the currency manager only for `"accounting-currencies"`, with no `#`. */
  function ContentAsWritten(openTab: string): AccountingView {
    if openTab == "accounting-currencies" then CurrencyManager else AccountDashboard
  }

  /**
   * As written, the fragment the sidebar's Currencies entry emits shows the
   * account dashboard, and so does every other accounting sub-entry: no
   * sidebar entry reaches the currency manager.
   */
  lemma AsWrittenCurrenciesUnreachable()
    ensures MainLayout.NavItems[4].subItems.Some?
    ensures MainLayout.NavItems[4].subItems.value[1].path == "#accounting-currencies"
    ensures ContentAsWritten("#accounting-currencies") == AccountDashboard
    ensures forall sub :: sub in MainLayout.NavItems[4].subItems.value ==> ContentAsWritten(sub.path) == AccountDashboard
  {
  }

  /** `renderContent()` matching the fragment the sidebar emits. */
  function Content(openTab: string): AccountingView {
    if openTab == "#accounting-currencies" then CurrencyManager else AccountDashboard
  }

  /**
   * Corrected, the Currencies entry opens the currency manager, every other
   * accounting sub-entry and every other string (the empty one included)
   * shows the dashboard.
   */
  lemma CurrenciesEntryOpensManager(openTab: string)
    ensures var subs := MainLayout.NavItems[4].subItems.value;
      MainLayout.NavItems[4].subItems.Some?
      && (forall k :: 0 <= k < |subs| ==> (Content(subs[k].path) == CurrencyManager <==> subs[k].title == "Currencies"))
    ensures Content(openTab) == CurrencyManager <==> openTab == "#accounting-currencies"
    ensures Content("") == AccountDashboard
  {
  }
}

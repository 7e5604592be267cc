/**
 * The screen choice of src/components/Menu.tsx: loading first, then a truthy
 * error, then the categories or "Menu Not Available". The content branch
 * reads `menuData.length`, which throws when the fetched menu was JSON
 * `null`; that case is `RenderFault`.
 */
module MenuComponent {
  import opened Wrappers
  import opened JsValues
  import opened MenuTypes
  import opened MenuFetch

  function ComponentView<Id>(s: MenuState<Id>): (v: MenuView<Id>)
    ensures v.LoadingView? <==> s.isLoading
    ensures v.ErrorView? <==> !s.isLoading && TruthyOpt(s.error)
    ensures v.ErrorView? ==> v.details == s.error.value
    ensures v.RenderFault? <==> !s.isLoading && !TruthyOpt(s.error) && s.menuData.None?
    ensures v.NotAvailableView? <==> !s.isLoading && !TruthyOpt(s.error) && s.menuData == Some([])
    ensures v.CategoriesView? ==> s.menuData == Some(v.categories) && v.categories != []
  {
    if s.isLoading then LoadingView
    else if TruthyOpt(s.error) then ErrorView(s.error.value)
    else match s.menuData
      case None => RenderFault
      case Some(data) => if |data| > 0 then CategoriesView(data) else NotAvailableView
  }

  /** An empty menu renders "Menu Not Available", never the error screen, whatever came before. */
  lemma EmptyMenuNotAvailable<Id>(s: MenuState<Id>)
    ensures ComponentView(Fetch(s, OkResponse(Parsed(Some([]))))) == NotAvailableView
  {
  }

  /** A non-empty menu renders its categories, in the order received. */
  lemma MenuShown<Id>(s: MenuState<Id>, data: seq<MenuCategory<Id>>)
    requires data != []
    ensures ComponentView(Fetch(s, OkResponse(Parsed(Some(data))))) == CategoriesView(data)
  {
  }

  /** A non-ok response always ends on the error screen with the selected detail. */
  lemma NotOkShowsDetail<Id>(s: MenuState<Id>, statusText: string, body: Parsed<ErrorBody>)
    ensures ComponentView(Fetch(s, NotOk(statusText, body))) == ErrorView(ErrorDetail(statusText, body))
  {
  }

  /**
   * A thrown `Error` with an empty message stores the falsy `""`: the error
   * screen is skipped and the previous data is shown instead.
   */
  lemma EmptyMessageSkipsErrorView<Id>(s: MenuState<Id>)
    ensures Fetch(s, NetworkFailure(ErrorObject(""))).error == Some("")
    ensures ComponentView(Fetch(s, NetworkFailure(ErrorObject(""))))
      == ComponentView(MenuState(s.menuData, false, None))
  {
  }

  /** A successful response whose body is JSON `null` reaches the `menuData.length` read and faults. */
  lemma NullMenuFaults<Id>(s: MenuState<Id>)
    ensures ComponentView(Fetch(s, OkResponse(Parsed(None)))) == RenderFault
  {
  }

  /** While a fetch is in flight only the loading screen is shown. */
  lemma LoadingWins<Id>(s: MenuState<Id>)
    ensures ComponentView(StartFetch(s)) == LoadingView
    ensures ComponentView(InitialMenu<Id>()) == LoadingView
  {
  }
}

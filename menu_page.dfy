/**
 * The screen choice of src/app/Menu/page.tsx: loading, then a truthy error,
 * then "Menu Not Available" as its own branch for a `null` or empty menu,
 * and the categories last. Unlike src/components/Menu.tsx it never reads
 * the length of a `null` menu.
 */
module MenuPage {
  import opened Wrappers
  import opened JsValues
  import opened MenuTypes
  import opened MenuFetch
  import MenuComponent

  function PageView<Id>(s: MenuState<Id>): (v: MenuView<Id>)
    ensures !v.RenderFault?
    ensures v.LoadingView? <==> s.isLoading
    ensures v.ErrorView? <==> !s.isLoading && TruthyOpt(s.error)
    ensures v.ErrorView? ==> v.details == s.error.value
    ensures v.NotAvailableView? <==>
      !s.isLoading && !TruthyOpt(s.error) && (s.menuData.None? || s.menuData == Some([]))
    ensures v.CategoriesView? ==> s.menuData == Some(v.categories) && v.categories != []
  {
    if s.isLoading then LoadingView
    else if TruthyOpt(s.error) then ErrorView(s.error.value)
    else if s.menuData.None? || |s.menuData.value| == 0 then NotAvailableView
    else CategoriesView(s.menuData.value)
  }

  /** The page and the component agree on every state except a `null` menu. */
  lemma SameAsComponentExceptNull<Id>(s: MenuState<Id>)
    ensures MenuComponent.ComponentView(s).RenderFault? ==> PageView(s) == NotAvailableView
    ensures !MenuComponent.ComponentView(s).RenderFault? ==> PageView(s) == MenuComponent.ComponentView(s)
  {
  }

  /** A `null` or empty menu renders "Menu Not Available". */
  lemma NullOrEmptyNotAvailable<Id>(s: MenuState<Id>)
    ensures PageView(Fetch(s, OkResponse(Parsed(None)))) == NotAvailableView
    ensures PageView(Fetch(s, OkResponse(Parsed(Some([]))))) == NotAvailableView
  {
  }

  /** A non-Error throw shows the fixed unknown-error text. */
  lemma NonErrorThrowShown<Id>(s: MenuState<Id>)
    ensures PageView(Fetch(s, NetworkFailure(NonError))) == ErrorView(UnknownFetchError)
  {
  }

  /** A body that fails to parse on a non-ok response shows the status-text fallback. */
  lemma UnparseableErrorBodyShown<Id>(s: MenuState<Id>, statusText: string, syntaxError: string)
    ensures PageView(Fetch(s, NotOk(statusText, Unparseable(syntaxError))))
      == ErrorView("Failed to fetch menu: " + statusText)
  {
  }
}

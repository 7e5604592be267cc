/**
 * The `fetchMenu` effect shared, line for line, by src/components/Menu.tsx
 * and src/app/Menu/page.tsx: the three pieces of React state (`menuData`,
 * `isLoading`, `error`) and how one fetch moves them.
 *
 * The HTTP exchange is an input: `FetchOutcome` says whether `fetch` threw,
 * and otherwise what status and body came back and whether the body parsed
 * as JSON.
 */
module MenuFetch {
  import opened Wrappers
  import opened JsValues
  import opened MenuTypes

  /** A body after `await response.json()`: the parsed value, or the message of the `SyntaxError` it threw. */
  datatype Parsed<T> = Unparseable(syntaxError: string) | Parsed(value: T)

  /**
   * A parsed error body: JSON `null` (reading `.details` on it throws, and the
   * inner catch ignores that), or an object with optional string fields.
   */
  datatype ErrorBody = NullBody | ErrorFields(details: Option<string>, error: Option<string>)

  /** The parsed menu: `None` is the JSON `null`. */
  type MenuJson<Id> = Option<seq<MenuCategory<Id>>>

  datatype FetchOutcome<Id> =
    | NetworkFailure(err: Thrown)
    | NotOk(statusText: string, errorBody: Parsed<ErrorBody>)
    | OkResponse(body: Parsed<MenuJson<Id>>)

  const UnknownFetchError: string := "An unknown error occurred while fetching the menu."

  function StatusFallback(statusText: string): string {
    "Failed to fetch menu: " + statusText
  }

  /**
   * `errorDetails` of a non-ok response: `details` if truthy, else `error` if
   * truthy, else the status-text fallback, which also stands when the body
   * does not parse or is `null`.
   */
  function ErrorDetail(statusText: string, body: Parsed<ErrorBody>): (d: string)
    ensures body.Parsed? && body.value.ErrorFields? && TruthyOpt(body.value.details) ==>
      d == body.value.details.value
    ensures body.Parsed? && body.value.ErrorFields? && !TruthyOpt(body.value.details)
            && TruthyOpt(body.value.error) ==>
      d == body.value.error.value
    ensures (body.Unparseable? || body.value.NullBody?
             || (!TruthyOpt(body.value.details) && !TruthyOpt(body.value.error))) ==>
      d == StatusFallback(statusText)
    ensures Truthy(d)
  {
    var fallback := StatusFallback(statusText);
    match body
    case Unparseable(_) => fallback
    case Parsed(NullBody) => fallback
    case Parsed(ErrorFields(details, error)) =>
      if TruthyOpt(details) then details.value
      else if TruthyOpt(error) then error.value
      else fallback
  }

  /**
   * The message the `catch` block stores, or `None` when the fetch got through
   * to `setMenuData`. Both a non-ok response (rethrown as `new Error`) and a
   * success body that fails to parse arrive there as `Error`s.
   */
  function CaughtMessage<Id>(outcome: FetchOutcome<Id>): (m: Option<string>)
    ensures m.None? <==> outcome.OkResponse? && outcome.body.Parsed?
    ensures outcome.NetworkFailure? ==> m == Some(MessageOf(outcome.err, UnknownFetchError))
    ensures outcome.NotOk? ==> m == Some(ErrorDetail(outcome.statusText, outcome.errorBody))
    ensures outcome.OkResponse? && outcome.body.Unparseable? ==> m == Some(outcome.body.syntaxError)
  {
    match outcome
    case NetworkFailure(err) => Some(MessageOf(err, UnknownFetchError))
    case NotOk(statusText, body) => Some(ErrorDetail(statusText, body))
    case OkResponse(Unparseable(syntaxError)) => Some(syntaxError)
    case OkResponse(Parsed(_)) => None
  }

  datatype MenuState<Id> = MenuState(menuData: MenuJson<Id>, isLoading: bool, error: Option<string>)

  /** `useState([])`, `useState(true)`, `useState(null)` */
  function InitialMenu<Id>(): MenuState<Id> {
    MenuState(Some([]), true, None)
  }

  /** The start of `fetchMenu`: loading, and any previous error cleared. */
  function StartFetch<Id>(s: MenuState<Id>): (r: MenuState<Id>)
    ensures r.isLoading && r.error == None && r.menuData == s.menuData
  {
    s.(isLoading := true, error := None)
  }

  /**
   * The end of `fetchMenu`: the data on success, the error on failure, and
   * loading off either way; what a branch does not set is kept.
   */
  function FinishFetch<Id>(s: MenuState<Id>, outcome: FetchOutcome<Id>): (r: MenuState<Id>)
    ensures !r.isLoading
    ensures CaughtMessage(outcome).None? ==>
      r.menuData == outcome.body.value && r.error == s.error
    ensures CaughtMessage(outcome).Some? ==>
      r.menuData == s.menuData && r.error == CaughtMessage(outcome)
  {
    match CaughtMessage(outcome)
    case None => s.(menuData := outcome.body.value, isLoading := false)
    case Some(message) => s.(error := Some(message), isLoading := false)
  }

  /**
   * A whole fetch, start to finish: the data on success with no error left
   * over, the error on failure with the previous data kept.
   */
  function Fetch<Id>(s: MenuState<Id>, outcome: FetchOutcome<Id>): (r: MenuState<Id>)
    ensures !r.isLoading
    ensures CaughtMessage(outcome).None? ==> r.menuData == outcome.body.value && r.error == None
    ensures CaughtMessage(outcome).Some? ==> r.menuData == s.menuData && r.error == CaughtMessage(outcome)
  {
    FinishFetch(StartFetch(s), outcome)
  }

  /** A failed fetch stores a truthy error unless a thrown `Error` carried an empty message. */
  lemma FailureSetsTruthyError<Id>(s: MenuState<Id>, outcome: FetchOutcome<Id>)
    requires CaughtMessage(outcome).Some?
    requires !(outcome.NetworkFailure? && outcome.err == ErrorObject(""))
    requires !(outcome.OkResponse? && outcome.body.syntaxError == "")
    ensures TruthyOpt(Fetch(s, outcome).error)
  {
  }

  /** The outcomes of the menu tests: an `{error: "Server is down"}` body, and a body that does not parse. */
  lemma ErrorDetailExamples(statusText: string, syntaxError: string)
    ensures ErrorDetail(statusText, Parsed(ErrorFields(None, Some("Server is down")))) == "Server is down"
    ensures ErrorDetail(statusText, Parsed(ErrorFields(Some("Firestore down"), Some("Server is down"))))
      == "Firestore down"
    ensures ErrorDetail(statusText, Unparseable(syntaxError)) == "Failed to fetch menu: " + statusText
    ensures ErrorDetail(statusText, Parsed(ErrorFields(Some(""), Some("")))) == "Failed to fetch menu: " + statusText
  {
  }

  /** The component state, updated by its setters across the `try`/`catch`/`finally` of `fetchMenu`. */
  class MenuLoader<Id> {
    var menuData: MenuJson<Id>
    var isLoading: bool
    var error: Option<string>

    function State(): MenuState<Id>
      reads this
    {
      MenuState(menuData, isLoading, error)
    }

    constructor ()
      ensures State() == InitialMenu()
    {
      menuData := Some([]);
      isLoading := true;
      error := None;
    }

    /** `setIsLoading(true); setError(null);` */
    method BeginFetch()
      modifies this
      ensures State() == StartFetch(old(State()))
    {
      isLoading := true;
      error := None;
    }

    /** The `try` block after the `await`, its `catch` and its `finally`. */
    method CompleteFetch(outcome: FetchOutcome<Id>)
      modifies this
      ensures State() == FinishFetch(old(State()), outcome)
    {
      var caught: Option<string> := None;
      match outcome {
        case NetworkFailure(err) =>
          caught := Some(MessageOf(err, UnknownFetchError));
        case NotOk(statusText, body) =>
          var errorDetails := ErrorDetail(statusText, body);
          caught := Some(errorDetails);
        case OkResponse(Unparseable(syntaxError)) =>
          caught := Some(syntaxError);
        case OkResponse(Parsed(data)) =>
          menuData := data;
      }
      if caught.Some? {
        error := caught;
      }
      isLoading := false;
    }
  }

  /** What either menu screen renders. */
  datatype MenuView<Id> =
    | LoadingView
    | ErrorView(details: string)
    | NotAvailableView
    | CategoriesView(categories: seq<MenuCategory<Id>>)
    | RenderFault
}

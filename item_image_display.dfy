/**
 * src/components/ItemImageDisplay.tsx: what the image slot of a menu card
 * renders for a state of the image hook. `Node` stands for whatever React
 * node a caller passes in as a custom placeholder.
 */
module ItemImageDisplay {
  import opened Wrappers
  import opened JsValues
  import opened FirebaseImage

  /** The component's props; an absent optional prop is `None`. */
  datatype Props<Node> = Props(
    imagePath: Option<string>,
    altText: string,
    sizes: string,
    imageClassName: Option<string>,
    loadingComponent: Option<Node>,
    errorComponent: Option<Node>,
    priority: Option<bool>)

  const DefaultClassName: string := "object-cover"
  const LoadFailedMessage: string := "Image load failed"
  const NotFoundMessage: string := "Image not found"
  const NoPathShort: string := "No image path"
  const NotAvailableMessage: string := "Image not available"

  /** What is rendered: a caller's node, one of the two default placeholders, or the `Image`. */
  datatype Rendered<Node> =
    | Custom(node: Node)
    | DefaultLoading
    | DefaultError(message: string)
    | Picture(src: string, alt: string, sizes: string, className: string, priority: bool)

  /**
   * `errorMessage`: the hook's error message, or a fixed text when that is
   * empty; with no error, a text that tells a missing path from a missing URL.
   */
  function ErrorMessage(fetchError: Option<ImageError>, imagePath: Option<string>): (m: string)
    ensures fetchError.Some? && Truthy(fetchError.value.message) ==> m == fetchError.value.message
    ensures fetchError.Some? && !Truthy(fetchError.value.message) ==> m == LoadFailedMessage
    ensures fetchError.None? && TruthyOpt(imagePath) ==> m == NotFoundMessage
    ensures fetchError.None? && !TruthyOpt(imagePath) ==> m == NoPathShort
    ensures Truthy(m)
  {
    if fetchError.Some? then
      (if Truthy(fetchError.value.message) then fetchError.value.message else LoadFailedMessage)
    else if TruthyOpt(imagePath) then NotFoundMessage
    else NoPathShort
  }

  /** The text `DefaultErrorPlaceholder` shows for its `message` prop. */
  function PlaceholderText(message: string): (t: string)
    ensures Truthy(message) ==> t == message
    ensures !Truthy(message) ==> t == NotAvailableMessage
  {
    if Truthy(message) then message else NotAvailableMessage
  }

  /**
   * The render: loading first, then the error branch, which a falsy URL
   * (`null` or `""`) also takes, and otherwise the `Image` with the prop
   * defaults applied.
   */
  function Display<Node>(hook: HookResult, props: Props<Node>): (r: Rendered<Node>)
    ensures hook.isLoading ==>
      r == (if props.loadingComponent.Some? then Custom(props.loadingComponent.value) else DefaultLoading)
    ensures r.Picture? <==> !hook.isLoading && hook.error.None? && TruthyOpt(hook.imageUrl)
    ensures r.Picture? ==>
      r == Picture(hook.imageUrl.value, props.altText, props.sizes,
                   props.imageClassName.GetOr(DefaultClassName), props.priority.GetOr(false))
    ensures !hook.isLoading && !r.Picture? ==>
      r == (if props.errorComponent.Some? then Custom(props.errorComponent.value)
            else DefaultError(ErrorMessage(hook.error, props.imagePath)))
    ensures r.DefaultError? ==> Truthy(r.message)
  {
    if hook.isLoading then
      (match props.loadingComponent
       case Some(node) => Custom(node)
       case None => DefaultLoading)
    else if hook.error.Some? || !TruthyOpt(hook.imageUrl) then
      (match props.errorComponent
       case Some(node) => Custom(node)
       case None => DefaultError(ErrorMessage(hook.error, props.imagePath)))
    else
      Picture(hook.imageUrl.value, props.altText, props.sizes,
              props.imageClassName.GetOr(DefaultClassName), props.priority.GetOr(false))
  }

  /** The `"Image not available"` fallback of the placeholder is never shown by this component. */
  lemma PlaceholderFallbackUnreachable<Node>(hook: HookResult, props: Props<Node>)
    ensures Display(hook, props).DefaultError? ==>
      PlaceholderText(Display(hook, props).message) == Display(hook, props).message
  {
  }

  /** Props with only the required fields set. */
  function Plain<Node>(imagePath: Option<string>, altText: string, sizes: string): Props<Node> {
    Props(imagePath, altText, sizes, None, None, None, None)
  }

  /**
   * Through the hook: a falsy path shows the hook's own message, not
   * `"No image path"`, since the hook always sets an error for it.
   */
  lemma NoPathShowsHookMessage<Node>(imagePath: Option<string>, cache: map<string, string>, altText: string, sizes: string)
    requires !TruthyOpt(imagePath)
    ensures Display(EffectResult(Decide(imagePath, cache)), Plain<Node>(imagePath, altText, sizes))
      == DefaultError(NoPathMessage)
  {
  }

  /** Through the hook: a cached non-empty URL is shown at once, with the default class and priority. */
  lemma CacheHitShowsPicture<Node>(path: string, cache: map<string, string>, altText: string, sizes: string)
    requires path != "" && path in cache && cache[path] != ""
    ensures Display(EffectResult(Decide(Some(path), cache)), Plain<Node>(Some(path), altText, sizes))
      == Picture(cache[path], altText, sizes, DefaultClassName, false)
  {
  }

  /** Through the hook: an empty URL, cached or fetched, shows `"Image not found"`. */
  lemma EmptyUrlNotFound<Node>(path: string, cache: map<string, string>, altText: string, sizes: string)
    requires path != ""
    ensures path in cache && cache[path] == "" ==>
      Display(EffectResult(Decide(Some(path), cache)), Plain<Node>(Some(path), altText, sizes))
        == DefaultError(NotFoundMessage)
    ensures path !in cache ==>
      Display(SettledResult(EffectResult(Decide(Some(path), cache)), true, Resolved("")),
              Plain<Node>(Some(path), altText, sizes))
        == DefaultError(NotFoundMessage)
  {
  }

  /**
   * Through the hook: a failed fetch shows the error's message, the fixed
   * text when that message is empty, and the hook's fallback for a thrown
   * non-`Error`.
   */
  lemma FailureShowsMessage<Node>(path: string, cache: map<string, string>, err: Thrown, altText: string, sizes: string)
    requires path != "" && path !in cache
    ensures var shown := Display(SettledResult(EffectResult(Decide(Some(path), cache)), true, Failed(err)),
                                 Plain<Node>(Some(path), altText, sizes));
      && (err.ErrorObject? && err.message != "" ==> shown == DefaultError(err.message))
      && (err == ErrorObject("") ==> shown == DefaultError(LoadFailedMessage))
      && (err.NonError? ==> shown == DefaultError(UnknownImageError))
  {
  }

  /**
   * A settled hook state with neither URL nor error, as the component tests
   * feed it: `"No image path"` for a missing path, `"Image not found"` for a
   * present one.
   */
  lemma NoUrlNoErrorMessages<Node>(altText: string, sizes: string)
    ensures Display(HookResult(None, false, None), Plain<Node>(None, altText, sizes)) == DefaultError(NoPathShort)
    ensures Display(HookResult(None, false, None), Plain<Node>(Some("path/to/image.jpg"), altText, sizes))
      == DefaultError(NotFoundMessage)
  {
  }
}

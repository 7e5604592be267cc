/**
 * The image-URL hook of src/hooks/useFirebaseImage.ts: a module-wide cache
 * from storage path to download URL, the hook's three pieces of state, and
 * the effect that resolves a path. Each run of the effect that starts a
 * fetch owns an `isMounted` flag, cleared by its cleanup; a result arriving
 * after that is dropped.
 *
 * The storage lookup is an input: `FetchResult` is what the awaited
 * `getDownloadURL` produced.
 */
module FirebaseImage {
  import opened Wrappers
  import opened JsValues

  /** A `StorageError` or `Error`; the model keeps its message. */
  datatype ImageError = ImageError(message: string)

  /** `{ imageUrl, isLoading, error }` */
  datatype HookResult = HookResult(imageUrl: Option<string>, isLoading: bool, error: Option<ImageError>)

  datatype FetchResult = Resolved(url: string) | Failed(err: Thrown)

  const NoPathMessage: string := "No image path provided."
  const UnknownImageError: string := "An unknown error occurred while fetching the image."

  /** `useState(null)`, `useState(true)`, `useState(null)` */
  function InitialResult(): HookResult {
    HookResult(None, true, None)
  }

  /** The three ways an effect run begins. */
  datatype EffectStart = NoPath | CacheHit(url: string) | StartFetch(path: string)

  /** A falsy path (`null`, `undefined`, `""`) is refused, a cached path is served, any other is fetched. */
  function Decide(imagePath: Option<string>, cache: map<string, string>): (d: EffectStart)
    ensures d.NoPath? <==> !TruthyOpt(imagePath)
    ensures d.CacheHit? <==> TruthyOpt(imagePath) && imagePath.value in cache
    ensures d.CacheHit? ==> d.url == cache[imagePath.value]
    ensures d.StartFetch? ==> d.path == imagePath.value && d.path !in cache
  {
    if !TruthyOpt(imagePath) then NoPath
    else if imagePath.value in cache then CacheHit(cache[imagePath.value])
    else StartFetch(imagePath.value)
  }

  /** The state right after the effect's synchronous part. */
  function EffectResult(d: EffectStart): (r: HookResult)
    ensures d.NoPath? ==> r == HookResult(None, false, Some(ImageError(NoPathMessage)))
    ensures d.CacheHit? ==> r == HookResult(Some(d.url), false, None)
    ensures d.StartFetch? ==> r == HookResult(None, true, None)
  {
    match d
    case NoPath => HookResult(None, false, Some(ImageError(NoPathMessage)))
    case CacheHit(url) => HookResult(Some(url), false, None)
    case StartFetch(_) => HookResult(None, true, None)
  }

  /** The state after the awaited lookup: applied only while the run is mounted. */
  function SettledResult(s: HookResult, isMounted: bool, result: FetchResult): (r: HookResult)
    ensures !isMounted ==> r == s
    ensures isMounted ==> !r.isLoading
    ensures isMounted && result.Resolved? ==> r.imageUrl == Some(result.url) && r.error == s.error
    ensures isMounted && result.Failed? ==>
      r.imageUrl == s.imageUrl && r.error == Some(ImageError(MessageOf(result.err, UnknownImageError)))
  {
    if !isMounted then s
    else match result
      case Resolved(url) => s.(imageUrl := Some(url), isLoading := false)
      case Failed(err) => s.(error := Some(ImageError(MessageOf(err, UnknownImageError))), isLoading := false)
  }

  /** The cache after the awaited lookup: only a mounted success writes, and only its own path. */
  function SettledCache(cache: map<string, string>, path: string, isMounted: bool, result: FetchResult)
    : (c: map<string, string>)
    ensures cache.Keys <= c.Keys
    ensures forall p :: p in cache && p != path ==> c[p] == cache[p]
    ensures isMounted && result.Resolved? ==> c == cache[path := result.url]
    ensures !(isMounted && result.Resolved?) ==> c == cache
  {
    if isMounted && result.Resolved? then cache[path := result.url] else cache
  }

  /** A path resolved while mounted is served from the cache by every later run. */
  lemma ResolvedThenCached(cache: map<string, string>, path: string, url: string)
    requires path != ""
    ensures Decide(Some(path), SettledCache(cache, path, true, Resolved(url))) == CacheHit(url)
    ensures EffectResult(Decide(Some(path), SettledCache(cache, path, true, Resolved(url))))
      == HookResult(Some(url), false, None)
  {
  }

  /** A fetch started and resolved while mounted ends with the URL, no error, not loading. */
  lemma FetchThenResolve(path: string, cache: map<string, string>, url: string)
    requires Decide(Some(path), cache).StartFetch?
    ensures SettledResult(EffectResult(Decide(Some(path), cache)), true, Resolved(url))
      == HookResult(Some(url), false, None)
  {
  }

  /** A fetch started and failed while mounted ends with the error, no URL, not loading. */
  lemma FetchThenFail(path: string, cache: map<string, string>, err: Thrown)
    requires Decide(Some(path), cache).StartFetch?
    ensures SettledResult(EffectResult(Decide(Some(path), cache)), true, Failed(err))
      == HookResult(None, false, Some(ImageError(MessageOf(err, UnknownImageError))))
  {
  }

  /** The module-wide `imageCache` map. */
  class ImageCache {
    var entries: map<string, string>

    constructor ()
      ensures entries == map[]
    {
      entries := map[];
    }
  }

  /** The `isMounted` flag of one effect run that started a fetch, with the path it fetches. */
  class FetchRun {
    var isMounted: bool
    const imagePath: string

    constructor (imagePath: string)
      ensures isMounted && this.imagePath == imagePath
    {
      isMounted := true;
      this.imagePath := imagePath;
    }

    /** The cleanup returned by the effect: `isMounted = false`. */
    method Teardown()
      modifies this
      ensures !isMounted
    {
      isMounted := false;
    }
  }

  class ImageHook {
    var imageUrl: Option<string>
    var isLoading: bool
    var error: Option<ImageError>

    function Result(): HookResult
      reads this
    {
      HookResult(imageUrl, isLoading, error)
    }

    constructor ()
      ensures Result() == InitialResult()
    {
      imageUrl := None;
      isLoading := true;
      error := None;
    }

    /**
     * The synchronous part of the effect for `imagePath`. It reads the cache
     * and never writes it; when it starts a fetch it returns that run.
     */
    method RunEffect(imagePath: Option<string>, cache: ImageCache) returns (run: FetchRun?)
      modifies this
      ensures Result() == EffectResult(Decide(imagePath, cache.entries))
      ensures Decide(imagePath, cache.entries).StartFetch? ==>
        run != null && fresh(run) && run.isMounted && run.imagePath == imagePath.value
      ensures !Decide(imagePath, cache.entries).StartFetch? ==> run == null
    {
      if imagePath.None? || imagePath.value == "" {
        imageUrl := None;
        isLoading := false;
        error := Some(ImageError(NoPathMessage));
        return null;
      }
      var path := imagePath.value;
      if path in cache.entries {
        imageUrl := Some(cache.entries[path]);
        isLoading := false;
        error := None;
        return null;
      }
      run := new FetchRun(path);
      // fetchImage(): its `if (!isMounted) return;` runs before any cleanup can run, so the check always passes
      if run.isMounted {
        isLoading := true;
        error := None;
        imageUrl := None;
      }
    }

    /** The part of `fetchImage` after the `await`: `try`, `catch`, `finally`, each guarded by `isMounted`. */
    method Settle(run: FetchRun, result: FetchResult, cache: ImageCache)
      modifies this, cache
      ensures Result() == SettledResult(old(Result()), run.isMounted, result)
      ensures cache.entries == SettledCache(old(cache.entries), run.imagePath, run.isMounted, result)
    {
      match result {
        case Resolved(url) =>
          if run.isMounted {
            imageUrl := Some(url);
            cache.entries := cache.entries[run.imagePath := url];
          }
        case Failed(err) =>
          if run.isMounted {
            error := Some(ImageError(MessageOf(err, UnknownImageError)));
          }
      }
      if run.isMounted {
        isLoading := false;
      }
    }
  }

  /**
   * A run torn down before its lookup settles (the path changed or the
   * component unmounted): the late result changes neither the hook nor the
   * cache.
   */
  method LateResultDropped(hook: ImageHook, cache: ImageCache, path: string, result: FetchResult)
    returns (before: HookResult, after: HookResult, cacheBefore: map<string, string>,
             cacheAfter: map<string, string>)
    requires path != "" && path !in cache.entries
    modifies hook, cache
    ensures after == before && cacheAfter == cacheBefore
    ensures before == HookResult(None, true, None)
  {
    var run := hook.RunEffect(Some(path), cache);
    run.Teardown();
    before, cacheBefore := hook.Result(), cache.entries;
    hook.Settle(run, result, cache);
    after, cacheAfter := hook.Result(), cache.entries;
  }
}

# Restaurant menu storefront — a Dafny model

This project models the client-side core of a restaurant storefront built with Next.js. It covers five parts:

- **The cart store** (`src/store/cartStore.ts`). A Zustand store holds the cart lines and the `isCartPanelOpen` flag. It offers `addItem`, `removeItem`, `incrementQuantity`, `decrementQuantity`, `clearCart`, `toggleCartPanel` and the two total getters.
- **The cart panel** (`src/components/Cart.tsx`). This covers its local state and the visibility rule. It also covers the effect that runs when the item count reaches 0, the checkout handler with its order payload, and the choice of what is rendered.
- **The menu fetch** shared by `src/components/Menu.tsx` and `src/app/Menu/page.tsx`. This is the `fetchMenu` state machine, including its error-detail precedence. It also covers the screen each file picks for a state.
- **The image hook** (`src/hooks/useFirebaseImage.ts`). This covers its three state fields and the module-wide path→URL cache. It also covers the per-run `isMounted` flag that discards late results.
- **The image slot** (`src/components/ItemImageDisplay.tsx`). This is the render variant and the error message it shows for a hook state.

Modules, one per concern:

| file | module | models |
|---|---|---|
| `wrappers.dfy` | `Wrappers` | `Option` |
| `js_values.dfy` | `JsValues` | thrown values (`instanceof Error`) and string truthiness |
| `seq_util.dfy` | `SeqUtil` | `filter`, `reduce` and the subsequence relation |
| `menu_types.dfy` | `MenuTypes` | `MenuItem`, `MenuCategory` |
| `cart_store.dfy` | `CartStore` | the store state, its patches (Zustand `set` merges a partial state), the pure transitions, and the `Store` class |
| `cart_laws.dfy` | `CartLaws` | what each action does to a valid cart and to its totals; the invariant over all action sequences |
| `cart_panel.dfy` | `CartPanel` | `Cart.tsx`: the `Panel` class, `Render` and the order payload |
| `menu_fetch.dfy` | `MenuFetch` | the `fetchMenu` state machine and the `MenuLoader` class |
| `menu_component.dfy` | `MenuComponent` | the view choice of `Menu.tsx` |
| `menu_page.dfy` | `MenuPage` | the view choice of `app/Menu/page.tsx` |
| `firebase_image.dfy` | `FirebaseImage` | the hook's state, its cache and the `isMounted` rule |
| `item_image_display.dfy` | `ItemImageDisplay` | the image slot's render |

Modelling conventions:

- Ids are a type parameter, since the source uses `number` in `types/menu.ts` and `string` in the store.
- Prices are integers (cents).
- Each store action is a pure function `XStep(state, input)`. The `Store` class methods are proved to produce exactly that.
- The outside world is an input. `addDoc`, `fetch`/`response.json()` and `getDownloadURL` become the datatypes `WriteOutcome`, `FetchOutcome` and `FetchResult`, respectively.
- Asynchronous functions are split at their `await`: `BeginCheckout`/`FinishCheckout`, `BeginFetch`/`CompleteFetch`, and `RunEffect`/`Settle`.

The model follows the code where the repository's tests expect something else:

- `ItemImageDisplay.tsx:51` produces "No image path" and "Image not found". Its tests expect "No image path provided" and "Image URL not found". See `ItemImageDisplay.NoUrlNoErrorMessages`.
- The cart tests differ from `Cart.tsx` in three places. The model takes the code's branches and texts. (1) The tests expect "Your cart is empty." for an open, empty panel; the code never renders it. (2) They expect the close button to call the store's `toggleCartPanel`; the code sets the panel's own `userHasClosedCart` (`CartPanel.Panel.CloseCart`). (3) They expect the failure text "Failed to place order. Details: …"; the code puts "Please try again." before "Details" (`CartPanel.FailureMessageOfError`).

Behaviours of the code that the lemmas make explicit:

- The "Your cart is empty." notice (`Cart.tsx:122-125`) can never be shown. An empty cart has item count 0, and a count of 0 hides the panel (`CartPanel.EmptyNoticeNeverShown`).
- After a successful checkout, `clearCart` drops the count to 0. The effect on `[itemCount]` then clears the success message again (`CartPanel.CheckoutSucceeds`).
- `removeItem` closes the panel when the cart becomes empty. `decrementQuantity` does not (`CartLaws.RemoveClosesDecrementDoesNot`).
- A thrown `Error` whose message is empty stores the falsy `""`. Both menu screens then skip the error view (`MenuComponent.EmptyMessageSkipsErrorView`).
- The hook always sets an error for a missing path. So through the hook, a missing path shows "No image path provided.", never the component's own "No image path" (`ItemImageDisplay.NoPathShowsHookMessage`).
- The `addItem` branch for an existing id raises every line with that id, and `decrementQuantity` drops every line with a non-positive quantity, not only the touched one. Under the store invariant (unique ids, quantities ≥ 1) both reduce to the single-line behaviour proved in `CartLaws`.

## Model

| member | source | states |
|---|---|---|
| CartStore.Merge | src/store/cartStore.ts:31 | Zustand's `set`: each field the partial state carries replaces the old one, and each field it leaves out is kept |
| CartStore.TotalItemsBound | src/store/cartStore.ts:86-88 | `getTotalItems` (the sum of the quantities) is 0 for no lines, and at least the number of lines when every quantity is at least 1 |
| CartStore.TotalPriceBound | src/store/cartStore.ts:89-91 | `getTotalPrice` (the sum of price × quantity) is 0 for no lines, and never negative for non-negative prices and quantities |
| CartStore.Find | src/store/cartStore.ts:33 | the result is some index exactly when a line has the id; it is the first such line |
| CartStore.AddItemStep | src/store/cartStore.ts:30-52 | existing id: same length, every line with the id gains one, other lines unchanged, panel flag kept. New id: the line is appended with quantity 1, and the panel opens iff the cart was empty or it was open |
| CartStore.RemoveItemStep | src/store/cartStore.ts:54-59 | the result is an order-preserving subsequence with no line of the id, containing every other line. The panel is closed when nothing is left and kept otherwise |
| CartStore.IncrementStep | src/store/cartStore.ts:61-67 | length and panel are kept; every line with the id gains one; lines of other ids are unchanged; an absent id changes nothing |
| CartStore.DecrementStep | src/store/cartStore.ts:69-79 | the panel is kept; the result is a subsequence of the lowered lines that keeps every lowered line with a positive quantity and nothing else |
| CartStore.ClearStep | src/store/cartStore.ts:81-84 | no lines, panel closed |
| CartStore.ToggleStep | src/store/cartStore.ts:93 | lines are kept and the panel flag is flipped |
| CartStore.Store.constructor | src/store/cartStore.ts:27-28 | the store starts empty with the panel closed |
| CartStore.Store.Set | src/store/cartStore.ts:31 | fields present in the partial state are replaced and the rest are kept |
| CartStore.Store.AddItem | src/store/cartStore.ts:30-52 | the new state is `AddItemStep` of the old one |
| CartStore.Store.RemoveItem | src/store/cartStore.ts:54-59 | the new state is `RemoveItemStep` of the old one |
| CartStore.Store.IncrementQuantity | src/store/cartStore.ts:61-67 | the new state is `IncrementStep` of the old one |
| CartStore.Store.DecrementQuantity | src/store/cartStore.ts:69-79 | the new state is `DecrementStep` of the old one |
| CartStore.Store.ClearCart | src/store/cartStore.ts:81-84 | the new state is `ClearStep` of the old one |
| CartStore.Store.ToggleCartPanel | src/store/cartStore.ts:93 | the new state is `ToggleStep` of the old one |
| CartStore.Store.GetTotalItems | src/store/cartStore.ts:86-88 | the sum of the quantities of the current lines; on a valid cart it is 0 exactly when there are no lines |
| CartStore.Store.GetTotalPrice | src/store/cartStore.ts:89-91 | the sum of price × quantity of the current lines; on a valid cart with non-negative prices it is never negative |
| CartLaws.AddItemExisting | src/store/cartStore.ts:36-43 | on a valid cart holding the id, exactly that line's quantity rises by one and the panel flag is kept |
| CartLaws.AddItemTotals | src/store/cartStore.ts:30-91 | `addItem` raises the item total by 1 and the price total by the price of the line it touched: the stored line's price, or the new item's |
| CartLaws.AddSameItemTwice | src/store/cartStore.ts:30-52 | adding one item twice to an empty cart gives one line of quantity 2 with the panel open |
| CartLaws.AddAll | src/store/cartStore.ts:30-52 | any run of `addItem` calls preserves the invariant |
| CartLaws.AddAllTotal | src/store/cartStore.ts:30-88 | after n `addItem` calls on a valid cart, the item total has grown by exactly n |
| CartLaws.RemoveItemPresent | src/store/cartStore.ts:54-59 | on a valid cart, removing a present id deletes exactly its line |
| CartLaws.RemoveItemAbsent | src/store/cartStore.ts:56 | removing an absent id leaves the lines unchanged |
| CartLaws.RemoveItemTotals | src/store/cartStore.ts:54-91 | removal lowers the item total by the line's quantity and the price total by its subtotal |
| CartLaws.IncrementPresent | src/store/cartStore.ts:61-67 | on a valid cart holding the id, exactly that line gains one and the panel flag is kept |
| CartLaws.IncrementTotals | src/store/cartStore.ts:61-91 | `incrementQuantity` on a present id raises the item total by 1 and the price total by the line's price |
| CartLaws.DecrementPresent | src/store/cartStore.ts:69-79 | quantity 1: the line is deleted; quantity above 1: the line is lowered by one. The panel is kept in both cases |
| CartLaws.DecrementTotals | src/store/cartStore.ts:69-91 | a decrement lowers the item total by 1 and the price total by the line's price |
| CartLaws.DecrementAbsent | src/store/cartStore.ts:69-79 | decrementing an absent id changes nothing |
| CartLaws.RemoveClosesDecrementDoesNot | src/store/cartStore.ts:54-79 | emptying the cart by `removeItem` closes the panel; emptying it by `decrementQuantity` leaves the panel open |
| CartLaws.ToggleTwice | src/store/cartStore.ts:93 | toggling twice is the identity |
| CartLaws.AddItemValid | src/store/cartStore.ts:30-52 | `addItem` keeps ids unique and quantities ≥ 1 |
| CartLaws.RemoveItemValid | src/store/cartStore.ts:54-59 | `removeItem` keeps the invariant |
| CartLaws.DecrementValid | src/store/cartStore.ts:69-79 | `decrementQuantity` keeps the invariant |
| CartLaws.Step | src/store/cartStore.ts:30-93 | every action keeps the invariant |
| CartLaws.RunValid | src/store/cartStore.ts:30-93 | any sequence of actions from a valid state keeps the invariant |
| CartLaws.ReachableValid | src/store/cartStore.ts:26-93 | every state reachable from the initial store is valid |
| JsValues.MessageOf | src/components/Cart.tsx:80 | an `Error` gives its message; anything else gives the fallback |
| CartPanel.SuccessMessage | src/components/Cart.tsx:76 | the success text is never empty, so it is always displayed; it is the fixed prefix followed by the new document's id |
| CartPanel.FailureMessage | src/components/Cart.tsx:80-81 | the failure text is never empty and starts with the fixed prefix; after it comes the `Error`'s message, or "An unknown error occurred" for any other thrown value |
| CartPanel.BuildOrder | src/components/Cart.tsx:59-72 | one order line per cart line, in order, with id, name, quantity and price copied. `imageUrl` is kept iff truthy. The totals are the store's totals and the status is "pending" |
| CartPanel.OrderTotalsMatchLines | src/components/Cart.tsx:59-72 | the payload's `totalItems` and `totalPrice` equal the sums over its own lines |
| CartPanel.Render | src/components/Cart.tsx:87-198 | reopen button iff the count is positive and the user closed the cart, with the count as badge. Otherwise the panel slides in iff the count is positive and it is not closed, and shows the order message and the order error each exactly when it is truthy. The empty notice appears iff there are no lines, the panel is slid in and neither message is truthy. A footer is shown iff there are lines; it carries the price total, is disabled iff an order is in flight, and reads "Placing Order..." then, "Checkout" otherwise |
| CartPanel.EmptyNoticeNeverShown | src/components/Cart.tsx:122-125 | the empty-cart notice is never rendered |
| CartPanel.VisibleIffLinesAndNotClosed | src/components/Cart.tsx:29-32 | `isPanelVisible` (count positive and not closed by the user) holds on a valid cart exactly when the cart has lines and the user has not closed it |
| CartPanel.Panel.constructor | src/components/Cart.tsx:31-37 | not closed, not ordering, no messages |
| CartPanel.Panel.CloseCart | src/components/Cart.tsx:114 | sets the closed flag, nothing else |
| CartPanel.Panel.ReopenCart | src/components/Cart.tsx:90 | clears the closed flag, nothing else |
| CartPanel.Panel.ItemCountEffect | src/components/Cart.tsx:40-46 | at count 0 it resets the closed flag and both messages; otherwise nothing changes |
| CartPanel.Panel.BeginCheckout | src/components/Cart.tsx:48-72 | empty cart: only the error "Your cart is empty!" is set and nothing is written. Otherwise ordering starts, the messages are cleared and the payload is `BuildOrder` of the lines |
| CartPanel.Panel.FinishCheckout | src/components/Cart.tsx:74-84 | success: the message with the document id, and the cart cleared. Failure: the error with the thrown message, and the cart kept. Ordering ends either way |
| CartPanel.Panel.HandleCheckout | src/components/Cart.tsx:48-85 | the whole handler: no write for an empty cart. Otherwise one write of `BuildOrder`, then the success or failure state, including the cleared store |
| CartPanel.CheckoutSucceeds | src/components/Cart.tsx:48-85 | two burgers at 10 and one fries at 5 write totals 25 and 3. The cart ends empty and closed, and the following effect removes the success message |
| CartPanel.FailureMessageOfError | src/components/Cart.tsx:78-81 | the exact failure text for `Error("Firebase write failed")` |
| CartPanel.FailureMessageOfNonError | src/components/Cart.tsx:80-81 | the failure text for a thrown value that is not an `Error` |
| CartPanel.RenderWithError | src/components/Cart.tsx:175-198 | a one-line cart with an error shows the error and an enabled "Checkout" button |
| CartPanel.CheckoutFails | src/components/Cart.tsx:48-85 | a rejected write keeps the cart and shows the failure with the error's message; the button stays enabled |
| MenuFetch.ErrorDetail | src/app/Menu/page.tsx:26-29 | `details` if truthy, else `error` if truthy, else "Failed to fetch menu: " + status text. The fallback also covers an unparseable or `null` body. The result is always truthy |
| MenuFetch.CaughtMessage | src/app/Menu/page.tsx:23-37 | nothing is caught iff the response is ok and parses. A non-ok response carries the selected detail, a throw carries its message or the unknown-error text, and a parse failure carries its message |
| MenuFetch.StartFetch | src/app/Menu/page.tsx:21-22 | loading, error cleared, data kept |
| MenuFetch.FinishFetch | src/app/Menu/page.tsx:33-40 | loading off. On success the data is replaced and the error kept; on failure the error is set and the data kept |
| MenuFetch.Fetch | src/app/Menu/page.tsx:20-43 | a whole fetch ends not loading. On success it holds the fetched data with no error left over; on failure it holds the caught message with the previous data kept |
| MenuFetch.FailureSetsTruthyError | src/app/Menu/page.tsx:35-36 | a failed fetch stores a truthy error unless the thrown message was empty |
| MenuFetch.ErrorDetailExamples | src/app/Menu/page.tsx:29 | `details` wins over `error`; an unparseable body and empty fields give the status fallback |
| MenuFetch.MenuLoader.constructor | src/app/Menu/page.tsx:15-17 | empty data, loading, no error |
| MenuFetch.MenuLoader.BeginFetch | src/app/Menu/page.tsx:21-22 | the new state is `StartFetch` of the old one |
| MenuFetch.MenuLoader.CompleteFetch | src/app/Menu/page.tsx:23-40 | the new state is `FinishFetch` of the old one |
| MenuComponent.ComponentView | src/components/Menu.tsx:53-113 | loading iff loading. Error view iff not loading with a truthy error, showing that error. A fault iff a `null` menu reaches the length read. "Not available" iff the menu is empty; the categories are shown as fetched |
| MenuComponent.EmptyMenuNotAvailable | src/components/Menu.tsx:102-113 | an empty fetched menu shows "Menu Not Available" |
| MenuComponent.MenuShown | src/components/Menu.tsx:102-106 | a non-empty fetched menu shows its categories in order |
| MenuComponent.NotOkShowsDetail | src/components/Menu.tsx:24-39 | a non-ok response ends on the error view with the selected detail |
| MenuComponent.EmptyMessageSkipsErrorView | src/components/Menu.tsx:39-64 | a thrown `Error("")` stores `""`, and the screen is the one for no error |
| MenuComponent.NullMenuFaults | src/components/Menu.tsx:102 | an ok response with body `null` reaches `menuData.length` and faults |
| MenuComponent.LoadingWins | src/components/Menu.tsx:17-53 | the initial state and any fetch in flight show the loading view |
| MenuPage.PageView | src/app/Menu/page.tsx:47-123 | never faults for a `null` or array menu, the only bodies modelled. Loading, error and categories follow the same rules as the component; "not available" iff the menu is `null` or empty |
| MenuPage.SameAsComponentExceptNull | src/app/Menu/page.tsx:89 | the page agrees with the component on every state, except that the page shows "not available" where the component faults |
| MenuPage.NullOrEmptyNotAvailable | src/app/Menu/page.tsx:89-105 | a `null` or empty fetched menu shows "Menu Not Available" |
| MenuPage.NonErrorThrowShown | src/app/Menu/page.tsx:36 | a thrown non-`Error` shows the unknown-error text |
| MenuPage.UnparseableErrorBodyShown | src/app/Menu/page.tsx:26-31 | an unparseable error body shows the status-text fallback |
| FirebaseImage.Decide | src/hooks/useFirebaseImage.ts:22-35 | no-path iff the path is falsy; a cache hit iff the path is truthy and cached, serving the cached URL; otherwise a fetch of that uncached path |
| FirebaseImage.EffectResult | src/hooks/useFirebaseImage.ts:22-44 | no path: no URL, not loading, error "No image path provided.". Cache hit: the URL, not loading, no error. Fetch: loading with both cleared |
| FirebaseImage.SettledResult | src/hooks/useFirebaseImage.ts:48-67 | an unmounted run changes nothing. A mounted run ends loading, then sets the URL on success, or on failure the thrown `Error` or the unknown-error text |
| FirebaseImage.SettledCache | src/hooks/useFirebaseImage.ts:50-53 | the cache only grows, and other paths are untouched. Only a mounted success writes its own path |
| FirebaseImage.ResolvedThenCached | src/hooks/useFirebaseImage.ts:30-52 | after a mounted success, the next run for that path is a cache hit with that URL |
| FirebaseImage.FetchThenResolve | src/hooks/useFirebaseImage.ts:39-67 | start then mounted success: URL set, no error, not loading |
| FirebaseImage.FetchThenFail | src/hooks/useFirebaseImage.ts:54-67 | start then mounted failure: error set, no URL, not loading |
| FirebaseImage.ImageCache.constructor | src/hooks/useFirebaseImage.ts:7 | the cache starts empty |
| FirebaseImage.FetchRun.constructor | src/hooks/useFirebaseImage.ts:37 | a run starts mounted, for its path |
| FirebaseImage.FetchRun.Teardown | src/hooks/useFirebaseImage.ts:72-74 | the cleanup clears `isMounted` |
| FirebaseImage.ImageHook.constructor | src/hooks/useFirebaseImage.ts:16-18 | no URL, loading, no error |
| FirebaseImage.ImageHook.RunEffect | src/hooks/useFirebaseImage.ts:20-70 | the state becomes `EffectResult(Decide(...))`; a fresh mounted run is returned exactly when a fetch starts |
| FirebaseImage.ImageHook.Settle | src/hooks/useFirebaseImage.ts:46-67 | the state becomes `SettledResult` and the cache becomes `SettledCache` for the run's flag |
| FirebaseImage.LateResultDropped | src/hooks/useFirebaseImage.ts:37-74 | a run torn down before its lookup settles leaves hook state and cache unchanged |
| ItemImageDisplay.ErrorMessage | src/components/ItemImageDisplay.tsx:51 | the error's message if non-empty, else "Image load failed". With no error: "Image not found" for a truthy path, else "No image path". Never empty |
| ItemImageDisplay.PlaceholderText | src/components/ItemImageDisplay.tsx:20 | a truthy message is shown as is; otherwise "Image not available" |
| ItemImageDisplay.Display | src/components/ItemImageDisplay.tsx:35-69 | while loading: the caller's loading node or the default placeholder. The `Image` iff not loading, no error and a truthy URL, with the defaults "object-cover" and `false`. Otherwise the caller's error node or the default placeholder with `ErrorMessage` |
| ItemImageDisplay.PlaceholderFallbackUnreachable | src/components/ItemImageDisplay.tsx:20-52 | the placeholder's fallback text is never reached from this component |
| ItemImageDisplay.NoPathShowsHookMessage | src/components/ItemImageDisplay.tsx:44-52 | through the hook, a falsy path shows "No image path provided." |
| ItemImageDisplay.CacheHitShowsPicture | src/components/ItemImageDisplay.tsx:55-62 | a cached non-empty URL is shown at once with the default class and priority |
| ItemImageDisplay.EmptyUrlNotFound | src/components/ItemImageDisplay.tsx:50-51 | an empty URL, cached or fetched, shows "Image not found" |
| ItemImageDisplay.FailureShowsMessage | src/components/ItemImageDisplay.tsx:50-51 | a failed fetch shows the error message. An empty message shows "Image load failed", and a non-`Error` throw shows the hook's fallback text |
| ItemImageDisplay.NoUrlNoErrorMessages | src/components/ItemImageDisplay.tsx:51 | a settled state with neither URL nor error shows "No image path" without a path and "Image not found" with one |

## Left out

- Persistence. The `persist` middleware, `localStorage` and rehydration are not modelled. `partialize` keeps exactly the two data fields; the model's `CartState` is already that pair, so the projection is the identity and has no member of its own.
- `createdAt: serverTimestamp()` is left out of `OrderData`, because the server assigns it.
- Prices are integers rather than JavaScript floating-point numbers. `toFixed(2)` formatting is not modelled.
- Firestore `addDoc`, `fetch`, `response.json()` and Firebase Storage `getDownloadURL` are not modelled; their outcomes are inputs. The `console.error` logging is dropped.
- The scheduling of React effects and async continuations is not modelled. The caller invokes each half (`BeginCheckout`/`FinishCheckout`, `BeginFetch`/`CompleteFetch`, `RunEffect`/`Settle`, `ItemCountEffect`) in the order React would. Intermediate renders between two `setState` calls are not modelled.
- The ordering guard `if (!isMounted) return;` at the top of `fetchImage` always passes, because nothing can run between the creation of the run and that check. `ImageHook.RunEffect` keeps the check.
- `Cart.tsx` reads `items`, `cartTotal` and `itemCount` from the render in which `handleCheckout` was created. The model reads the store when the handler runs, so it assumes the handler belongs to the latest render.
- React nodes passed as `loadingComponent`/`errorComponent` count as present when given. A falsy node (`null`, `false`, `0`, `""`) is not distinguished from an absent one.
- MenuPage.PageView: its "never faults" covers only `null` and array menus, because a successful response whose JSON body is anything else is not modelled (`MenuJson` admits only those two). Such bodies behave differently in the source. For `{}`, `true`, a non-zero number or a non-empty string, the `src/app/Menu/page.tsx:89` guard lets the body through and `menuData.map` at line 120 throws; the falsy `0`, `false` and `""` take that guard's "Menu Not Available" branch. In `src/components/Menu.tsx:102`, `{}`, a boolean or a number has no `length`, so the component shows "Menu Not Available", while a non-empty string passes the `length > 0` test and `menuData.map` throws.
- JSON error bodies whose `details`/`error` fields are not strings (numbers, objects) are not modelled. Only absent and string fields are.
- The `Image` element's `onError` handler only logs; it is not modelled.
- The API route, the Firebase setup, the celebration overlay, the menu cards and the other presentational components are not part of this model.

## Findings

| source | as written | input that shows it | evidently intended | confidence | as-written member | corrected member |
|---|---|---|---|---|---|---|
| src/components/Menu.tsx:102 | reads `menuData.length` with no guard against a `null` body | `/api/menu` answers 200 with body `null`; after the fetch, render throws a `TypeError` | show "Menu Not Available", as `src/app/Menu/page.tsx:89` does | medium, not executed | MenuComponent.NullMenuFaults | MenuPage.NullOrEmptyNotAvailable |

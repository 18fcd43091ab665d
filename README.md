# Taro art-collection mini-program: a Dafny model

This project models the logic of the Taro (WeChat mini-program) front end of an art-collection
shop. The shop has four parts:

- **Browsing.** Collections are loaded through a three-minute single-slot cache. A collection is
  selected and its artworks are paged through. The main page filters the list by category and
  counts each category.
- **Cart.** A cart hook routes add, update, remove, clear and booking requests to the cart
  gateway. It announces every success on a `cart-update` channel. A cart provider refreshes the
  shared cart from `getCart` whenever that event arrives.
- **Gateway clients.** They classify responses (2xx success, as in RFC 9110 section 15.3,
  "Successful 2xx") and unwrap `{success, data, message}` envelopes.
- **Small pieces.** Price labels, the cart badge, order status labels, thumbnail and image-source
  selection, and the build script that strips CSS rules with escaped class names.

The model has one module per source file, plus shared modules:

- `Wrappers` holds `Option`, `Result` and a thrown value.
- `Text` holds JavaScript's decimal rendering of integers and `String.prototype.trim`.
- `Domain` holds the records.
- `Http` holds the `request` helper and envelopes.
- `Paging` holds the page-index rules that two state machines share.
- `Seqs` holds `Array.prototype.find`.

The modelling choices:

- Components whose state changes step by step are classes. These are the hooks, the pages'
  handlers, the viewer, the thumbnail items and the add-to-cart button. Their methods carry
  `modifies` clauses and state every field they leave.
- Pure logic is functions and lemmas. This covers the service functions, the price and badge
  labels, the cart page's dispatch, the order labels and the CSS filter.
- Outside inputs become parameters:
  - the gateway's answer is a `Response` value (a status and a body, or a transport failure);
  - `Date.now()` is an integer `now`;
  - the confirmation dialog's answer is a boolean.
- A falsy user id is `0`.

## Model

| member | source | states |
|---|---|---|
| Http.Request | src/services/cartService.ts:56-72 | a response yields its body iff its status is in [200, 300); any other status rejects with '请求失败: ' followed by the status; a transport failure is rethrown unchanged |
| Http.FailureMessageNamesStatus | src/services/masterpiecesService.ts:56-65 | the failure message of a non-2xx response reads back to exactly that status code |
| Http.FailureMessagesDistinguishStatus | src/services/masterpiecesService.ts:56-65 | two failure messages are equal iff their status codes are equal |
| Http.Unwrap | src/services/cartService.ts:121-125 | an envelope gives its data iff `success`; otherwise it rejects with `message` when that is non-empty and with the fallback when it is absent or empty |
| Http.RequestEnvelope | src/services/cartService.ts:113-130 | status check first, then envelope: resolves iff 2xx and `success`; each failure path rejects with its own message |
| CartService.GetCart | src/services/cartService.ts:82-107 | never fails: a 2xx response gives its body; any other status or a transport failure gives the empty cart with zero totals |
| CartService.AddToCart | src/services/cartService.ts:113-130 | resolves with `data` iff 2xx and `success`; a refused envelope rejects with `message` or '添加到购物车失败'; a non-2xx status rejects with the status message |
| CartService.UpdateCartItem | src/services/cartService.ts:135-152 | the same rule, with default '更新购物车失败' |
| CartService.RemoveFromCart | src/services/cartService.ts:157-174 | the same rule, with default '移除购物车商品失败' |
| CartService.ClearCart | src/services/cartService.ts:179-195 | the same rule, with default '清空购物车失败' |
| CartService.BatchBooking | src/services/cartService.ts:200-217 | the same rule, with default '批量预订失败' |
| MasterpiecesService.GetAllCollections | src/services/masterpiecesService.ts:82-105 | resolves iff 2xx and the body is an array, and then with that array; a 2xx non-array rejects with '获取画集失败: 响应格式错误'; a non-2xx status rejects with the status message |
| MasterpiecesService.CollectionPath | src/services/masterpiecesService.ts:113-116 | the single-collection path starts with '/api/masterpieces/collections/' followed by the id |
| MasterpiecesService.CollectionPathInjective | src/services/masterpiecesService.ts:113-116 | distinct ids are requested at distinct paths, and equal paths mean equal ids |
| MasterpiecesService.GetCollectionById | src/services/masterpiecesService.ts:110-124 | the bare body iff 2xx, with no shape check |
| MasterpiecesService.SearchCollections | src/services/masterpiecesService.ts:129-142 | the bare body iff 2xx, not checked to be an array |
| MasterpiecesService.GetCollectionsOverview | src/services/masterpiecesService.ts:165-182 | enveloped: `data` iff 2xx and `success`, else `message` or '获取画集概览失败' |
| MasterpiecesService.GetConfig | src/services/masterpiecesService.ts:192-202 | the bare configuration iff 2xx, with no envelope unwrapping |
| MasterpiecesService.UpdateConfig | src/services/masterpiecesService.ts:207-219 | enveloped: `data` iff 2xx and `success`, else `message` or '更新配置失败' |
| MasterpiecesService.DefaultConfig | src/services/masterpiecesService.ts:223-233 | 20 collections per page, default category '画集', search and categories enabled, site and hero title '艺术画集展览' |
| Paging.CanGoNext | src/hooks/useMasterpieces.ts:320-324 | `canGoNext`, the guard of `nextPage`: a collection is selected and the page is below its last; its meaning is proved in `Paging.CanGoNextIffNextExists` |
| Paging.CanGoPrev | src/hooks/useMasterpieces.ts:320-324 | `canGoPrev`, the guard of `prevPage`: the page is above 0; its meaning is proved in `Paging.CanGoPrevIffPrevExists` |
| Paging.CanGoPrevIffPrevExists | src/hooks/useMasterpieces.ts:320-324 | within the index invariant and with pages present, `canGoPrev` holds exactly when an artwork exists at the previous index |
| Paging.CurrentArtwork | src/hooks/useMasterpieces.ts:311-316 | an artwork is returned iff a collection is selected and the index is within its pages, and then it is the page at that index |
| Paging.CanGoNextIffNextExists | src/hooks/useMasterpieces.ts:320-324 | within the index invariant, `canGoNext` holds exactly when an artwork exists at the next index |
| Paging.ArtworkShownIffPages | src/pages/index/index.tsx:188-193 | within the invariant, an artwork is shown exactly when the selected collection has pages |
| Paging.MovesStayInRange | src/hooks/useMasterpieces.ts:160-229 | the next, previous and go-to moves all keep the index in [0, last page] |
| UseMasterpieces.BrowseState.constructor | src/hooks/useMasterpieces.ts:48-60 | no collections, nothing selected, page 0, not loading, no error |
| UseMasterpieces.CollectionsCache.constructor | src/hooks/useMasterpieces.ts:30-33 | the cache starts empty, stamped 0 |
| UseMasterpieces.CacheHit | src/hooks/useMasterpieces.ts:77-85 | the cache check: not forced, a cached list, and less than three minutes old; `LoadCollections` fetches exactly when it fails |
| UseMasterpieces.BrowseState.LoadCollections | src/hooks/useMasterpieces.ts:72-125 | a fetch happens iff the refresh is forced, the cache is empty, or it is three minutes old or older; on a hit the cached list is shown and nothing else changes; a successful fetch stores the list in the state and the cache, stamped with the time read before the request; a failed fetch sets '加载画集失败' and keeps the list and the cache; loading ends false on every path, a hit included |
| UseMasterpieces.BrowseState.SelectCollection | src/hooks/useMasterpieces.ts:136-145 | selects the collection and resets the page to 0; nothing else changes |
| UseMasterpieces.BrowseState.NextPage | src/hooks/useMasterpieces.ts:153-173 | advances by one iff `canGoNext`, else leaves the page; the index invariant is kept |
| UseMasterpieces.BrowseState.PrevPage | src/hooks/useMasterpieces.ts:181-200 | goes back one iff the page is above 0; the invariant is kept |
| UseMasterpieces.BrowseState.GoToPage | src/hooks/useMasterpieces.ts:210-230 | moves to i iff a collection is selected and 0 <= i < its page count, else nothing changes |
| UseMasterpieces.BrowseState.BackToGallery | src/hooks/useMasterpieces.ts:238-245 | clears the selection and resets the page to 0 |
| UseMasterpieces.BrowseState.SearchCollections | src/hooks/useMasterpieces.ts:257-299 | a query that trims to empty acts as a forced load; any other query replaces the list with the search result, or sets '搜索失败' and keeps the list; a search never writes the cache; loading ends false |
| UseMasterpieces.LoadTwice | src/hooks/useMasterpieces.ts:77-107 | after a successful fetch at time t, a later unforced load fetches again iff at least 180 000 ms have passed, and otherwise shows the list fetched at t |
| IndexPage.CategoryCounts | src/pages/index/index.tsx:83-103 | the counter has exactly the nine listed categories as keys, and each holds the number of collections of that category |
| IndexPage.CountsSumToListed | src/pages/index/index.tsx:83-103 | the nine counters sum to the number of collections whose category is listed |
| IndexPage.FilterByCategory | src/pages/index/index.tsx:139-147 | every collection kept has the selected category, and no more are kept than there were |
| IndexPage.FilterMembership | src/pages/index/index.tsx:139-147 | a collection is listed iff it is one of the collections and has the selected category |
| IndexPage.FilterAppend | src/pages/index/index.tsx:139-147 | filtering distributes over concatenation, so relative order is kept |
| IndexPage.TileCountMatchesList | src/pages/index/index.tsx:83-147 | the count on a category tile equals the number of cards the list shows for it |
| IndexPage.ShowMasterpiecesContent.constructor | src/pages/index/index.tsx:59-80 | loading, no collections, nothing selected, page 0, no configuration, category '画集' |
| IndexPage.ShowMasterpiecesContent.LoadData | src/pages/index/index.tsx:109-135 | collections are stored before the configuration is fetched; a collections failure keeps the old state and sets the message or '数据加载失败'; a configuration failure keeps the new collections and sets the error; on success the configuration is stored and no error remains; loading ends false |
| IndexPage.ShowMasterpiecesContent.SelectCategory | src/pages/index/index.tsx:339-343 | the grid's selection changes only the selected category |
| IndexPage.ShowMasterpiecesContent.HandleSelectCollection | src/pages/index/index.tsx:156-160 | selects the collection at page 0 |
| IndexPage.ShowMasterpiecesContent.HandleBackToGallery | src/pages/index/index.tsx:162-166 | clears the selection, page 0 |
| IndexPage.ShowMasterpiecesContent.HandleNextPage | src/pages/index/index.tsx:168-172 | advances iff a collection is selected and the page is below the last |
| IndexPage.ShowMasterpiecesContent.HandlePrevPage | src/pages/index/index.tsx:174-178 | goes back iff the page is above 0 |
| IndexPage.ShowMasterpiecesContent.HandleGoToPage | src/pages/index/index.tsx:180-184 | moves to i iff a collection is selected and i is a page index, else nothing changes |
| CollectionPage.FindById | src/pages/collection/index.tsx:42 | a collection found is one of the collections and its id renders to the route parameter |
| CollectionPage.FindByRenderedId | src/pages/collection/index.tsx:42 | the route parameter made from a collection's id finds the first collection carrying that id |
| CollectionPage.FindByIdNoneIffAbsent | src/pages/collection/index.tsx:42-45 | the lookup finds nothing iff no collection's id renders to the parameter |
| CollectionPage.MalformedIdNeverMatches | src/pages/collection/index.tsx:42 | a parameter that is not an integer's decimal rendering never matches |
| CollectionPage.CollectionRoute.constructor | src/pages/collection/index.tsx:38 | the route starts loading |
| CollectionPage.CollectionRoute.LookupEffect | src/pages/collection/index.tsx:40-75 | does nothing unless the parameter is non-empty and collections have arrived; then it selects the match at page 0 (the viewer shows it) or leaves the selection (not found when none was selected), and ends loading either way |
| ThumbnailSidebar.CounterText | src/components/ThumbnailSidebar.tsx:137-139 | the counter `currentPage + 1 / pages.length`; `CounterTextInjective` proves it determines both numbers |
| ThumbnailSidebar.CounterTextInjective | src/components/ThumbnailSidebar.tsx:137-139 | the counter `currentPage + 1 / pages.length` determines both numbers |
| ThumbnailSidebar.Thumbnails | src/components/ThumbnailSidebar.tsx:148-156 | one item per page in order; item i carries page i and index i, and is active iff i is the current page |
| ThumbnailSidebar.ActiveThumbnailCount | src/components/ThumbnailSidebar.tsx:153 | exactly one item is active when the current page exists, none otherwise |
| ThumbnailSidebar.ActiveThumbnailIsShownPage | src/components/ThumbnailSidebar.tsx:153 | the active item is the artwork the viewer shows |
| ThumbnailSidebar.SelectingThumbnailIsAccepted | src/components/ThumbnailSidebar.tsx:154 | clicking item i asks for page i, which `goToPage` accepts |
| ThumbnailSidebar.ThumbnailItem.constructor | src/components/ThumbnailSidebar.tsx:28-31 | loading, no error, empty source, not yet visible |
| ThumbnailSidebar.ThumbnailItem.BecomeVisible | src/components/ThumbnailSidebar.tsx:77-83 | the timer marks the item visible and changes nothing else |
| ThumbnailSidebar.ThumbnailItem.LoadThumbnail | src/components/ThumbnailSidebar.tsx:34-64 | nothing happens before visibility; afterwards any non-empty image, whitespace-only included, becomes the source with no error; a missing or empty image sets the error and keeps the source; loading ends false |
| ThumbnailSidebar.ThumbnailItem.HandleImageLoad | src/components/ThumbnailSidebar.tsx:66-69 | ends loading, clears the error |
| ThumbnailSidebar.ThumbnailItem.HandleImageError | src/components/ThumbnailSidebar.tsx:71-74 | ends loading, sets the error, so the image is hidden |
| ArtworkViewer.ArtworkImagePath | src/components/ArtworkViewer.tsx:52 | the image path starts with '/api/masterpieces/collections/' and ends with '/image' |
| ArtworkViewer.Nav | src/components/ArtworkViewer.tsx:130-150 | each button is disabled when its flag is false; `NavDisabledExactlyAtEnds` places that at the two ends |
| ArtworkViewer.ArtworkImagePathInjective | src/components/ArtworkViewer.tsx:52 | the file-id image path determines the collection id and the artwork id |
| ArtworkViewer.ImageSource | src/components/ArtworkViewer.tsx:43-61 | there is no source iff neither image nor file id is truthy; a source is never empty |
| ArtworkViewer.ImageTakesPrecedence | src/components/ArtworkViewer.tsx:43-55 | a truthy image is used as is; otherwise a truthy file id gives the gateway image path |
| ArtworkViewer.FileIdSourcesDistinct | src/components/ArtworkViewer.tsx:51-55 | two file-id-only artworks of one collection never share a source |
| ArtworkViewer.NavDisabledExactlyAtEnds | src/components/ArtworkViewer.tsx:130-150 | with the flags the pages pass, previous is disabled exactly on page 0 and next exactly when no later artwork exists |
| ArtworkViewer.Viewer.constructor | src/components/ArtworkViewer.tsx:31-33 | loading, no error, empty source |
| ArtworkViewer.Viewer.LoadImage | src/components/ArtworkViewer.tsx:36-68 | with a resolved source, that source is shown with no error; without one, the error is set and the old source kept; loading ends false on every path |
| ArtworkViewer.Viewer.HandleImageLoad | src/components/ArtworkViewer.tsx:70-73 | ends loading, clears the error |
| ArtworkViewer.Viewer.HandleImageError | src/components/ArtworkViewer.tsx:75-78 | ends loading, sets the error |
| CartContext.Begin | src/contexts/CartContext.tsx:81 | the refresh starts loading and clears the error, keeping the cart |
| CartContext.Settle | src/contexts/CartContext.tsx:93-104 | loading ends; a fetched cart replaces the old one wholesale; a failure keeps the old cart and records the message or '刷新购物车失败' |
| CartContext.RefreshNeverShowsError | src/contexts/CartContext.tsx:85-104 | since `getCart` never rejects, a refresh never ends with an error, and a failed fetch shows an empty cart |
| CartContext.RefreshForgetsPreviousCart | src/contexts/CartContext.tsx:93-97 | the state after a refresh does not depend on the cart it replaced |
| CartContext.UseCartContext | src/contexts/CartContext.tsx:149-155 | the provider's state inside a provider; outside, a throw with 'useCartContext must be used within a CartProvider' |
| CartContext.CartUpdateChannel.On | src/contexts/CartContext.tsx:124 | registers one more listener for 'cart-update' |
| CartContext.CartUpdateChannel.Off | src/contexts/CartContext.tsx:128 | the handler is no longer registered |
| CartContext.CartUpdateChannel.Trigger | src/contexts/CartContext.tsx:162 | one delivery per registered listener, counted as one trigger |
| CartContext.TriggerCartUpdate | src/contexts/CartContext.tsx:160-163 | fires 'cart-update' once |
| CartContext.CartProvider.constructor | src/contexts/CartContext.tsx:59-68 | an empty cart with zero totals, not loading, no error |
| CartContext.CartProvider.RefreshCart | src/contexts/CartContext.tsx:73-106 | a no-op for user id 0; otherwise the state becomes the fetched cart, not loading, no error |
| CartContext.CartProvider.Subscribe | src/contexts/CartContext.tsx:115-124 | registers the provider's handler |
| CartContext.CartProvider.Unsubscribe | src/contexts/CartContext.tsx:126-129 | removes the provider's handler |
| CartContext.CartProvider.HandleCartUpdate | src/contexts/CartContext.tsx:118-121 | one delivered event is consumed and causes one refresh |
| CartContext.TeardownThenTrigger | src/contexts/CartContext.tsx:126-129 | after teardown, a trigger delivers nothing to the provider |
| CartContext.SubscribedTrigger | src/contexts/CartContext.tsx:118-124 | while subscribed once, each trigger delivers exactly one refresh to the provider |
| UseCart.CartHook.constructor | src/hooks/useCart.ts:64-65 | not loading, no error |
| UseCart.CartHook.ClearError | src/hooks/useCart.ts:70-72 | clears the error and changes nothing else |
| UseCart.CartHook.AddItemToCart | src/hooks/useCart.ts:77-125 | user id 0: '用户ID不能为空', no call, loading untouched, no event; otherwise exactly one call with only the id and the quantity (the snapshot is not sent), loading ends false, success fires exactly one event and clears the error, failure fires none and records the message or '添加到购物车失败' |
| UseCart.CartHook.UpdateItemQuantity | src/hooks/useCart.ts:130-167 | the same guard and outcome rule, default '更新购物车失败' |
| UseCart.CartHook.RemoveItemFromCart | src/hooks/useCart.ts:172-208 | the same guard and outcome rule, default '移除商品失败' |
| UseCart.CartHook.ClearCart | src/hooks/useCart.ts:213-259 | the same guard; if confirmation is declined, no call and nothing changes; otherwise the outcome rule with default '清空购物车失败' |
| UseCart.CartHook.BatchBooking | src/hooks/useCart.ts:264-301 | user id 0 throws '用户ID不能为空' before any state change; otherwise the gateway's result is returned, so failures are rethrown, after the same event and error bookkeeping with default '批量预订失败' |
| UseCart.AddThenRefresh | src/hooks/useCart.ts:96-103 | the hook ignores the cart a mutation returns and fires `cart-update`; the provider then refetches with `getCart` (src/contexts/CartContext.tsx:118-121), so after a successful add the provider shows exactly the cart `getCart` returns, idle and without error, whatever the add response held |
| AddToCartButton.FindCartItem | src/components/AddToCartButton.tsx:54-55 | the cart line for the collection; characterised by `FindCartItemIsFirstLine` |
| AddToCartButton.CurrentQuantity | src/components/AddToCartButton.tsx:56 | the line's quantity or 0; characterised by `CurrentQuantityOfLine` |
| AddToCartButton.AddRoute | src/components/AddToCartButton.tsx:79-92 | the call the add button makes; characterised by `AddRequestsCurrentPlusChosen` |
| AddToCartButton.FindCartItemIsFirstLine | src/components/AddToCartButton.tsx:54-55 | the line found is the first line for the collection; none is found iff no line matches |
| AddToCartButton.CurrentQuantityOfLine | src/components/AddToCartButton.tsx:56 | the current quantity is the line's quantity, or 0 without a line |
| AddToCartButton.AddRequestsCurrentPlusChosen | src/components/AddToCartButton.tsx:79-92 | the quantity requested is always the cart's quantity plus the chosen one; an add (not an update) happens iff no line matches |
| AddToCartButton.CartQuantityRoute | src/components/AddToCartButton.tsx:111-123 | zero or less removes the line; anything else updates it to exactly that quantity |
| AddToCartButton.AddToCartButtonState.constructor | src/components/AddToCartButton.tsx:50-51 | quantity 1, not added |
| AddToCartButton.AddToCartButtonState.SyncWithCart | src/components/AddToCartButton.tsx:66-74 | with a matching line: its quantity and added; without: quantity 1 and not added |
| AddToCartButton.AddToCartButtonState.HandleAddToCart | src/components/AddToCartButton.tsx:79-97 | makes the routed call and marks the button added whatever the gateway answered |
| AddToCartButton.AddToCartButtonState.HandleQuantityChange | src/components/AddToCartButton.tsx:102-106 | accepts only values of at least 1, so the selector never drops below 1 |
| AddToCartButton.AddToCartButtonState.HandleCartQuantityChange | src/components/AddToCartButton.tsx:111-123 | makes the call that CartQuantityRoute chooses |
| CartPage.HandleUpdateQuantity | src/pages/cart/index.tsx:55-61 | removal iff the quantity is at most 0; otherwise an update to exactly that quantity, for the same collection |
| CartPage.HandleCheckout | src/pages/cart/index.tsx:35-49 | '购物车为空' iff the cart has no lines, otherwise '结算功能开发中' |
| CartPage.RemoveRequest | src/pages/cart/index.tsx:51-61 | the delete button makes the same call as changing the line's quantity to 0: removal of the line's own collection |
| CartPage.DecrementRequest | src/pages/cart/index.tsx:159-162 | the '-' button's call; characterised by `DecrementNeverRemoves` |
| CartPage.IncrementRequest | src/pages/cart/index.tsx:167-169 | the '+' button's call; characterised by `IncrementAddsOne` |
| CartPage.DecrementNeverRemoves | src/pages/cart/index.tsx:159-162 | '-' is enabled iff the quantity is above 1, and then asks for one fewer |
| CartPage.IncrementAddsOne | src/pages/cart/index.tsx:167-169 | '+' asks for exactly one more |
| CartPage.IncrementThenDecrement | src/pages/cart/index.tsx:159-169 | '+' then '-' asks for the original quantity back |
| CollectionCard.FormatPrice | src/components/CollectionCard.tsx:126-134 | '价格待定' iff there is no price; '免费' iff the price is 0 |
| CollectionCard.FormatPriceRoundTrip | src/components/CollectionCard.tsx:126-134 | every label reads back to its price, '¥' followed by the amount included |
| CollectionCard.FormatPriceInjective | src/components/CollectionCard.tsx:126-134 | different prices never share a label |
| CollectionCard.IsProduct | src/components/CollectionCard.tsx:139 | every category other than '画集' is a product; `CardClickMatchesViewButton` shows products never open the viewer |
| CollectionCard.HandleCardClick | src/components/CollectionCard.tsx:139-148 | the card hands its own collection to `onSelect` iff it is a gallery ('画集'); a product's card hands over nothing |
| CollectionCard.CardClickMatchesViewButton | src/components/CollectionCard.tsx:139-148 | a card opens its collection iff it shows the '查看画集' button; products never open the viewer |
| CartButton.BadgeLabel | src/components/CartButton.tsx:55 | the label is '99+' exactly when the total exceeds 99 |
| CartButton.Badge | src/components/CartButton.tsx:40-58 | the badge is shown iff `showBadge` (default true) and the total is positive, with the capped label |
| CartButton.BadgeFitsThreeCharacters | src/components/CartButton.tsx:55 | a shown label has at most three characters |
| CartButton.BadgeReadsBack | src/components/CartButton.tsx:55 | up to 99 the label reads back as the exact total; above 99 it is '99+', which reads as no number |
| OrdersPage.StatusText | src/pages/orders/index.tsx:51-58 | '未知' iff the status is not pending, completed or cancelled |
| OrdersPage.StatusColor | src/pages/orders/index.tsx:60-67 | '#64748b' iff the status is not one of the three |
| OrdersPage.TextAndColorAgree | src/pages/orders/index.tsx:51-67 | two statuses get the same text iff they get the same colour |
| OrdersPage.KnownStatusesDistinct | src/pages/orders/index.tsx:52-55 | the three known statuses have three different texts |
| OrdersPage.LoadOrders | src/pages/orders/index.tsx:36-49 | always ends with no orders, not loading, no error |
| CleanCss.Clean | scripts/clean-css.js:10-16 | the transformation itself: split at '}', drop pieces with a backslash, join with '}'; its properties are the `Clean…` lemmas below |
| CleanCss.Join | scripts/clean-css.js:16 | `join('}')`; inverse of `Split` by `JoinSplit` and `SplitJoin` |
| CleanCss.Split | scripts/clean-css.js:10 | at least one piece, and no piece contains '}' |
| CleanCss.JoinSplit | scripts/clean-css.js:10-16 | joining the pieces with '}' restores the text |
| CleanCss.SplitJoin | scripts/clean-css.js:10-16 | splitting pieces joined with '}' (pieces free of '}') restores the pieces |
| CleanCss.KeepClean | scripts/clean-css.js:11-14 | every kept piece is free of backslashes |
| CleanCss.KeepCleanMembership | scripts/clean-css.js:11-14 | a piece is kept iff it is a piece and holds no backslash |
| CleanCss.KeepCleanAppend | scripts/clean-css.js:11-14 | the filter distributes over concatenation, so relative order is kept |
| CleanCss.CleanHasNoBackslash | scripts/clean-css.js:10-16 | the output contains no backslash |
| CleanCss.CleanTextUnchanged | scripts/clean-css.js:10-16 | text without a backslash comes out unchanged |
| CleanCss.CleanIdempotent | scripts/clean-css.js:10-16 | cleaning twice is cleaning once |
| CleanCss.CleanNotLonger | scripts/clean-css.js:10-16 | the output is never longer than the input |
| Text.IntToDecimal | src/services/cartService.ts:64 | the decimal rendering of an integer, as a template literal writes it: non-empty, with a leading '-' exactly for negatives, then digits |
| Text.Trim | src/hooks/useMasterpieces.ts:258 | `String.prototype.trim`; characterised by `TrimEmptyIffBlank` |
| Text.IntRoundTrip | src/services/cartService.ts:64 | a status or id rendered in decimal, as a template literal does, reads back to the same integer |
| Text.RenderedIntThenUnique | src/components/ThumbnailSidebar.tsx:138 | a rendered integer followed by text that does not start with a digit splits back uniquely |
| Text.TrimEmptyIffBlank | src/hooks/useMasterpieces.ts:258 | `query.trim()` is empty iff the query consists only of ECMAScript whitespace |
| Seqs.Find | src/pages/collection/index.tsx:42 | `Array.prototype.find`: a found element is in the sequence and passes the test; none iff no element passes |
| Seqs.FindIndex | src/pages/collection/index.tsx:42 | the index found is the first position passing the test; none is found iff no position passes |
| Seqs.FindFirst | src/components/AddToCartButton.tsx:54 | `find` returns the element at the first position passing the test |

## Left out

- All rendering is left out: JSX, CSS class strings, spinners, toasts, `showLoading`/`hideLoading`, and navigation (`navigateTo`, `navigateBack`, `reLaunch`).
- The confirmation dialog's text is left out. Only its yes/no answer is an input.
- The transport is left out: `Taro.request`, the base URL, headers, the 10-second timeout, JSON decoding and `encodeURIComponent` in query strings. A gateway answer is an abstract `Response`. The search and category query paths are not modelled; the single-collection path is.
- `MasterpiecesService.getCollectionsByCategory` is not modelled: it is a bare-body request like `SearchCollections`, and nothing in the program calls it.
- The `cartService` object and the named exports (src/services/cartService.ts:223-273) only delegate to `CartService`. The model calls the `CartService` functions directly.
- The `request` helper of src/services/masterpiecesService.ts is the same as the cart one apart from log text. Both are `Http.Request`.
- Taro's event centre is left out: handler order, and anything beyond "one trigger gives one delivery per registered listener". Handlers are abstract identities. Delivery is modelled as a pending multiset that the provider consumes.
- React is left out: re-render timing, `useCallback`/`useMemo` caching, stale closures, effects re-running, and overlapping async calls racing with the last response winning. Each operation runs to completion; its awaited gateway answer is a parameter.
- Timers are left out: the thumbnails' staggered visibility delay is only the `BecomeVisible` step, and the viewer's `retryImageLoad` is not modelled.
- The index page's cart modal flag (`cartModalOpen`) is not modelled: it is a presentation flag set by two buttons.
- The header titles' fallbacks are not modelled.
- The CSS script's file reading and writing, its per-file loop and its logging are left out. Only the text transformation is modelled.
- Console logging is left out throughout.
- Prices, quantities and ids are integers. Fractional prices and `NaN` ids are not modelled. A user id is falsy only when it is 0.
- Text.IntToDecimal: numbers are unbounded exact integers. Their decimal form matches JavaScript's only for magnitudes below 1e21, where JavaScript switches to exponent form ('1e+21'), and only for exact values, below 2^53. This bound applies to every label built on it: the '¥' price, the status failure message, the collection and image paths, the sidebar counter and the id comparison of the collection route. It applies to their round-trip lemmas too.
- IndexPage.CategoryCounts: the source's test `counts[collection.category] !== undefined` (src/pages/index/index.tsx:97) also passes for a category string that names an inherited object property, such as 'toString' or 'constructor'. The increment then adds a tenth key holding NaN. The model maps every such string to `Unlisted` and skips it.
- MasterpiecesService.SearchCollections: a 2xx body that is not an array is stored as the collection list by the source (src/hooks/useMasterpieces.ts:273-274). The model's body is already a list, because JSON decoding is left out.
- `Domain.Category`: the category enumeration lives in src/types, which is not part of this model. The nine names are taken from the counts record of src/pages/index/index.tsx:84-94. Any other category string is `Unlisted`.
- `Domain.BookingRequest`: the booking request's fields live in src/types/cart.ts, which is not part of this model. The request is passed through unchanged as an opaque value.
- `CartContext.Settle`: the failure branch is modelled, but `RefreshCart` never reaches it, because `getCart` never rejects.

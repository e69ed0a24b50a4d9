# PokeTeko storefront — a Dafny model of the page logic

PokeTeko is a web storefront for Pokémon cards and print-on-demand apparel.
It is built from React pages over a hosted database (tables `pokemon`, `cart`,
`order_drafts` and `orders`), file storage, serverless functions and a
payment processor. This project models the logic the pages run around those
services:

- **payment confirmation** (`Success`): the page verifies the payment session
  named in the `session_id` query parameter. Once the payment is verified and
  a user is signed in, it commits the order: it reads the session's order
  draft and the user's cart, inserts one `orders` row per cart row, then
  clears the cart. Two page-lifetime flags guard the commit:
  `orderSaved` and `processedSession`.
- **apparel product page** (`ApparelPage`): finds a product by its route id,
  tells whether the user already has it in the cart, and adds or removes its
  cart rows.
- **cart page** (`Cart`) and **all-cards page** (`AllCards`): each loads a
  list of cards and rewrites each image key to a storage URL. Each then
  filters the list by grade and price and sorts it by a header the user can
  toggle. The cart page shows a Checkout button when its list is non-empty.
  The shared parts are in `Listing`.
- **all-apparel page** (`AllApparel`): keeps only apparel categories, shows
  one card per product variant with a "No Image" placeholder, and links each
  card to its product route.
- **rarity badges** (`ProductCard`, `ProductDetail`): the class chosen for a
  card's rarity, the same table written twice, and the product card's click
  route.

Every remote call is a parameter. Its outcome is a failure flag, or the rows
it returns, and the tables it writes are sequences of rows held in the model.
Pages whose fields change over time are classes. Their methods are proved
equal to specification functions, and the lemmas are proved about those
functions.

Two consequences of the code are worth knowing:

- The cart page lists only rows whose `pokemon` column names a catalogue
  card. The apparel page inserts rows without that column, so apparel rows
  never appear in the cart list (`Cart.RowsWithoutPokemonNotListed`).
- The commit guard holds only for one page lifetime. A reload starts with
  fresh flags, and nothing in storage stops a second batch of orders. Within
  one page, a failed commit cannot be retried: `processedSession` stays set
  even when `orderSaved` is released (`Success.OnlyFirstCallCounts`).

## Model

| member | source | states |
|---|---|---|
| Common.NatToStringInjective | src/pages/ApparelProductPage.tsx:55-57 | distinct ids have distinct decimal strings, so matching `id.toString()` against the route is matching the number |
| Common.RowsOfUser | src/pages/Success.tsx:46-49 | the rows selected by user id are the cart rows of that user, each as often as the table holds it, in table order |
| ProductCard.RarityColor | src/components/ProductCard.tsx:24-33 | the badge class is one of the five classes, and every unrecognised rarity gets the muted class |
| ProductCard.RarityTable | src/components/ProductCard.tsx:25-30 | each of the five rarity names, in any letter case, gets its own class |
| ProductCard.RarityCaseInsensitive | src/components/ProductCard.tsx:25 | spellings that differ only in letter case get the same class |
| ProductCard.CommonIsDefault | src/components/ProductCard.tsx:26-31 | among the recognised rarities only "common" shares the default muted class |
| ProductCard.ClickPath | src/components/ProductCard.tsx:20-22 | the route is `/product/` followed by the card id, and the id is recovered by stripping that prefix |
| ProductDetail.RarityColor | src/pages/ProductDetail.tsx:58-67 | the detail page's copy gives unrecognised rarities the muted class |
| ProductDetail.SameAsProductCard | src/pages/ProductDetail.tsx:58-67 | the copy agrees with the product card's table on every input |
| ProductDetail.MockRarityIsGold | src/pages/ProductDetail.tsx:15 | the sample product's "Ultra Rare" gets the gold class |
| ProductDetail.DetailCaseInsensitive | src/pages/ProductDetail.tsx:59 | the copy ignores letter case too |
| Listing.ImageUrl | src/pages/Cart.tsx:71 | the image URL is the base, the storage path, the key and `.jpg` |
| Listing.ImageKeyOfUrl | src/pages/AllCards.tsx:35 | the storage key is recovered from the URL built for it |
| Listing.Enrich | src/pages/AllCards.tsx:33-36 | enrichment keeps the list's length, order and every field except `image` |
| Listing.EnrichedImageKeys | src/pages/Cart.tsx:69-72 | every enriched image is the storage URL of that row's original key |
| Listing.ByCondition | src/pages/Cart.tsx:93-95 | an empty grade keeps everything; otherwise exactly the rows of that grade are kept |
| Listing.Selection | src/pages/AllCards.tsx:50-57 | the selection holds exactly the products of the chosen grade with a price in the inclusive range |
| Listing.SelectionIsSubsequence | src/pages/AllCards.tsx:48-57 | filtering keeps the products' relative order |
| Listing.ThreeStepFilter | src/pages/Cart.tsx:91-99 | the cart page's grade, lower-bound and upper-bound filters together give the selection |
| Listing.TwoStepFilter | src/pages/AllCards.tsx:48-57 | the all-cards page's grade and range filters give the same selection |
| Listing.SortInPlace | src/pages/Cart.tsx:101-107 | the sort leaves the array ordered by the comparator for the key and direction, and a permutation of what it held |
| Listing.SortedCopy | src/pages/AllCards.tsx:60-66 | the sorted list is a permutation of the filtered list, ordered by the key and direction |
| Listing.ShownIsSelection | src/pages/AllCards.tsx:47-69 | whatever the sort, the shown list holds exactly the wanted products |
| Listing.ClickHeader | src/pages/Cart.tsx:199-201 | the key becomes the clicked one; the order becomes "asc" only when the page was already sorting by that key in "desc" |
| Listing.ClickHeaderAlternates | src/pages/AllCards.tsx:141-144 | a new key starts in "desc", and repeated clicks on one header alternate the order |
| Cart.PokemonIds | src/pages/Cart.tsx:54 | the id set holds exactly the non-null `pokemon` values of the user's rows |
| Cart.CartListingContents | src/pages/Cart.tsx:28-87 | the list holds exactly the catalogue cards referenced by the user's cart rows, each with only its image rewritten |
| Cart.CartListing | src/pages/Cart.tsx:33-67 | a signed-out user, a failed or empty cart query, or a failed catalogue query give the empty list |
| Cart.RowsWithoutPokemonNotListed | src/pages/Cart.tsx:42-60 | cart rows without a `pokemon` value, such as apparel rows, are never listed |
| Cart.CheckoutNeedsListedCard | src/pages/Cart.tsx:126 | the Checkout button shows only for a signed-in user, after both queries succeeded, with a cart row referencing a catalogue card |
| Cart.CartView.constructor | src/pages/Cart.tsx:17-22 | empty lists, all grades, range 0 to 1000, no sort key, "asc" |
| Cart.CartView.FetchCart | src/pages/Cart.tsx:28-87 | both lists become the cart listing of the query outcomes |
| Cart.CartView.ApplyFilters | src/pages/Cart.tsx:90-110 | `filtered` becomes the selection when no key is set, otherwise a sorted permutation of it |
| Cart.CartView.SelectCondition | src/pages/Cart.tsx:160 | the grade filter becomes the selected grade |
| Cart.CartView.MovePriceSlider | src/pages/Cart.tsx:181 | the price range becomes the slider's two values |
| Cart.CartView.ClickPrice | src/pages/Cart.tsx:199-201 | the sort state becomes the header toggle for price |
| Cart.CartView.ClickNewlyAdded | src/pages/Cart.tsx:217-219 | the sort state becomes the header toggle for creation time |
| AllCards.AllCardsPage.constructor | src/pages/AllCards.tsx:17-22 | empty lists, all grades, range 0 to 1000, no sort key, "asc" |
| AllCards.AllCardsPage.FetchProducts | src/pages/AllCards.tsx:27-44 | on success both lists become the enriched rows; on error nothing changes |
| AllCards.AllCardsPage.ApplyFilters | src/pages/AllCards.tsx:47-69 | `filtered` becomes the selection when no key is set, otherwise a sorted permutation of it |
| AllCards.AllCardsPage.SelectCondition | src/pages/AllCards.tsx:102 | the grade filter becomes the selected grade |
| AllCards.AllCardsPage.MovePriceSlider | src/pages/AllCards.tsx:123 | the price range becomes the slider's two values |
| AllCards.AllCardsPage.ClickPrice | src/pages/AllCards.tsx:141-144 | the sort state becomes the header toggle for price |
| AllApparel.ApparelOnly | src/pages/AllApparel.tsx:27-31 | exactly the products with categories, one of which is Apparel, T-Shirts, Hoodies or Sweatshirts, are kept |
| AllApparel.ApparelOnlyKeepsOrder | src/pages/AllApparel.tsx:27-31 | the kept products stay in catalogue order |
| AllApparel.FetchApparel | src/pages/AllApparel.tsx:16-40 | a failed fetch leaves the products unchanged; a response replaces them by exactly its apparel products, in response order |
| AllApparel.Variants | src/pages/AllApparel.tsx:50-51 | the grid has one entry per variant of every product |
| AllApparel.VariantsAppend | src/pages/AllApparel.tsx:50-51 | the grid lists the variants product after product |
| AllApparel.VariantsMembership | src/pages/AllApparel.tsx:50-51 | a variant is on the grid exactly when it belongs to one of the products |
| AllApparel.ClickPath | src/pages/AllApparel.tsx:42-44 | the route is `/product/` followed by the decimal variant id |
| AllApparel.ClickPathInjective | src/pages/AllApparel.tsx:42-44 | different variants lead to different routes |
| AllApparel.TileOf | src/pages/AllApparel.tsx:59-69 | the placeholder shows exactly when the variant has no image or an empty one; otherwise the variant's image shows |
| AllApparel.Grid | src/pages/AllApparel.tsx:50-56 | one card per variant |
| AllApparel.GridCard | src/pages/AllApparel.tsx:50-56 | the k-th card is the k-th variant in product order and opens that variant's route |
| ApparelPage.FindById | src/pages/ApparelProductPage.tsx:55-59 | no product iff no id matches the route; a found product is in the catalogue and matches |
| ApparelPage.FindByIdIsFirst | src/pages/ApparelProductPage.tsx:55-57 | the product found is the first match in catalogue order |
| ApparelPage.FindByNumber | src/pages/ApparelProductPage.tsx:55-57 | the decimal form of a number finds the first product with that id |
| ApparelPage.FindByNumberMissing | src/pages/ApparelProductPage.tsx:55-59 | a number no product has finds nothing |
| ApparelPage.CountMatching | src/pages/ApparelProductPage.tsx:63-70 | the count is zero iff no row of the user has this apparel product |
| ApparelPage.RemoveMatching | src/pages/ApparelProductPage.tsx:159-164 | every matching row goes; every other row stays with its multiplicity |
| ApparelPage.RemoveIdempotent | src/pages/ApparelProductPage.tsx:159-164 | deleting twice leaves what deleting once left |
| ApparelPage.RemoveKeepsOrder | src/pages/ApparelProductPage.tsx:159-164 | the rows that stay keep their order |
| ApparelPage.AddThenRemove | src/pages/ApparelProductPage.tsx:119-164 | adding a product and then removing it equals removing it |
| ApparelPage.AddToCart | src/pages/ApparelProductPage.tsx:82-152 | with a user, a product and a zero count or the tolerated PGRST116 error, a successful insert appends one apparel row and gives Added, a failed one gives InsertFailed; the table changes iff the outcome is Added, and only by that row |
| ApparelPage.AddGuards | src/pages/ApparelProductPage.tsx:83-116 | no user, a counted existing row, or a count error other than PGRST116 leave the table unchanged |
| ApparelPage.AddKeepsAtMostOne | src/pages/ApparelProductPage.tsx:93-127 | with a working count query, adding keeps at most one row per user and product |
| ApparelPage.ToleratedCodeInsertsDuplicate | src/pages/ApparelProductPage.tsx:101-110 | with the tolerated PGRST116 error the duplicate check is skipped and a second row is inserted |
| ApparelPage.RemoveFromCart | src/pages/ApparelProductPage.tsx:154-189 | no user, no product or a failed delete leave the table unchanged; otherwise every row of the user for this apparel product is deleted |
| ApparelPage.AddAddRemove | src/pages/ApparelProductPage.tsx:82-189 | adding two products and removing the first leaves only the second's row |
| ApparelPage.ApparelProductPage.constructor | src/pages/ApparelProductPage.tsx:32-34 | no product, not in cart, not adding |
| ApparelPage.ApparelProductPage.FetchProductAndCart | src/pages/ApparelProductPage.tsx:36-80 | a missing id or failed fetch changes nothing; otherwise the product is the lookup result and, for a signed-in user, `inCart` is whether a matching row exists, false when the count answers with an error, and unchanged when the count throws |
| ApparelPage.ApparelProductPage.HandleAddToCart | src/pages/ApparelProductPage.tsx:82-152 | the table is the add result, `inCart` is set on success, a signed-out user goes to `/auth`, and the busy flag ends false |
| ApparelPage.ApparelProductPage.HandleRemoveFromCart | src/pages/ApparelProductPage.tsx:154-189 | the table is the remove result, `inCart` is cleared on success, and the busy flag ends false |
| Success.SingleDraft | src/pages/Success.tsx:33-43 | a draft is found iff the request succeeds and exactly one draft carries the session id, and then it is that draft |
| Success.OrderRecords | src/pages/Success.tsx:63-72 | one order row per cart row, in order, each with the user, session, total, draft id and that row's product id, type and size |
| Success.ClearCart | src/pages/Success.tsx:91-94 | exactly the rows of other users stay, each as often as before and in table order |
| Success.Save | src/pages/Success.tsx:21-106 | after any call the session is guarded; drafts are never written and orders are only appended |
| Success.GuardedSaveIsNoOp | src/pages/Success.tsx:23-26 | a call with `orderSaved` set or the session already processed changes nothing |
| Success.SaveRecordsSession | src/pages/Success.tsx:28-29 | a call past the guard records its session, and no path clears it |
| Success.DraftMissing | src/pages/Success.tsx:39-43 | a missing draft writes nothing and releases `orderSaved` |
| Success.EmptyCartSkips | src/pages/Success.tsx:57-60 | an empty cart writes nothing and keeps `orderSaved` set |
| Success.InsertedRecords | src/pages/Success.tsx:63-105 | a successful insert appends one order per cart row of the user, in cart order, with the fields described; a clear that succeeds leaves the cart without the user's rows, any other clear outcome leaves it as it was; `orderSaved` stays set unless the cart clear throws |
| Success.CartClearedOnlyAfterInsert | src/pages/Success.tsx:81-98 | the cart changes only after orders were inserted, and then it is the cart with the user's rows deleted (other rows kept with their multiplicity and order) |
| Success.CartFetchFailureWritesNothing | src/pages/Success.tsx:46-55 | a failed cart fetch writes nothing and releases `orderSaved` |
| Success.MissingSessionWritesNothing | src/pages/Success.tsx:63-105 | missing session data throws before the insert: nothing is written and `orderSaved` is released |
| Success.InsertFailureKeepsCart | src/pages/Success.tsx:81-86 | a failed insert keeps cart and orders and releases `orderSaved` |
| Success.ClearFailureOnlyLogged | src/pages/Success.tsx:96-98 | a clear that answers with an error keeps the cart and the inserted orders and keeps `orderSaved` set |
| Success.ClearThrowReleasesSaved | src/pages/Success.tsx:91-105 | a clear that throws keeps the cart and the inserted orders, and the `catch` releases `orderSaved` |
| Success.InsertLeavesGuard | src/pages/Success.tsx:28-29 | a call that inserted orders has recorded its session, and leaves `orderSaved` set unless the cart clear threw |
| Success.InsertsExactlyWhen | src/pages/Success.tsx:21-99 | a call inserts orders if and only if it passes the guard, finds its single draft, reads a non-empty cart, has session data and its insert succeeds |
| Success.AtMostOneBatch | src/pages/Success.tsx:17-29 | when no cart clear throws, any sequence of calls, whatever their session ids, inserts at most one batch, and none once `orderSaved` is set |
| Success.ThrownClearAllowsSecondBatch | src/pages/Success.tsx:91-105 | after a cart clear throws, a call with another session id inserts a second batch |
| Success.GuardedBatchesZero | src/pages/Success.tsx:23-26 | calls for a session that is already guarded insert nothing |
| Success.SameSessionAtMostOneBatch | src/pages/Success.tsx:19-29 | calls that share one session id insert at most one batch, whatever the outcomes |
| Success.GuardedRunIsNoOp | src/pages/Success.tsx:23-26 | once a session is guarded, further calls for it change nothing |
| Success.OnlyFirstCallCounts | src/pages/Success.tsx:19-29 | with one session id, a sequence of calls has the effect of its first call alone |
| Success.Mount | src/pages/Success.tsx:108-152 | the status leaves 'loading' only for 'error' or 'success'; the tables change only after 'success' with a user and `orderSaved` clear |
| Success.UserArrives | src/pages/Success.tsx:155-160 | status and session data are kept; the tables change only after 'success' with a user and `orderSaved` clear |
| Success.FailedVerificationSavesNothing | src/pages/Success.tsx:123-131 | a failed or unsuccessful verification gives 'error' and changes nothing else |
| Success.StepIsOneSave | src/pages/Success.tsx:136-158 | each effect run commits through at most one call of the save routine |
| Success.PageAtMostOneBatch | src/pages/Success.tsx:108-160 | however the two effects as written and their remote outcomes interleave, a page inserts at most one batch, and none once its session is guarded |
| Success.MissingSessionIdStaysLoading | src/pages/Success.tsx:148-151 | as written, a load without a session id stays 'loading' |
| Success.MountIntended | src/pages/Success.tsx:110-115 | a missing session id gives 'error' and changes nothing else; the status never returns to 'loading'; the tables change only after 'success' with a user and `orderSaved` clear |
| Success.IntendedMountSettles | src/pages/Success.tsx:110-152 | with the intended branch a fresh page always leaves 'loading' and commits exactly as the written effect |
| Success.SuccessPage.constructor | src/pages/Success.tsx:12-19 | status 'loading', no session data, both flags clear |
| Success.SuccessPage.SaveOrderToDatabase | src/pages/Success.tsx:21-106 | the step-by-step routine has the effect of `Save` on flags and tables |
| Success.SuccessPage.VerifyPaymentEffect | src/pages/Success.tsx:108-152 | the mount effect as written has the effect of `Mount` |
| Success.SuccessPage.UserEffect | src/pages/Success.tsx:155-160 | the user effect has the effect of `UserArrives` |

## Left out

- Remote services are parameters: the database, storage, serverless
  functions, the payment processor and the print-on-demand API. The model
  does not say how they answer. A call that throws has the same effect as
  one that answers with an error, except two calls whose throw is modelled
  as its own outcome: the cart clear of the order commit, and the in-cart
  count of `fetchProductAndCart`, whose error answer sets `inCart` to false
  while its throw leaves `inCart` as it was.
- Asynchronous interleaving inside one handler is left out. Each handler or
  effect runs as one step, and events on the `Success` page are whole effect
  runs, applied in sequence.
- Success.AtMostOneBatch: holds only when no cart clear throws. A throw
  there reaches the `catch`, which releases `orderSaved` after the orders
  were inserted, so a call for another session id can insert again
  (`Success.ThrownClearAllowsSecondBatch`). On one page the session id is
  fixed, and `Success.PageAtMostOneBatch` holds with no such condition.
- Success.OrderRecords: `total_amount` is kept as the session's integer
  cents. The division by 100 into a floating-point amount is left out, and
  so is `purchased_at`, which is read from the clock.
- Listing.KeyOf: `created_at` is an integer timestamp. Date parsing and
  invalid dates are left out.
- Prices are exact reals. NaN slider bounds are left out, so
  the cart page's `isNaN` checks always pass in the model.
- Listing.SortInPlace: proves the order and the permutation. It does not
  state that the sort is stable (JavaScript's sort is).
- Common.ToLower: lower-cases ASCII letters only, not full Unicode.
- Cart.CartListing: the `.in` query's rows come back in catalogue order.
  The database's actual row order is not modelled.
- ApparelPage.AddToCart: the count query's `.limit(1)` is left out. It does
  not change an exact head count.
- ApparelPage.ApparelProductPage.HandleAddToCart: the busy flag's `true`
  while the request is pending is not observable in a one-step handler, and
  neither are toasts. The `is_ignored` field that disables the button is
  carried but not used.
- Loading overlays, toasts, console logging, navigation other than the
  routes named above, image zoom, and the pure presentation components are
  not part of this model.
- `Checkout.tsx`, `server.js`, the authentication provider and sign-in page
  are not part of this model.

## Findings

| source | as written | input that shows it | evidently intended | confidence | as-written member | corrected member |
|---|---|---|---|---|---|---|
| src/pages/Success.tsx:148-151 | the mount effect calls `verifyPayment` only for a present `session_id`, so its 'error' branch for a missing id (lines 112-115) never runs | opening the confirmation page with no `session_id` (or an empty one) leaves "Verifying Payment..." on screen forever | a missing session id shows the 'error' view | medium, not executed | Success.MissingSessionIdStaysLoading | Success.IntendedMountSettles |

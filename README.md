# e_mart storefront core in Dafny

This project models the behavioural core of the e_mart storefront, a Django REST backend with a Next.js frontend, and proves properties of the model. It covers two groups of code.

- **Cart, wishlist and session state, on both sides of the wire.**
  - The client store (`frontend/store/useStore.ts`) is the class `Store.StoreState`. It holds a local cart and wishlist keyed by product id, the auth flags, and the persisted projection.
  - The server cart handlers (`backend/api/views.py`) are the class `CartViews.CartTable`. It maps each cart code to its items, kept in one fixed order.
  - Slug and sale-price logic of the models is in `Catalog`. Sign-up validation, username derivation and cart totals of the serializers are in `Serializers`. The unique-name loop both of them use is `Naming.FirstFree`.
- **Decision and string functions used for access and display.**
  - The API client (`frontend/lib/api.ts`) is split in two. `Cookies` covers cookie-string parsing and the cookie jar. `Api` covers the token refresh, the retry-once policy of `request`, response shaping, logout and query building.
  - The edge middleware is `Middleware`.
  - The render decision of the protected route is `ProtectedRoute`.
  - The image-URL join is `Image`. Its test script is `ImageUrlScript`.
  - The error classifier is `ErrorHandler`.
  - The product filter is `Filters`.

The environment is passed in as parameters:

- **Network.** Fetch results come from an oracle `Api.Server` that answers the n-th fetch of the client. Each fetch is appended to `Api.Client.sent`.
- **Cookies.** The cookie jar is a sequence of name/value pairs in creation order. `document.cookie` is rendered from it.
- **Other inputs.** `navigator.onLine`, Django's `slugify`, the `URL` origin parser and `URLSearchParams` encoding are parameters. So is the set of slugs or usernames already stored.

Prices are exact decimals (`real`).

The client store's cart operations are purely local. The code has no server reconciliation of the client cart and no anonymous cart identifier, even though these are described elsewhere for the system. The model follows the code.

`Api.Token` is the jar's value for a cookie name. `Api.Client.GetToken` reads it by parsing `document.cookie` through `Cookies.GetCookie`. `Cookies.ReadBack` proves the parse returns that value for every valid jar, meaning one cookie per name, names that are tokens, and values as a browser stores them: no ';' and no space or tab at either end. Every `Api.Client` method keeps the jar valid.

## Model

| member | source | states |
|---|---|---|
| Naming.NatToStringInjective | backend/api/models.py:52 | Distinct counters render as distinct decimal strings, so each suffixed name the loop tries is a new name |
| Naming.FirstFree | backend/api/models.py:49-54 | The name returned is not taken, and it is the first free one among base, base+sep+"1", base+sep+"2", and so on |
| Catalog.SalePrice | backend/api/models.py:94-98 | The sale-price rule. The three lemmas below state its cases and bounds |
| Catalog.SalePriceOfDiscount | backend/api/models.py:94-96 | With a positive discount, sale price = price × (100 − discount) / 100 |
| Catalog.SalePriceWithoutDiscount | backend/api/models.py:97-98 | With discount ≤ 0 the sale price is the price |
| Catalog.SalePriceBounds | backend/api/models.py:94-98 | For price ≥ 0 and 0 ≤ discount ≤ 100, 0 ≤ sale price ≤ price |
| Catalog.SalePriceAntitone | backend/api/models.py:94-96 | A larger discount never gives a larger sale price |
| Catalog.Category.Save | backend/api/models.py:46-55 | A non-empty slug is kept. An empty one becomes the first free slugify(name), slugify(name)-1, … not among the stored slugs. The name is unchanged |
| Catalog.Product.Save | backend/api/models.py:83-100 | The same slug rule, and the sale price recomputed from price and discount on every save |
| Catalog.WishlistItemTable.Insert | backend/api/models.py:127-133 | A (wishlist, product) pair is inserted exactly when it is absent. The table never holds a pair twice |
| Serializers.ValidatePasswordField | backend/api/serializers.py:19-20 | One `CharField(min_length=6)` with DRF's defaults. Input that is empty or all whitespace gets "This field may not be blank." alone. Otherwise the input is trimmed and every validator runs on the result. A trimmed text under 6 characters gets the min-length message, and one holding a NUL gets "Null characters are not allowed.", both in that order when both fail. The field is accepted exactly when neither fails, and the validated value is the trimmed text |
| Serializers.BlankIsAllSpace | backend/api/serializers.py:19-20 | A value counts as blank exactly when it is empty or all of its characters are whitespace |
| Serializers.ValidateSignUp | backend/api/serializers.py:18-29 | Accepts exactly when both trimmed passwords have at least 6 characters, hold no NUL and are equal, and returns the trimmed values. A blank field gets the blank error, a short one the min-length error and one holding a NUL the null-character error, each under its own name. Two valid but different passwords give the "Passwords do not match" error on `password` |
| Serializers.TrailingSpaceConfirms | backend/api/serializers.py:19-28 | "abcdef " confirms "abcdef": both are stored as "abcdef" |
| Serializers.PaddedShortPasswordTooShort | backend/api/serializers.py:19 | A 3-character password padded with spaces, as in "   abc   ", fails the length test |
| Serializers.SpacesAreBlank | backend/api/serializers.py:19 | A password of spaces only gets the blank error first |
| Serializers.NullCharacterRejected | backend/api/serializers.py:19-20 | "abcdef" followed by a NUL, in both fields, is refused with the null-character error on each field and no other |
| Serializers.ShortWithNullGetsBoth | backend/api/serializers.py:19 | "ab" followed by a NUL gets both the min-length and the null-character message, in that order |
| Serializers.BaseUsername | backend/api/serializers.py:37 | The result is the prefix of the email before its first '@' (all of it without one), and holds no '@' |
| Serializers.Create | backend/api/serializers.py:31-51 | Both password keys are removed from the stored fields and the password is kept. The username is free and is the first free one of base, base+"1", base+"2", … |
| Serializers.CartTotalAppend | backend/api/serializers.py:115-116 | The cart total of two item lists concatenated is the sum of their totals |
| Serializers.TotalQuantityAppend | backend/api/serializers.py:125-126 | The total quantity of two item lists concatenated is the sum of their totals |
| Serializers.CartTotalIsSumOfSubTotals | backend/api/serializers.py:103-116 | The cart total is 0 for no items and otherwise the first line's sub-total plus the rest |
| Serializers.TotalsOfPositiveItems | backend/api/serializers.py:115-126 | With positive quantities and non-negative prices the total is non-negative and the quantity at least the number of items |
| CartViews.IndexOf | backend/api/views.py:271 | The position found holds the product, and no earlier item does. The cart length means it has no item |
| CartViews.AddLineEffect | backend/api/views.py:203-212 | Adding q keeps one item per product with positive quantities. That product's quantity grows by q. Every other product's quantity is unchanged |
| CartViews.SetLineEffect | backend/api/views.py:317-318 | Setting a positive quantity keeps the invariant and changes only that product's quantity |
| CartViews.DeleteLineEffect | backend/api/views.py:272 | Deleting the item keeps the invariant, drops that product, and leaves every other product's quantity unchanged |
| CartViews.AddLineTotals | backend/api/views.py:203-216 | After an add of q, the reported total quantity grows by q and the cart total by q × sale price |
| CartViews.TotalQuantityUpdate | backend/api/serializers.py:115-126 | Replacing one item changes the totals by exactly the difference of that item |
| CartViews.CartTable.AddToCart | backend/api/views.py:172-216 | A missing code or product id, a non-integer quantity, or a quantity ≤ 0 gives 400 and no change. Otherwise the cart is created first, so an unknown product gives 404 with the new empty cart. A known product is added by AddLine and the serialized cart is returned |
| CartViews.CartTable.GetCart | backend/api/views.py:227-241 | Read-only. 400 without a code, 404 for an unknown one. Otherwise 200 with the serialized cart: each item's product id, quantity and sub-total (sale price × quantity), in the table's order, and the cart total |
| CartViews.CartTable.RemoveFromCart | backend/api/views.py:257-275 | 400 on a missing field. 404 for an unknown cart or an absent item. Otherwise only that item is deleted |
| CartViews.CartTable.UpdateCartItem | backend/api/views.py:292-321 | 400 on a missing field or a non-integer quantity. 404 for an unknown cart or item. Quantity ≤ 0 deletes the item, otherwise the quantity is set exactly |
| CartViews.CartTable.ClearCart | backend/api/views.py:336-352 | 400 without a code, 404 for an unknown cart. Otherwise the cart stays, with no items and a total of 0 |
| Filters.Apply | backend/api/filters.py:4-8 | The result is exactly the products that match every given filter |
| Filters.ApplyAppend | backend/api/filters.py:4-8 | Filtering keeps the order: it distributes over concatenation |
| Filters.PriceBoundsInclusive | backend/api/filters.py:5-6 | Every result lies within the given sale-price bounds. Both bounds are inclusive: a product priced exactly m passes min_price=m and max_price=m alike |
| Filters.PriceIgnored | backend/api/filters.py:5-6 | The list price never affects the outcome, only the sale price does |
| Filters.CategoryExactly | backend/api/filters.py:7 | The category filter keeps exactly the products whose category slug equals the parameter |
| Filters.FeaturedExactly | backend/api/filters.py:8 | The featured filter keeps exactly the products whose flag equals the parameter |
| Filters.NoParamsKeepsAll | backend/api/filters.py:4-12 | Without parameters every product is kept, in order |
| Store.MapQuantity | frontend/store/useStore.ts:57-61 | Index by index: the item with the id gets the new or added quantity, all others are unchanged |
| Store.Without | frontend/store/useStore.ts:70-74 | No item with the id remains. Every other item is kept |
| Store.AddedEffect | frontend/store/useStore.ts:52-68 | An absent id appends one item with the quantity. A present one keeps the length and adds the quantity to that item only |
| Store.AddedKeepsDistinct | frontend/store/useStore.ts:54-66 | Adding preserves pairwise-distinct cart ids |
| Store.AddedTwice | frontend/store/useStore.ts:54-66 | Adding a product with q1 and then q2 leaves a single item for it with quantity q1 + q2 |
| Store.WithoutAt | frontend/store/useStore.ts:70-74 | With distinct ids, removing the item at k keeps the items before and after it, in order |
| Store.WithoutAbsent | frontend/store/useStore.ts:70-74 | Removing an absent id leaves the cart unchanged |
| Store.UpdatedEffect | frontend/store/useStore.ts:76-86 | A quantity below 1 is exactly removeFromCart. Otherwise only that item's quantity is set. An absent id changes nothing |
| Store.TotalAppend | frontend/store/useStore.ts:92-94 | The cart total of two carts concatenated is the sum of their totals |
| Store.TotalAddedAbsent | frontend/store/useStore.ts:52-68 | Adding an absent product raises the total by its sale price × quantity |
| Store.TotalAddedPresent | frontend/store/useStore.ts:52-68 | Adding a present product raises the total by its sale price × quantity |
| Store.TotalNonNegative | frontend/store/useStore.ts:92-94 | With positive quantities and non-negative sale prices the total is non-negative |
| Store.SetAsWritten | frontend/store/useStore.ts:47-94 | As written, a `set` turns `cartTotal` into a plain number: the total as it was before that update, whatever the cart becomes |
| Store.CartTotalStaleAfterAdd | frontend/store/useStore.ts:52-94 | As written, after the first addToCart on the empty store `cartTotal` reads 0 though the cart holds an item of positive price, and every later `set` keeps that 0 |
| Store.ReadTotalInMerge | frontend/store/useStore.ts:92-94 | Reading `cartTotal` during persist's merge: a frozen number reads as itself. The getter fails exactly when the store has no state yet, and otherwise gives the total of the stored cart |
| Store.HydrateAsWritten | frontend/store/useStore.ts:48-266 | Rehydration as written leaves the state as it was or replaces it with the saved fields. When reading `cartTotal` fails, the state is the creator's |
| Store.FirstHydrateRestoresNothing | frontend/store/useStore.ts:48-266 | As written, the first hydrate leaves the store at the creator's state, so any saved state that differs from it is lost |
| Store.LaterHydrateRestores | frontend/store/useStore.ts:257-265 | Once the store has a state, rehydrating restores the saved fields |
| Store.WishedEffect | frontend/store/useStore.ts:98-107 | Afterwards the id is listed. Adding is idempotent and never duplicates an id |
| Store.UnwishedEffect | frontend/store/useStore.ts:109-113 | Afterwards the id is not listed. Other products are kept |
| Store.FailureMessage | frontend/store/useStore.ts:145-159 | The response's non-empty error, else the fallback; for a thrown Error its message, else the network message |
| Store.StoreState.AddToCart | frontend/store/useStore.ts:52-68 | The cart becomes Added(cart, product, quantity). Nothing else changes. For an absent product the total grows by sale price × quantity |
| Store.StoreState.RemoveFromCart | frontend/store/useStore.ts:70-74 | The cart becomes Without(cart, id). Nothing else changes |
| Store.StoreState.UpdateCartQuantity | frontend/store/useStore.ts:76-86 | The cart becomes Updated(cart, id, quantity). Nothing else changes |
| Store.StoreState.ClearCart | frontend/store/useStore.ts:88-90 | The cart is empty and its total 0. Nothing else changes |
| Store.StoreState.CartTotal | frontend/store/useStore.ts:92-94 | The corrected getter: the sum of sale price × quantity over the current cart at every read. It is 0 for an empty cart and non-negative for positive quantities and non-negative prices |
| Store.StoreState.AddToWishlist | frontend/store/useStore.ts:98-107 | The wishlist becomes Wished(wishlist, product). Nothing else changes |
| Store.StoreState.RemoveFromWishlist | frontend/store/useStore.ts:109-113 | The wishlist becomes Unwished(wishlist, id). Nothing else changes |
| Store.StoreState.ClearError | frontend/store/useStore.ts:253-255 | The error becomes null. Nothing else changes |
| Store.StoreState.Partialize | frontend/store/useStore.ts:259-264 | The persisted projection: cart, wishlist, user and isLoggedIn. Store.StoreState.Reload states what it restores |
| Store.StoreState.IsInWishlist | frontend/store/useStore.ts:115-117 | True exactly when some wishlist product has the id |
| Store.StoreState.Login | frontend/store/useStore.ts:126-161 | Success ends signed in with the user, no error, not loading. Failure keeps user and isLoggedIn and sets the response error or the fixed login message |
| Store.StoreState.Signup | frontend/store/useStore.ts:178-213 | The same transitions as login, with the sign-up fallback message |
| Store.StoreState.Logout | frontend/store/useStore.ts:163-176 | Whatever the API did, the store ends with no user, signed out, not loading and no error. Cart and wishlist are untouched |
| Store.StoreState.InitializeAuth | frontend/store/useStore.ts:215-251 | Every path ends checked and not loading. Signed in exactly when a token exists and the current-user call succeeds |
| Store.StoreState.Reload | frontend/store/useStore.ts:257-265 | For the corrected store, whose `cartTotal` does not fail during the merge: persisting and reloading restores cart, wishlist, user and isLoggedIn. isLoading, isAuthChecked and error start over |
| Cookies.Split | frontend/lib/api.ts:35 | At least one part, and no part contains the separator |
| Cookies.SplitJoin | frontend/lib/api.ts:35 | Splitting parts joined by the separator gives the parts back |
| Cookies.GetCookie | frontend/lib/api.ts:31-46 | Nothing without a window. Otherwise the text after the prefix in the first segment that starts with it once its leading spaces are stripped, or nothing |
| Cookies.SetEffect | frontend/lib/api.ts:65-72 | Writing a cookie keeps the jar valid. That name then looks up to the new value, and every other name is unchanged |
| Cookies.DeleteEffect | frontend/lib/api.ts:74-78 | Expiring a cookie keeps the jar valid. That name then looks up to nothing, and every other name is unchanged |
| Cookies.ReadBack | frontend/lib/api.ts:48-63 | Parsing `document.cookie` of a valid jar for a name gives exactly the jar's value for it |
| Cookies.StoredValue | frontend/lib/api.ts:70-71 | The value a browser stores for `name=raw; expires=…`: raw up to its first ';', with spaces and tabs removed from both ends (section 5.2 of RFC 6265). It has no ';' and no space or tab at either end |
| Cookies.StoredValuePadded | frontend/lib/api.ts:70-71 | Spaces and tabs around a value are not stored: the padded value stores as the bare value |
| Api.WithTokensEffect | frontend/lib/api.ts:65-72 | After setTokens both tokens read back as the browser stored them, cut at ';' and with surrounding spaces and tabs removed, and the jar stays valid |
| Api.WithoutTokensEffect | frontend/lib/api.ts:74-78 | After clearTokens neither token is found, and the jar stays valid |
| Api.RefreshWithoutToken | frontend/lib/api.ts:81-82 | Without a refresh token: false, no network call, no change |
| Api.RefreshWithToken | frontend/lib/api.ts:84-102 | One call to the refresh endpoint. Success exactly on an ok JSON response, which stores the new access token and keeps the refresh token. Any failure clears both tokens |
| Api.HeaderPrecedence | frontend/lib/api.ts:112-122 | A stored token's Authorization overrides the caller's. Caller headers override Content-Type, which defaults to JSON |
| Api.ErrorText | frontend/lib/api.ts:164 | data.error, else data.message, else data.detail, else "An error occurred" |
| Api.Shape | frontend/lib/api.ts:154-178 | Success exactly on an ok status with a parsable body. A non-JSON body reads as {}. A rejected fetch gives its Error message or "Network error occurred". A parse failure gives its message |
| Api.NonJsonErrorIsDefault | frontend/lib/api.ts:155-166 | A failed status with a non-JSON body gives "An error occurred" |
| Api.RetryOnce | frontend/lib/api.ts:124-152 | A first 401 leads to exactly one resend of the same URL, method and body, with at most the refresh call between them. Any other status leads to none. The response comes from the last fetch |
| Api.RetryCarriesNewToken | frontend/lib/api.ts:133-142 | After a 401 and a successful refresh, the retry carries "Bearer " + the new access token |
| Api.RetryWithoutToken | frontend/lib/api.ts:143-151 | After a 401 and a failed refresh, both tokens are gone and the retry has no Authorization header |
| Api.LogoutEffect | frontend/lib/api.ts:222-231 | The API is called exactly when a refresh token exists. Both tokens are always cleared afterwards |
| Api.ProductsEndpoint | frontend/lib/api.ts:296-300 | "/products/" without filters or with an empty record, else "/products/?" + the encoded filters |
| Api.RefreshOutcome | frontend/lib/api.ts:80-103 | The reference run of refreshAccessToken. It makes no call exactly when there is no refresh token, and otherwise exactly one call, to the refresh endpoint with that token. It reports success only after an ok response with a JSON body |
| Api.RequestOutcome | frontend/lib/api.ts:105-179 | The reference run of `request`. Api.RetryOnce, Api.RetryCarriesNewToken and Api.RetryWithoutToken state its properties |
| Api.Client.GetToken | frontend/lib/api.ts:31-46 | The value read from `document.cookie` is the jar's auth token, or nothing without a window |
| Api.Client.GetRefreshToken | frontend/lib/api.ts:48-63 | The value read from `document.cookie` is the jar's refresh token, or nothing without a window |
| Api.Client.SetTokens | frontend/lib/api.ts:65-72 | The jar gains both tokens as stored values, with no fetch, and stays valid |
| Api.Client.ClearTokens | frontend/lib/api.ts:74-78 | Both tokens are deleted from the jar, with no fetch, and the jar stays valid |
| Api.Client.RefreshAccessToken | frontend/lib/api.ts:80-103 | Result, jar and fetches are those of RefreshOutcome from the old state, and the jar stays valid |
| Api.Client.Request | frontend/lib/api.ts:105-179 | Response, jar and fetches are those of RequestOutcome from the old state, and the jar stays valid |
| Api.Client.Logout | frontend/lib/api.ts:222-231 | Jar and fetches are those of LogoutOutcome from the old state, and the jar stays valid |
| Api.Client.GetProducts | frontend/lib/api.ts:294-301 | The response, jar and fetches are those of a GET `request` to ProductsEndpoint(filters) |
| Api.Client.IsAuthenticated | frontend/lib/api.ts:304-306 | True exactly when the auth token is non-empty |
| Api.Client.GetAuthHeader | frontend/lib/api.ts:308-311 | A Bearer Authorization header with the token when it is non-empty, else no header |
| Middleware.Decide | frontend/middleware.ts:12-35 | The middleware's decision. Middleware.DecideCases states its three outcomes |
| Middleware.DecideCases | frontend/middleware.ts:12-35 | Redirect to sign-in exactly for a protected path without a token. Redirect home exactly for an auth route with one. Next otherwise |
| Middleware.DependsOnlyOnTruthiness | frontend/middleware.ts:14-32 | The decision depends only on the path and whether the token is non-empty |
| Middleware.NoPathInBothLists | frontend/middleware.ts:3-10 | No path starts with both a protected and an auth route |
| Middleware.PrefixMatchReachesFurther | frontend/middleware.ts:17-19 | Matching is by prefix: "/accounting" is protected too |
| ProtectedRoute.Redirect | frontend/components/auth/ProtectedRoute.tsx:16-24 | The effect's redirect target. The lemmas below state when it is sign-in, home or none |
| ProtectedRoute.Render | frontend/components/auth/ProtectedRoute.tsx:26-37 | What the component returns. The lemmas below state when it is the spinner, nothing or the children |
| ProtectedRoute.UnsettledWaits | frontend/components/auth/ProtectedRoute.tsx:17-32 | The spinner shows exactly while loading or unchecked, and no redirect happens then |
| ProtectedRoute.SignedOutGoesToSignIn | frontend/components/auth/ProtectedRoute.tsx:18-34 | Settled and signed out: nothing is rendered, and the redirect is to sign-in |
| ProtectedRoute.WrongRoleGoesHome | frontend/components/auth/ProtectedRoute.tsx:20-35 | Signed in with a role other than the required one, or with no user: nothing is rendered, and the redirect is home |
| ProtectedRoute.ChildrenExactly | frontend/components/auth/ProtectedRoute.tsx:26-37 | Children render exactly when settled, signed in, and no role is required or the user's role matches |
| ProtectedRoute.NothingIffRedirect | frontend/components/auth/ProtectedRoute.tsx:16-37 | Nothing is rendered exactly when the effect redirects |
| Image.GetImageUrl | frontend/utils/image.ts:1-15 | The image URL rule. Image.MissingPathIsPlaceholder, Image.AbsoluteUnchanged and Image.RelativeJoined state its three cases |
| Image.Join | frontend/utils/image.ts:11 | Exactly one '/' between origin and path |
| Image.MissingPathIsPlaceholder | frontend/utils/image.ts:2 | A missing or empty path gives "/assets/placeholder.png" |
| Image.AbsoluteUnchanged | frontend/utils/image.ts:4-6 | http:// and https:// URLs are returned unchanged |
| Image.RelativeJoined | frontend/utils/image.ts:8-14 | Any other path is origin + path when it starts with '/', else origin + "/" + path |
| Image.LeadingSlashIrrelevant | frontend/utils/image.ts:11 | For a relative p not starting with '/', "/" + p and p give the same URL |
| Image.UnparsableUsesFallback | frontend/utils/image.ts:13-14 | An API URL that does not parse gives the origin "http://localhost:8000" |
| Image.DefaultApiUrlParsed | frontend/utils/image.ts:7 | Without the environment variable, or with it empty, the default API URL is parsed |
| ImageUrlScript.CopyAgrees | frontend/verify_image_url.js:1-16 | The script's copy equals the utility on every input |
| ImageUrlScript.PassCountAll | frontend/verify_image_url.js:32-44 | When every case passes, the count equals the number of cases |
| ImageUrlScript.AllVectorsPass | frontend/verify_image_url.js:23-30 | With the mock API URL parsing to origin "http://localhost:8000", all six vectors pass |
| ImageUrlScript.RunTests | frontend/verify_image_url.js:32-54 | passed is the number of passing vectors, and the exit code is 0 exactly when all pass, else 1. Under that parser it is 6 and 0 |
| ErrorHandler.HandleApiError | frontend/lib/errorHandler.ts:20-121 | Throws exactly when online and the value is null or undefined |
| ErrorHandler.OfflineIsNetworkError | frontend/lib/errorHandler.ts:22-28 | Offline, every value gives NETWORK_ERROR with status 0 |
| ErrorHandler.TypeErrorIsNetworkError | frontend/lib/errorHandler.ts:31-37 | Online, a TypeError gives NETWORK_ERROR with status 0 |
| ErrorHandler.StatusCodes | frontend/lib/errorHandler.ts:40-97 | The status table: 400 BAD_REQUEST through 503 SERVICE_UNAVAILABLE |
| ErrorHandler.StatusDecides | frontend/lib/errorHandler.ts:40-104 | A truthy status decides the result through the table and is its status |
| ErrorHandler.MessageRules | frontend/lib/errorHandler.ts:42-97 | Only 400 and 409 keep a non-empty caller message. The other listed statuses always use their fixed message |
| ErrorHandler.DetailsRules | frontend/lib/errorHandler.ts:42-97 | details are carried for 400 and 422 only |
| ErrorHandler.UnlistedStatus | frontend/lib/errorHandler.ts:98-103 | Any other truthy status gives API_ERROR with that status |
| ErrorHandler.NoStatus | frontend/lib/errorHandler.ts:108-120 | Without a status, an Error gives UNKNOWN_ERROR/500 with its message or the default. Anything else gives the fixed text |
| ErrorHandler.GetErrorMessage | frontend/lib/errorHandler.ts:123-126 | The message of the handled error, throwing exactly when handleApiError does |
| ErrorHandler.IsNetworkError | frontend/lib/errorHandler.ts:128-130 | Throws exactly when online and the value is null or undefined |
| ErrorHandler.IsAuthError | frontend/lib/errorHandler.ts:132-134 | Throws exactly when the value is null or undefined |
| ErrorHandler.IsValidationError | frontend/lib/errorHandler.ts:136-138 | Throws exactly when the value is null or undefined |
| ErrorHandler.PredicatesExactly | frontend/lib/errorHandler.ts:128-138 | isAuthError iff status 401 or code UNAUTHORIZED. isValidationError iff 422 or VALIDATION_ERROR. isNetworkError online iff TypeError or code NETWORK_ERROR |
| ErrorHandler.HandledErrorsClassify | frontend/lib/errorHandler.ts:20-138 | Classifying a handled error agrees with its origin: auth iff status 401, validation iff 422, network iff offline or a TypeError |

## Left out

- Prices are exact: DecimalField rounding to two places, `float()` in `get_sub_total` and JavaScript floating point are not modelled.
- `decodeURIComponent` in the cookie lookup is not modelled: values are stored decoded.
- Cookie attributes (expiry dates, `path`, `SameSite`) are not modelled. Setting a cookie stores it, and expiring one deletes it. No cookie outside the jar is modelled.
- `Api.Client.GetToken` requires the jar invariant. That invariant is the cookie-jar validity every `Api.Client` operation keeps. Arbitrary `document.cookie` strings are covered only by `Cookies.GetCookie`.
- The `cart_code` column's `max_length=11` is not modelled, because the handlers never check it. Cart codes are unique because they are the keys of `CartViews.CartTable.carts`.
- Product ids are integers. The string ids the request body could carry are not modelled.
- Quantities are `QuantityArg` values as `int()` sees them. Python's conversion rules themselves are outside the model.
- DRF ordering, search and pagination, and the parsing of invalid filter values, are not modelled.
- `CartViews.CartTable.GetCart`: `CartItem` declares no ordering (backend/api/models.py:111-114), so the database may return a cart's items in any order. The model keeps them in one fixed order, the order they were added in, and the serialized items follow it.
- `Serializers.ValidatePasswordField`: DRF's `ProhibitSurrogateCharactersValidator` is not modelled. A Dafny string holds Unicode scalar values only, so a lone surrogate code point cannot occur in it.
- `Store.StoreState.Reload` models rehydration of the corrected store. As written, the first hydrate fails on the `cartTotal` getter and restores nothing: see `Store.FirstHydrateRestoresNothing` and "## Findings".
- `Serializers.ValidateSignUp` passes email, first_name and last_name through unchanged. DRF's trimming, blank checks and email format check on those model fields are not modelled, and neither are missing or null fields.
- The JWT issue and verification behind the auth endpoints is not modelled. Neither are the server-side logout and profile endpoints.
- The asynchrony of the client is not modelled. Each await is one step, so interleaved store updates are not captured.
- The API client's login, signup, getCurrentUser, profile, password, order, review and category endpoint wrappers are not modelled. Each is a single `request`, so `Api.Client.Request` covers it. The token storing of login and signup is `Api.Client.SetTokens`.
- The `AppError` class is not modelled, because nothing in the core constructs one.
- Email and name validation of the user model, and password hashing, are not modelled.
- Console output of the test script is not modelled.
- `Store.StoreState.Logout` takes the outcome of the API call as a flag only, because the store ignores it. The client-side effect of that call is `Api.Client.Logout`.
- `ErrorHandler.HandleApiError`: a non-numeric truthy `status`, which the `switch` would send to the default branch, is not modelled. Statuses are integers.

## Findings

| source | as written | input that shows it | evidently intended | confidence | as-written member | corrected member |
|---|---|---|---|---|---|---|
| frontend/store/useStore.ts:92-94 | `cartTotal` is a getter on the object the store creator returns. zustand's `set` builds each next state with `Object.assign({}, state, partial)`. That reads the getter once and stores the result as a plain number, computed from `get()`, which is still the state before the update. persist runs its first hydrate inside the store creator, while `get()` is still undefined. Its merge spreads the creator's result, the spread reads the getter, and `get().cart` throws a TypeError. The `.catch` of persist's chain swallows it, so nothing saved is restored | On the empty initial store, `addToCart(p, 1)` with `p.salePrice = 10`: the cart then totals 10 but `cartTotal` reads 0, and it stays 0 through every later update. After a reload, a saved cart of one item comes back empty | `cartTotal` is the sum of sale price × quantity over the current cart at every read, and a reload restores the persisted fields | high; not executed | Store.SetAsWritten, Store.CartTotalStaleAfterAdd, Store.HydrateAsWritten, Store.FirstHydrateRestoresNothing | Store.StoreState.CartTotal, Store.StoreState.AddToCart, Store.StoreState.Reload |

# GenCart storefront: a Dafny model of its page logic

GenCart is a single-page storefront. It has a catalogue landing page with a hero
slider and a category filter, a product page, a cart with a three-step checkout
(cart, delivery address, payment), an order-tracking page, a seller dashboard
for bulk product upload, a sign-in/sign-up page, a chat widget, a session store
and a small REST client. Almost all of the code is markup. Under the markup sit
small pieces of sequential logic, and this project states each of them as pure
functions and small state machines over immutable records, then proves the
properties the pages rely on:

- the checkout wizard's address validator, its step transitions, the order
  record it posts, and the fact that it "degrades to success";
- normalisation of loose backend product records, and the fallback to the mock
  catalogue;
- the case-insensitive category filter and the wrap-around slider;
- the cart badge and the category links;
- the dashboard's row list and its comma-separated image parsing;
- stock and discount badges;
- the simulated order-status timeline;
- the chat history;
- the login/register mode machine;
- the session token;
- the REST client's error text and bearer-header rule.

The layout follows the source, with one module per source file:

- `CartPage`, `HomePage`, `ProductDetailPage`, `AdminPage`, `OrderTrackingPage`
  and `LoginPage` model the pages;
- `Navbar`, `ProductCard` and `AIAssistant` model the components;
- `AuthContext` models the session store;
- `Api` models the REST client.

The helper modules are:

- `Base` for `Option` and JavaScript truthiness and `||` defaults;
- `Strings` for ECMAScript `trim`, and for `split`/`join` on one character;
- `Seqs` for `filter`, `map` and `find`;
- `Types` for the records of `types.ts`;
- `Catalog` for the raw backend record shapes that both catalogue pages resolve
  the same way.

The cart store is not part of this model. Cart lines and `totalAmount` are
therefore inputs, and calls into the store (`addToCart`, `clearCart`) and into
the router are returned as `Effect` values.

Awaited requests are `Settled` values, either resolved or rejected with an
`HttpError`. A page handler then becomes one function from the state before the
click and the settled request to the state after it. Three things the browser
would supply are parameters instead:

- randomness: the order-id suffix, and the rating and review-count draws;
- the clock: `createdAt`, and the milliseconds elapsed on the tracking page;
- the page's `window.location` protocol and hash.

## Model

| member | source | states |
|---|---|---|
| `Api.HandleApiError` | gencart---next-gen-e-commerce/services/api.ts:23-31 | The result is never empty. With no response, it is the security-block text on an `https:` page and the server-unreachable text otherwise. With a response, it is the server's `message` verbatim when that is truthy, else the generic server-error text. |
| `Api.AttachBearer` | gencart---next-gen-e-commerce/services/api.ts:15-21 | `Authorization: Bearer <token>` is present iff a truthy token is stored. Every other header keeps its presence and value. Without a truthy token, the headers are returned unchanged. |
| `AuthContext.Start` | gencart---next-gen-e-commerce/context/AuthContext.tsx:18-19 | The provider mounts with the stored token in state and no user. So a truthy stored token is authenticated while the user is still null. |
| `AuthContext.Login` | gencart---next-gen-e-commerce/context/AuthContext.tsx:21-27 | On success, the response's token goes to state and the user comes from the response. Storage gets that token, or the text `undefined` when the response has none. It is authenticated iff the token is present and non-empty. A rejected request changes nothing. |
| `AuthContext.Register` | gencart---next-gen-e-commerce/context/AuthContext.tsx:29-31 | Registration leaves the token, the user and the stored token as they were, whatever the outcome. |
| `AuthContext.Logout` | gencart---next-gen-e-commerce/context/AuthContext.tsx:33-37 | The stored token, the token and the user are all cleared, so the session is no longer authenticated. |
| `AuthContext.RunKeepsTokenStored` | gencart---next-gen-e-commerce/context/AuthContext.tsx:21-37 | Over any sequence of logins, registrations and logouts, a token held in state is the stored token. |
| `AuthContext.RunKeepsSynced` | gencart---next-gen-e-commerce/context/AuthContext.tsx:21-37 | When every successful login answers with a token, the token in state equals the stored token over the whole run. |
| `AuthContext.AuthenticatedSendsBearer` | gencart---next-gen-e-commerce/context/AuthContext.tsx:18-46 | After any run from mount, a signed-in session makes the request interceptor send a bearer header carrying the session's token. |
| `AuthContext.AuthenticatedIffBearerSent` | gencart---next-gen-e-commerce/context/AuthContext.tsx:18-46 | When every successful login answers with a token, after any run from mount `isAuthenticated` holds iff the request interceptor sends a bearer header, and that header carries the session's token. |
| `AuthContext.TokenlessLoginSendsUndefined` | gencart---next-gen-e-commerce/context/AuthContext.tsx:21-27 | A login answer without a token leaves the session signed out and out of step with storage, while the interceptor sends `Bearer undefined`. |
| `LoginPage.Submit` | gencart---next-gen-e-commerce/pages/Login.tsx:18-37 | The error is empty afterwards iff the awaited call succeeded. A successful login navigates to `/` with the session from `login`. A successful registration switches to login mode, raises the success alert, does not navigate and leaves the session alone. A failure shows the server's message or the fixed default and raises no alert. Loading is false on every path, and the form fields are kept. |
| `LoginPage.ToggleMode` | gencart---next-gen-e-commerce/pages/Login.tsx:108 | The link flips the mode and changes nothing else. |
| `AIAssistant.ReplyText` | gencart---next-gen-e-commerce/components/AIAssistant.tsx:29-34 | The appended model text is never empty. It is the reply when truthy, the fixed fallback for an empty reply, and the fixed apology for a failed call. |
| `AIAssistant.Send` | gencart---next-gen-e-commerce/components/AIAssistant.tsx:21-37 | A blank message or a request in flight makes it a no-op. Otherwise exactly two entries are appended: the trimmed user text, then the model text. The input is cleared and loading ends false. The earlier history is a prefix of the new one. |
| `AIAssistant.AppendTurnKeepsWellFormed` | gencart---next-gen-e-commerce/components/AIAssistant.tsx:26-33 | One trimmed, non-blank user turn followed by one non-empty model turn keeps a well-formed history well formed. |
| `AIAssistant.SendKeepsWellFormed` | gencart---next-gen-e-commerce/components/AIAssistant.tsx:9-37 | Sending keeps the history well formed: the greeting first, then user and model turns alternating, user turns trimmed and non-blank, model turns non-empty. |
| `AIAssistant.RunAppendOnly` | gencart---next-gen-e-commerce/components/AIAssistant.tsx:21-37 | Over any sequence of typing and sending from a well-formed history, the history stays well formed, only grows, and never alters an entry already shown. |
| `AIAssistant.InitialRunWellFormed` | gencart---next-gen-e-commerce/components/AIAssistant.tsx:8-37 | The chat opens on the greeting alone, which is well formed. So after any run from there the history is well formed and still starts with the greeting. |
| `Navbar.CartCount` | gencart---next-gen-e-commerce/components/Navbar.tsx:16 | The badge count sums the quantities of the lines. With no negative quantity it is never negative and no line's quantity exceeds it. |
| `Navbar.CartCountConcat` | gencart---next-gen-e-commerce/components/Navbar.tsx:16 | The badge count of two runs of lines is the sum of their counts, so it counts units, however they are split into lines. |
| `Navbar.CartCountCountsUnits` | gencart---next-gen-e-commerce/components/Navbar.tsx:16 | When every line holds at least one unit, the count is at least the number of lines. It equals that number iff every line holds exactly one unit. |
| `Navbar.BadgeIffNonEmptyCart` | gencart---next-gen-e-commerce/components/Navbar.tsx:81 | When every line holds a positive quantity, the badge shows iff the cart has a line. |
| `Navbar.CategoryClick` | gencart---next-gen-e-commerce/components/Navbar.tsx:20-32 | Clicking the active category clears the filter, and any other category replaces it. The bar navigates home iff the hash is not exactly `#/`. |
| `Navbar.AllProducts` | gencart---next-gen-e-commerce/components/Navbar.tsx:100-104 | "All Products" leaves no category filter, whatever was active. |
| `Navbar.ClickTwice` | gencart---next-gen-e-commerce/components/Navbar.tsx:22-26 | Two clicks on the same category restore the filter iff the first click started from no filter or from that very category. |
| `AdminPage.SetField` | gencart---next-gen-e-commerce/pages/Admin.tsx:35 | The named field takes the new text and every other field keeps its own. |
| `AdminPage.Change` | gencart---next-gen-e-commerce/pages/Admin.tsx:32-37 | Only the named field of row `index` changes. Every other row and every other field is kept, and the row count is unchanged. |
| `AdminPage.AddRow` | gencart---next-gen-e-commerce/pages/Admin.tsx:39-41 | Exactly one blank row is appended, and the existing rows are a prefix of the result. |
| `AdminPage.DropIndex` | gencart---next-gen-e-commerce/pages/Admin.tsx:45 | Filtering by index removes exactly row `index`, and the rest keep their order. An index out of range removes nothing. |
| `AdminPage.RemoveRow` | gencart---next-gen-e-commerce/pages/Admin.tsx:43-46 | It is a no-op while a single row is left. Otherwise exactly row `index` goes and the others keep their relative order. |
| `AdminPage.ParseImages` | gencart---next-gen-e-commerce/pages/Admin.tsx:59 | Every parsed image entry is non-empty, has no edge white space and has no comma. |
| `AdminPage.ParseImagesAround` | gencart---next-gen-e-commerce/pages/Admin.tsx:59 | The entries of `a,b` are the entries of `a` followed by those of `b`, so the non-empty pieces keep their order. |
| `AdminPage.ParseImagesEmpty` | gencart---next-gen-e-commerce/pages/Admin.tsx:59 | An empty image field gives no image entry. |
| `AdminPage.ParseImagesJoin` | gencart---next-gen-e-commerce/pages/Admin.tsx:59 | A list of URLs, typed comma-separated, is parsed back to the same list, provided no URL is empty, has edge white space or contains a comma. The empty list gives the empty field and back. |
| `AdminPage.Payload` | gencart---next-gen-e-commerce/pages/Admin.tsx:52-60 | There is one payload entry per row, in row order. Each entry copies the row's text fields and carries the parsed image list. |
| `AdminPage.Submit` | gencart---next-gen-e-commerce/pages/Admin.tsx:48-78 | Success resets to a single blank row, reports the server's count and marks the server up. Failure keeps the rows, reports `handleApiError`'s text and marks the server down. Loading is false afterwards. |
| `AdminPage.RowsNeverEmpty` | gencart---next-gen-e-commerce/pages/Admin.tsx:17-78 | From a form with at least one row, over any sequence of edits, additions, removals, submissions and health checks, the form keeps at least one row. |
| `AdminPage.InitialRowsNeverEmpty` | gencart---next-gen-e-commerce/pages/Admin.tsx:17-78 | The form opens with one blank row, so after any run from there it has at least one row. |
| `ProductCard.HalfPercent` | gencart---next-gen-e-commerce/components/ProductCard.tsx:18 | For a positive old price, the rounded discount percentage is positive iff the saving is at least half a percent of the old price. |
| `ProductCard.Discount` | gencart---next-gen-e-commerce/components/ProductCard.tsx:18 | The discount is 0 without a truthy old price. For a positive old price, it is positive iff `200 * (oldPrice - price) >= oldPrice`. |
| `ProductCard.Render` | gencart---next-gen-e-commerce/components/ProductCard.tsx:14-73 | The main image is the first image, or the placeholder for an empty list. The out-of-stock overlay shows iff stock <= 0. Add-to-cart is enabled exactly when the product is not out of stock. The low-stock badge shows iff 0 < stock < 10, and it shows that stock. The discount badge shows iff the discount is positive and the product is in stock, and it shows that discount. |
| `ProductCard.StockBadgesExclusive` | gencart---next-gen-e-commerce/components/ProductCard.tsx:35-69 | The overlay and the low-stock badge never show together. A stock of 10 or more shows neither. |
| `Catalog.CanonicalId` | gencart---next-gen-e-commerce/pages/Home.tsx:35 | The id is `_id` when truthy, else `id`. |
| `Catalog.CanonicalName` | gencart---next-gen-e-commerce/pages/Home.tsx:36 | The name is `name` when truthy, else `title`. |
| `Catalog.CanonicalImages` | gencart---next-gen-e-commerce/pages/Home.tsx:37 | An `images` array is kept as it is. Otherwise a truthy `image` becomes a one-element list, and anything else gives an empty list. |
| `HomePage.Normalise` | gencart---next-gen-e-commerce/pages/Home.tsx:33-41 | A record becomes a product with the canonical id, name and images. Stock defaults to 50 only when absent, so an explicit 0 survives. Rating and review count take the random draw when falsy. Every other field is copied. |
| `HomePage.NormaliseFixesCanonical` | gencart---next-gen-e-commerce/pages/Home.tsx:33-41 | A product already in canonical shape, with stock, rating and review count present, normalises to itself. |
| `HomePage.NormaliseAll` | gencart---next-gen-e-commerce/pages/Home.tsx:33-41 | The mapped list has the response's length and order. Position `k` is record `k` normalised with draw `k`. |
| `HomePage.FetchProducts` | gencart---next-gen-e-commerce/pages/Home.tsx:25-57 | The error is set iff the fetch failed, and then it holds `handleApiError`'s text. Demo mode is on iff the fetch failed or the list was empty, and then the products are the mock catalogue. Otherwise the products are the response list normalised position by position. Loading ends false. |
| `HomePage.FetchedRatings` | gencart---next-gen-e-commerce/pages/Home.tsx:38-39 | With draws in the range the page's random expression produces, every rating shown is the backend's or lies in [4.2, 5). |
| `HomePage.FilterAsWritten` | gencart---next-gen-e-commerce/pages/Home.tsx:63-65 | With no truthy filter, every product is shown. With a filter, the render throws iff some product lacks a category. Otherwise it keeps the products whose lowered category equals the lowered filter. |
| `HomePage.FilterByCategory` | gencart---next-gen-e-commerce/pages/Home.tsx:63-65 | With no filter, every product is kept. With a filter, exactly the products in that category, case-insensitively, are kept, and nothing else appears. The result is never longer than the list. |
| `HomePage.FilterKeepsOrder` | gencart---next-gen-e-commerce/pages/Home.tsx:63-65 | Filtering a concatenation is concatenating the filtered parts, so relative order is kept. |
| `HomePage.UncategorisedProductBreaksFilter` | gencart---next-gen-e-commerce/pages/Home.tsx:63-65 | A product without a category under an active filter makes the page as written throw, while the corrected filter shows no product. |
| `HomePage.FiltersAgreeOnCategorised` | gencart---next-gen-e-commerce/pages/Home.tsx:63-65 | When every product has a category, the filter as written and the corrected one agree. |
| `HomePage.NextSlide` | gencart---next-gen-e-commerce/pages/Home.tsx:116 | The right arrow keeps the index in `[0, count)` and moves to `(i + 1) mod count`, so the last slide wraps to the first. |
| `HomePage.PrevSlide` | gencart---next-gen-e-commerce/pages/Home.tsx:110 | The left arrow keeps the index in `[0, count)` and moves to `(i - 1) mod count`, so the first slide wraps to the last. |
| `HomePage.ArrowsUndo` | gencart---next-gen-e-commerce/pages/Home.tsx:109-117 | Left after right, and right after left, are the identity. |
| `HomePage.FullTurn` | gencart---next-gen-e-commerce/pages/Home.tsx:115-117 | `count` presses of the right arrow bring every slide back to itself. |
| `ProductDetailPage.BackendMatch` | gencart---next-gen-e-commerce/pages/ProductDetail.tsx:22-24 | The match is the first record of a successfully fetched list whose `_id` or `id` equals the route id. No match means that no record has it. |
| `ProductDetailPage.MockMatch` | gencart---next-gen-e-commerce/pages/ProductDetail.tsx:38 | A mock match is the first mock product with that id. No match means that no mock product has it. |
| `ProductDetailPage.Normalise` | gencart---next-gen-e-commerce/pages/ProductDetail.tsx:27-35 | A found record gets the list page's id, name and image rules. A falsy rating, review count or category defaults to 4.5, 150 or `General`. Stock, price, old price, description and brand are copied. |
| `ProductDetailPage.FetchAsWritten` | gencart---next-gen-e-commerce/pages/ProductDetail.tsx:18-58 | A backend match replaces the product and leaves the preview flag as it was. Without one, a mock product with the id is shown in preview mode. When neither source has the id, the previous product and preview flag remain. Loading ends false. |
| `ProductDetailPage.Fetch` | gencart---next-gen-e-commerce/pages/ProductDetail.tsx:18-58 | A backend match is shown out of preview mode. Otherwise the mock product with that id is shown, and preview mode is on iff one exists. Any product shown carries the route id or came from the backend. Loading ends false. |
| `ProductDetailPage.FirstMountAgrees` | gencart---next-gen-e-commerce/pages/ProductDetail.tsx:14-58 | On a fresh mount, the source's fetch and the corrected one give the same state. |
| `ProductDetailPage.StaleProductAfterRouteChange` | gencart---next-gen-e-commerce/pages/ProductDetail.tsx:18-58 | After product `1` is shown and the route moves to an id no source has, the source keeps showing product `1`, while the corrected fetch shows the not-found view. |
| `ProductDetailPage.FetchedView` | gencart---next-gen-e-commerce/pages/ProductDetail.tsx:51-87 | After a fetch the spinner is gone. The not-found view shows iff neither the backend nor the mock catalogue has the id. |
| `ProductDetailPage.BuyNow` | gencart---next-gen-e-commerce/pages/ProductDetail.tsx:60-65 | With a product, it is added to the cart once and the page then navigates to `/cart`. Without one, nothing happens. |
| `OrderTrackingPage.StatusAfterMonotone` | gencart---next-gen-e-commerce/pages/OrderTracking.tsx:15-25 | Along a timer chain that never lowers the status, the status at a later time is at least the status at an earlier one. |
| `OrderTrackingPage.StatusAt` | gencart---next-gen-e-commerce/pages/OrderTracking.tsx:12-25 | The status is 0 before 5 s, 1 from 5 s to 13 s, and 2 from 13 s on. It is never 3 (Delivered). |
| `OrderTrackingPage.StatusNeverFalls` | gencart---next-gen-e-commerce/pages/OrderTracking.tsx:15-25 | The shown status never decreases as time passes. |
| `OrderTrackingPage.FlagsFrom` | gencart---next-gen-e-commerce/pages/OrderTracking.tsx:84-86 | Step `i` is completed iff `i <= status`, and active iff `i == status`. |
| `OrderTrackingPage.CountsFrom` | gencart---next-gen-e-commerce/pages/OrderTracking.tsx:84-86 | Over a run of steps, the active count is 1 iff the status falls inside the run and 0 otherwise. The completed count is the number of steps up to the status. |
| `OrderTrackingPage.OneActiveStep` | gencart---next-gen-e-commerce/pages/OrderTracking.tsx:84-86 | For a status on the tracker, exactly one step is active, the one at that index, and `status + 1` steps are completed. |
| `OrderTrackingPage.RouteParam` | gencart---next-gen-e-commerce/pages/OrderTracking.tsx:8 | A parsed `:orderId` is a non-empty segment without `/`, and prefixing the route to it rebuilds the path. |
| `OrderTrackingPage.RouteParamOfRoute` | gencart---next-gen-e-commerce/pages/OrderTracking.tsx:8 | The route built from a non-empty id without `/` parses back to that id. |
| `OrderTrackingPage.Render` | gencart---next-gen-e-commerce/pages/OrderTracking.tsx:34-45 | Without order state the placeholder shows. Otherwise the tracker shows the route id and that order, with four steps at the status reached after the elapsed time. Step `k` is completed iff `k` is at most that status and active iff it equals it, so Delivered is never completed. |
| `CartPage.SetAddressField` | gencart---next-gen-e-commerce/pages/Cart.tsx:34-37 | An input change sets exactly its own field of the address. Every other field and the address type are kept. |
| `CartPage.MissingFields` | gencart---next-gen-e-commerce/pages/Cart.tsx:41-42 | The missing fields are exactly the required fields that are empty. Each appears once, in the order of the required-field list. Landmark and alternate mobile are never among them. |
| `CartPage.CheckAddress` | gencart---next-gen-e-commerce/pages/Cart.tsx:39-53 | The address passes iff all seven required fields are non-empty and the mobile has at least 10 characters. Only the length matters, not the digits, and a field of spaces counts as filled. Otherwise it reports the missing fields, as `MissingFields` lists them, or, with all filled, the short mobile. |
| `CartPage.AddressAlert` | gencart---next-gen-e-commerce/pages/Cart.tsx:44-51 | Only a rejected address raises an alert. A short mobile gives the fixed text. Missing fields give the mandatory-fields prefix followed by their keys joined with `, `. |
| `CartPage.ConfirmAddress` | gencart---next-gen-e-commerce/pages/Cart.tsx:39-57 | A valid address moves to the payment step without an alert. An invalid one changes nothing and raises the alert `AddressAlert` gives for the validator's verdict. The address and payment choice are never altered. |
| `CartPage.ScreenOf` | gencart---next-gen-e-commerce/pages/Cart.tsx:106-119 | The empty-cart view shows iff the cart is empty on the cart step. Otherwise the screen is the current step. |
| `CartPage.Dispatch` | gencart---next-gen-e-commerce/pages/Cart.tsx:199-317 | An event whose control is not on the screen changes nothing. On its screen, PLACE ORDER moves to the address step, the back buttons move one step back, an input edits its own address field (the form has inputs for the seven required fields only), the address-type buttons set the type, CONFIRM behaves as `ConfirmAddress`, and a payment button sets that method. Conversely, the address step is entered from the cart only by PLACE ORDER with a non-empty cart, the payment step only by confirming a valid address, and only a rejected confirmation raises an alert. |
| `CartPage.OptionalFieldsKept` | gencart---next-gen-e-commerce/pages/Cart.tsx:21-32 | The form has no landmark or alternate-mobile input, so no run of events alters those two fields; from the start they stay empty. |
| `CartPage.DispatchKeepsConsistent` | gencart---next-gen-e-commerce/pages/Cart.tsx:199-317 | No event leads to the payment step with an address the validator rejects. |
| `CartPage.RunKeepsConsistent` | gencart---next-gen-e-commerce/pages/Cart.tsx:199-317 | From a consistent state, over any sequence of events and cart contents, the payment step is only ever shown for a valid address. |
| `CartPage.InitialConsistent` | gencart---next-gen-e-commerce/pages/Cart.tsx:17-32 | The wizard opens on the cart step, which is consistent, so after any run from there the payment step is only shown for a valid address. |
| `CartPage.BackAndForth` | gencart---next-gen-e-commerce/pages/Cart.tsx:215-290 | Going back from payment to address and on to the cart keeps the address and the payment choice. |
| `CartPage.FirstImage` | gencart---next-gen-e-commerce/pages/Cart.tsx:76 | An order line's image is the first product image, or absent for an empty list. |
| `CartPage.BuildOrder` | gencart---next-gen-e-commerce/pages/Cart.tsx:66-83 | The order id starts with `ORD` and equals `orderId`. The total is the cart total plus 99 and the status is `ordered`. Address and payment method are copied. There is one order line per cart line, in order, with id, name, price, quantity and first image copied. |
| `CartPage.FinalOrder` | gencart---next-gen-e-commerce/pages/Cart.tsx:59-104 | Without a payment method, nothing is posted, nothing changes and the alert asks for one. Otherwise the order posted is the one `BuildOrder` makes from the cart lines, address, chosen method, total, suffix and time. The cart is cleared and the router goes to `/order-tracking/<id>` with the order and total plus 99, and `isSubmitting` ends false. There is no alert iff the backend accepted. On a failure, the alert carries `handleApiError`'s text and the id. |
| `CartPage.DegradesToSuccess` | gencart---next-gen-e-commerce/pages/Cart.tsx:85-103 | An accepted and a failed `createOrder` give the same state, record, cart and router calls and tracking-page order. Only the alert differs. |
| `CartPage.TrackingPageShowsOrder` | gencart---next-gen-e-commerce/pages/Cart.tsx:91 | The tracking route's parameter is the posted order's id. The tracking page, given the router state, shows the tracker with that id and the posted total. |

## Left out

- The cart store (`context/CartContext.tsx`) is not part of this model. Cart lines and `totalAmount` are inputs, and how add, update, remove and the total behave is not assumed.
- Randomness is not modelled. The order-id suffix (`Math.random().toString(36)` upper-cased) is an arbitrary string input. The rating and review-count defaults of the list page are per-position draws.
- The clock is not modelled. `createdAt` is an input. The tracking page's timers are virtual time, in milliseconds since mount. Clearing them on unmount is not modelled, and neither is the inner timer that the outer cleanup never clears.
- Floating point is not modelled. The discount uses exact rationals with `Math.round` as `floor(x + 1/2)`. The 15% savings line, the progress-bar width and `toLocaleString` formatting are left out as display-only.
- AdminPage.Payload: price and stock stay text. The `Number(...)` parsing of JavaScript is not modelled.
- ProductCard.Discount: states the sign of the rounded percentage, which decides the badge, and not its numeric value. The value depends on floating-point rounding.
- `toLowerCase` is a parameter `lower` of the category filter. Unicode case mapping is not modelled.
- JavaScript `undefined` and `""` are conflated for a missing id or name, which are read as the empty string. They differ only in what the page prints.
- A response body that is not an array (`data.map` or `data.find` throws a `TypeError`) is modelled as a failure without a response. This is the error `handleApiError` then sees.
- The chat model call (`services/geminiService.ts`) is a settled reply given as input. The widget's open/close toggle and its scrolling are left out.
- Network I/O, the health check's own request, `alert`, `window.scrollTo`, and asynchronous interleaving between handlers are not modelled. Each handler runs from click to settled request as one step.
- The browser's `maxLength` on the mobile input is not modelled. The validator is modelled as the code states it, on length alone.
- String lengths count code points, not UTF-16 code units. The two differ for the mobile-number check only on astral characters.
- The navbar's URL query string (`'/?' + searchParams.toString()`) is modelled as the new filter value and a navigate-home flag. Other query parameters and URL encoding are not modelled.
- AuthContext.RunKeepsSynced, AuthContext.AuthenticatedIffBearerSent: hold only for runs in which every successful login answers with a token. A tokenless answer makes storage hold `undefined` while state holds no token (`AuthContext.TokenlessLoginSendsUndefined`), and only the one-way `AuthContext.AuthenticatedSendsBearer` survives it. A JSON `null` token, stored as `null`, behaves the same way and is not modelled separately.
- The mock catalogue of `constants.tsx` is static data. It is a parameter wherever the pages fall back to it.
- All markup, styling, static copy, `App.tsx` routing and layout are left out.

## Findings

| source | as written | input that shows it | evidently intended | confidence | as-written member | corrected member |
|---|---|---|---|---|---|---|
| gencart---next-gen-e-commerce/pages/ProductDetail.tsx:18-58 | The effect re-runs on a change of route id in the same component instance, but it never resets `product` or `isDemoMode`. A lookup that finds nothing therefore leaves the previous product on screen, with its preview banner. | Product `1` is shown, then the route goes to `404`. The backend answers with an empty list and the mock catalogue has no `404`. | The not-found view for an id no source has, as on a fresh mount | not executed | `ProductDetailPage.FetchAsWritten` (with `ProductDetailPage.StaleProductAfterRouteChange`) | `ProductDetailPage.Fetch` |
| gencart---next-gen-e-commerce/pages/Home.tsx:63-65 | The filter calls `p.category.toLowerCase()` on every product. A backend record without a category makes the render throw once any category filter is active. | The backend returns a product with no `category` field, and the category link "Fashion" is clicked. | A product without a category is simply not in the chosen category | not executed | `HomePage.FilterAsWritten` (with `HomePage.UncategorisedProductBreaksFilter`) | `HomePage.FilterByCategory` |

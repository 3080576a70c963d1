# Food-ordering frontend: cart, checkout, menu pages and admin panel

This project models the customer and admin pages of a single-page food-ordering
client. A customer browses the menu with filters, reads an item or a restaurant with its
reviews, adds items to the cart and checks out. Checkout either posts a cash/card order
directly or runs the two-phase handshake of a payment gateway: create a gateway order,
open the widget, then verify the payment. An administrator manages restaurants and their
menu items.

Each page is a `class` whose fields are the page's React state. Each handler is a
`method` that changes those fields and states the whole new state through a `State()`
snapshot. The outside world comes in as parameters:

- HTTP responses are `Reply<T>` values: a success, a server error carrying `statusText`,
  `message` and `error`, no response at all, or a setup error.
- The browser's `localStorage` is a `Store` map, or the `userId` read from it.
- Whether the gateway script loaded is a boolean parameter.
- `Date.now()` is a number parameter.

What a handler does to the outside comes back as a sequence of `Effect`s: a typed request
sent, a navigation, a delayed navigation with its flash message, or a delayed clearing of
the banner.

Money is held in integer cents, so the delivery fee of 2.99 is `299`. The displayed mean
rating is held in integer tenths, which is what `toFixed(1)` prints. JavaScript truthiness
of a possibly missing string is `Truthy`, and `a || b` on strings is `OrElse`.

Modules:

- `Support`: replies, failures, effects, the store and truthiness.
- `Text`: string search, the decimal rendering and `parseInt` of naturals, and cents as a
  decimal string.
- `Catalog`: restaurants, menu items, reviews and the server's cart.
- `Ratings`: the star string, the mean rating and the review form. These are shared,
  identical, by the item page and the restaurant page.
- `Cart`: the cart page and checkout.
- `ExploreItem`: the menu-item page.
- `RestaurantDetail`: the restaurant page.
- `Products`: the explore page with filters.
- `AdminDashboard`: the admin panel.

Where the pages' own UI text, comments and evidently intended flows differ from what the
code does, the model follows the code:

- The gateway branch of `placeOrder` never checks the restaurant, the address or the
  cart's emptiness. These checks sit only on the cash/card path (`Cart.Decide`). So a
  gateway payment can be verified with no restaurant and an empty address.
- The admin panel keeps one `editMode` flag and one `currentItemId` for both forms.
  Editing a restaurant while the menu-item form is open makes the next menu-item save a
  PUT to the menu-item endpoint with the restaurant's id (`AdminDashboard.SharedEditModeScenario`).
- Clicking "View Details" twice on the explore page restores the previous selection only
  when nothing, or that same item, was open before (`Products.ToggleTwice`).
- The mean rating is floored after it is rounded to one decimal. So 4.96 shows five full
  stars (`Ratings.NearlyFiveShowsFiveStars`).

## Model

| member | source | states |
|---|---|---|
| Ratings.RenderStars | src/main/ExploreItem.jsx:133-135 | defined exactly for ratings in [0, 6), where neither `repeat` count is negative; five symbols, position i filled exactly when i is below floor(rating), so 5.5 draws five filled stars |
| Ratings.StarsOfAverage | src/main/RestaurantDetail.jsx:163-165 | the stars drawn for a non-empty review list number floor(mean + 1/20), because the tenths-rounded text is floored |
| Ratings.AverageInRange | src/main/ExploreItem.jsx:170-172 | with ratings from 0 to 5, the displayed mean that reaches `renderStars` is also within 0..5 |
| Ratings.SumHeadFirst | src/main/RestaurantDetail.jsx:164 | the left fold `reduce` computes equals the sum taken head first |
| Ratings.SumBounds | src/main/ExploreItem.jsx:171 | n ratings in [lo, hi] sum to a value in [n*lo, n*hi] |
| Ratings.Average | src/main/ExploreItem.jsx:170-172 | the sentinel exactly for an empty list; otherwise the tenths t with 2n*t - n <= 20*sum < 2n*t + n, i.e. rounded half up |
| Ratings.StarInput | src/main/ExploreItem.jsx:186 | the sentinel reaches `renderStars` as 0; a mean of t tenths reaches it as the number whose tenfold is t, within 0..5 when t is within 0..50 |
| Ratings.ReviewStars | src/main/ExploreItem.jsx:186 | the header's star string: five empty stars with no reviews, otherwise floor(mean + 1/20) filled stars out of five |
| Ratings.NearlyFiveShowsFiveStars | src/main/RestaurantDetail.jsx:208 | 24 fives and a four average "5.0" and show five filled stars |
| Ratings.ApplyReviewEdit | src/main/ExploreItem.jsx:92-98 | the rating select stores `parseInt` of its value and keeps the comment; the comment box stores its text and keeps the rating |
| Ratings.ChosenRatingInRange | src/main/ExploreItem.jsx:340-344 | every option of the rating select parses, and stores the rating 5 - k, which lies in 1..5 |
| Text.FormatCents | src/main/RestaurantDetail.jsx:146-149 | `toFixed(2)` of an amount: a "-" exactly for a negative amount, then digits ending in a point and two more digits |
| Text.ReadFormatCents | src/main/RestaurantDetail.jsx:146-149 | the two-decimal text of any amount of cents reads back as that amount, so the text is a faithful rendering of the total |
| Text.ParseShow | src/main/RestaurantDetail.jsx:60 | `parseInt` of a natural's decimal text gives that natural back |
| Cart.GrandTotal | src/main/Cart.jsx:254 | the amount charged (also at lines 107 and 136) is the subtotal plus the 2.99 delivery fee; its contract states that it always exceeds the subtotal, and is at least the delivery fee for a non-negative subtotal |
| Cart.FirstRestaurant | src/main/Cart.jsx:209 | an order's restaurant (also at line 120) exists exactly when the cart has a first line naming one, and is that line's restaurant; an empty cart has none |
| Cart.OrderLines | src/main/Cart.jsx:220-223 | one order line per cart line, in order, with that line's menu-item id and quantity |
| Cart.SetField | src/main/Cart.jsx:82-88 | the named checkout field takes the value; every other field keeps its value |
| Cart.PaymentDetails | src/main/Cart.jsx:242-247 | card details are present exactly when the method is "card", and they are the form's four card fields |
| Cart.Decide | src/main/Cart.jsx:186-247 | each outcome of placeOrder's checks, as an if-and-only-if over user, payment method, first line's restaurant and required fields; an accepted order carries the user, the restaurant, the cart's lines, subtotal + 2.99, the address, the method and the card details |
| Cart.EmptyCartReportsRestaurant | src/main/Cart.jsx:208-217 | off the gateway path an empty cart is reported as a missing restaurant, before any field check |
| Cart.SubmittedLinesFollowCart | src/main/Cart.jsx:220-223 | line i of an accepted order is the i-th cart line's item and quantity |
| Cart.DecrementTarget | src/main/Cart.jsx:345-346 | the "-" control is disabled exactly at quantity 1 or below; otherwise it requests quantity - 1, which is at least 1 |
| Cart.ScreenOf | src/main/Cart.jsx:295-320 | the login prompt exactly when loading is done with no cart; the empty-cart prompt exactly for a loaded empty cart; the checkout form only for a non-empty cart with checkout shown |
| Cart.CartView.Load | src/main/Cart.jsx:22-40 | no user: no request and loading ends; otherwise GET the user's cart and keep the reply's cart on success |
| Cart.CartView.UpdateQuantity | src/main/Cart.jsx:53-67 | PUT the new quantity; only if it succeeds, re-fetch and take the fetched cart |
| Cart.CartView.RemoveItem | src/main/Cart.jsx:69-80 | DELETE the line; only if it succeeds, re-fetch and take the fetched cart |
| Cart.CartView.HandleCheckoutChange | src/main/Cart.jsx:82-88 | the form, and only the form, becomes `SetField` of the old form |
| Cart.CartView.ProceedToCheckout | src/main/Cart.jsx:90-92 | the checkout form is shown and nothing else changes |
| Cart.CartView.BackToCart | src/main/Cart.jsx:511-516 | the checkout form is hidden and nothing else changes |
| Cart.CartView.InitiateGatewayPayment | src/main/Cart.jsx:94-184 | no user: the login status and no request; otherwise a gateway order is asked for the grand total; it starts exactly when the request succeeds and the widget loads, opening it with the gateway key, the order's amount, currency and id and the cart and address of that moment; each failure sets the server message or the generic one |
| Cart.CartView.HandlePaymentResult | src/main/Cart.jsx:118-161 | the verification request is built from the captured cart and address; only a reply with `success` sets the confirmation, resets the form and schedules the redirect |
| Cart.CartView.PlaceOrder | src/main/Cart.jsx:186-293 | follows `Decide`: error banners with no request for the check failures; the gateway hand-over with its outcomes; the order POST with success, refused and failed outcomes; processingPayment is false on every path |
| Cart.CashOrderScenario | src/main/Cart.jsx:250-276 | a 12.50 cash order from a fresh page sends one order of 15.49 with no card details, confirms and redirects |
| Cart.GatewayScenario | src/main/Cart.jsx:106-138 | the amount asked of the gateway equals the total sent for verification, and the verified lines and address are the cart's and the form's |
| ExploreItem.Fallback | src/main/ExploreItem.jsx:27-55 | sources are asked in order until one answers; the kept answer is the first success, or the last failure after every source failed |
| ExploreItem.ItemPaths | src/main/ExploreItem.jsx:27-33 | the item's two sources, `menuitems/{id}` first, then `menu-items/{id}` |
| ExploreItem.ReviewPaths | src/main/ExploreItem.jsx:39-54 | `reviews/menuitem/{id}`, then `reviews/menu-item/{id}`, then `reviews/restaurant/{restaurant}` exactly when an item came back naming its restaurant; two sources otherwise |
| ExploreItem.LoadError | src/main/ExploreItem.jsx:61-79 | the load error starts with the fixed prefix, followed by the server's `error`, else its status text; or by "No response from server"; or by the setup error's text |
| ExploreItem.SubmittedAlertIsSuccess | src/main/ExploreItem.jsx:325 | the review-submitted message gets the green banner |
| ExploreItem.FailureAlertIsDanger | src/main/ExploreItem.jsx:325 | the review-failure message gets the red banner |
| ExploreItem.LoginAlertIsDanger | src/main/ExploreItem.jsx:325 | the login prompt gets the red banner |
| ExploreItem.ScreenOf | src/main/ExploreItem.jsx:166-168 | the item is shown exactly when loading is done, there is no error and an item exists; an error screen shows the error |
| ExploreItem.ItemView.Load | src/main/ExploreItem.jsx:22-90 | a missing id: the missing-id error and no request; otherwise the item chain, then the review chain run in order, with the paths fetched, the kept item and reviews and the load error as the chains decide; a successful reply with an empty body stores no item, and the review chain still runs without the restaurant source |
| ExploreItem.ItemView.HandleReviewChange | src/main/ExploreItem.jsx:92-98 | the draft becomes `ApplyReviewEdit` of the old draft |
| ExploreItem.ItemView.SubmitReview | src/main/ExploreItem.jsx:100-131 | no user: the login message and a redirect to /login after 2 s; otherwise POST the draft; on success reset the draft, refresh the reviews and show the success message |
| ExploreItem.ItemView.AddItemToCart | src/main/ExploreItem.jsx:137-160 | no user: the login message and the redirect; no item: the failure message and no request; otherwise POST one unit at the item's price |
| ExploreItem.LoadFallbackScenario | src/main/ExploreItem.jsx:27-55 | the first item source fails and the second answers with an item without restaurant; both review sources fail, so the four paths are fetched in order and the item is shown with no reviews and no error |
| ExploreItem.NotFoundScenario | src/main/ExploreItem.jsx:27-55 | an empty item body: the two review sources are still fetched, no restaurant source is tried, and the page says the item was not found |
| RestaurantDetail.ItemCount | src/main/RestaurantDetail.jsx:38 | the badge count is non-negative when every quantity is |
| RestaurantDetail.CartValue | src/main/RestaurantDetail.jsx:146-149 | the cart total is non-negative when every price and quantity is |
| RestaurantDetail.AddedWithTotal | src/main/RestaurantDetail.jsx:151 | the add-to-cart message is the success text and " Cart total: $", followed by a two-decimal amount that reads back as the cart's total |
| RestaurantDetail.ItemCountAppend | src/main/RestaurantDetail.jsx:38 | the item count of two concatenated line lists is the sum of their counts |
| RestaurantDetail.CartValueAppend | src/main/RestaurantDetail.jsx:146-149 | the cart value of two concatenated line lists is the sum of their values |
| RestaurantDetail.NewLineAddsOne | src/main/RestaurantDetail.jsx:142 | a new line of quantity 1 raises the badge count by exactly one |
| RestaurantDetail.CountAtLeastLines | src/main/RestaurantDetail.jsx:142 | with positive quantities the count is at least the number of lines |
| RestaurantDetail.CanDelete | src/main/RestaurantDetail.jsx:270 | the delete control is offered exactly when the review's author is known and equals the signed-in user |
| RestaurantDetail.DeleteNeedsOwner | src/main/RestaurantDetail.jsx:270 | nobody signed in, or a review without author, gets no delete control |
| RestaurantDetail.AddedAlertIsSuccess | src/main/RestaurantDetail.jsx:151 | the added-with-total message gets the green banner for any total |
| RestaurantDetail.ReviewSubmittedAlertIsSuccess | src/main/RestaurantDetail.jsx:85 | the review-submitted message gets the green banner |
| RestaurantDetail.ReviewDeletedAlertIsSuccess | src/main/RestaurantDetail.jsx:107 | the review-deleted message gets the green banner |
| RestaurantDetail.AlertOf | src/main/RestaurantDetail.jsx:168-172 | no banner exactly for the empty message; green exactly for a message containing "success" or "total"; red exactly for any other message |
| RestaurantDetail.DangerWhenNeither | src/main/RestaurantDetail.jsx:170 | a non-empty message that lacks some letter of "success" and holds the three letters "tot" together nowhere gets the red banner |
| RestaurantDetail.ReviewFailedAlertIsDanger | src/main/RestaurantDetail.jsx:89 | the review-failure message gets the red banner |
| RestaurantDetail.DeleteFailedAlertIsDanger | src/main/RestaurantDetail.jsx:111 | the delete-failure message gets the red banner |
| RestaurantDetail.AddFailedAlertIsDanger | src/main/RestaurantDetail.jsx:159 | the add-failure message gets the red banner |
| RestaurantDetail.LoginToReviewAlertIsDanger | src/main/RestaurantDetail.jsx:69 | the review login prompt gets the red banner |
| RestaurantDetail.LoginToDeleteAlertIsDanger | src/main/RestaurantDetail.jsx:98 | the delete login prompt gets the red banner |
| RestaurantDetail.LoginToAddAlertIsDanger | src/main/RestaurantDetail.jsx:127 | the add login prompt gets the red banner |
| RestaurantDetail.ScreenOf | src/main/RestaurantDetail.jsx:120-121 | the restaurant is shown exactly when loading is done and a restaurant was loaded |
| RestaurantDetail.DetailView.Load | src/main/RestaurantDetail.jsx:17-54 | the three fetches run in order and stop at the first failure; the cart is fetched only for a signed-in user, and its item count becomes the badge; loading ends on every path |
| RestaurantDetail.DetailView.HandleReviewChange | src/main/RestaurantDetail.jsx:56-62 | the draft becomes `ApplyReviewEdit` of the old draft |
| RestaurantDetail.DetailView.SubmitReview | src/main/RestaurantDetail.jsx:64-92 | no user: the login message and the redirect; otherwise POST the draft; success resets the draft, flips the refresh flag and shows the success message; failure shows the failure message; both clear after 3 s |
| RestaurantDetail.DetailView.DeleteReview | src/main/RestaurantDetail.jsx:94-114 | no user: the login message and the redirect; otherwise DELETE the review; success flips the refresh flag |
| RestaurantDetail.DetailView.AddItemToCart | src/main/RestaurantDetail.jsx:123-161 | no user: the login message and the redirect; otherwise POST one unit; a cart reply sets the badge to its item count and the message to the total of its lines; a failure sets the failure message with no clearing timer |
| RestaurantDetail.AddNewLineScenario | src/main/RestaurantDetail.jsx:140-152 | adding a new item raises the badge by one and reports the old value plus the item's price |
| Products.SetFilter | src/main/Products.jsx:71-77 | the named filter takes the value; the other filters keep theirs |
| Products.BuildQuery | src/main/Products.jsx:40-43 | as many parameters as wanted filters (a category other than "all", a non-empty sort, a non-empty search); each parameter is a wanted filter with its value; ranks strictly increase (category, sort, search); every wanted filter sits right after the wanted filters ranked before it |
| Products.IncludedIffWanted | src/main/Products.jsx:40-43 | a query with those properties names a filter exactly when that filter is wanted |
| Products.DefaultQuery | src/main/Products.jsx:12-16 | the initial filters query `sort=name` alone |
| Products.Toggle | src/main/Products.jsx:59-65 | the clicked item opens exactly when it was not the open one; otherwise the panel closes |
| Products.ToggleTwice | src/main/Products.jsx:59-65 | two clicks on one item give back the old selection exactly when nothing or that item was open |
| Products.ToggleOpensClicked | src/main/Products.jsx:59-65 | after a click no item other than the clicked one is open |
| Products.ProductStars | src/main/Products.jsx:85-88 | five empty stars for a missing rating; otherwise the shared star string, to which the zero guard adds nothing |
| Products.ProductsView.FetchCategories | src/main/Products.jsx:20-32 | the categories are replaced on success and kept on failure |
| Products.ProductsView.FetchMenuItems | src/main/Products.jsx:34-57 | the path is `explore?` followed by the query of the current filters; success stores the items and clears the error; failure sets the fixed message; loading ends |
| Products.ProductsView.HandleViewDetails | src/main/Products.jsx:59-65 | the selection becomes `Toggle` of the old one |
| Products.ProductsView.HandleFilterChange | src/main/Products.jsx:71-77 | the filters become `SetFilter` of the old ones |
| Products.SearchScenario | src/main/Products.jsx:34-57 | a category chosen and a term typed on a fresh page give the query with all three parameters in order |
| AdminDashboard.SetRestaurantField | src/main/AdminDashboard.jsx:77-83 | the named restaurant field takes the value; the others keep theirs |
| AdminDashboard.SetMenuItemField | src/main/AdminDashboard.jsx:85-90 | the named menu-item field takes the typed value; the others keep theirs |
| AdminDashboard.RestaurantFormOf | src/main/AdminDashboard.jsx:131-141 | the edit form holds the record's name, address, cuisine and image |
| AdminDashboard.MenuItemFormOf | src/main/AdminDashboard.jsx:144-154 | the edit form holds the record's fields, with the price copied as a number |
| AdminDashboard.LogoutStore | src/main/AdminDashboard.jsx:181-185 | the token and the user name are removed; every other key keeps its value |
| AdminDashboard.LogoutClosesGate | src/main/AdminDashboard.jsx:34-41 | after logout the mount gate turns the panel away, while `adminId` is untouched |
| AdminDashboard.MenuSectionFollowsTab | src/main/AdminDashboard.jsx:346 | on any panel whose invariant holds, the menu section is on screen exactly when its tab is active |
| AdminDashboard.Dashboard.Logout | src/main/AdminDashboard.jsx:181-185 | the store becomes `LogoutStore` of the old one, the browser goes to /admin/login, and the panel's state is unchanged |
| AdminDashboard.LogoutScenario | src/main/AdminDashboard.jsx:181-185 | after a logout, the panel navigates to the login page, and mounting it again with the new store turns it away |
| AdminDashboard.Dashboard.Mount | src/main/AdminDashboard.jsx:34-41 | with no token: go to /admin/login and fetch nothing; otherwise fetch the restaurants |
| AdminDashboard.Dashboard.RestaurantsArrived | src/main/AdminDashboard.jsx:44-54 | the list on success, the fixed error on failure; loading ends |
| AdminDashboard.Dashboard.MenuItemsArrived | src/main/AdminDashboard.jsx:57-67 | the items on success, the fixed error on failure; loading ends |
| AdminDashboard.Dashboard.SelectRestaurant | src/main/AdminDashboard.jsx:70-74 | select it, fetch its menu and switch to the menu tab |
| AdminDashboard.Dashboard.SelectTab | src/main/AdminDashboard.jsx:198-211 | the active tab changes and nothing else |
| AdminDashboard.Dashboard.RestaurantFormChange | src/main/AdminDashboard.jsx:77-83 | the restaurant form becomes `SetRestaurantField` of the old form |
| AdminDashboard.Dashboard.MenuItemFormChange | src/main/AdminDashboard.jsx:85-90 | the menu-item form becomes `SetMenuItemField` of the old form |
| AdminDashboard.Dashboard.EditRestaurant | src/main/AdminDashboard.jsx:131-141 | the form is filled from the record and opened in edit mode for its id |
| AdminDashboard.Dashboard.EditMenuItem | src/main/AdminDashboard.jsx:144-154 | the form is filled from the record and opened in edit mode for its id |
| AdminDashboard.Dashboard.AddRestaurant | src/main/AdminDashboard.jsx:221-224 | an empty form in add mode; the current id is kept |
| AdminDashboard.Dashboard.AddMenuItem | src/main/AdminDashboard.jsx:351-354 | an empty form in add mode; the current id is kept |
| AdminDashboard.Dashboard.CancelRestaurant | src/main/AdminDashboard.jsx:283 | the form is hidden and nothing else changes |
| AdminDashboard.Dashboard.CancelMenuItem | src/main/AdminDashboard.jsx:412 | the form is hidden and nothing else changes |
| AdminDashboard.Dashboard.SubmitRestaurant | src/main/AdminDashboard.jsx:93-109 | PUT to the edited id in edit mode, POST otherwise; success resets the form and re-fetches the list; failure only sets the error |
| AdminDashboard.Dashboard.SubmitMenuItem | src/main/AdminDashboard.jsx:112-128 | PUT to the current id in edit mode, POST under the selection otherwise; success resets the form and re-fetches the menu; with no selection the error is set, before the POST or after the PUT's reset |
| AdminDashboard.Dashboard.DeleteRestaurantAt | src/main/AdminDashboard.jsx:157-167 | nothing without confirmation; otherwise DELETE, then re-fetch on success or set the error on failure |
| AdminDashboard.Dashboard.DeleteMenuItemAt | src/main/AdminDashboard.jsx:169-178 | nothing without confirmation; otherwise DELETE, then re-fetch the selected menu on success or set the error |
| AdminDashboard.SharedEditModeScenario | src/main/AdminDashboard.jsx:112-128 | editing a restaurant with the menu-item form open makes the next menu-item save a PUT of the menu-item endpoint under the restaurant's id |

## Left out

- The HTTP server, the network and `axios` are not modelled. Each request is an effect,
  and its outcome is a `Reply` parameter.
- Responses are taken in the order the handlers await them. Concurrent or out-of-order
  responses, and responses that arrive after the page is left, are not modelled.
- The payment gateway's script and widget are not modelled. `widgetLoads` says whether
  `new window.Razorpay` succeeds. The widget's name, description, prefill and theme carry
  no logic and are left out.
- Timers and the router are not modelled: `setTimeout`, `navigate` and the flash message
  written to `localStorage` before the redirect are effects.
- Floating-point amounts are not modelled, because money is in integer cents and means
  are in integer tenths. Binary rounding of `toFixed` on values such as 1.005 is not captured.
- Ratings.Average, Ratings.StarsOfAverage, Ratings.ReviewStars: the mean is rounded half up
  on exact rationals, so a mean lying exactly halfway between two tenths can differ from the
  double `toFixed(1)` rounds, and with it the star count. For 20 ratings summing to 39 the
  mean is 1.95: `toFixed(1)` of the double gives "1.9" and one star, the model gives 20
  tenths and two stars.
- `parseInt` is modelled only on decimal digit strings (`Text.ParseInt`). Leading blanks,
  signs and trailing junk are out, because only the select's fixed options reach it.
- `URLSearchParams` percent-encoding is not modelled: `Products.QueryText` joins the raw values.
- Ratings for which `repeat` throws are not modelled: below 0 the filled count is negative,
  and from 6 on the empty count is. `Ratings.RenderStars` and `Products.ProductStars` require
  a rating in [0, 6); a rating in (5, 6) draws five filled stars.
- Ratings.ReviewStars: requires every review's rating within 0..5, the range the review form
  offers; a stored rating outside it is not modelled.
- ExploreItem.ReviewPaths, Cart.FirstRestaurant, Cart.Decide: one field, `MenuItem.restaurantId`,
  stands for two reads of a menu item's `restaurant`. The item page reads `restaurant._id`
  (src/main/ExploreItem.jsx:49-50) and the cart sends `menuItem.restaurant` as it is
  (src/main/Cart.jsx:120, 209). The model assumes the shapes the backend returns: a
  populated restaurant object on the item endpoint and a plain restaurant id in cart
  lines. An item whose `restaurant` is a bare id string (the item page then skips the
  restaurant source and shows no reviews), or a cart line with a populated restaurant (the
  order then posts the whole object), is not modelled.
- Cart.CartView.PlaceOrder, Cart.CartView.InitiateGatewayPayment: both require a loaded
  cart, because the checkout form and the pay button are only rendered with one
  (src/main/Cart.jsx:296). The TypeError a null cart would raise is not modelled.
- `handleSearchSubmit` on the explore page is not modelled: it only prevents the default, and
  filtering happens through the filter effect. `handleExplore` is a bare navigation, also not modelled.
- The image zoom, the nutrition tabs and other local display toggles of the item page carry
  no logic and are not modelled. Neither are the markup and the per-line subtotals `price * quantity`.
- `console.error` logging is not modelled.
- The admin login and logout pages, and every file outside the five pages modelled here, are
  not part of this model.
- The badge counts in `RestaurantDetail` sum quantities without bounds, since the cart lines'
  quantities are unbounded integers. JavaScript number overflow is not modelled.

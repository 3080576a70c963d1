/**
 * The restaurant page: the restaurant, its menu and reviews, the cart badge,
 * add-to-cart with the cart total in the message, and reviews that their
 * author may delete.
 */
module RestaurantDetail {

  import opened Support
  import opened Text
  import opened Catalog
  import opened Ratings

  /** `items.reduce((sum, item) => sum + item.quantity, 0)`: the cart badge. */
  function ItemCount(items: seq<CartItem>): (n: int)
    ensures (forall i :: 0 <= i < |items| ==> items[i].quantity >= 0) ==> n >= 0
  {
    if items == [] then 0 else ItemCount(items[..|items| - 1]) + items[|items| - 1].quantity
  }

  /** `items.reduce((sum, item) => sum + item.price * item.quantity, 0)`, in cents. */
  function CartValue(items: seq<CartItem>): (v: int)
    ensures (forall i :: 0 <= i < |items| ==> items[i].quantity >= 0 && items[i].price >= 0) ==> v >= 0
  {
    if items == [] then 0 else CartValue(items[..|items| - 1]) + items[|items| - 1].price * items[|items| - 1].quantity
  }

  /** Both reductions add up over a cart split in two: the badge of a cart is the sum over its parts. */
  lemma {:induction false} ItemCountAppend(a: seq<CartItem>, b: seq<CartItem>)
    ensures ItemCount(a + b) == ItemCount(a) + ItemCount(b)
  {
    if b == [] {
      assert a + b == a;
    } else {
      assert (a + b)[..|a + b| - 1] == a + b[..|b| - 1];
      ItemCountAppend(a, b[..|b| - 1]);
    }
  }

  lemma {:induction false} CartValueAppend(a: seq<CartItem>, b: seq<CartItem>)
    ensures CartValue(a + b) == CartValue(a) + CartValue(b)
  {
    if b == [] {
      assert a + b == a;
    } else {
      assert (a + b)[..|a + b| - 1] == a + b[..|b| - 1];
      CartValueAppend(a, b[..|b| - 1]);
    }
  }

  /** A cart line added with quantity 1 at the item's price raises the badge by one and the total by that price. */
  lemma NewLineAddsOne(items: seq<CartItem>, line: CartItem)
    requires line.quantity == 1
    ensures ItemCount(items + [line]) == ItemCount(items) + 1
    ensures CartValue(items + [line]) == CartValue(items) + line.price
  {
    assert (items + [line])[..|items + [line]| - 1] == items;
  }

  /** Every line counts at least once, so the badge is at least the number of lines. */
  lemma {:induction false} CountAtLeastLines(items: seq<CartItem>)
    requires forall i :: 0 <= i < |items| ==> items[i].quantity >= 1
    ensures ItemCount(items) >= |items|
  {
    if items != [] {
      CountAtLeastLines(items[..|items| - 1]);
    }
  }

  /**
   * The delete control of a review: shown when the review's author id is
   * strictly equal to the stored user id; a missing author (`undefined`)
   * never equals a missing user (`null`).
   */
  function CanDelete(review: Review, storedUserId: Option<string>): (shown: bool)
    ensures shown ==> storedUserId.Some? && review.authorId == storedUserId
    ensures review.authorId.Some? && review.authorId == storedUserId ==> shown
  {
    review.authorId.Some? && storedUserId.Some? && review.authorId.value == storedUserId.value
  }

  /** Nobody signed out sees a delete control, and a review without an author shows none to anybody. */
  lemma DeleteNeedsOwner(review: Review, stored: Option<string>)
    ensures !CanDelete(review, None)
    ensures review.authorId.None? ==> !CanDelete(review, stored)
    ensures CanDelete(review, stored) <==> stored.Some? && review.authorId == stored
  {
  }

  const LoginToReview := "Please login to submit a review"
  const ReviewSubmitted := "Review submitted successfully!"
  const ReviewFailed := "Failed to submit review"
  const LoginToDelete := "Please login to delete a review"
  const ReviewDeleted := "Review deleted successfully!"
  const DeleteFailed := "Failed to delete review"
  const LoginToAdd := "Please login to add items to cart"
  const ItemAdded := "Item added to cart successfully!"
  const AddFailed := "Failed to add item to cart"

  /** The fixed text before the amount in the add-to-cart message. */
  const TotalLabel := " Cart total: $"

  /**
   * The add-to-cart message with the new cart's total, `toFixed(2)` of the
   * amount: the success text and the label, then a two-decimal amount that
   * reads back as the total.
   */
  function AddedWithTotal(cents: int): (m: string)
    ensures |ItemAdded + TotalLabel| <= |m| && m[..|ItemAdded + TotalLabel|] == ItemAdded + TotalLabel
    ensures ReadCents(m[|ItemAdded + TotalLabel|..]) == Some(cents)
  {
    var m := ItemAdded + (TotalLabel + FormatCents(cents));
    assert m == (ItemAdded + TotalLabel) + FormatCents(cents);
    ReadFormatCents(cents);
    m
  }

  datatype AlertStyle = SuccessAlert | DangerAlert

  /** The banner: none for an empty message, green when it mentions "success" or "total", red otherwise. */
  function AlertOf(message: string): (banner: Option<AlertStyle>)
    ensures banner.None? <==> message == ""
    ensures banner == Some(SuccessAlert) <==> message != "" && (Contains(message, "success") || Contains(message, "total"))
    ensures banner == Some(DangerAlert) <==> message != "" && !Contains(message, "success") && !Contains(message, "total")
  {
    if message == "" then None
    else if Contains(message, "success") || Contains(message, "total") then Some(SuccessAlert)
    else Some(DangerAlert)
  }

  /** Every message the handlers report on success gets the green banner. */
  lemma AddedAlertIsSuccess(cents: int)
    ensures AlertOf(ItemAdded) == Some(SuccessAlert)
    ensures AlertOf(AddedWithTotal(cents)) == Some(SuccessAlert)
  {
    ContainsAt(ItemAdded, "success", 19);
    ContainsPrefix(ItemAdded, TotalLabel + FormatCents(cents), "success");
  }

  lemma ReviewSubmittedAlertIsSuccess()
    ensures AlertOf(ReviewSubmitted) == Some(SuccessAlert)
  {
    ContainsAt(ReviewSubmitted, "success", 17);
  }

  lemma ReviewDeletedAlertIsSuccess()
    ensures AlertOf(ReviewDeleted) == Some(SuccessAlert)
  {
    ContainsAt(ReviewDeleted, "success", 15);
  }

  /**
   * A non-empty message in which some letter of "success" does not occur and
   * "tot" appears nowhere gets the red banner.
   */
  lemma DangerWhenNeither(m: string, a: nat)
    requires m != ""
    requires a < 7 && "success"[a] !in m
    requires forall i :: 0 <= i && i + 3 <= |m| ==> m[i] != 't' || m[i + 1] != 'o' || m[i + 2] != 't'
    ensures AlertOf(m) == Some(DangerAlert)
  {
    NotContainsLetter(m, "success", a);
    NotContainsTrigram(m, "total");
  }

  /** The review failure message gets the red banner. */
  lemma ReviewFailedAlertIsDanger()
    ensures AlertOf(ReviewFailed) == Some(DangerAlert)
  {
    DangerWhenNeither(ReviewFailed, 2);
  }

  /** The delete failure message gets the red banner. */
  lemma DeleteFailedAlertIsDanger()
    ensures AlertOf(DeleteFailed) == Some(DangerAlert)
  {
    DangerWhenNeither(DeleteFailed, 2);
  }

  /** The add-to-cart failure message gets the red banner. */
  lemma AddFailedAlertIsDanger()
    ensures AlertOf(AddFailed) == Some(DangerAlert)
  {
    DangerWhenNeither(AddFailed, 1);
  }

  /** The login prompt of the review form gets the red banner. */
  lemma LoginToReviewAlertIsDanger()
    ensures AlertOf(LoginToReview) == Some(DangerAlert)
  {
    DangerWhenNeither(LoginToReview, 2);
  }

  /** The login prompt of the delete control gets the red banner. */
  lemma LoginToDeleteAlertIsDanger()
    ensures AlertOf(LoginToDelete) == Some(DangerAlert)
  {
    DangerWhenNeither(LoginToDelete, 2);
  }

  /** The login prompt of the add-to-cart button gets the red banner. */
  lemma LoginToAddAlertIsDanger()
    ensures AlertOf(LoginToAdd) == Some(DangerAlert)
  {
    DangerWhenNeither(LoginToAdd, 1);
  }

  /** The requests of the page. */
  datatype Request =
    | FetchRestaurant(restaurant: string)                                   // GET restaurants/{id}
    | FetchMenu(restaurant: string)                                         // GET restaurants/{id}/menuitems
    | FetchReviews(restaurant: string)                                      // GET reviews/restaurant/{id}
    | FetchCart(user: string)                                               // GET cart/{user}
    | PostReview(user: string, restaurant: string, rating: int, comment: string)  // POST reviews
    | DeleteReview(review: string)                                          // DELETE reviews/{reviewId}
    | AddToCart(user: string, menuItem: string, quantity: int, price: int)  // POST cart/{user}/add

  datatype Screen = LoadingScreen | NotFoundScreen | RestaurantScreen

  datatype DetailState = DetailState(
    restaurant: Option<Restaurant>, menuItems: seq<MenuItem>, loading: bool, cartMessage: string,
    cartCount: int, reviews: seq<Review>, newReview: ReviewDraft, reviewSubmitted: bool)

  function ScreenOf(s: DetailState): (v: Screen)
    ensures v == RestaurantScreen <==> !s.loading && s.restaurant.Some?
  {
    if s.loading then LoadingScreen else if s.restaurant.None? then NotFoundScreen else RestaurantScreen
  }

  class DetailView {
    /** The route parameter `id`. */
    const id: string
    var restaurant: Option<Restaurant>
    var menuItems: seq<MenuItem>
    var loading: bool
    var cartMessage: string
    var cartCount: int
    var reviews: seq<Review>
    var newReview: ReviewDraft
    /** Flipped by a submitted or deleted review; the load effect runs again whenever it changes. */
    var reviewSubmitted: bool

    function State(): DetailState
      reads this
    {
      DetailState(restaurant, menuItems, loading, cartMessage, cartCount, reviews, newReview, reviewSubmitted)
    }

    constructor (id: string)
      ensures this.id == id
      ensures State() == DetailState(None, [], true, "", 0, [], FreshDraft, false)
    {
      this.id := id;
      restaurant, menuItems, loading, cartMessage := None, [], true, "";
      cartCount, reviews, newReview, reviewSubmitted := 0, [], FreshDraft, false;
    }

    /**
     * The load effect: the restaurant, its menu and its reviews in sequence,
     * each stored as it arrives, the first failure ending the sequence; then,
     * for a signed-in user, the cart, whose failure is ignored and whose
     * line quantities become the badge.
     */
    method Load(userId: Option<string>, restaurantReply: Reply<Option<Restaurant>>, menuReply: Reply<seq<MenuItem>>,
                reviewsReply: Reply<seq<Review>>, cartReply: Reply<Option<CartData>>)
      returns (fetched: seq<Request>)
      modifies this
      ensures restaurantReply.Fail? ==> fetched == [FetchRestaurant(id)] && State() == old(State()).(loading := false)
      ensures restaurantReply.Ok? && menuReply.Fail? ==>
        && fetched == [FetchRestaurant(id), FetchMenu(id)]
        && State() == old(State()).(restaurant := restaurantReply.data, loading := false)
      ensures restaurantReply.Ok? && menuReply.Ok? && reviewsReply.Fail? ==>
        && fetched == [FetchRestaurant(id), FetchMenu(id), FetchReviews(id)]
        && State() == old(State()).(restaurant := restaurantReply.data, menuItems := menuReply.data, loading := false)
      ensures restaurantReply.Ok? && menuReply.Ok? && reviewsReply.Ok? ==>
        && fetched == [FetchRestaurant(id), FetchMenu(id), FetchReviews(id)] +
                      (if Truthy(userId) then [FetchCart(userId.value)] else [])
        && State() == old(State()).(
             restaurant := restaurantReply.data, menuItems := menuReply.data, reviews := reviewsReply.data,
             loading := false,
             cartCount := if Truthy(userId) && cartReply.Ok? && cartReply.data.Some?
                          then ItemCount(cartReply.data.value.items) else old(cartCount))
    {
      fetched := [FetchRestaurant(id)];
      if restaurantReply.Fail? {
        loading := false;
        return;
      }
      restaurant := restaurantReply.data;
      fetched := fetched + [FetchMenu(id)];
      if menuReply.Fail? {
        loading := false;
        return;
      }
      menuItems := menuReply.data;
      fetched := fetched + [FetchReviews(id)];
      if reviewsReply.Fail? {
        loading := false;
        return;
      }
      reviews := reviewsReply.data;
      if Truthy(userId) {
        fetched := fetched + [FetchCart(userId.value)];
        if cartReply.Ok? && cartReply.data.Some? {
          cartCount := ItemCount(cartReply.data.value.items);
        }
      }
      loading := false;
    }

    /** `handleReviewChange` */
    method HandleReviewChange(e: ReviewEdit)
      requires e.RatingChosen? ==> ParseInt(e.value).Some?
      modifies this
      ensures State() == old(State()).(newReview := ApplyReviewEdit(old(newReview), e))
    {
      newReview := ApplyReviewEdit(newReview, e);
    }

    /**
     * `submitReview`: without a signed-in user, a message and a delayed
     * redirect and no request. A posted review resets the form and flips
     * `reviewSubmitted`, so the page loads again; a rejected one only sets
     * the failure message.
     */
    method SubmitReview(userId: Option<string>, reply: Reply<()>) returns (effects: seq<Effect<Request>>)
      modifies this
      ensures !Truthy(userId) ==>
        effects == [NavigateLater(LoginRedirectDelay, LoginPath, None)] &&
        State() == old(State()).(cartMessage := LoginToReview)
      ensures Truthy(userId) ==>
        var post := Send(PostReview(userId.value, id, old(newReview).rating, old(newReview).comment));
        && effects == [post, ClearMessageLater(MessageClearDelay)]
        && (reply.Ok? ==> State() == old(State()).(newReview := FreshDraft, reviewSubmitted := !old(reviewSubmitted),
                                                    cartMessage := ReviewSubmitted))
        && (reply.Fail? ==> State() == old(State()).(cartMessage := ReviewFailed))
    {
      if !Truthy(userId) {
        cartMessage := LoginToReview;
        return [NavigateLater(LoginRedirectDelay, LoginPath, None)];
      }
      effects := [Send(PostReview(userId.value, id, newReview.rating, newReview.comment))];
      if reply.Ok? {
        newReview := FreshDraft;
        reviewSubmitted := !reviewSubmitted;
        cartMessage := ReviewSubmitted;
      } else {
        cartMessage := ReviewFailed;
      }
      effects := effects + [ClearMessageLater(MessageClearDelay)];
    }

    /** `deleteReview`: the same shape as `submitReview`, with its own messages. */
    method DeleteReview(userId: Option<string>, reviewId: string, reply: Reply<()>) returns (effects: seq<Effect<Request>>)
      modifies this
      ensures !Truthy(userId) ==>
        effects == [NavigateLater(LoginRedirectDelay, LoginPath, None)] &&
        State() == old(State()).(cartMessage := LoginToDelete)
      ensures Truthy(userId) ==>
        && effects == [Send(Request.DeleteReview(reviewId)), ClearMessageLater(MessageClearDelay)]
        && (reply.Ok? ==> State() == old(State()).(reviewSubmitted := !old(reviewSubmitted), cartMessage := ReviewDeleted))
        && (reply.Fail? ==> State() == old(State()).(cartMessage := DeleteFailed))
    {
      if !Truthy(userId) {
        cartMessage := LoginToDelete;
        return [NavigateLater(LoginRedirectDelay, LoginPath, None)];
      }
      effects := [Send(Request.DeleteReview(reviewId))];
      if reply.Ok? {
        reviewSubmitted := !reviewSubmitted;
        cartMessage := ReviewDeleted;
      } else {
        cartMessage := DeleteFailed;
      }
      effects := effects + [ClearMessageLater(MessageClearDelay)];
    }

    /**
     * `addToCart(menuItem)`: one unit at the item's price. When the reply
     * carries the cart, the badge becomes its item count and the message
     * names its total; a rejected request sets a message that no timer
     * clears.
     */
    method AddItemToCart(userId: Option<string>, menuItem: MenuItem, reply: Reply<Option<CartData>>)
      returns (effects: seq<Effect<Request>>)
      modifies this
      ensures !Truthy(userId) ==>
        effects == [NavigateLater(LoginRedirectDelay, LoginPath, None)] &&
        State() == old(State()).(cartMessage := LoginToAdd)
      ensures Truthy(userId) ==>
        var add := Send(AddToCart(userId.value, menuItem.id, 1, menuItem.price));
        && (reply.Ok? && reply.data.Some? ==>
              && effects == [add, ClearMessageLater(MessageClearDelay)]
              && State() == old(State()).(cartCount := ItemCount(reply.data.value.items),
                                          cartMessage := AddedWithTotal(CartValue(reply.data.value.items))))
        && (reply.Ok? && reply.data.None? ==>
              effects == [add, ClearMessageLater(MessageClearDelay)] && State() == old(State()).(cartMessage := ItemAdded))
        && (reply.Fail? ==> effects == [add] && State() == old(State()).(cartMessage := AddFailed))
    {
      if !Truthy(userId) {
        cartMessage := LoginToAdd;
        return [NavigateLater(LoginRedirectDelay, LoginPath, None)];
      }
      effects := [Send(AddToCart(userId.value, menuItem.id, 1, menuItem.price))];
      match reply
      case Fail(_) =>
        cartMessage := AddFailed;
      case Ok(data) =>
        if data.Some? {
          var items := data.value.items;
          cartCount := ItemCount(items);
          cartMessage := AddedWithTotal(CartValue(items));
        } else {
          cartMessage := ItemAdded;
        }
        effects := effects + [ClearMessageLater(MessageClearDelay)];
    }
  }

  /**
   * Adding an item whose reply is the old cart plus a new line for it: the
   * badge grows by one, the banner is green and names the old total plus the
   * item's price.
   */
  method AddNewLineScenario(user: string, item: MenuItem, old_items: seq<CartItem>, line: CartItem)
    returns (count: int, banner: Option<AlertStyle>, message: string)
    requires user != "" && line.quantity == 1 && line.price == item.price
    ensures count == ItemCount(old_items) + 1
    ensures message == AddedWithTotal(CartValue(old_items) + item.price)
    ensures banner == Some(SuccessAlert)
  {
    var items := old_items + [line];
    NewLineAddsOne(old_items, line);
    var total := CartValue(items);
    AddedAlertIsSuccess(total);
    var view := new DetailView("r");
    var _ := view.AddItemToCart(Some(user), item, Ok(Some(CartData(items, 0))));
    count, message := view.cartCount, view.cartMessage;
    assert message == AddedWithTotal(total);
    banner := AlertOf(message);
  }
}

/**
 * The menu-item page: the item and its reviews loaded through chains of
 * fallback endpoints, the review form, and the add-to-cart button.
 */
module ExploreItem {

  import opened Support
  import opened Text
  import opened Catalog
  import opened Ratings

  /** The outcome of trying sources in order: how many were asked, and the answer kept. */
  datatype Attempt<T> = Attempt(asked: nat, outcome: Reply<T>)

  /**
   * A chain of `try { await a } catch { await b }`: the sources are asked in
   * order until one answers; the result is that answer, or the last failure
   * when every source failed.
   */
  function Fallback<T>(replies: seq<Reply<T>>): (r: Attempt<T>)
    requires |replies| > 0
    ensures 1 <= r.asked <= |replies|
    ensures r.outcome == replies[r.asked - 1]
    ensures forall i :: 0 <= i < r.asked - 1 ==> replies[i].Fail?
    ensures r.outcome.Fail? ==> r.asked == |replies|
  {
    if |replies| == 1 || replies[0].Ok? then Attempt(1, replies[0])
    else
      var rest := Fallback(replies[1..]);
      Attempt(rest.asked + 1, rest.outcome)
  }

  /** The item's sources: `menuitems/{id}`, then `menu-items/{id}`. */
  function ItemPaths(id: string): (paths: seq<string>)
    ensures |paths| == 2
    ensures paths[0] == "menuitems/" + id && paths[1] == "menu-items/" + id
  {
    ["menuitems/" + id, "menu-items/" + id]
  }

  /** The restaurant whose reviews stand in for the item's: `itemRes.data && itemRes.data.restaurant._id`. */
  function ItemRestaurant(item: Option<MenuItem>): Option<string> {
    if item.Some? then item.value.restaurantId else None
  }

  /**
   * The reviews' sources: `reviews/menuitem/{id}`, then `reviews/menu-item/{id}`,
   * then the owning restaurant's reviews when an item came back and names
   * its restaurant.
   */
  function ReviewPaths(id: string, item: Option<MenuItem>): (paths: seq<string>)
    ensures |paths| == 3 <==> Truthy(ItemRestaurant(item))
    ensures |paths| == 2 <==> !Truthy(ItemRestaurant(item))
    ensures paths[0] == "reviews/menuitem/" + id && paths[1] == "reviews/menu-item/" + id
    ensures |paths| == 3 ==> paths[2] == "reviews/restaurant/" + ItemRestaurant(item).value
  {
    ["reviews/menuitem/" + id, "reviews/menu-item/" + id] +
    (if Truthy(ItemRestaurant(item)) then ["reviews/restaurant/" + ItemRestaurant(item).value] else [])
  }

  /** `reviewsRes.data || []` */
  function OrEmpty(data: Option<seq<Review>>): seq<Review> {
    if data.Some? then data.value else []
  }

  const MissingIdError := "Item ID is missing"
  const LoadErrorPrefix := "Failed to load item details: "

  /** The load error: the server's `error` field or status text, no response, or the setup error. */
  function LoadError(f: Failure): (m: string)
    ensures StartsWith(m, LoadErrorPrefix)
    ensures f.NoResponse? ==> m == LoadErrorPrefix + "No response from server"
    ensures f.ErrorResponse? ==> m == LoadErrorPrefix + OrElse(f.error, f.statusText)
    ensures f.SetupError? ==> m == LoadErrorPrefix + f.reason
  {
    var detail := match f
      case ErrorResponse(statusText, _, error) => OrElse(error, statusText)
      case NoResponse => "No response from server"
      case SetupError(reason) => reason;
    assert (LoadErrorPrefix + detail)[..|LoadErrorPrefix|] == LoadErrorPrefix;
    LoadErrorPrefix + detail
  }

  const LoginToReview := "Please login to submit a review"
  const ReviewSubmitted := "Review submitted successfully!"
  const ReviewFailed := "Failed to submit review"
  const LoginToAdd := "Please login to add items to cart"
  const AddFailed := "Failed to add item to cart"

  /** The requests of the page. */
  datatype Request =
    | PostReview(user: string, menuItem: string, rating: int, comment: string)  // POST reviews/menu-item
    | FetchReviews(path: string)                                               // GET {path}
    | AddToCart(user: string, menuItem: string, quantity: int, price: int)      // POST cart/{user}/add

  /** The route parameter as it appears in a path or a body: an absent one reads "undefined". */
  function IdText(id: Option<string>): string {
    if id.Some? then id.value else "undefined"
  }

  /** The review banner is green exactly when its text contains "success". */
  predicate ReviewAlertIsSuccess(message: string) {
    Contains(message, "success")
  }

  /** The success message gets the green banner. */
  lemma SubmittedAlertIsSuccess()
    ensures ReviewAlertIsSuccess(ReviewSubmitted)
  {
    ContainsAt(ReviewSubmitted, "success", 17);
  }

  /** The failure message gets the red banner. */
  lemma FailureAlertIsDanger()
    ensures !ReviewAlertIsSuccess(ReviewFailed)
  {
    NotContainsLetter(ReviewFailed, "success", 2);
  }

  /** The login prompt gets the red banner. */
  lemma LoginAlertIsDanger()
    ensures !ReviewAlertIsSuccess(LoginToReview)
  {
    NotContainsLetter(LoginToReview, "success", 2);
  }

  /** What the page shows. */
  datatype Screen = LoadingScreen | ErrorScreen(message: string) | NotFoundScreen | ItemScreen

  datatype ItemState = ItemState(
    item: Option<MenuItem>, loading: bool, error: string, reviews: seq<Review>,
    newReview: ReviewDraft, reviewMessage: string)

  /** The early returns of the markup: loading, then any error, then a missing item. */
  function ScreenOf(s: ItemState): (v: Screen)
    ensures v == ItemScreen <==> !s.loading && s.error == "" && s.item.Some?
    ensures v.ErrorScreen? <==> !s.loading && s.error != ""
    ensures v.ErrorScreen? ==> v.message == s.error
  {
    if s.loading then LoadingScreen
    else if s.error != "" then ErrorScreen(s.error)
    else if s.item.None? then NotFoundScreen
    else ItemScreen
  }

  class ItemView {
    /** The route parameter `id`. */
    const id: Option<string>
    var item: Option<MenuItem>
    var loading: bool
    var error: string
    var reviews: seq<Review>
    var newReview: ReviewDraft
    var reviewMessage: string

    function State(): ItemState
      reads this
    {
      ItemState(item, loading, error, reviews, newReview, reviewMessage)
    }

    constructor (id: Option<string>)
      ensures this.id == id
      ensures State() == ItemState(None, true, "", [], FreshDraft, "")
    {
      this.id := id;
      item, loading, error, reviews := None, true, "", [];
      newReview, reviewMessage := FreshDraft, "";
    }

    /**
     * The mount effect; `fetched` lists the paths requested, in order. The
     * item comes from the first of its sources that answers, and an empty
     * body is stored as no item (the page then says the item was not found);
     * the reviews come from the first of theirs, a missing item or one
     * without a restaurant falling back to no reviews at all. A failure that
     * escapes either chain becomes the load error, even after the item was
     * stored.
     */
    method Load(itemReplies: seq<Reply<Option<MenuItem>>>, reviewReplies: seq<Reply<Option<seq<Review>>>>)
      returns (fetched: seq<string>)
      requires |itemReplies| == 2 && |reviewReplies| == 3
      modifies this
      ensures !Truthy(id) ==> fetched == [] && State() == old(State()).(loading := false, error := MissingIdError)
      ensures Truthy(id) && Fallback(itemReplies).outcome.Fail? ==>
        && fetched == ItemPaths(id.value)
        && State() == old(State()).(loading := false, error := LoadError(Fallback(itemReplies).outcome.failure))
      ensures Truthy(id) && Fallback(itemReplies).outcome.Ok? ==>
        var found := Fallback(itemReplies);
        var paths := ReviewPaths(id.value, found.outcome.data);
        var rev := Fallback(reviewReplies[..|paths|]);
        && fetched == ItemPaths(id.value)[..found.asked] + paths[..rev.asked]
        && (rev.outcome.Ok? ==>
              State() == old(State()).(item := found.outcome.data, reviews := OrEmpty(rev.outcome.data), loading := false))
        && (rev.outcome.Fail? && |paths| == 2 ==>
              State() == old(State()).(item := found.outcome.data, reviews := [], loading := false))
        && (rev.outcome.Fail? && |paths| == 3 ==>
              State() == old(State()).(item := found.outcome.data, loading := false,
                                       error := LoadError(rev.outcome.failure)))
    {
      if !Truthy(id) {
        error := MissingIdError;
        loading := false;
        return [];
      }
      var key := id.value;
      fetched := [ItemPaths(key)[0]];
      var itemReply := itemReplies[0];
      if itemReply.Fail? {
        fetched := fetched + [ItemPaths(key)[1]];
        itemReply := itemReplies[1];
      }
      if itemReply.Fail? {
        error := LoadError(itemReply.failure);
        loading := false;
        return;
      }
      item := itemReply.data;
      var paths := ReviewPaths(key, item);
      var before := fetched;
      fetched := fetched + [paths[0]];
      var reviewReply := reviewReplies[0];
      if reviewReply.Fail? {
        fetched := fetched + [paths[1]];
        reviewReply := reviewReplies[1];
        if reviewReply.Fail? {
          if Truthy(ItemRestaurant(item)) {
            fetched := fetched + [paths[2]];
            reviewReply := reviewReplies[2];
          } else {
            reviewReply := Ok(Some([]));
          }
        }
      }
      assert fetched == before + paths[..|fetched| - |before|];
      if reviewReply.Fail? {
        error := LoadError(reviewReply.failure);
        loading := false;
        return;
      }
      reviews := OrEmpty(reviewReply.data);
      loading := false;
    }

    /** `handleReviewChange` */
    method HandleReviewChange(e: ReviewEdit)
      requires e.RatingChosen? ==> ParseInt(e.value).Some?
      modifies this
      ensures State() == old(State()).(newReview := ApplyReviewEdit(old(newReview), e))
    {
      newReview := ApplyReviewEdit(newReview, e);
    }

    /**
     * `submitReview`: without a signed-in user, a message and a delayed
     * redirect to the login page and no request. Otherwise post the draft,
     * re-fetch the item's reviews and reset the form; any failure on the way
     * leaves the reviews and the draft as they were. Either message is
     * cleared after three seconds.
     */
    method SubmitReview(userId: Option<string>, postReply: Reply<()>, refreshReply: Reply<Option<seq<Review>>>)
      returns (effects: seq<Effect<Request>>)
      modifies this
      ensures !Truthy(userId) ==>
        && effects == [NavigateLater(LoginRedirectDelay, LoginPath, None)]
        && State() == old(State()).(reviewMessage := LoginToReview)
      ensures Truthy(userId) ==>
        var post := Send(PostReview(userId.value, IdText(id), old(newReview).rating, old(newReview).comment));
        var refresh := Send(FetchReviews("reviews/menu-item/" + IdText(id)));
        && (postReply.Ok? && refreshReply.Ok? ==>
              && effects == [post, refresh, ClearMessageLater(MessageClearDelay)]
              && State() == old(State()).(reviews := OrEmpty(refreshReply.data), newReview := FreshDraft,
                                          reviewMessage := ReviewSubmitted))
        && (postReply.Ok? && refreshReply.Fail? ==>
              && effects == [post, refresh, ClearMessageLater(MessageClearDelay)]
              && State() == old(State()).(reviewMessage := ReviewFailed))
        && (postReply.Fail? ==>
              effects == [post, ClearMessageLater(MessageClearDelay)] && State() == old(State()).(reviewMessage := ReviewFailed))
    {
      if !Truthy(userId) {
        reviewMessage := LoginToReview;
        return [NavigateLater(LoginRedirectDelay, LoginPath, None)];
      }
      effects := [Send(PostReview(userId.value, IdText(id), newReview.rating, newReview.comment))];
      if postReply.Ok? {
        effects := effects + [Send(FetchReviews("reviews/menu-item/" + IdText(id)))];
        if refreshReply.Ok? {
          reviews := OrEmpty(refreshReply.data);
          newReview := FreshDraft;
          reviewMessage := ReviewSubmitted;
          return effects + [ClearMessageLater(MessageClearDelay)];
        }
      }
      reviewMessage := ReviewFailed;
      effects := effects + [ClearMessageLater(MessageClearDelay)];
    }

    /**
     * `addToCart`: one unit of the displayed item at its own price, then the
     * cart page. With no item on display the request cannot be built and the
     * failure message is shown, as for a rejected request.
     */
    method AddItemToCart(userId: Option<string>, reply: Reply<()>) returns (effects: seq<Effect<Request>>)
      modifies this
      ensures !Truthy(userId) ==>
        effects == [NavigateLater(LoginRedirectDelay, LoginPath, None)] && State() == old(State()).(error := LoginToAdd)
      ensures Truthy(userId) && old(item).None? ==> effects == [] && State() == old(State()).(error := AddFailed)
      ensures Truthy(userId) && old(item).Some? ==>
        var add := Send(AddToCart(userId.value, old(item).value.id, 1, old(item).value.price));
        && (reply.Ok? ==> effects == [add, Navigate("/cart")] && State() == old(State()).(error := ""))
        && (reply.Fail? ==> effects == [add] && State() == old(State()).(error := AddFailed))
    {
      if !Truthy(userId) {
        error := LoginToAdd;
        return [NavigateLater(LoginRedirectDelay, LoginPath, None)];
      }
      if item.None? {
        error := AddFailed;
        return [];
      }
      effects := [Send(AddToCart(userId.value, item.value.id, 1, item.value.price))];
      if reply.Ok? {
        error := "";
        effects := effects + [Navigate("/cart")];
      } else {
        error := AddFailed;
      }
    }
  }

  /**
   * A page whose first item source fails and whose item has no restaurant,
   * with both review sources failing: both item paths and both review paths
   * are tried, in the fallback order, and the item is shown with no reviews
   * and no error.
   */
  method LoadFallbackScenario(key: string, m: MenuItem, f: Failure) returns (fetched: seq<string>, screen: Screen, reviews: seq<Review>)
    requires key != "" && !Truthy(m.restaurantId)
    ensures fetched == ["menuitems/" + key, "menu-items/" + key, "reviews/menuitem/" + key, "reviews/menu-item/" + key]
    ensures screen == ItemScreen && reviews == []
  {
    var view := new ItemView(Some(key));
    fetched := view.Load([Fail(f), Ok(Some(m))], [Fail(f), Fail(f), Ok(None)]);
    screen := ScreenOf(view.State());
    reviews := view.reviews;
  }

  /**
   * A page whose first item source answers with an empty body: the reviews
   * are still fetched, the restaurant fallback is not tried, and the page
   * says the item was not found.
   */
  method NotFoundScenario(key: string, f: Failure) returns (fetched: seq<string>, screen: Screen)
    requires key != ""
    ensures fetched == ["menuitems/" + key, "reviews/menuitem/" + key, "reviews/menu-item/" + key]
    ensures screen == NotFoundScreen
  {
    var view := new ItemView(Some(key));
    fetched := view.Load([Ok(None), Fail(f)], [Fail(f), Fail(f), Fail(f)]);
    screen := ScreenOf(view.State());
  }
}

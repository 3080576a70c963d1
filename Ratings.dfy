/**
 * Star strings, mean ratings and the review form, which ExploreItem.jsx and
 * RestaurantDetail.jsx define identically.
 */
module Ratings {

  import opened Support
  import opened Text
  import opened Catalog

  const FilledStar: char := '★'
  const EmptyStar: char := '☆'

  /**
   * `renderStars(rating)`: floor(rating) filled stars, then empty ones up to
   * five. Both `repeat` counts are non-negative, so nothing throws, exactly
   * for ratings in [0, 6).
   */
  function RenderStars(rating: real): (s: string)
    requires 0.0 <= rating < 6.0
    ensures |s| == 5
    ensures forall i :: 0 <= i < 5 ==> s[i] == (if i < rating.Floor then FilledStar else EmptyStar)
  {
    var filled := rating.Floor;
    Repeat(FilledStar, filled) + Repeat(EmptyStar, 5 - filled)
  }

  lemma StarExamples()
    ensures RenderStars(3.7) == "★★★☆☆"
    ensures RenderStars(0.0) == "☆☆☆☆☆"
    ensures RenderStars(5.0) == "★★★★★"
    ensures RenderStars(5.5) == "★★★★★"
  {
  }

  /** The ratings of a list of reviews, in order. */
  function RatingsOf(reviews: seq<Review>): (rs: seq<int>)
    ensures |rs| == |reviews|
    ensures forall i :: 0 <= i < |rs| ==> rs[i] == reviews[i].rating
  {
    if reviews == [] then [] else [reviews[0].rating] + RatingsOf(reviews[1..])
  }

  /** `reviews.reduce((sum, review) => sum + review.rating, 0)` */
  function Sum(rs: seq<int>): int {
    if rs == [] then 0 else Sum(rs[..|rs| - 1]) + rs[|rs| - 1]
  }

  /** The fold from the left and the sum taken head first agree. */
  lemma {:induction false} SumHeadFirst(rs: seq<int>)
    requires rs != []
    ensures Sum(rs) == rs[0] + Sum(rs[1..])
  {
    if |rs| > 1 {
      SumHeadFirst(rs[..|rs| - 1]);
      assert rs[..|rs| - 1][1..] == rs[1..][..|rs| - 2];
    }
  }

  /**
   * The displayed average: the sentinel 'No ratings yet' when there are no
   * reviews, otherwise `(sum / count).toFixed(1)`, held as a number of tenths.
   */
  datatype AverageRating = NoRatingsYet | Tenths(tenths: int)

  /**
   * The mean rounded to the nearest tenth, a tie going to the larger tenth
   * (what `toFixed(1)` does on a non-negative mean).
   */
  function Average(rs: seq<int>): (a: AverageRating)
    ensures a.NoRatingsYet? <==> |rs| == 0
    ensures a.Tenths? ==> 2 * |rs| * a.tenths - |rs| <= 20 * Sum(rs) < 2 * |rs| * a.tenths + |rs|
  {
    if |rs| == 0 then NoRatingsYet
    else
      var n := |rs|;
      var t := (20 * Sum(rs) + n) / (2 * n);
      assert 2 * n * t <= 20 * Sum(rs) + n < 2 * n * (t + 1);
      Tenths(t)
  }

  /**
   * The number `renderStars` receives for an average: 0 for the sentinel,
   * otherwise the `toFixed(1)` text read back as a number.
   */
  function StarInput(a: AverageRating): (v: real)
    ensures a.NoRatingsYet? ==> v == 0.0
    ensures a.Tenths? ==> v * 10.0 == a.tenths as real
    ensures a.Tenths? && 0 <= a.tenths <= 50 ==> 0.0 <= v <= 5.0
  {
    match a
    case NoRatingsYet => 0.0
    case Tenths(t) => t as real / 10.0
  }

  /** Ratings within [lo, hi] have a sum within [n*lo, n*hi]. */
  lemma {:induction false} SumBounds(rs: seq<int>, lo: int, hi: int)
    requires forall i :: 0 <= i < |rs| ==> lo <= rs[i] <= hi
    ensures |rs| * lo <= Sum(rs) <= |rs| * hi
  {
    if rs != [] {
      SumBounds(rs[..|rs| - 1], lo, hi);
    }
  }

  /** With every rating between 0 and 5 the rounded mean is too, so the star string is defined. */
  lemma {:induction false} AverageInRange(rs: seq<int>)
    requires forall i :: 0 <= i < |rs| ==> 0 <= rs[i] <= 5
    ensures 0.0 <= StarInput(Average(rs)) <= 5.0
  {
    if |rs| > 0 {
      SumBounds(rs, 0, 5);
      var n := |rs|;
      var t := Average(rs).tenths;
      assert n * (2 * t - 1) <= n * 100;
      CancelFactor(2 * t - 1, 100, n);
      assert 0 < n * (2 * t + 1);
      CancelFactor(0, 2 * t + 1, n);
    }
  }

  lemma CancelFactor(a: int, b: int, n: int)
    requires n > 0 && n * a <= n * b
    ensures a <= b
  {
  }

  lemma FloorOfTenths(t: int)
    ensures (t as real / 10.0).Floor == t / 10
  {
    var q, r := t / 10, t % 10;
    assert t as real / 10.0 == q as real + r as real / 10.0;
  }

  /**
   * The stars shown for an average are floor(mean + 1/20), because
   * `renderStars` floors the rounded text rather than the mean itself.
   */
  lemma {:induction false} StarsOfAverage(rs: seq<int>)
    requires |rs| > 0
    ensures StarInput(Average(rs)).Floor == (20 * Sum(rs) + |rs|) / (20 * |rs|)
  {
    var t := Average(rs).tenths;
    FloorOfTenths(t);
    TenthsFloorDiv(20 * Sum(rs) + |rs|, |rs|, t);
  }

  /** A numerator within [2n*t, 2n*(t+1)) divided by 20n gives the whole part of t tenths. */
  lemma TenthsFloorDiv(x: int, n: int, t: int)
    requires n > 0
    requires 2 * n * t <= x < 2 * n * (t + 1)
    ensures x / (20 * n) == t / 10
  {
    var q := t / 10;
    assert 10 * q <= t < 10 * q + 10;
    MulMonotone(2 * n, 10 * q, t);
    MulMonotone(2 * n, t + 1, 10 * q + 10);
    assert 2 * n * (10 * q) == 20 * n * q;
    assert 2 * n * (10 * q + 10) == 20 * n * (q + 1);
    DivUnique(x, 20 * n, q);
  }

  lemma MulMonotone(n: int, a: int, b: int)
    requires n > 0 && a <= b
    ensures n * a <= n * b
  {
  }

  lemma DivUnique(x: int, d: int, q: int)
    requires d > 0 && d * q <= x < d * (q + 1)
    ensures x / d == q
  {
    var r := x % d;
    assert x == d * (x / d) + r;
    if x / d < q {
      MulMonotone(d, x / d + 1, q);
    } else if x / d > q {
      MulMonotone(d, q + 1, x / d);
    }
  }

  /**
   * Twenty-four fives and a four average 4.96, shown as "5.0" and five
   * filled stars although the mean is below 5.
   */
  lemma NearlyFiveShowsFiveStars(rs: seq<int>)
    requires |rs| == 25 && Sum(rs) == 124
    ensures Average(rs) == Tenths(50)
    ensures RenderStars(StarInput(Average(rs))) == "★★★★★"
  {
    StarsOfAverage(rs);
  }

  /**
   * The header's star string for a list of reviews: `renderStars` of the
   * displayed average, or of 0 when there are none. With ratings from 0 to 5
   * it is five symbols, floor(mean + 1/20) of them filled.
   */
  function ReviewStars(reviews: seq<Review>): (s: string)
    requires forall i :: 0 <= i < |reviews| ==> 0 <= reviews[i].rating <= 5
    ensures |s| == 5
    ensures |reviews| == 0 ==> s == "☆☆☆☆☆"
    ensures |reviews| > 0 ==> forall i :: 0 <= i < 5 ==>
      s[i] == (if i < (20 * Sum(RatingsOf(reviews)) + |reviews|) / (20 * |reviews|) then FilledStar else EmptyStar)
  {
    var rs := RatingsOf(reviews);
    AverageInRange(rs);
    if |rs| > 0 then StarsOfAverage(rs); RenderStars(StarInput(Average(rs)))
    else StarExamples(); RenderStars(0.0)
  }

  /** The review form's state `newReview`. */
  datatype ReviewDraft = ReviewDraft(rating: int, comment: string)

  /** The form's initial and post-submission value `{ rating: 5, comment: '' }`. */
  const FreshDraft := ReviewDraft(5, "")

  /** The values the rating select offers. */
  const RatingOptions: seq<string> := ["5", "4", "3", "2", "1"]

  /** A change event of the review form: the rating select or the comment box. */
  datatype ReviewEdit = RatingChosen(value: string) | CommentTyped(text: string)

  /**
   * `handleReviewChange`: the named field takes the event's value, the rating
   * through `parseInt`; the other field keeps its value.
   */
  function ApplyReviewEdit(d: ReviewDraft, e: ReviewEdit): (r: ReviewDraft)
    requires e.RatingChosen? ==> ParseInt(e.value).Some?
    ensures e.RatingChosen? ==> r.comment == d.comment && r.rating == ParseInt(e.value).value
    ensures e.CommentTyped? ==> r.rating == d.rating && r.comment == e.text
  {
    match e
    case RatingChosen(v) => d.(rating := ParseInt(v).value)
    case CommentTyped(t) => d.(comment := t)
  }

  /** Choosing any option of the select stores that option's number, a rating from 1 to 5. */
  lemma ChosenRatingInRange(d: ReviewDraft, k: nat)
    requires k < |RatingOptions|
    ensures ParseInt(RatingOptions[k]).Some?
    ensures ApplyReviewEdit(d, RatingChosen(RatingOptions[k])).rating == 5 - k
    ensures 1 <= ApplyReviewEdit(d, RatingChosen(RatingOptions[k])).rating <= 5
  {
    assert RatingOptions[k] == Show(5 - k);
    ParseShow(5 - k);
  }
}

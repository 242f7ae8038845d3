/** ReviewService: a product's reviews newest first, and its rating summary. */
module ReviewService {
  import opened Wrappers
  import opened Types
  import opened ArrayOps
  import opened BaseService

  function Reviews(data: Data<Review>): seq<Review> {
    Items(data, "reviews")
  }

  /** The stored reviews whose embedded product has the id, in load order. */
  function ReviewsOf(data: Data<Review>, id: string): Result<seq<Review>> {
    FilterByProduct(Reviews(data), ReviewProductId, id)
  }

  /** The list getProductReviews paginates: the product's reviews, newest first. */
  function ProductReviews(data: Data<Review>, id: string): (r: Result<seq<Review>>)
    ensures IsBlank(id) ==> r == Err(EmptyId)
    ensures !IsBlank(id) ==> (r.Ok? <==> ReviewsOf(data, id).Ok?)
    ensures r.Ok? ==> r.value == SortDesc(ReviewsOf(data, id).value, ReviewDate)
  {
    var _ :- ValidateId(id, None);
    var own :- ReviewsOf(data, id);
    Ok(SortDesc(own, ReviewDate))
  }

  function GetProductReviews(data: Data<Review>, id: string, pagination: Option<PaginationOptions>)
    : (r: Result<Connection<Review>>)
    ensures r.Ok? <==> ProductReviews(data, id).Ok?
    ensures r.Err? ==> r.error == ProductReviews(data, id).error
    ensures r.Ok? ==> r.value == CreateConnection(ProductReviews(data, id).value, ReviewId, Paging(pagination, DefaultFirst))
  {
    var items :- ProductReviews(data, id);
    Ok(CreateConnection(items, ReviewId, Paging(pagination, DefaultFirst)))
  }

  /** getProductReviews pages exactly the product's reviews, each as often as it is stored,
      newest first with equal dates in load order; totalCount is their number. */
  lemma ProductReviewsContents(data: Data<Review>, id: string, pagination: Option<PaginationOptions>,
                               x: Review, date: int)
    requires GetProductReviews(data, id, pagination).Ok?
    ensures var r := ProductReviews(data, id).value;
            && multiset(r)[x] == (if ReviewProductId(x) == Some(id) then multiset(Reviews(data))[x] else 0)
            && SortedDesc(r, ReviewDate)
            && WithKey(r, ReviewDate, date) == WithKey(ReviewsOf(data, id).value, ReviewDate, date)
            && GetProductReviews(data, id, pagination).value.totalCount == |ReviewsOf(data, id).value|
  {
    var own := ReviewsOf(data, id).value;
    FilterByProductMultiset(Reviews(data), ReviewProductId, id, x);
    SortDescSorted(own, ReviewDate);
    SortDescStable(own, ReviewDate, date);
  }

  // ----- getRatingSummary -----

  /** The number of reviews with rating exactly k. */
  function CountRating(rs: seq<Review>, k: int): nat {
    if rs == [] then 0
    else CountRating(rs[..|rs| - 1], k) + (if rs[|rs| - 1].rating == k then 1 else 0)
  }

  function SumRatings(rs: seq<Review>): int {
    if rs == [] then 0 else SumRatings(rs[..|rs| - 1]) + rs[|rs| - 1].rating
  }

  const NoRatings := RatingCounts(0, 0, 0, 0, 0)

  /** The summary of a set of reviews: exact average (before one-decimal rounding), count and
      the five buckets; all zeros for no reviews. */
  function Summary(rs: seq<Review>): RatingSummary {
    if |rs| == 0 then RatingSummary(0.0, 0, NoRatings)
    else RatingSummary(
      SumRatings(rs) as real / |rs| as real,
      |rs|,
      RatingCounts(CountRating(rs, 1), CountRating(rs, 2), CountRating(rs, 3), CountRating(rs, 4), CountRating(rs, 5)))
  }

  function RatingSummaryOf(data: Data<Review>, id: string): (r: Result<RatingSummary>)
    ensures IsBlank(id) ==> r == Err(EmptyId)
    ensures r.Ok? <==> ProductReviews(data, id).Ok?
    ensures r.Ok? ==> r.value == Summary(ReviewsOf(data, id).value)
  {
    var _ :- ValidateId(id, None);
    var own :- ReviewsOf(data, id);
    Ok(Summary(own))
  }

  function Bump(c: RatingCounts, rating: int): RatingCounts {
    match rating
    case 1 => c.(oneStar := c.oneStar + 1)
    case 2 => c.(twoStars := c.twoStars + 1)
    case 3 => c.(threeStars := c.threeStars + 1)
    case 4 => c.(fourStars := c.fourStars + 1)
    case 5 => c.(fiveStars := c.fiveStars + 1)
    case _ => c
  }

  /** getRatingSummary: one pass over the product's reviews, adding up the ratings and
      counting each rating 1..5 in its bucket. */
  method GetRatingSummary(data: Data<Review>, id: string) returns (r: Result<RatingSummary>)
    ensures r == RatingSummaryOf(data, id)
  {
    var valid := ValidateId(id, None);
    if valid.Err? {
      return Err(valid.error);
    }
    var found := ReviewsOf(data, id);
    if found.Err? {
      return Err(found.error);
    }
    var productReviews := found.value;
    if |productReviews| == 0 {
      return Ok(RatingSummary(0.0, 0, NoRatings));
    }
    var ratings := NoRatings;
    var totalRating := 0;
    for i := 0 to |productReviews|
      invariant totalRating == SumRatings(productReviews[..i])
      invariant ratings.oneStar == CountRating(productReviews[..i], 1)
      invariant ratings.twoStars == CountRating(productReviews[..i], 2)
      invariant ratings.threeStars == CountRating(productReviews[..i], 3)
      invariant ratings.fourStars == CountRating(productReviews[..i], 4)
      invariant ratings.fiveStars == CountRating(productReviews[..i], 5)
    {
      var review := productReviews[i];
      assert productReviews[..i + 1][..i] == productReviews[..i];
      totalRating := totalRating + review.rating;
      ratings := Bump(ratings, review.rating);
    }
    assert productReviews[..|productReviews|] == productReviews;
    var averageRating := totalRating as real / |productReviews| as real;
    r := Ok(RatingSummary(averageRating, |productReviews|, ratings));
  }

  function BucketTotal(c: RatingCounts): nat {
    c.oneStar + c.twoStars + c.threeStars + c.fourStars + c.fiveStars
  }

  predicate InStarRange(rs: seq<Review>) {
    forall i :: 0 <= i < |rs| ==> 1 <= rs[i].rating <= 5
  }

  /** The number of reviews with a rating in 1..5. */
  function Stars(rs: seq<Review>): nat {
    CountRating(rs, 1) + CountRating(rs, 2) + CountRating(rs, 3) + CountRating(rs, 4) + CountRating(rs, 5)
  }

  lemma {:induction false} StarsCount(rs: seq<Review>)
    ensures Stars(rs) <= |rs|
    ensures Stars(rs) == |rs| <==> InStarRange(rs)
  {
    if rs != [] {
      var init := rs[..|rs| - 1];
      StarsCount(init);
      assert forall i :: 0 <= i < |init| ==> init[i] == rs[i];
      assert InStarRange(rs) <==> InStarRange(init) && 1 <= rs[|rs| - 1].rating <= 5;
    }
  }

  /** The buckets never hold more than totalRatings; they hold all of them exactly when every
      rating is in 1..5 (other ratings are added to the sum but fall in no bucket). */
  lemma BucketsCount(rs: seq<Review>)
    ensures BucketTotal(Summary(rs).ratings) <= Summary(rs).totalRatings
    ensures BucketTotal(Summary(rs).ratings) == Summary(rs).totalRatings <==> InStarRange(rs)
  {
    StarsCount(rs);
    if rs != [] {
      assert BucketTotal(Summary(rs).ratings) == Stars(rs);
    }
  }

  lemma {:induction false} SumBounds(rs: seq<Review>)
    ensures (forall i :: 0 <= i < |rs| ==> rs[i].rating >= 0) ==> SumRatings(rs) >= 0
    ensures InStarRange(rs) ==> |rs| <= SumRatings(rs) <= 5 * |rs|
  {
    if rs != [] {
      var init := rs[..|rs| - 1];
      SumBounds(init);
      forall i | 0 <= i < |init| ensures init[i] == rs[i] { }
    }
  }

  /** Multiplying by a positive real keeps a strict order. */
  lemma MulLess(a: real, c: real, b: real)
    requires a < c && b > 0.0
    ensures a * b < c * b
  {
    assert (c - a) * b == c * b - a * b;
    assert (c - a) * b > 0.0;
  }

  lemma QuotientAtLeast(s: real, n: real, c: real)
    requires n > 0.0 && c * n <= s
    ensures c <= s / n
  {
    var q := s / n;
    assert q * n == s;
    if q < c {
      MulLess(q, c, n);
      assert false;
    }
  }

  lemma QuotientAtMost(s: real, n: real, c: real)
    requires n > 0.0 && s <= c * n
    ensures s / n <= c
  {
    var q := s / n;
    assert q * n == s;
    if q > c {
      MulLess(c, q, n);
      assert false;
    }
  }

  lemma DivBounds(s: real, n: real)
    requires n > 0.0
    ensures s >= 0.0 ==> s / n >= 0.0
    ensures n <= s <= 5.0 * n ==> 1.0 <= s / n <= 5.0
  {
    if s >= 0.0 {
      QuotientAtLeast(s, n, 0.0);
    }
    if n <= s <= 5.0 * n {
      QuotientAtLeast(s, n, 1.0);
      QuotientAtMost(s, n, 5.0);
    }
  }

  /** The exact average is non-negative for non-negative ratings and lies in [1, 5] when every
      rating is in 1..5. */
  lemma AverageBounds(rs: seq<Review>)
    ensures (forall i :: 0 <= i < |rs| ==> rs[i].rating >= 0) ==> Summary(rs).averageRating >= 0.0
    ensures |rs| > 0 && InStarRange(rs) ==> 1.0 <= Summary(rs).averageRating <= 5.0
  {
    SumBounds(rs);
    if |rs| > 0 {
      DivBounds(SumRatings(rs) as real, |rs| as real);
      var n := |rs| as real;
      var s := SumRatings(rs) as real;
      assert Summary(rs).averageRating == s / n;
      if InStarRange(rs) {
        DivBounds(s, n);
      }
    }
  }

  /** The summary covers the same reviews getProductReviews pages, whatever first and after
      are: it succeeds exactly when the page does and totalRatings is its totalCount. */
  lemma SummaryMatchesPage(data: Data<Review>, id: string, pagination: Option<PaginationOptions>)
    ensures RatingSummaryOf(data, id).Ok? <==> GetProductReviews(data, id, pagination).Ok?
    ensures RatingSummaryOf(data, id).Ok? ==>
              RatingSummaryOf(data, id).value.totalRatings == GetProductReviews(data, id, pagination).value.totalCount
  {
  }

  /** A product without reviews has the all-zero summary. */
  lemma NoReviewsAllZero(data: Data<Review>, id: string)
    requires !IsBlank(id)
    requires forall j :: 0 <= j < |Reviews(data)| ==> Reviews(data)[j].product != null && Reviews(data)[j].product.id != id
    ensures RatingSummaryOf(data, id) == Ok(RatingSummary(0.0, 0, NoRatings))
  {
    FilterByProductNone(Reviews(data), ReviewProductId, id);
  }
}

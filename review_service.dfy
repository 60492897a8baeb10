/** The review list: appending, the per-property and per-user views, and the average
    ratings shown for them. */
module ReviewServiceModel {
  import Seqs
  import opened ReviewModel

  /** Sum of the ratings. */
  function SumRatings(rs: seq<Review>): int
  {
    if rs == [] then 0 else rs[0].rating + SumRatings(rs[1..])
  }

  /** IntStream.average().orElse(0.0): the mean rating, 0.0 for no reviews. */
  function Average(rs: seq<Review>): real
  {
    if rs == [] then 0.0 else SumRatings(rs) as real / |rs| as real
  }

  predicate RatingsWithin(rs: seq<Review>, lo: int, hi: int)
  {
    forall i :: 0 <= i < |rs| ==> lo <= rs[i].rating <= hi
  }

  /** With every rating in [lo, hi], the sum lies between |rs| * lo and |rs| * hi. */
  lemma {:induction false} SumRatingsBounds(rs: seq<Review>, lo: int, hi: int)
    requires RatingsWithin(rs, lo, hi)
    ensures |rs| * lo <= SumRatings(rs) <= |rs| * hi
  {
    if rs != [] {
      assert RatingsWithin(rs[1..], lo, hi) by {
        forall i | 0 <= i < |rs[1..]| ensures lo <= rs[1..][i].rating <= hi {
          assert rs[1..][i] == rs[i + 1];
        }
      }
      SumRatingsBounds(rs[1..], lo, hi);
    }
  }

  /** The average of ratings in [lo, hi] is itself in [lo, hi], or 0.0 when there are none. */
  lemma AverageBounds(rs: seq<Review>, lo: int, hi: int)
    requires RatingsWithin(rs, lo, hi)
    ensures rs == [] ==> Average(rs) == 0.0
    ensures rs != [] ==> lo as real <= Average(rs) <= hi as real
  {
    if rs != [] {
      SumRatingsBounds(rs, lo, hi);
      var n := |rs| as real;
      assert n * (lo as real) <= SumRatings(rs) as real <= n * (hi as real);
    }
  }

  /** The sum of a concatenation is the sum of its parts. */
  lemma {:induction false} SumRatingsAppend(rs: seq<Review>, ts: seq<Review>)
    ensures SumRatings(rs + ts) == SumRatings(rs) + SumRatings(ts)
  {
    if rs == [] {
      assert rs + ts == ts;
    } else {
      assert (rs + ts)[1..] == rs[1..] + ts;
      SumRatingsAppend(rs[1..], ts);
    }
  }

  predicate IsPropertyReviewOf(r: Review, listingId: string)
  {
    r.kind == PropertyKind && r.revieweeId == listingId
  }

  class ReviewService {
    var reviews: seq<Review>

    /** The list read from the reviews file. */
    constructor (loaded: seq<Review>)
      ensures reviews == loaded
    {
      reviews := loaded;
    }

    /** addReview: the review is appended in memory; the result is that of the file append
        (`appended`). */
    method AddReview(review: Review, appended: bool) returns (ok: bool)
      modifies this
      ensures reviews == old(reviews) + [review]
      ensures ok == appended
    {
      reviews := reviews + [review];
      ok := appended;
    }

    /** getReviewsForProperty: the property reviews whose reviewee is the listing, in stored
        order. */
    function ReviewsForProperty(listingId: string): (r: seq<Review>)
      reads this
      ensures forall x :: x in r <==> x in reviews && IsPropertyReviewOf(x, listingId)
      ensures |r| <= |reviews|
    {
      Seqs.Filter(reviews, (x: Review) => IsPropertyReviewOf(x, listingId))
    }

    /** getReviewsForUser: every review whose reviewee is the id, of either type. */
    function ReviewsForUser(userId: string): (r: seq<Review>)
      reads this
      ensures forall x :: x in r <==> x in reviews && x.revieweeId == userId
      ensures |r| <= |reviews|
    {
      Seqs.Filter(reviews, (x: Review) => x.revieweeId == userId)
    }

    /** getAverageRatingForProperty. */
    function AverageRatingForProperty(listingId: string): (avg: real)
      reads this
      ensures ReviewsForProperty(listingId) == [] ==> avg == 0.0
    {
      Average(ReviewsForProperty(listingId))
    }

    /** getAverageRatingForUser. */
    function AverageRatingForUser(userId: string): (avg: real)
      reads this
      ensures ReviewsForUser(userId) == [] ==> avg == 0.0
    {
      Average(ReviewsForUser(userId))
    }

    /** getAllReviews: a copy of the list, in stored order. */
    function AllReviews(): (r: seq<Review>)
      reads this
      ensures |r| == |reviews| && forall i :: 0 <= i < |r| ==> r[i] == reviews[i]
    {
      reviews
    }

    /** A listing's property reviews are the property-type reviews among the reviews of the
        same id, in the same order. */
    lemma PropertyReviewsAmongUserReviews(listingId: string)
      ensures ReviewsForProperty(listingId)
           == Seqs.Filter(ReviewsForUser(listingId), (x: Review) => x.kind == PropertyKind)
    {
      var p := (x: Review) => IsPropertyReviewOf(x, listingId);
      var q := (x: Review) => x.revieweeId == listingId;
      var k := (x: Review) => x.kind == PropertyKind;
      Seqs.FilterOfFilter(reviews, p, q);
      Seqs.FilterAgree(Seqs.Filter(reviews, q), p, k);
    }

    /** The average shown for a property lies within the rating range of its reviews. */
    lemma PropertyAverageWithinRatings(listingId: string, lo: int, hi: int)
      requires RatingsWithin(reviews, lo, hi)
      ensures ReviewsForProperty(listingId) != [] ==>
                lo as real <= AverageRatingForProperty(listingId) <= hi as real
    {
      var rs := ReviewsForProperty(listingId);
      forall i | 0 <= i < |rs| ensures lo <= rs[i].rating <= hi {
        var j :| 0 <= j < |reviews| && reviews[j] == rs[i];
      }
      AverageBounds(rs, lo, hi);
    }
  }

  /** Adding a review changes a property's view only by appending that review, and only when
      it is a property review of that listing; earlier reviews keep their order. */
  lemma AddReviewExtendsView(reviews: seq<Review>, review: Review, listingId: string)
    ensures Seqs.Filter(reviews + [review], (x: Review) => IsPropertyReviewOf(x, listingId))
         == Seqs.Filter(reviews, (x: Review) => IsPropertyReviewOf(x, listingId))
            + (if IsPropertyReviewOf(review, listingId) then [review] else [])
  {
    var p := (x: Review) => IsPropertyReviewOf(x, listingId);
    Seqs.FilterAppend(reviews, [review], p);
    assert Seqs.Filter([review], p) == (if p(review) then [review] else []) + Seqs.Filter([], p);
  }

  /** Appending a review with rating v to n reviews gives the new average
      (sum + v) / (n + 1). */
  lemma AverageAfterAppend(rs: seq<Review>, review: Review)
    ensures Average(rs + [review])
         == (SumRatings(rs) + review.rating) as real / (|rs| + 1) as real
  {
    var all := rs + [review];
    SumRatingsAppend(rs, [review]);
    assert [review][1..] == [];
    assert SumRatings([review]) == review.rating;
    assert all != [] && |all| == |rs| + 1;
    assert Average(all) == SumRatings(all) as real / |all| as real;
  }
}

/**
  The rating aggregate that `POST /api/reviews` writes back to `products`:
  `SELECT COALESCE(AVG(rating), 0), COUNT(*) FROM reviews WHERE product_id = ?`.
  The average is an exact rational mean over `real`.
 */
module Ratings {
  import opened Schema

  /** `WHERE product_id = ?`: the reviews of one product, in table order. */
  function ProductReviews(reviews: seq<Review>, productId: string): (r: seq<Review>)
    ensures |r| <= |reviews|
    ensures forall x :: x in r <==> x in reviews && x.productId == productId
  {
    if |reviews| == 0 then []
    else
      var rest := ProductReviews(reviews[1..], productId);
      assert forall x :: x in reviews <==> x == reviews[0] || x in reviews[1..] by {
        assert reviews == [reviews[0]] + reviews[1..];
      }
      if reviews[0].productId == productId then [reviews[0]] + rest else rest
  }

  /** Each review of the product is selected exactly as often as it is stored; no other review is. */
  lemma {:induction false} ProductReviewsMultiset(reviews: seq<Review>, productId: string)
    ensures forall x :: multiset(ProductReviews(reviews, productId))[x]
                     == if x.productId == productId then multiset(reviews)[x] else 0
  {
    if |reviews| > 0 {
      ProductReviewsMultiset(reviews[1..], productId);
      assert multiset(reviews) == multiset{reviews[0]} + multiset(reviews[1..]) by {
        assert reviews == [reviews[0]] + reviews[1..];
      }
    }
  }

  /** Selecting one product's reviews distributes over concatenation. */
  lemma {:induction false} ProductReviewsAppend(a: seq<Review>, b: seq<Review>, productId: string)
    ensures ProductReviews(a + b, productId) == ProductReviews(a, productId) + ProductReviews(b, productId)
  {
    if |a| == 0 {
      assert a + b == b;
    } else {
      assert (a + b)[0] == a[0];
      assert (a + b)[1..] == a[1..] + b;
      ProductReviewsAppend(a[1..], b, productId);
    }
  }

  /** `SUM(rating)` over a list of reviews. */
  function RatingSum(rs: seq<Review>): int {
    if |rs| == 0 then 0 else rs[0].rating + RatingSum(rs[1..])
  }

  /** `COALESCE(AVG(rating), 0)`: 0 for no reviews, otherwise sum divided by count. */
  function Mean(rs: seq<Review>): real {
    if |rs| == 0 then 0.0 else RatingSum(rs) as real / |rs| as real
  }

  /** The `average_rating` recomputed for a product. */
  function AverageRating(reviews: seq<Review>, productId: string): real {
    Mean(ProductReviews(reviews, productId))
  }

  /** The `review_count` recomputed for a product. */
  function ReviewCount(reviews: seq<Review>, productId: string): (c: nat)
    ensures c <= |reviews|
    ensures c == 0 <==> forall x :: x in reviews ==> x.productId != productId
  {
    var rs := ProductReviews(reviews, productId);
    assert |rs| > 0 ==> rs[0] in rs;
    |rs|
  }

  /** If every rating is in 1..5, the sum lies between count and 5 * count. */
  lemma {:induction false} RatingSumBounds(rs: seq<Review>)
    requires forall x :: x in rs ==> 1 <= x.rating <= 5
    ensures |rs| <= RatingSum(rs) <= 5 * |rs|
  {
    if |rs| > 0 {
      assert rs[0] in rs;
      assert forall x :: x in rs[1..] ==> x in rs;
      RatingSumBounds(rs[1..]);
    }
  }

  /** The sum of a concatenation is the sum of the parts. */
  lemma {:induction false} RatingSumAppend(a: seq<Review>, b: seq<Review>)
    ensures RatingSum(a + b) == RatingSum(a) + RatingSum(b)
  {
    if |a| == 0 {
      assert a + b == b;
    } else {
      assert (a + b)[1..] == a[1..] + b;
      RatingSumAppend(a[1..], b);
    }
  }

  /**
    The mean of ratings in 1..5 is 0 for no reviews and within [1, 5] otherwise,
    so the recompute always satisfies `CHECK (average_rating >= 0 AND average_rating <= 5)`.
   */
  lemma MeanInRange(rs: seq<Review>)
    requires forall x :: x in rs ==> 1 <= x.rating <= 5
    ensures |rs| == 0 ==> Mean(rs) == 0.0
    ensures |rs| > 0 ==> 1.0 <= Mean(rs) <= 5.0
    ensures 0.0 <= Mean(rs) <= 5.0
  {
    if |rs| > 0 {
      RatingSumBounds(rs);
      var s, n := RatingSum(rs) as real, |rs| as real;
      assert n <= s <= 5.0 * n;
      DivideBounds(s, n);
    }
  }

  /** For positive n, n <= s <= 5n implies 1 <= s / n <= 5. */
  lemma DivideBounds(s: real, n: real)
    requires n > 0.0 && n <= s <= 5.0 * n
    ensures 1.0 <= s / n <= 5.0
  {
    assert s / n * n == s;
  }

  /** Every review of a valid reviews table has a rating in 1..5. */
  lemma ProductRatingsInRange(reviews: seq<Review>, users: seq<UserRow>, products: seq<Product>, productId: string)
    requires ReviewsValid(reviews, users, products)
    ensures forall x :: x in ProductReviews(reviews, productId) ==> 1 <= x.rating <= 5
    ensures 0.0 <= AverageRating(reviews, productId) <= 5.0
  {
    MeanInRange(ProductReviews(reviews, productId));
  }

  /**
    Appending a review changes only its own product's aggregate, and changes
    it as an incremental update would: one more review, its rating added to the sum.
   */
  lemma AppendReviewAggregate(reviews: seq<Review>, r: Review, productId: string)
    ensures ProductReviews(reviews + [r], productId)
         == ProductReviews(reviews, productId) + (if r.productId == productId then [r] else [])
    ensures r.productId != productId ==>
              AverageRating(reviews + [r], productId) == AverageRating(reviews, productId)
              && ReviewCount(reviews + [r], productId) == ReviewCount(reviews, productId)
    ensures r.productId == productId ==>
              ReviewCount(reviews + [r], productId) == ReviewCount(reviews, productId) + 1
              && AverageRating(reviews + [r], productId)
                 == (RatingSum(ProductReviews(reviews, productId)) + r.rating) as real
                    / (ReviewCount(reviews, productId) + 1) as real
  {
    ProductReviewsAppend(reviews, [r], productId);
    assert ProductReviews([r], productId) == (if r.productId == productId then [r] else []) by {
      assert [r][1..] == [];
    }
    var before := ProductReviews(reviews, productId);
    if r.productId == productId {
      var after := before + [r];
      assert ProductReviews(reviews + [r], productId) == after;
      RatingSumAppend(before, [r]);
      assert RatingSum([r]) == r.rating by {
        assert [r][1..] == [];
      }
      assert |after| == |before| + 1;
      assert RatingSum(after) == RatingSum(before) + r.rating;
      assert Mean(after) == RatingSum(after) as real / |after| as real;
    } else {
      assert before + [] == before;
    }
  }
}

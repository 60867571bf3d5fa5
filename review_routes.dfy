/** The server's review route: one review per customer and product, and the
    product's average rating, review count and review list kept up to date. */
module ReviewRoutes {
  import opened Collections
  import opened ServerStore

  /** The customer has already reviewed the product. */
  predicate Reviewed(reviews: seq<Review>, product: string, customer: string) {
    exists i :: 0 <= i < |reviews| && reviews[i].product == product && reviews[i].customer == customer
  }

  /** No customer has two reviews of the same product. */
  predicate OnePerCustomer(reviews: seq<Review>) {
    forall i, j :: 0 <= i < j < |reviews| ==>
      reviews[i].product != reviews[j].product || reviews[i].customer != reviews[j].customer
  }

  /** `Review.find({ product })`. */
  function ReviewsOf(reviews: seq<Review>, product: string): (r: seq<Review>)
    ensures forall i :: 0 <= i < |r| ==> r[i].product == product && r[i] in reviews
    ensures forall i :: 0 <= i < |reviews| && reviews[i].product == product ==> reviews[i] in r
  {
    Filter(reviews, (rv: Review) => rv.product == product)
  }

  function RatingOf(rv: Review): int {
    rv.rating
  }

  /** The arithmetic mean of the ratings. */
  function Mean(rs: seq<Review>): (r: real)
    requires |rs| > 0
    ensures r * (|rs| as real) == Sum(rs, RatingOf) as real
  {
    (Sum(rs, RatingOf) as real) / (|rs| as real)
  }

  /** The mean lies between the lowest and the highest rating. */
  lemma MeanBounds(rs: seq<Review>, lo: int, hi: int)
    requires |rs| > 0
    requires forall i :: 0 <= i < |rs| ==> lo <= rs[i].rating <= hi
    ensures lo as real <= Mean(rs) <= hi as real
  {
    SumLowerBound(rs, RatingOf, lo);
    SumUpperBound(rs, RatingOf, hi);
    QuotientBounds(Sum(rs, RatingOf), |rs|, lo, hi);
  }

  /** A total between `lo * n` and `hi * n` divided by `n` lies between `lo` and `hi`. */
  lemma QuotientBounds(total: int, n: int, lo: int, hi: int)
    requires n > 0 && lo * n <= total <= hi * n
    ensures lo as real <= (total as real) / (n as real) <= hi as real
  {
    var q := (total as real) / (n as real);
    assert q * (n as real) == total as real;
    assert (lo * n) as real == (lo as real) * (n as real);
    assert (hi * n) as real == (hi as real) * (n as real);
    assert (q - lo as real) * (n as real) >= 0.0;
    assert (hi as real - q) * (n as real) >= 0.0;
  }

  /** Adding one review moves the mean to the sum with the new rating over the count plus one. */
  lemma MeanAfterAdding(rs: seq<Review>, rv: Review)
    ensures Mean(rs + [rv]) == ((Sum(rs, RatingOf) + rv.rating) as real) / ((|rs| + 1) as real)
  {
    SumAppend(rs, [rv], RatingOf);
    assert Sum([rv], RatingOf) == rv.rating;
    assert |rs + [rv]| == |rs| + 1;
  }

  /** The reviews of a product after one more is stored: the earlier ones and then it. */
  lemma ReviewsOfAfterAdding(reviews: seq<Review>, rv: Review)
    ensures ReviewsOf(reviews + [rv], rv.product) == ReviewsOf(reviews, rv.product) + [rv]
  {
    FilterAppend(reviews, [rv], (r: Review) => r.product == rv.product);
  }

  /** The product after the update: the mean of its reviews, their count, and the new review's
      id at the end of its list; nothing else changes. */
  function Rerated(p: ServerProduct, all: seq<Review>, reviewId: string): (r: ServerProduct)
    requires |all| > 0
    ensures r.rating == Mean(all) && r.reviewCount == |all| && r.reviews == p.reviews + [reviewId]
    ensures r.(rating := p.rating, reviewCount := p.reviewCount, reviews := p.reviews) == p
  {
    p.(rating := Mean(all), reviewCount := |all|, reviews := p.reviews + [reviewId])
  }

  /** A new review from someone who had not reviewed the product keeps one review per customer. */
  lemma NewReviewKeepsOnePerCustomer(reviews: seq<Review>, rv: Review)
    requires OnePerCustomer(reviews)
    requires !Reviewed(reviews, rv.product, rv.customer)
    ensures OnePerCustomer(reviews + [rv])
  {
    var r := reviews + [rv];
    forall i, j | 0 <= i < j < |r|
      ensures r[i].product != r[j].product || r[i].customer != r[j].customer
    {
      assert r[i] == reviews[i];
      if j < |reviews| {
        assert r[j] == reviews[j];
      }
    }
  }

  /** `POST /reviews`: a second review by the same customer of the same product answers 400 and
      stores nothing. Otherwise the review is stored under `reviewId` (201) and, when the product
      exists, its rating becomes the mean of all its reviews, its count their number, and the new
      id is appended to its list; a missing product is left missing and the review is kept. */
  method CreateReview(db: Database, requester: Requester, productId: string, rating: int,
                      title: string, comment: string, reviewId: string)
    returns (status: Status)
    modifies db`reviews, db`products
    ensures Reviewed(old(db.reviews), productId, requester.userId) ==>
              status == BadRequest && db.reviews == old(db.reviews) && db.products == old(db.products)
    ensures !Reviewed(old(db.reviews), productId, requester.userId) ==>
              var rv := Review(reviewId, productId, requester.userId, rating, title, comment);
              status == Created && db.reviews == old(db.reviews) + [rv] &&
              |ReviewsOf(db.reviews, productId)| > 0 &&
              db.products == if productId in old(db.products)
                             then old(db.products)[productId := Rerated(old(db.products)[productId], ReviewsOf(db.reviews, productId), reviewId)]
                             else old(db.products)
  {
    if Reviewed(db.reviews, productId, requester.userId) {
      return BadRequest;
    }
    var review := Review(reviewId, productId, requester.userId, rating, title, comment);
    db.reviews := db.reviews + [review];
    var all := ReviewsOf(db.reviews, productId);
    assert review in all by {
      assert db.reviews[|db.reviews| - 1] == review;
    }
    if productId in db.products {
      db.products := db.products[productId := Rerated(db.products[productId], all, reviewId)];
    }
    status := Created;
  }
}

/**
 * Reviews: create (then recompute the product's count and mean rating),
 * update and delete by the (user, product) key, and two newest-first listings.
 */
module ReviewRouter {
  import opened Wrappers
  import opened Tables
  import Seqs
  import Sorting

  /** The input of create and update; `rating` must be 1 to 5, `comment` may be absent. */
  datatype ReviewInput = ReviewInput(productId: int, rating: int, comment: Option<string>)

  /** `orderBy: { createdAt: "desc" }`. */
  function NewestFirst(): (Review, Review) -> bool {
    (a: Review, b: Review) => a.createdAt >= b.createdAt
  }

  lemma NewestFirstTotal()
    ensures Sorting.Total(NewestFirst())
  {
  }

  /** The reviews of one product. */
  function OfProduct(reviews: seq<Review>, productId: int): seq<Review> {
    Seqs.Filter(reviews, (x: Review) => x.productId == productId)
  }

  /** `getProductReviews`: exactly that product's reviews, newest first. */
  function ProductReviews(reviews: seq<Review>, productId: int): (r: seq<Review>)
    ensures forall x :: x in r <==> x in reviews && x.productId == productId
    ensures multiset(r) == multiset(OfProduct(reviews, productId))
    ensures Sorting.SortedBy(r, NewestFirst())
  {
    NewestFirstTotal();
    var r := Sorting.Sort(OfProduct(reviews, productId), NewestFirst());
    Sorting.SameElements(r, OfProduct(reviews, productId));
    r
  }

  /** `getUserReviews`: exactly the user's reviews, newest first. */
  function UserReviews(reviews: seq<Review>, userId: int): (r: seq<Review>)
    ensures forall x :: x in r <==> x in reviews && x.userId == userId
    ensures multiset(r) == multiset(Seqs.Filter(reviews, (x: Review) => x.userId == userId))
    ensures Sorting.SortedBy(r, NewestFirst())
  {
    NewestFirstTotal();
    var mine := Seqs.Filter(reviews, (x: Review) => x.userId == userId);
    var r := Sorting.Sort(mine, NewestFirst());
    Sorting.SameElements(r, mine);
    r
  }

  /** `allReviews.reduce((sum, r) => sum + r.rating, 0)`. */
  function RatingSum(reviews: seq<Review>): int {
    if reviews == [] then 0 else reviews[0].rating + RatingSum(reviews[1..])
  }

  /** The recomputed rating: the sum over `Math.max(count, 1)`. */
  function MeanRating(reviews: seq<Review>): real {
    RatingSum(reviews) as real / (if |reviews| > 1 then |reviews| else 1) as real
  }

  /** Ratings of 1 to 5 sum to between one and five times their number. */
  lemma {:induction false} RatingSumBounds(reviews: seq<Review>)
    requires forall i :: 0 <= i < |reviews| ==> 1 <= reviews[i].rating <= 5
    ensures |reviews| <= RatingSum(reviews) <= 5 * |reviews|
  {
    if reviews != [] {
      RatingSumBounds(reviews[1..]);
    }
  }

  /** The mean of at least one rating of 1 to 5 is itself between 1 and 5 and is the sum over the count. */
  lemma MeanWithinRatings(reviews: seq<Review>)
    requires reviews != []
    requires forall i :: 0 <= i < |reviews| ==> 1 <= reviews[i].rating <= 5
    ensures MeanRating(reviews) == RatingSum(reviews) as real / |reviews| as real
    ensures 1.0 <= MeanRating(reviews) <= 5.0
  {
    RatingSumBounds(reviews);
    QuotientBetween(RatingSum(reviews) as real, |reviews| as real);
  }

  lemma QuotientBetween(s: real, n: real)
    requires n > 0.0 && n <= s <= 5.0 * n
    ensures 1.0 <= s / n <= 5.0
  {
    var m := s / n;
    Cancel(s, n);
    if m > 5.0 {
      Exceeds(n, m, 5.0);
    }
    if m < 1.0 {
      Exceeds(n, 1.0, m);
    }
  }

  lemma Cancel(s: real, n: real)
    requires n > 0.0
    ensures (s / n) * n == s
  {
  }

  lemma Exceeds(n: real, k: real, j: real)
    requires n > 0.0 && k > j
    ensures k * n > j * n
  {
    assert (k - j) * n > 0.0;
    assert (k - j) * n == k * n - j * n;
  }

  /** The sum, hence the mean, does not depend on the order of the reviews. */
  lemma {:induction false} RatingSumPermutation(a: seq<Review>, b: seq<Review>)
    requires multiset(a) == multiset(b)
    ensures RatingSum(a) == RatingSum(b)
    decreases |a|
  {
    if a == [] {
      assert |b| == |multiset(b)| == 0;
    } else {
      assert a[0] in multiset(b);
      var k :| 0 <= k < |b| && b[k] == a[0];
      var rest := b[..k] + b[k + 1..];
      RemoveAt(b, k);
      assert a == [a[0]] + a[1..];
      assert multiset(a[1..]) == multiset(rest);
      RatingSumPermutation(a[1..], rest);
      RatingSumRemove(b, k);
    }
  }

  /** Removing the element at `k` removes one copy of it from the multiset. */
  lemma RemoveAt(b: seq<Review>, k: nat)
    requires k < |b|
    ensures multiset(b[..k] + b[k + 1..]) == multiset(b) - multiset{b[k]}
  {
    assert b == b[..k] + [b[k]] + b[k + 1..];
  }

  /** The sum is the removed rating plus the sum of the rest. */
  lemma RatingSumRemove(b: seq<Review>, k: nat)
    requires k < |b|
    ensures RatingSum(b) == b[k].rating + RatingSum(b[..k] + b[k + 1..])
  {
    RatingSumAppend(b[..k], [b[k]] + b[k + 1..]);
    RatingSumAppend(b[..k], b[k + 1..]);
    assert ([b[k]] + b[k + 1..])[1..] == b[k + 1..];
    assert b == b[..k] + ([b[k]] + b[k + 1..]);
  }

  lemma {:induction false} RatingSumAppend(a: seq<Review>, b: seq<Review>)
    ensures RatingSum(a + b) == RatingSum(a) + RatingSum(b)
  {
    if a == [] {
      assert a + b == b;
    } else {
      assert (a + b)[1..] == a[1..] + b;
      RatingSumAppend(a[1..], b);
    }
  }

  /** `product.update({ where: { id }, data: { rating, reviews } })` on every row with the id. */
  function Reaggregate(products: seq<Product>, productId: int, rating: real, count: int): (r: seq<Product>)
    ensures |r| == |products|
    ensures forall i :: 0 <= i < |products| ==>
      r[i] == if products[i].id == productId then products[i].(rating := rating, reviews := count) else products[i]
  {
    if products == [] then []
    else
      [if products[0].id == productId then products[0].(rating := rating, reviews := count) else products[0]]
      + Reaggregate(products[1..], productId, rating, count)
  }

  /** The position of the review with key (user, product), if any. */
  function FindReview(reviews: seq<Review>, userId: int, productId: int): (r: Option<nat>)
    ensures r.Some? ==> r.value < |reviews| && reviews[r.value].userId == userId && reviews[r.value].productId == productId
    ensures r.None? <==> forall k :: 0 <= k < |reviews| ==> !(reviews[k].userId == userId && reviews[k].productId == productId)
  {
    if reviews == [] then None
    else if reviews[0].userId == userId && reviews[0].productId == productId then Some(0)
    else match FindReview(reviews[1..], userId, productId)
      case Some(k) => Some(k + 1)
      case None => None
  }

  predicate HasProduct(products: seq<Product>, productId: int) {
    exists i :: 0 <= i < |products| && products[i].id == productId
  }

  /** `update` writes the rating, and the comment only when one is given. */
  function Revised(review: Review, input: ReviewInput): Review {
    review.(rating := input.rating, comment := if input.comment.Some? then input.comment else review.comment)
  }

  /**
   * `create`: validates the rating, inserts the review (failing, as the
   * database's keys do, for an unknown product or a second review by the same
   * user), then sets the product's count and mean from all of its reviews.
   */
  method Create(db: Database, userId: int, input: ReviewInput) returns (result: Result<Review>)
    requires db.Valid()
    modifies db
    ensures db.Valid()
    ensures result.Success? <==>
      && 1 <= input.rating <= 5
      && HasProduct(old(db.products), input.productId)
      && FindReview(old(db.reviews), userId, input.productId).None?
    ensures result.Failure? ==>
      db.reviews == old(db.reviews) && db.products == old(db.products) && db.nextId == old(db.nextId)
    ensures result.Success? ==>
      && result.value == Review(old(db.nextId), userId, input.productId, input.rating, input.comment, old(db.nextId))
      && db.reviews == old(db.reviews) + [result.value]
      && db.nextId == old(db.nextId) + 1
      && db.products == Reaggregate(old(db.products), input.productId,
                                    MeanRating(OfProduct(db.reviews, input.productId)),
                                    |OfProduct(db.reviews, input.productId)|)
      && |OfProduct(db.reviews, input.productId)| == |OfProduct(old(db.reviews), input.productId)| + 1
      && forall i :: 0 <= i < |db.products| && db.products[i].id == input.productId ==>
           && db.products[i].reviews == |OfProduct(db.reviews, input.productId)|
           && db.products[i].rating == RatingSum(OfProduct(db.reviews, input.productId)) as real
                                       / |OfProduct(db.reviews, input.productId)| as real
           && 1.0 <= db.products[i].rating <= 5.0
    ensures db.purchases == old(db.purchases) && db.users == old(db.users)
  {
    if !(1 <= input.rating <= 5) {
      return Failure("rating must be between 1 and 5");
    }
    if !HasProduct(db.products, input.productId) {
      return Failure("foreign key constraint failed on productId");
    }
    if FindReview(db.reviews, userId, input.productId).Some? {
      return Failure("unique constraint failed on (userId, productId)");
    }
    // 1. insert the review
    var review := Review(db.nextId, userId, input.productId, input.rating, input.comment, db.nextId);
    InsertReview(db.reviews, review);
    db.reviews := db.reviews + [review];
    db.nextId := db.nextId + 1;
    // 2. recompute the aggregate from every review of the product
    var allReviews := OfProduct(db.reviews, input.productId);
    var newCount := |allReviews|;
    var newAvg := MeanRating(allReviews);
    db.products := Reaggregate(db.products, input.productId, newAvg, newCount);
    result := Success(review);
  }

  /**
   * Appending a review whose key is new keeps the keys unique, adds one to its
   * product's count, and leaves that product's mean a real number from 1 to 5.
   */
  lemma InsertReview(reviews: seq<Review>, review: Review)
    requires UniqueReviewKeys(reviews)
    requires forall i :: 0 <= i < |reviews| ==> 1 <= reviews[i].rating <= 5
    requires 1 <= review.rating <= 5
    requires FindReview(reviews, review.userId, review.productId).None?
    ensures UniqueReviewKeys(reviews + [review])
    ensures var all := OfProduct(reviews + [review], review.productId);
      && |all| == |OfProduct(reviews, review.productId)| + 1
      && MeanRating(all) == RatingSum(all) as real / |all| as real
      && 1.0 <= MeanRating(all) <= 5.0
  {
    var keep := (x: Review) => x.productId == review.productId;
    Seqs.FilterAppend(reviews, [review], keep);
    var all := OfProduct(reviews + [review], review.productId);
    assert review in all;
    forall i | 0 <= i < |all| ensures 1 <= all[i].rating <= 5 {
      assert all[i] in reviews + [review];
    }
    MeanWithinRatings(all);
  }

  /** `update`: rewrites the rating and comment of the (user, product) review; the product's aggregate is not recomputed. */
  method Update(db: Database, userId: int, input: ReviewInput) returns (result: Result<Review>)
    requires db.Valid()
    modifies db
    ensures db.Valid()
    ensures result.Success? <==> 1 <= input.rating <= 5 && FindReview(old(db.reviews), userId, input.productId).Some?
    ensures result.Failure? ==> db.reviews == old(db.reviews)
    ensures result.Success? ==>
      var k := FindReview(old(db.reviews), userId, input.productId).value;
      && result.value == Revised(old(db.reviews)[k], input)
      && db.reviews == old(db.reviews)[k := result.value]
    ensures db.products == old(db.products) && db.purchases == old(db.purchases)
    ensures db.users == old(db.users) && db.nextId == old(db.nextId)
  {
    if !(1 <= input.rating <= 5) {
      return Failure("rating must be between 1 and 5");
    }
    var found := FindReview(db.reviews, userId, input.productId);
    if found.None? {
      return Failure("record to update not found");
    }
    var k := found.value;
    var revised := Revised(db.reviews[k], input);
    db.reviews := db.reviews[k := revised];
    result := Success(revised);
  }

  /** `delete`: removes the (user, product) review; the product's aggregate is not recomputed. */
  method Delete(db: Database, userId: int, productId: int) returns (result: Result<Review>)
    requires db.Valid()
    modifies db
    ensures db.Valid()
    ensures result.Success? <==> FindReview(old(db.reviews), userId, productId).Some?
    ensures result.Failure? ==> db.reviews == old(db.reviews)
    ensures result.Success? ==>
      var k := FindReview(old(db.reviews), userId, productId).value;
      && result.value == old(db.reviews)[k]
      && db.reviews == old(db.reviews)[..k] + old(db.reviews)[k + 1..]
    ensures forall x :: x in db.reviews <==> x in old(db.reviews) && !(x.userId == userId && x.productId == productId)
    ensures db.products == old(db.products) && db.purchases == old(db.purchases)
    ensures db.users == old(db.users) && db.nextId == old(db.nextId)
  {
    var found := FindReview(db.reviews, userId, productId);
    if found.None? {
      return Failure("record to delete does not exist");
    }
    var k := found.value;
    var before := db.reviews;
    var removed := before[k];
    DeleteKeepsOthers(before, k);
    db.reviews := before[..k] + before[k + 1..];
    result := Success(removed);
  }

  /** Deleting position `k` of a table with unique keys removes exactly the rows with that key. */
  lemma DeleteKeepsOthers(reviews: seq<Review>, k: nat)
    requires UniqueReviewKeys(reviews)
    requires k < |reviews|
    ensures var rest := reviews[..k] + reviews[k + 1..];
      && UniqueReviewKeys(rest)
      && forall x :: x in rest <==>
           (x in reviews && !(x.userId == reviews[k].userId && x.productId == reviews[k].productId))
  {
    var rest := reviews[..k] + reviews[k + 1..];
    assert forall i :: 0 <= i < |rest| ==> rest[i] == reviews[if i < k then i else i + 1];
    forall x | x in reviews && !(x.userId == reviews[k].userId && x.productId == reviews[k].productId)
      ensures x in rest
    {
      var i :| 0 <= i < |reviews| && reviews[i] == x;
      assert i != k;
      assert rest[if i < k then i else i - 1] == x;
    }
  }
}

/**
 * Products and their reviews. The product row carries the fields the shop
 * handlers read (name, price, stock) and the two the review handler
 * changes in place: the stored average rating and the list of reviews.
 */
module Catalog {
  import opened Common
  import opened Rating

  /** A review as the product page builds it from the submitted form. */
  datatype Review = Review(
    text: string,
    rate: int,
    createdAt: Instant,
    updatedAt: Instant,
    userId: nat,
    productId: nat)

  /**
   * Why posting a review fails: a form field was not sent (`KeyError`), or
   * the poster is not logged in, so the anonymous user has no `id`.
   */
  datatype ReviewError = MissingField(key: string) | Anonymous

  /** The ratings of the reviews, in order, as reals. */
  function Rates(reviews: seq<Review>): (rs: seq<real>)
    ensures |rs| == |reviews|
    ensures forall i :: 0 <= i < |reviews| ==> rs[i] == reviews[i].rate as real
  {
    if reviews == [] then [] else Rates(reviews[..|reviews| - 1]) + [reviews[|reviews| - 1].rate as real]
  }

  class ProductRecord {
    const id: nat
    const name: string
    const price: int
    const stock: int
    var avgRate: real
    var reviews: seq<Review>

    /** The intended invariant: the stored average is the mean of the review ratings. */
    ghost predicate Valid()
      reads this
    {
      avgRate == Mean(Rates(reviews))
    }

    /** A new product: no reviews, and average rating 0, the assumed default of `avg_rate`. */
    constructor (id: nat, name: string, price: int, stock: int)
      ensures this.id == id && this.name == name && this.price == price && this.stock == stock
      ensures avgRate == 0.0 && reviews == []
      ensures Valid()
    {
      this.id := id;
      this.name := name;
      this.price := price;
      this.stock := stock;
      avgRate := 0.0;
      reviews := [];
    }

    /**
     * A review is posted. Reading a form field that was not sent, or the id
     * of an anonymous user, fails before anything is written. Otherwise the
     * average is folded forward from the review count before the new review
     * is stored, then the review joins the list.
     */
    method SubmitReview(text: Option<string>, rate: Option<int>, user: Option<nat>,
                        createdAt: Instant, updatedAt: Instant)
      returns (r: Result<Review, ReviewError>)
      modifies this
      ensures text == None ==> r == Failure(MissingField("review_text"))
      ensures text != None && rate == None ==> r == Failure(MissingField("review_rate"))
      ensures text != None && rate != None && user == None ==> r == Failure(Anonymous)
      ensures r.Success? <==> text != None && rate != None && user != None
      ensures r.Failure? ==> avgRate == old(avgRate) && reviews == old(reviews)
      ensures r.Success? ==>
        && r.value == Review(text.value, rate.value, createdAt, updatedAt, user.value, id)
        && reviews == old(reviews) + [r.value]
        && avgRate == NextAverage(|old(reviews)|, old(avgRate), rate.value as real)
      ensures old(Valid()) ==> Valid()
    {
      if text == None {
        return Failure(MissingField("review_text"));
      }
      if rate == None {
        return Failure(MissingField("review_rate"));
      }
      if user == None {
        return Failure(Anonymous);
      }
      var review := Review(text.value, rate.value, createdAt, updatedAt, user.value, id);
      var numRates := |reviews|;
      var totalRate := numRates as real * avgRate;
      totalRate := totalRate + rate.value as real;
      avgRate := totalRate / (numRates + 1) as real;
      ghost var before := reviews;
      reviews := reviews + [review];
      RatesAppend(before, review);
      r := Success(review);
    }
  }

  /**
   * The mean after one more review is the incremental update of the mean before it,
   * whatever the rating: no range check is involved.
   */
  lemma {:induction false} RatesAppend(reviews: seq<Review>, r: Review)
    ensures Mean(Rates(reviews + [r])) == NextAverage(|reviews|, Mean(Rates(reviews)), r.rate as real)
  {
    assert Rates(reviews + [r]) == Rates(reviews) + [r.rate as real];
    MeanAppend(Rates(reviews), r.rate as real);
  }
}

/**
 * The running average rating of a product. Submitting a review does not
 * recompute the mean from all reviews: it takes the current review count N
 * and the current average A and stores (N * A + R) / (N + 1) for the new
 * rating R. Ratings and averages are exact reals here.
 */
module Rating {

  function Sum(rs: seq<real>): real {
    if rs == [] then 0.0 else rs[0] + Sum(rs[1..])
  }

  /** The mean of the ratings; for a product without reviews it is 0, the assumed default of `avg_rate`. */
  function Mean(rs: seq<real>): real {
    if |rs| == 0 then 0.0 else Sum(rs) / |rs| as real
  }

  /** The average after one more rating, from the count and the average before it. */
  function NextAverage(count: nat, average: real, rate: real): (a: real)
    ensures count == 0 ==> a == rate
    ensures average <= rate ==> average <= a <= rate
    ensures rate <= average ==> rate <= a <= average
  {
    var total := count as real * average + rate;
    var n := (count + 1) as real;
    assert total / n - average == (rate - average) / n;
    assert rate - total / n == count as real * (rate - average) / n;
    total / n
  }

  lemma {:induction false} SumAppend(rs: seq<real>, r: real)
    ensures Sum(rs + [r]) == Sum(rs) + r
  {
    if rs != [] {
      assert (rs + [r])[1..] == rs[1..] + [r];
      SumAppend(rs[1..], r);
    }
  }

  /** If the average was the mean of the ratings so far, the update gives the mean with the new one. */
  lemma MeanAppend(rs: seq<real>, r: real)
    ensures NextAverage(|rs|, Mean(rs), r) == Mean(rs + [r])
  {
    SumAppend(rs, r);
    if |rs| > 0 {
      var n := |rs| as real;
      assert n * (Sum(rs) / n) == Sum(rs);
    }
  }

  /** The stored average after the ratings are submitted one by one, starting from no reviews. */
  function AverageAfter(rs: seq<real>): real {
    if rs == [] then 0.0
    else NextAverage(|rs| - 1, AverageAfter(rs[..|rs| - 1]), rs[|rs| - 1])
  }

  /** Submitting ratings one at a time leaves exactly their mean as the average. */
  lemma {:induction false} AverageAfterIsMean(rs: seq<real>)
    ensures AverageAfter(rs) == Mean(rs)
  {
    if rs != [] {
      var init := rs[..|rs| - 1];
      AverageAfterIsMean(init);
      MeanAppend(init, rs[|rs| - 1]);
      assert init + [rs[|rs| - 1]] == rs;
    }
  }

  /** A product with no reviews rated 4 and then 2 ends with average 3. */
  lemma TwoReviews()
    ensures AverageAfter([4.0]) == 4.0
    ensures AverageAfter([4.0, 2.0]) == 3.0
  {
  }
}

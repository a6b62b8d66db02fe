/**
 * The review statistic (count and mean of a product's ratings) and the
 * incremental-mean formula the review flow uses to refresh a product's
 * rating from the statistic read before the new review is inserted.
 */
module ReviewStats {

  import opened Model

  function Sum(s: seq<int>): int
  {
    if s == [] then 0 else s[0] + Sum(s[1..])
  }

  /** The arithmetic mean, and 0 for no values; reals stand for Go's float64. */
  function Mean(s: seq<int>): real
  {
    if |s| == 0 then 0.0 else Sum(s) as real / |s| as real
  }

  /** The ratings of the reviews of product `pid`, in insertion order. */
  function RatingsOf(reviews: seq<ProductReview>, pid: int): seq<int>
  {
    if reviews == [] then []
    else (if reviews[0].productId == pid then [reviews[0].rating] else []) + RatingsOf(reviews[1..], pid)
  }

  /** The statistic the review repository reports for product `pid`. */
  function StatisticOf(reviews: seq<ProductReview>, pid: int): (st: Statistic)
    ensures st.count == |RatingsOf(reviews, pid)|
    ensures st.average == Mean(RatingsOf(reviews, pid))
  {
    var rs := RatingsOf(reviews, pid);
    Statistic(|rs|, Mean(rs))
  }

  /**
   * The new product rating: `(count * average + rating) / (count + 1)`. The
   * denominator is positive because a count is never negative.
   */
  function NextRating(stat: Statistic, rating: int): (r: real)
    ensures stat.count == 0 ==> r == rating as real
  {
    (stat.count as real * stat.average + rating as real) / (stat.count + 1) as real
  }

  lemma {:induction false} SumAppend(s: seq<int>, x: int)
    ensures Sum(s + [x]) == Sum(s) + x
  {
    if s == [] {
      assert [] + [x] == [x];
    } else {
      assert (s + [x])[1..] == s[1..] + [x];
      SumAppend(s[1..], x);
    }
  }

  /** Appending a review adds its rating to the ratings of its own product only. */
  lemma {:induction false} RatingsOfAppend(reviews: seq<ProductReview>, r: ProductReview, pid: int)
    ensures RatingsOf(reviews + [r], pid) == RatingsOf(reviews, pid) + (if r.productId == pid then [r.rating] else [])
  {
    if reviews == [] {
      assert [] + [r] == [r];
      assert [r][1..] == [];
    } else {
      var rest, head := reviews[1..], reviews[0];
      var own := if head.productId == pid then [head.rating] else [];
      var added := if r.productId == pid then [r.rating] else [];
      assert (reviews + [r])[0] == head;
      assert (reviews + [r])[1..] == rest + [r];
      assert RatingsOf(reviews + [r], pid) == own + RatingsOf(rest + [r], pid);
      RatingsOfAppend(rest, r, pid);
      assert own + (RatingsOf(rest, pid) + added) == (own + RatingsOf(rest, pid)) + added;
    }
  }

  /** A product no review refers to has no ratings. */
  lemma {:induction false} RatingsOfAbsent(reviews: seq<ProductReview>, pid: int)
    requires forall i :: 0 <= i < |reviews| ==> reviews[i].productId != pid
    ensures RatingsOf(reviews, pid) == []
  {
    if reviews != [] {
      assert forall i :: 0 <= i < |reviews[1..]| ==> reviews[1..][i] == reviews[i + 1];
      RatingsOfAbsent(reviews[1..], pid);
    }
  }

  /** Ratings drawn from reviews rating 1..5 lie in 1..5. */
  lemma {:induction false} RatingsOfInRange(reviews: seq<ProductReview>, pid: int)
    requires forall i :: 0 <= i < |reviews| ==> 1 <= reviews[i].rating <= 5
    ensures forall k :: 0 <= k < |RatingsOf(reviews, pid)| ==> 1 <= RatingsOf(reviews, pid)[k] <= 5
  {
    if reviews != [] {
      assert forall i :: 0 <= i < |reviews[1..]| ==> reviews[1..][i] == reviews[i + 1];
      RatingsOfInRange(reviews[1..], pid);
    }
  }

  /**
   * The incremental mean is exact: feeding the statistic of `s` and a new
   * rating `x` to the formula gives the mean of `s` with `x` appended.
   */
  lemma IncrementalMean(s: seq<int>, x: int)
    ensures NextRating(Statistic(|s|, Mean(s)), x) == Mean(s + [x])
  {
    SumAppend(s, x);
    var n := |s| as real;
    if |s| > 0 {
      assert n * (Sum(s) as real / n) == Sum(s) as real;
    }
    assert |s + [x]| as real == n + 1.0;
  }

  /** The statistic of the reviews before an insert, fed to the formula, is the mean after it. */
  lemma NextRatingIsMeanAfterInsert(reviews: seq<ProductReview>, r: ProductReview)
    ensures NextRating(StatisticOf(reviews, r.productId), r.rating)
         == Mean(RatingsOf(reviews + [r], r.productId))
  {
    RatingsOfAppend(reviews, r, r.productId);
    IncrementalMean(RatingsOf(reviews, r.productId), r.rating);
  }

  /** The worked example: ten reviews averaging 3 and a new rating 4 give 34/11. */
  lemma NextRatingExample()
    ensures NextRating(Statistic(10, 3.0), 4) == 34.0 / 11.0
    ensures NextRating(Statistic(0, 0.0), 5) == 5.0
  {
  }

  lemma {:induction false} SumBounds(s: seq<int>, lo: int, hi: int)
    requires forall i :: 0 <= i < |s| ==> lo <= s[i] <= hi
    ensures lo * |s| <= Sum(s) <= hi * |s|
  {
    if s != [] {
      SumBounds(s[1..], lo, hi);
    }
  }

  /** A quotient of a value between `lo * d` and `hi * d` by a positive `d` lies between `lo` and `hi`. */
  lemma QuotientBounds(a: real, d: real, lo: real, hi: real)
    requires d > 0.0
    requires lo * d <= a <= hi * d
    ensures lo <= a / d <= hi
  {
    var q := a / d;
    assert q * d == a;
    assert (q - lo) * d >= 0.0;
    assert (hi - q) * d >= 0.0;
  }

  /** The mean of ratings in 1..5 lies in 1..5. */
  lemma MeanBounds(s: seq<int>)
    requires |s| > 0
    requires forall i :: 0 <= i < |s| ==> 1 <= s[i] <= 5
    ensures 1.0 <= Mean(s) <= 5.0
  {
    SumBounds(s, 1, 5);
    QuotientBounds(Sum(s) as real, |s| as real, 1.0, 5.0);
  }

  lemma ProductNonNegative(x: real, y: real)
    requires x >= 0.0 && y >= 0.0
    ensures x * y >= 0.0
  {
  }

  /** The numerator of the formula lies between the denominator and five times it. */
  lemma NumeratorBounds(n: real, a: real, r: real)
    requires n >= 0.0
    requires n > 0.0 ==> 1.0 <= a <= 5.0
    requires 1.0 <= r <= 5.0
    ensures 1.0 * (n + 1.0) <= n * a + r <= 5.0 * (n + 1.0)
  {
    if n > 0.0 {
      ProductNonNegative(n, a - 1.0);
      ProductNonNegative(n, 5.0 - a);
      assert n * (a - 1.0) == n * a - n;
      assert n * (5.0 - a) == 5.0 * n - n * a;
    } else {
      assert n == 0.0;
      assert n * a == 0.0;
    }
  }

  /** A rating in 1..5 keeps a displayed rating in 1..5: the formula is a weighted average. */
  lemma NextRatingBounds(stat: Statistic, rating: int)
    requires 1 <= rating <= 5
    requires stat.count > 0 ==> 1.0 <= stat.average <= 5.0
    ensures 1.0 <= NextRating(stat, rating) <= 5.0
  {
    var n, a, r := stat.count as real, stat.average, rating as real;
    var num, d := n * a + r, (stat.count + 1) as real;
    assert NextRating(stat, rating) == num / d;
    assert d == n + 1.0;
    NumeratorBounds(n, a, r);
    QuotientBounds(num, d, 1.0, 5.0);
  }
}

/**
 * The aggregation inside `FirestoreManager.updateReviewSummary`: over the ratings of a
 * show's reviews, the review count, the mean rating and the histogram keyed by the
 * rating truncated to an `Int` (`groupBy { it.rating.toInt() }.mapValues { it.value.size }`).
 * Nothing is written for a show without reviews.
 */
module ReviewAggregation {
  import opened Wrappers
  import opened Models

  /** `Float.toInt()`: rounds toward zero. */
  function Truncate(r: real): (n: int)
    ensures r >= 0.0 ==> n >= 0 && n as real <= r < n as real + 1.0
    ensures r < 0.0 ==> n <= 0 && n as real - 1.0 < r <= n as real
  {
    if r >= 0.0 then r.Floor else -((-r).Floor)
  }

  /** The number of ratings whose truncation is `k`. */
  function CountKey(ratings: seq<real>, k: int): nat
  {
    if |ratings| == 0 then 0
    else CountKey(ratings[..|ratings| - 1], k) + (if Truncate(ratings[|ratings| - 1]) == k then 1 else 0)
  }

  /** The histogram, built one rating at a time as `groupBy` does: one key per truncated rating, with its count. */
  function Histogram(ratings: seq<real>): (h: map<int, int>)
    ensures forall k :: k in h <==> CountKey(ratings, k) > 0
    ensures forall k :: k in h ==> h[k] == CountKey(ratings, k)
  {
    if |ratings| == 0 then map[]
    else
      var h0 := Histogram(ratings[..|ratings| - 1]);
      var k := Truncate(ratings[|ratings| - 1]);
      h0[k := (if k in h0 then h0[k] else 0) + 1]
  }

  /** A key is counted exactly when some rating truncates to it. */
  lemma {:induction false} CountKeyPositive(ratings: seq<real>, k: int)
    ensures CountKey(ratings, k) > 0 <==> exists i :: 0 <= i < |ratings| && Truncate(ratings[i]) == k
  {
    if |ratings| > 0 {
      var init := ratings[..|ratings| - 1];
      CountKeyPositive(init, k);
      if CountKey(init, k) > 0 {
        var i :| 0 <= i < |init| && Truncate(init[i]) == k;
        assert ratings[i] == init[i];
      }
      if exists i :: 0 <= i < |ratings| && Truncate(ratings[i]) == k {
        var i :| 0 <= i < |ratings| && Truncate(ratings[i]) == k;
        if i < |init| {
          assert init[i] == ratings[i];
        }
      }
    }
  }

  /** The sum of a map's values. */
  ghost function SumValues(m: map<int, int>): int
    decreases |m|
  {
    if |m| == 0 then 0
    else
      var k := PickKey(m);
      m[k] + SumValues(m - {k})
  }

  /** Some key of a non-empty map. */
  ghost function PickKey(m: map<int, int>): (k: int)
    requires |m| > 0
    ensures k in m
  {
    NonEmptyHasKey(m);
    var key :| key in m.Keys;
    key
  }

  lemma NonEmptyHasKey(m: map<int, int>)
    requires |m| > 0
    ensures exists k :: k in m.Keys
  {
    if forall k :: k !in m.Keys {
      assert false;
    }
  }

  /** Any key can be taken out first. */
  lemma SumValuesRemove(m: map<int, int>, k: int)
    requires k in m
    ensures SumValues(m) == m[k] + SumValues(m - {k})
    decreases |m|
  {
    var j := PickKey(m);
    if j != k {
      var mj := m - {j};
      var mk := m - {k};
      assert |mj| < |m| && |mk| < |m|;
      SumValuesRemove(mj, k);
      SumValuesRemove(mk, j);
      assert mj - {k} == mk - {j};
    }
  }

  /** Raising one entry by one raises the sum by one. */
  lemma SumValuesBump(m: map<int, int>, k: int)
    ensures SumValues(m[k := (if k in m then m[k] else 0) + 1]) == SumValues(m) + 1
  {
    var m' := m[k := (if k in m then m[k] else 0) + 1];
    SumValuesRemove(m', k);
    assert m' - {k} == m - {k};
    if k in m {
      SumValuesRemove(m, k);
    } else {
      assert m - {k} == m;
    }
  }

  /** The histogram's counts add up to the number of ratings. */
  lemma {:induction false} HistogramTotal(ratings: seq<real>)
    ensures SumValues(Histogram(ratings)) == |ratings|
  {
    if |ratings| > 0 {
      var init := ratings[..|ratings| - 1];
      HistogramTotal(init);
      SumValuesBump(Histogram(init), Truncate(ratings[|ratings| - 1]));
    }
  }

  /** The exact sum of the ratings. */
  function Sum(ratings: seq<real>): real
  {
    if |ratings| == 0 then 0.0 else Sum(ratings[..|ratings| - 1]) + ratings[|ratings| - 1]
  }

  /**
   * The summary written for a show, or `None` when the show has no reviews and nothing
   * is written. The mean is the exact one; the app's `Float` rounding is not modelled.
   */
  function Summarize(showId: string, ratings: seq<real>): (s: Option<ReviewSummary>)
    ensures s.None? <==> |ratings| == 0
    ensures s.Some? ==> s.value.showId == showId && s.value.totalReviews == |ratings|
    ensures s.Some? ==> s.value.averageRating == Sum(ratings) / (|ratings| as real)
    ensures s.Some? ==> forall k :: k in s.value.ratingDistribution <==> CountKey(ratings, k) > 0
    ensures s.Some? ==> forall k :: k in s.value.ratingDistribution ==>
              s.value.ratingDistribution[k] == CountKey(ratings, k)
  {
    if |ratings| == 0 then None
    else Some(ReviewSummary(showId, Sum(ratings) / (|ratings| as real), |ratings|, Histogram(ratings)))
  }

  /** The distribution's counts add up to `totalReviews`. */
  lemma SummaryCountsAddUp(showId: string, ratings: seq<real>)
    requires |ratings| > 0
    ensures SumValues(Summarize(showId, ratings).value.ratingDistribution)
            == Summarize(showId, ratings).value.totalReviews
  {
    HistogramTotal(ratings);
  }

  /** Every review's truncated rating is a key of the distribution. */
  lemma SummaryHasEveryRating(showId: string, ratings: seq<real>, i: int)
    requires 0 <= i < |ratings|
    ensures Truncate(ratings[i]) in Summarize(showId, ratings).value.ratingDistribution
  {
    CountKeyPositive(ratings, Truncate(ratings[i]));
  }

  lemma {:induction false} SumBounds(ratings: seq<real>)
    requires forall i :: 0 <= i < |ratings| ==> 0.0 <= ratings[i] <= 5.0
    ensures 0.0 <= Sum(ratings) <= 5.0 * (|ratings| as real)
  {
    if |ratings| > 0 {
      SumBounds(ratings[..|ratings| - 1]);
    }
  }

  lemma MeanBounds(total: real, n: real)
    requires n > 0.0 && 0.0 <= total <= 5.0 * n
    ensures 0.0 <= total / n <= 5.0
  {
    assert (total / n) * n == total;
  }

  /** With ratings between 0 and 5, the mean is between 0 and 5 and the keys are 0..5. */
  lemma SummaryInRange(showId: string, ratings: seq<real>)
    requires |ratings| > 0
    requires forall i :: 0 <= i < |ratings| ==> 0.0 <= ratings[i] <= 5.0
    ensures 0.0 <= Summarize(showId, ratings).value.averageRating <= 5.0
    ensures forall k :: k in Summarize(showId, ratings).value.ratingDistribution ==> 0 <= k <= 5
  {
    SumBounds(ratings);
    MeanBounds(Sum(ratings), |ratings| as real);
    forall k | k in Summarize(showId, ratings).value.ratingDistribution
      ensures 0 <= k <= 5
    {
      CountKeyPositive(ratings, k);
    }
  }
}

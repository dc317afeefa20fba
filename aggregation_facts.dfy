/**
 * What the Aggregator promises about every row of `reviewer_stats`, stated on
 * the specification row `StatsOf` (which `Aggregate` is proved to produce).
 */
module AggregationFacts {
  import opened Reviews
  import opened Wrappers
  import opened Aggregation

  // ---------------------------------------------------------------------------
  // Means

  /** `n` copies of `x` added up, without a multiplication. */
  function Times(n: nat, x: real): real
  {
    if n == 0 then 0.0 else Times(n - 1, x) + x
  }

  lemma {:induction false} TimesIsProduct(n: nat, x: real)
    ensures Times(n, x) == (n as real) * x
  {
    if n > 0 {
      TimesIsProduct(n - 1, x);
      assert (n as real) * x == ((n - 1) as real) * x + x;
    }
  }

  lemma {:induction false} SumBounds(g: seq<Review>, c: Column, lo: real, hi: real)
    requires forall i :: 0 <= i < |g| ==> lo <= Value(g[i], c) <= hi
    ensures Times(|g|, lo) <= Sum(g, c) <= Times(|g|, hi)
  {
    if g != [] {
      var p := g[..|g| - 1];
      assert forall i :: 0 <= i < |p| ==> p[i] == g[i];
      SumBounds(p, c, lo, hi);
    }
  }

  lemma DivBounds(s: real, n: real, lo: real, hi: real)
    requires n > 0.0 && n * lo <= s <= n * hi
    ensures lo <= s / n <= hi
  {
    var q := s / n;
    assert q * n == s;
  }

  /** A mean of values in [lo, hi] lies in [lo, hi]. */
  lemma MeanBounds(g: seq<Review>, c: Column, lo: real, hi: real)
    requires |g| > 0
    requires forall i :: 0 <= i < |g| ==> lo <= Value(g[i], c) <= hi
    ensures lo <= Mean(g, c) <= hi
  {
    SumBounds(g, c, lo, hi);
    TimesIsProduct(|g|, lo);
    TimesIsProduct(|g|, hi);
    DivBounds(Sum(g, c), |g| as real, lo, hi);
  }

  /** Every row of a reviewer's group is a row of the table with that id. */
  lemma GroupRowsFromTable(rs: seq<Review>, id: string)
    ensures forall i :: 0 <= i < |Group(rs, id)| ==>
      Group(rs, id)[i].reviewerId == id && Group(rs, id)[i] in rs
  {
    forall i | 0 <= i < |Group(rs, id)|
      ensures Group(rs, id)[i].reviewerId == id && Group(rs, id)[i] in rs
    {
      GroupMembers(rs, id, Group(rs, id)[i]);
    }
  }

  /** After the clip, a reviewer's mean rating lies in [1, 5]. */
  lemma AvgRatingInRange(rs: seq<Review>, id: string, sqrt: real -> real)
    requires RatingsClipped(rs) && id in Ids(rs)
    ensures MinRating <= StatsOf(rs, id, sqrt).avgRating <= MaxRating
  {
    var g := Group(rs, id);
    GroupNonEmpty(rs, id);
    GroupRowsFromTable(rs, id);
    MeanBounds(g, Rating, MinRating, MaxRating);
  }

  /** With purchases counted as 0 or 1, the verified ratio lies in [0, 1]. */
  lemma VerifiedRatioInUnitRange(rs: seq<Review>, id: string, sqrt: real -> real)
    requires id in Ids(rs)
    ensures 0.0 <= StatsOf(rs, id, sqrt).verifiedRatio <= 1.0
  {
    GroupNonEmpty(rs, id);
    MeanBounds(Group(rs, id), Verified, 0.0, 1.0);
  }

  // ---------------------------------------------------------------------------
  // Standard deviation

  lemma {:induction false} SumSqDevNonNegative(g: seq<Review>, m: real)
    ensures SumSqDev(g, m) >= 0.0
  {
    if g != [] {
      SumSqDevNonNegative(g[..|g| - 1], m);
      var d := g[|g| - 1].rating - m;
      assert d * d >= 0.0;
    }
  }

  /** The sample variance, when defined, is non-negative. */
  lemma VarianceNonNegative(g: seq<Review>)
    requires |g| > 0
    ensures SampleVariance(g).Some? ==> SampleVariance(g).value >= 0.0
  {
    SumSqDevNonNegative(g, Mean(g, Rating));
  }

  /** `rating_stddev` is never NaN and never negative. */
  lemma StddevNonNegative(rs: seq<Review>, id: string, sqrt: real -> real)
    requires IsSqrt(sqrt) && id in Ids(rs)
    ensures StatsOf(rs, id, sqrt).ratingStddev >= 0.0
  {
    GroupNonEmpty(rs, id);
    VarianceNonNegative(Group(rs, id));
  }

  /** One review: the undefined sample deviation is filled with 0. */
  lemma StddevSingleReview(rs: seq<Review>, id: string, sqrt: real -> real)
    requires id in Ids(rs)
    ensures StatsOf(rs, id, sqrt).numReviews == 1 ==> StatsOf(rs, id, sqrt).ratingStddev == 0.0
  {
    GroupNonEmpty(rs, id);
  }

  /** All ratings equal to `x`: the sum is n x. */
  lemma {:induction false} SumOfConstant(g: seq<Review>, x: real)
    requires forall i :: 0 <= i < |g| ==> g[i].rating == x
    ensures Sum(g, Rating) == (|g| as real) * x
  {
    if g != [] {
      var p := g[..|g| - 1];
      assert forall i :: 0 <= i < |p| ==> p[i] == g[i];
      SumOfConstant(p, x);
    }
  }

  lemma {:induction false} SumSqDevOfConstant(g: seq<Review>, x: real)
    requires forall i :: 0 <= i < |g| ==> g[i].rating == x
    ensures SumSqDev(g, x) == 0.0
  {
    if g != [] {
      var p := g[..|g| - 1];
      assert forall i :: 0 <= i < |p| ==> p[i] == g[i];
      SumSqDevOfConstant(p, x);
    }
  }

  /** A group whose ratings are all `x` has sample deviation 0 (or none). */
  lemma {:induction false} StddevOfConstantGroup(g: seq<Review>, sqrt: real -> real, x: real)
    requires IsSqrt(sqrt) && |g| > 0
    requires forall i :: 0 <= i < |g| ==> g[i].rating == x
    ensures SampleStddev(g, sqrt).GetOr(0.0) == 0.0
  {
    SumOfConstant(g, x);
    assert Mean(g, Rating) == x;
    SumSqDevOfConstant(g, x);
    if |g| >= 2 {
      assert SampleVariance(g) == Some(0.0);
    }
  }

  /** A reviewer whose ratings are all equal has standard deviation 0. */
  lemma StddevOfEqualRatings(rs: seq<Review>, id: string, sqrt: real -> real, x: real)
    requires IsSqrt(sqrt) && id in Ids(rs)
    requires forall i :: 0 <= i < |rs| && rs[i].reviewerId == id ==> rs[i].rating == x
    ensures StatsOf(rs, id, sqrt).ratingStddev == 0.0
  {
    var g := Group(rs, id);
    GroupNonEmpty(rs, id);
    forall i | 0 <= i < |g| ensures g[i].rating == x {
      GroupMembers(rs, id, g[i]);
      var j :| 0 <= j < |rs| && rs[j] == g[i];
    }
    StddevOfConstantGroup(g, sqrt, x);
    assert StatsOf(rs, id, sqrt).ratingStddev == SampleStddev(g, sqrt).GetOr(0.0);
  }

  // ---------------------------------------------------------------------------
  // Last review date

  /**
   * `last_review_date` is the latest of the reviewer's dates, and no later than
   * the latest date of the whole table.
   */
  lemma LastReviewDateIsMaximum(rs: seq<Review>, id: string, sqrt: real -> real)
    requires id in Ids(rs)
    ensures forall i :: 0 <= i < |rs| && rs[i].reviewerId == id ==>
      rs[i].reviewDate <= StatsOf(rs, id, sqrt).lastReviewDate
    ensures exists i :: (0 <= i < |rs| && rs[i].reviewerId == id &&
                         rs[i].reviewDate == StatsOf(rs, id, sqrt).lastReviewDate)
    ensures StatsOf(rs, id, sqrt).lastReviewDate <= MaxDate(rs)
  {
    var g := Group(rs, id);
    var last := StatsOf(rs, id, sqrt).lastReviewDate;
    assert last == MaxDate(g);
    GroupNonEmpty(rs, id);
    GroupIsFilter(rs, id);
    MaxDateIsMaximum(g);
    MaxDateIsMaximum(rs);
    forall i | 0 <= i < |rs| && rs[i].reviewerId == id
      ensures rs[i].reviewDate <= last
    {
      assert rs[i] in multiset(rs);
      assert rs[i] in multiset(g);
      var j :| 0 <= j < |g| && g[j] == rs[i];
    }
    var j :| 0 <= j < |g| && g[j].reviewDate == last;
    GroupMembers(rs, id, g[j]);
    var i :| 0 <= i < |rs| && rs[i] == g[j];
    assert rs[i].reviewerId == id && rs[i].reviewDate == last;
  }

  // ---------------------------------------------------------------------------
  // Recent reviews

  lemma {:induction false} CountRecentAtMostSize(g: seq<Review>, cutoff: int)
    ensures CountRecent(g, cutoff) <= |g|
  {
    if g != [] {
      CountRecentAtMostSize(g[..|g| - 1], cutoff);
    }
  }

  lemma {:induction false} CountRecentPositive(g: seq<Review>, cutoff: int)
    ensures CountRecent(g, cutoff) > 0 <==> exists i :: 0 <= i < |g| && IsRecent(g[i], cutoff)
  {
    if g != [] {
      var p := g[..|g| - 1];
      CountRecentPositive(p, cutoff);
      assert forall i :: 0 <= i < |p| ==> p[i] == g[i];
      if CountRecent(p, cutoff) > 0 {
        var i :| 0 <= i < |p| && IsRecent(p[i], cutoff);
        assert IsRecent(g[i], cutoff);
      }
    }
  }

  /** 0 <= recent_reviews <= num_reviews. */
  lemma RecentAtMostNumReviews(rs: seq<Review>, id: string, sqrt: real -> real)
    requires id in Ids(rs)
    ensures StatsOf(rs, id, sqrt).recentReviews <= StatsOf(rs, id, sqrt).numReviews
  {
    GroupNonEmpty(rs, id);
    CountRecentAtMostSize(Group(rs, id), Cutoff(rs));
  }

  /** A reviewer's row of the table is in their group. */
  lemma InGroup(rs: seq<Review>, i: nat)
    requires i < |rs|
    ensures exists j :: 0 <= j < |Group(rs, rs[i].reviewerId)| && Group(rs, rs[i].reviewerId)[j] == rs[i]
  {
    var g := Group(rs, rs[i].reviewerId);
    GroupIsFilter(rs, rs[i].reviewerId);
    assert rs[i] in multiset(rs);
    assert rs[i] in multiset(g);
  }

  /** A recent review in the group is a recent review of the reviewer in the table. */
  lemma RecentFromGroup(rs: seq<Review>, id: string)
    requires |rs| > 0
    requires CountRecent(Group(rs, id), Cutoff(rs)) > 0
    ensures exists i :: 0 <= i < |rs| && rs[i].reviewerId == id && rs[i].reviewDate >= Cutoff(rs)
  {
    var g := Group(rs, id);
    CountRecentPositive(g, Cutoff(rs));
    var j :| 0 <= j < |g| && IsRecent(g[j], Cutoff(rs));
    GroupMembers(rs, id, g[j]);
    var i :| 0 <= i < |rs| && rs[i] == g[j];
    assert rs[i].reviewerId == id && rs[i].reviewDate >= Cutoff(rs);
  }

  /** A recent review of the reviewer in the table is counted in their group. */
  lemma RecentToGroup(rs: seq<Review>, i: nat)
    requires i < |rs| && rs[i].reviewDate >= Cutoff(rs)
    ensures CountRecent(Group(rs, rs[i].reviewerId), Cutoff(rs)) > 0
  {
    var g := Group(rs, rs[i].reviewerId);
    InGroup(rs, i);
    var j :| 0 <= j < |g| && g[j] == rs[i];
    assert IsRecent(g[j], Cutoff(rs));
    CountRecentPositive(g, Cutoff(rs));
  }

  /**
   * `recent_reviews` is positive exactly when the reviewer has a review dated
   * no earlier than 180 days before the table's latest date; otherwise it is
   * the filled 0.
   */
  lemma RecentPositiveIff(rs: seq<Review>, id: string, sqrt: real -> real)
    requires id in Ids(rs)
    ensures StatsOf(rs, id, sqrt).recentReviews > 0 <==>
      (exists i :: 0 <= i < |rs| && rs[i].reviewerId == id && rs[i].reviewDate >= MaxDate(rs) - RecencyWindowDays)
  {
    GroupNonEmpty(rs, id);
    if StatsOf(rs, id, sqrt).recentReviews > 0 {
      RecentFromGroup(rs, id);
    }
    if exists i :: 0 <= i < |rs| && rs[i].reviewerId == id && rs[i].reviewDate >= Cutoff(rs) {
      var i :| 0 <= i < |rs| && rs[i].reviewerId == id && rs[i].reviewDate >= Cutoff(rs);
      RecentToGroup(rs, i);
    }
  }

  /** The window's lower bound is inclusive: a review exactly 180 days old counts. */
  lemma RecentWindowInclusive(rs: seq<Review>, id: string, sqrt: real -> real, i: nat)
    requires i < |rs| && rs[i].reviewerId == id
    requires rs[i].reviewDate == MaxDate(rs) - RecencyWindowDays
    ensures id in Ids(rs) && StatsOf(rs, id, sqrt).recentReviews >= 1
  {
    IdsMembers(rs, id);
    RecentPositiveIff(rs, id, sqrt);
  }
}

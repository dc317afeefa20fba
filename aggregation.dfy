/**
 * The Aggregator: `groupby('reviewer_id').agg(...)` with the NaN fills and the
 * recency count. The specification functions describe one reviewer's group of
 * rows directly (count, means, sample standard deviation, maximum, recency
 * count); the method `Aggregate` computes the same table by the linear
 * accumulator pass that a group-by amounts to.
 */
module Aggregation {
  import opened Reviews
  import opened Wrappers

  /** Width of the recency window, in days, before the latest review date. */
  const RecencyWindowDays: int := 180

  /** One row of `reviewer_stats`. */
  datatype ReviewerStats = ReviewerStats(
    reviewerId: string,
    numReviews: nat,
    avgRating: real,
    ratingStddev: real,
    avgReviewLength: real,
    avgHelpfulVotes: real,
    verifiedRatio: real,
    lastReviewDate: int,
    recentReviews: nat)

  /** The numeric review columns that are averaged. */
  datatype Column = Rating | ReviewLength | HelpfulVotes | Verified

  /** The value a review contributes to a column's mean; a verified purchase counts as 1. */
  function Value(r: Review, c: Column): real
  {
    match c
    case Rating => r.rating
    case ReviewLength => r.lengthWords as real
    case HelpfulVotes => r.helpfulVotes as real
    case Verified => if r.verifiedPurchase then 1.0 else 0.0
  }

  /** The distinct reviewer ids of a table. */
  function Ids(rs: seq<Review>): set<string>
  {
    if rs == [] then {} else Ids(rs[..|rs| - 1]) + {rs[|rs| - 1].reviewerId}
  }

  /** The rows of one reviewer, in table order: the group `groupby` forms for `id`. */
  function Group(rs: seq<Review>, id: string): (g: seq<Review>)
    ensures |g| <= |rs|
    ensures forall k :: 0 <= k < |g| ==> g[k].reviewerId == id
  {
    if rs == [] then []
    else
      var last := rs[|rs| - 1];
      Group(rs[..|rs| - 1], id) + (if last.reviewerId == id then [last] else [])
  }

  /** A reviewer id is in `Ids` exactly when some row carries it. */
  lemma {:induction false} IdsMembers(rs: seq<Review>, id: string)
    ensures id in Ids(rs) <==> exists i :: 0 <= i < |rs| && rs[i].reviewerId == id
  {
    if rs != [] {
      var p := rs[..|rs| - 1];
      IdsMembers(p, id);
      assert forall i :: 0 <= i < |p| ==> p[i] == rs[i];
    }
  }

  /**
   * `Group` is the filter on the reviewer id: each row of the reviewer occurs in
   * the group as often as in the table, and no other row occurs in it.
   */
  lemma {:induction false} GroupIsFilter(rs: seq<Review>, id: string)
    ensures forall r :: multiset(Group(rs, id))[r] == if r.reviewerId == id then multiset(rs)[r] else 0
  {
    if rs != [] {
      var p := rs[..|rs| - 1];
      GroupIsFilter(p, id);
      assert rs == p + [rs[|rs| - 1]];
    }
  }

  /** Sum of a column over some rows. */
  function Sum(g: seq<Review>, c: Column): real
  {
    if g == [] then 0.0 else Sum(g[..|g| - 1], c) + Value(g[|g| - 1], c)
  }

  /** pandas `mean` of a column over a non-empty group. */
  function Mean(g: seq<Review>, c: Column): real
    requires |g| > 0
  {
    Sum(g, c) / (|g| as real)
  }

  /** Sum of squared ratings. */
  function SumSq(g: seq<Review>): real
  {
    if g == [] then 0.0 else SumSq(g[..|g| - 1]) + g[|g| - 1].rating * g[|g| - 1].rating
  }

  /** Sum of squared deviations of the ratings from `m`. */
  function SumSqDev(g: seq<Review>, m: real): real
  {
    if g == [] then 0.0
    else SumSqDev(g[..|g| - 1], m) + (g[|g| - 1].rating - m) * (g[|g| - 1].rating - m)
  }

  /** pandas `std` (ddof = 1) squared: undefined (NaN) for fewer than two rows. */
  function SampleVariance(g: seq<Review>): (v: Option<real>)
    requires |g| > 0
    ensures v.None? <==> |g| < 2
  {
    if |g| < 2 then None
    else Some(SumSqDev(g, Mean(g, Rating)) / ((|g| - 1) as real))
  }

  /** pandas `std` of the ratings, with `sqrt` the square root numpy applies. */
  function SampleStddev(g: seq<Review>, sqrt: real -> real): (s: Option<real>)
    requires |g| > 0
    ensures s.None? <==> |g| < 2
  {
    match SampleVariance(g)
    case None => None
    case Some(v) => Some(sqrt(v))
  }

  /**
   * `sqrt` is the exact square root on non-negative reals (its value at 0 is
   * stated outright: the solver does not derive it from the square).
   */
  ghost predicate IsSqrt(sqrt: real -> real)
  {
    && sqrt(0.0) == 0.0
    && forall x :: 0.0 <= x ==> 0.0 <= sqrt(x) && sqrt(x) * sqrt(x) == x
  }

  /** pandas `max` of the review dates of a non-empty table. */
  function MaxDate(g: seq<Review>): int
    requires |g| > 0
  {
    if |g| == 1 then g[0].reviewDate
    else
      var m := MaxDate(g[..|g| - 1]);
      var last := g[|g| - 1].reviewDate;
      if m < last then last else m
  }

  /** `MaxDate` bounds every date and is one of them. */
  lemma {:induction false} MaxDateIsMaximum(g: seq<Review>)
    requires |g| > 0
    ensures forall i :: 0 <= i < |g| ==> g[i].reviewDate <= MaxDate(g)
    ensures exists i :: 0 <= i < |g| && g[i].reviewDate == MaxDate(g)
  {
    if |g| == 1 {
      assert g[0].reviewDate == MaxDate(g);
    } else {
      var p := g[..|g| - 1];
      MaxDateIsMaximum(p);
      assert forall i :: 0 <= i < |p| ==> p[i] == g[i];
      if MaxDate(p) < g[|g| - 1].reviewDate {
        assert g[|g| - 1].reviewDate == MaxDate(g);
      } else {
        var i :| 0 <= i < |p| && p[i].reviewDate == MaxDate(p);
        assert g[i].reviewDate == MaxDate(g);
      }
    }
  }

  /** Is a review inside the recency window? The lower bound is inclusive. */
  predicate IsRecent(r: Review, cutoff: int)
  {
    r.reviewDate >= cutoff
  }

  /** Number of rows inside the recency window. */
  function CountRecent(g: seq<Review>, cutoff: int): nat
  {
    if g == [] then 0
    else CountRecent(g[..|g| - 1], cutoff) + (if IsRecent(g[|g| - 1], cutoff) then 1 else 0)
  }

  /** `df['review_date'].max() - pd.Timedelta(days=180)` */
  function Cutoff(rs: seq<Review>): (cutoff: int)
    requires |rs| > 0
    ensures forall i :: 0 <= i < |rs| ==>
      (IsRecent(rs[i], cutoff) <==> MaxDate(rs) - rs[i].reviewDate <= RecencyWindowDays)
  {
    MaxDate(rs) - RecencyWindowDays
  }

  /**
   * The row that `reviewer_stats` holds for `id` once the NaN standard deviation
   * and the missing recency count have both been filled with 0.
   */
  function StatsOf(rs: seq<Review>, id: string, sqrt: real -> real): (s: ReviewerStats)
    requires id in Ids(rs)
    ensures s.reviewerId == id
    ensures s.numReviews == |Group(rs, id)| > 0
    ensures s.numReviews < 2 ==> s.ratingStddev == 0.0
  {
    var g := Group(rs, id);
    GroupNonEmpty(rs, id);
    ReviewerStats(
      id, |g|,
      Mean(g, Rating),
      SampleStddev(g, sqrt).GetOr(0.0),
      Mean(g, ReviewLength),
      Mean(g, HelpfulVotes),
      Mean(g, Verified),
      MaxDate(g),
      CountRecent(g, Cutoff(rs)))
  }

  // ---------------------------------------------------------------------------
  // Facts about groups

  lemma {:induction false} GroupNonEmpty(rs: seq<Review>, id: string)
    ensures id in Ids(rs) <==> |Group(rs, id)| > 0
  {
    var g := Group(rs, id);
    IdsMembers(rs, id);
    GroupIsFilter(rs, id);
    if id in Ids(rs) {
      var i :| 0 <= i < |rs| && rs[i].reviewerId == id;
      assert rs[i] in multiset(rs);
      assert multiset(g)[rs[i]] > 0;
    }
  }

  lemma {:induction false} GroupSnoc(rs: seq<Review>, r: Review, id: string)
    ensures Group(rs + [r], id) == Group(rs, id) + (if r.reviewerId == id then [r] else [])
  {
    assert (rs + [r])[..|rs + [r]| - 1] == rs;
  }

  lemma {:induction false} IdsSnoc(rs: seq<Review>, r: Review)
    ensures Ids(rs + [r]) == Ids(rs) + {r.reviewerId}
  {
    assert (rs + [r])[..|rs + [r]| - 1] == rs;
  }

  /** Every row of a reviewer's group carries that reviewer's id and comes from the table. */
  lemma GroupMembers(rs: seq<Review>, id: string, r: Review)
    requires r in Group(rs, id)
    ensures r.reviewerId == id && r in rs
  {
    GroupIsFilter(rs, id);
    assert r in multiset(Group(rs, id));
  }

  // ---------------------------------------------------------------------------
  // The accumulator of the group-by pass

  /** Running totals for one reviewer. */
  datatype Acc = Acc(
    count: nat,
    sumRating: real,
    sumSqRating: real,
    sumLength: real,
    sumHelpful: real,
    sumVerified: real,
    lastDate: int)

  function Start(r: Review): Acc
  {
    Acc(1, Value(r, Rating), r.rating * r.rating, Value(r, ReviewLength),
        Value(r, HelpfulVotes), Value(r, Verified), r.reviewDate)
  }

  function Add(a: Acc, r: Review): Acc
  {
    Acc(a.count + 1,
        a.sumRating + Value(r, Rating),
        a.sumSqRating + r.rating * r.rating,
        a.sumLength + Value(r, ReviewLength),
        a.sumHelpful + Value(r, HelpfulVotes),
        a.sumVerified + Value(r, Verified),
        if a.lastDate < r.reviewDate then r.reviewDate else a.lastDate)
  }

  /** `a` holds the totals of the non-empty group `g`. */
  ghost predicate Summarizes(a: Acc, g: seq<Review>)
  {
    && |g| > 0
    && a.count == |g|
    && a.sumRating == Sum(g, Rating)
    && a.sumSqRating == SumSq(g)
    && a.sumLength == Sum(g, ReviewLength)
    && a.sumHelpful == Sum(g, HelpfulVotes)
    && a.sumVerified == Sum(g, Verified)
    && a.lastDate == MaxDate(g)
  }

  lemma {:induction false} SummarizesStart(r: Review)
    ensures Summarizes(Start(r), [r])
  {
    assert [r][..0] == [];
  }

  lemma {:induction false} SummarizesAdd(a: Acc, g: seq<Review>, r: Review)
    requires Summarizes(a, g)
    ensures Summarizes(Add(a, r), g + [r])
  {
    assert (g + [r])[..|g + [r]| - 1] == g;
  }

  /** Expanding the squares: sum (x - m)^2 = sum x^2 - 2 m sum x + n m^2. */
  lemma {:induction false} SumSqDevExpand(g: seq<Review>, m: real)
    ensures SumSqDev(g, m) == SumSq(g) - 2.0 * m * Sum(g, Rating) + (|g| as real) * m * m
  {
    if g != [] {
      var p, x := g[..|g| - 1], g[|g| - 1].rating;
      SumSqDevExpand(p, m);
      ExpandStep(SumSqDev(p, m), SumSqDev(g, m), SumSq(p), SumSq(g), Sum(p, Rating), Sum(g, Rating),
                 |p| as real, |g| as real, x, m);
    }
  }

  /** One step of the expansion, over plain numbers: `x` joins a group of `n` rows. */
  lemma ExpandStep(a: real, a1: real, q: real, q1: real, s: real, s1: real, n: real, n1: real, x: real, m: real)
    requires a == q - 2.0 * m * s + n * m * m
    requires a1 == a + (x - m) * (x - m) && q1 == q + x * x && s1 == s + x && n1 == n + 1.0
    ensures a1 == q1 - 2.0 * m * s1 + n1 * m * m
  {
  }

  /** The one-pass sample variance from the totals. */
  function VarianceFromTotals(a: Acc): Option<real>
    requires a.count > 0
  {
    if a.count < 2 then None
    else
      var n := a.count as real;
      Some((a.sumSqRating - a.sumRating * a.sumRating / n) / (n - 1.0))
  }

  /** The one-pass formula over the totals equals the two-pass definition. */
  lemma VarianceFromTotalsCorrect(a: Acc, g: seq<Review>)
    requires Summarizes(a, g)
    ensures VarianceFromTotals(a) == SampleVariance(g)
  {
    if |g| >= 2 {
      var n := |g| as real;
      var s := Sum(g, Rating);
      var m := s / n;
      SumSqDevExpand(g, m);
      assert n * m == s;
      assert 2.0 * m * s == 2.0 * (s * s / n);
      assert n * m * m == s * s / n;
      assert SumSqDev(g, m) == SumSq(g) - s * s / n;
    }
  }

  /** The finished row of one reviewer, given the per-reviewer recency counts. */
  function Finish(id: string, a: Acc, sqrt: real -> real, recent: map<string, nat>): (s: ReviewerStats)
    requires a.count > 0
    ensures s.reviewerId == id && s.numReviews == a.count && s.lastReviewDate == a.lastDate
    ensures a.count < 2 ==> s.ratingStddev == 0.0
    ensures id !in recent ==> s.recentReviews == 0
  {
    var n := a.count as real;
    var std := match VarianceFromTotals(a)
      case None => None
      case Some(v) => Some(sqrt(v));
    ReviewerStats(
      id, a.count,
      a.sumRating / n,
      std.GetOr(0.0),                                 // fillna(0) on rating_stddev
      a.sumLength / n,
      a.sumHelpful / n,
      a.sumVerified / n,
      a.lastDate,
      if id in recent then recent[id] else 0)         // map(...).fillna(0)
  }

  // ---------------------------------------------------------------------------
  // The passes

  /** `df['review_date'].max()` */
  method GlobalMaxDate(rs: seq<Review>) returns (m: int)
    requires |rs| > 0
    ensures forall i :: 0 <= i < |rs| ==> rs[i].reviewDate <= m
    ensures exists i :: 0 <= i < |rs| && rs[i].reviewDate == m
    ensures m == MaxDate(rs)
  {
    m := rs[0].reviewDate;
    var i := 1;
    while i < |rs|
      invariant 1 <= i <= |rs|
      invariant m == MaxDate(rs[..i])
    {
      assert rs[..i + 1][..i] == rs[..i];
      if m < rs[i].reviewDate {
        m := rs[i].reviewDate;
      }
      i := i + 1;
    }
    assert rs[..i] == rs;
    MaxDateIsMaximum(rs);
  }

  /** The recency counts of a table: keys are the reviewers with at least one recent review. */
  ghost predicate RecentCountsOf(counts: map<string, nat>, rs: seq<Review>, cutoff: int)
  {
    && (forall id :: id in counts <==> CountRecent(Group(rs, id), cutoff) > 0)
    && (forall id :: id in counts ==> counts[id] == CountRecent(Group(rs, id), cutoff))
  }

  /** Counts one more row into the recency counts. */
  function CountIfRecent(counts: map<string, nat>, r: Review, cutoff: int): map<string, nat>
  {
    if IsRecent(r, cutoff) then
      counts[r.reviewerId := (if r.reviewerId in counts then counts[r.reviewerId] else 0) + 1]
    else counts
  }

  lemma {:induction false} CountIfRecentStep(counts: map<string, nat>, rs: seq<Review>, r: Review, cutoff: int)
    requires RecentCountsOf(counts, rs, cutoff)
    ensures RecentCountsOf(CountIfRecent(counts, r, cutoff), rs + [r], cutoff)
  {
    forall id
      ensures CountRecent(Group(rs + [r], id), cutoff)
           == CountRecent(Group(rs, id), cutoff) + (if r.reviewerId == id && IsRecent(r, cutoff) then 1 else 0)
    {
      GroupSnoc(rs, r, id);
      if r.reviewerId == id {
        CountRecentSnoc(Group(rs, id), r, cutoff);
      } else {
        assert Group(rs + [r], id) == Group(rs, id);
      }
    }
  }

  /**
   * `df[df['review_date'] >= cutoff].groupby('reviewer_id').size()`: a reviewer
   * is a key exactly when at least one of their reviews is recent.
   */
  method CountRecentByReviewer(rs: seq<Review>, cutoff: int) returns (counts: map<string, nat>)
    ensures RecentCountsOf(counts, rs, cutoff)
  {
    counts := map[];
    var i := 0;
    while i < |rs|
      invariant 0 <= i <= |rs|
      invariant RecentCountsOf(counts, rs[..i], cutoff)
    {
      assert rs[..i + 1] == rs[..i] + [rs[i]];
      CountIfRecentStep(counts, rs[..i], rs[i], cutoff);
      counts := CountIfRecent(counts, rs[i], cutoff);
      i := i + 1;
    }
    assert rs[..i] == rs;
  }

  lemma {:induction false} CountRecentSnoc(g: seq<Review>, r: Review, cutoff: int)
    ensures CountRecent(g + [r], cutoff) == CountRecent(g, cutoff) + (if IsRecent(r, cutoff) then 1 else 0)
  {
    assert (g + [r])[..|g + [r]| - 1] == g;
  }

  /** Distinct elements. */
  ghost predicate Distinct(ids: seq<string>)
  {
    forall i, j :: 0 <= i < j < |ids| ==> ids[i] != ids[j]
  }

  /** The state of the group-by pass after the rows `rs`. */
  ghost predicate Accumulated(acc: map<string, Acc>, order: seq<string>, rs: seq<Review>)
  {
    && acc.Keys == Ids(rs)
    && (forall id :: id in order <==> id in acc)
    && Distinct(order)
    && (forall id :: id in acc ==> Summarizes(acc[id], Group(rs, id)))
  }

  lemma {:induction false} AccumulateAdd(acc: map<string, Acc>, order: seq<string>, rs: seq<Review>, r: Review)
    requires Accumulated(acc, order, rs)
    requires r.reviewerId in acc
    ensures Accumulated(acc[r.reviewerId := Add(acc[r.reviewerId], r)], order, rs + [r])
  {
    var id := r.reviewerId;
    var a := Add(acc[id], r);
    var acc' := acc[id := a];
    IdsSnoc(rs, r);
    GroupSnoc(rs, r, id);
    SummarizesAdd(acc[id], Group(rs, id), r);
    assert Summarizes(a, Group(rs + [r], id));
    forall k | k in acc' && k != id ensures Summarizes(acc'[k], Group(rs + [r], k)) {
      GroupSnoc(rs, r, k);
      assert Group(rs + [r], k) == Group(rs, k) + [];
      assert Group(rs, k) + [] == Group(rs, k);
      assert acc'[k] == acc[k];
    }
  }

  lemma {:induction false} AccumulateStart(acc: map<string, Acc>, order: seq<string>, rs: seq<Review>, r: Review)
    requires Accumulated(acc, order, rs)
    requires r.reviewerId !in acc
    ensures Accumulated(acc[r.reviewerId := Start(r)], order + [r.reviewerId], rs + [r])
  {
    var id := r.reviewerId;
    var acc' := acc[id := Start(r)];
    IdsSnoc(rs, r);
    forall k | k in acc' ensures Summarizes(acc'[k], Group(rs + [r], k)) {
      GroupSnoc(rs, r, k);
      if k == id {
        GroupNonEmpty(rs, id);
        assert Group(rs + [r], id) == [r];
        SummarizesStart(r);
      } else {
        assert Group(rs + [r], k) == Group(rs, k);
      }
    }
  }

  /** Folds one row into the group-by state. */
  function Accumulate(acc: map<string, Acc>, order: seq<string>, r: Review): (map<string, Acc>, seq<string>)
  {
    var id := r.reviewerId;
    if id in acc then (acc[id := Add(acc[id], r)], order)
    else (acc[id := Start(r)], order + [id])
  }

  lemma {:induction false} AccumulateStep(acc: map<string, Acc>, order: seq<string>, rs: seq<Review>, i: nat)
    requires i < |rs| && Accumulated(acc, order, rs[..i])
    ensures Accumulated(Accumulate(acc, order, rs[i]).0, Accumulate(acc, order, rs[i]).1, rs[..i + 1])
  {
    assert rs[..i + 1] == rs[..i] + [rs[i]];
    if rs[i].reviewerId in acc {
      AccumulateAdd(acc, order, rs[..i], rs[i]);
    } else {
      AccumulateStart(acc, order, rs[..i], rs[i]);
    }
  }

  /**
   * The group-by pass: one accumulator per reviewer id, and the ids in order of
   * first appearance.
   */
  method GroupBy(rs: seq<Review>) returns (acc: map<string, Acc>, order: seq<string>)
    ensures Accumulated(acc, order, rs)
  {
    acc, order := map[], [];
    var i := 0;
    while i < |rs|
      invariant 0 <= i <= |rs|
      invariant Accumulated(acc, order, rs[..i])
    {
      AccumulateStep(acc, order, rs, i);
      acc, order := Accumulate(acc, order, rs[i]).0, Accumulate(acc, order, rs[i]).1;
      i := i + 1;
    }
    assert rs[..i] == rs;
  }

  /**
   * The whole of `reviewer_stats`: one row per distinct reviewer id, each equal
   * to the specification `StatsOf` (so counts, means, filled standard deviation,
   * last date and filled recency count are those of the reviewer's group).
   */
  method Aggregate(rs: seq<Review>, sqrt: real -> real) returns (stats: seq<ReviewerStats>)
    ensures forall i, j :: 0 <= i < j < |stats| ==> stats[i].reviewerId != stats[j].reviewerId
    ensures forall id :: id in Ids(rs) <==> exists i :: 0 <= i < |stats| && stats[i].reviewerId == id
    ensures forall i :: 0 <= i < |stats| ==>
      stats[i].reviewerId in Ids(rs) && stats[i] == StatsOf(rs, stats[i].reviewerId, sqrt)
  {
    if |rs| == 0 {
      return [];
    }
    var acc, order := GroupBy(rs);

    // The recency pass, over the whole table.
    var globalMax := GlobalMaxDate(rs);
    var cutoff := globalMax - RecencyWindowDays;
    assert cutoff == Cutoff(rs);
    var recent := CountRecentByReviewer(rs, cutoff);

    // One finished row per reviewer, with both NaN fills applied.
    FinishAllCorrect(rs, acc, order, sqrt, recent);
    stats := FinishRows(acc, order, sqrt, recent);
    FinishedRowsAreStats(rs, acc, order, sqrt, recent, stats);
  }

  /** The rows finished in the order of `order` form the table `Aggregate` promises. */
  lemma FinishedRowsAreStats(rs: seq<Review>, acc: map<string, Acc>, order: seq<string>,
                             sqrt: real -> real, recent: map<string, nat>, stats: seq<ReviewerStats>)
    requires Distinct(order)
    requires forall id :: id in Ids(rs) <==> id in order
    requires forall k :: 0 <= k < |order| ==> order[k] in acc && acc[order[k]].count > 0
    requires forall k :: 0 <= k < |order| ==>
      order[k] in Ids(rs) && Finish(order[k], acc[order[k]], sqrt, recent) == StatsOf(rs, order[k], sqrt)
    requires |stats| == |order|
    requires forall k :: 0 <= k < |order| ==> stats[k] == Finish(order[k], acc[order[k]], sqrt, recent)
    ensures forall i, j :: 0 <= i < j < |stats| ==> stats[i].reviewerId != stats[j].reviewerId
    ensures forall id :: id in Ids(rs) <==> exists i :: 0 <= i < |stats| && stats[i].reviewerId == id
    ensures forall i :: 0 <= i < |stats| ==>
      stats[i].reviewerId in Ids(rs) && stats[i] == StatsOf(rs, stats[i].reviewerId, sqrt)
  {
    assert forall k :: 0 <= k < |stats| ==> stats[k].reviewerId == order[k];
    forall id | id in Ids(rs)
      ensures exists k :: 0 <= k < |stats| && stats[k].reviewerId == id
    {
      var k :| 0 <= k < |order| && order[k] == id;
      assert stats[k].reviewerId == id;
    }
  }

  /** Builds the rows of `reviewer_stats` from the accumulators, in the order of `order`. */
  method FinishRows(acc: map<string, Acc>, order: seq<string>, sqrt: real -> real, recent: map<string, nat>)
    returns (stats: seq<ReviewerStats>)
    requires forall k :: 0 <= k < |order| ==> order[k] in acc && acc[order[k]].count > 0
    ensures |stats| == |order|
    ensures forall k :: 0 <= k < |order| ==> stats[k] == Finish(order[k], acc[order[k]], sqrt, recent)
  {
    stats := [];
    var j := 0;
    while j < |order|
      invariant 0 <= j <= |order|
      invariant |stats| == j
      invariant forall k :: 0 <= k < j ==> stats[k] == Finish(order[k], acc[order[k]], sqrt, recent)
    {
      stats := stats + [Finish(order[j], acc[order[j]], sqrt, recent)];
      j := j + 1;
    }
  }

  /** Each finished row is the specification row of its reviewer, and every reviewer gets one. */
  lemma FinishAllCorrect(rs: seq<Review>, acc: map<string, Acc>, order: seq<string>,
                         sqrt: real -> real, recent: map<string, nat>)
    requires |rs| > 0 && Accumulated(acc, order, rs)
    requires RecentCountsOf(recent, rs, Cutoff(rs))
    ensures forall k :: 0 <= k < |order| ==> order[k] in acc && acc[order[k]].count > 0
    ensures Distinct(order)
    ensures forall id :: id in Ids(rs) <==> id in order
    ensures forall k :: 0 <= k < |order| ==>
      order[k] in Ids(rs) && Finish(order[k], acc[order[k]], sqrt, recent) == StatsOf(rs, order[k], sqrt)
  {
    forall k | 0 <= k < |order|
      ensures order[k] in acc && acc[order[k]].count > 0
      ensures order[k] in Ids(rs) && Finish(order[k], acc[order[k]], sqrt, recent) == StatsOf(rs, order[k], sqrt)
    {
      FinishCorrect(rs, order[k], acc, order, sqrt, recent);
    }
  }

  lemma FinishCorrect(rs: seq<Review>, id: string, acc: map<string, Acc>, order: seq<string>,
                      sqrt: real -> real, recent: map<string, nat>)
    requires |rs| > 0 && Accumulated(acc, order, rs) && id in acc
    requires RecentCountsOf(recent, rs, Cutoff(rs))
    ensures id in Ids(rs) && acc[id].count > 0
    ensures Finish(id, acc[id], sqrt, recent) == StatsOf(rs, id, sqrt)
  {
    VarianceFromTotalsCorrect(acc[id], Group(rs, id));
  }
}

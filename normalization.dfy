/**
 * The Normalizer: scikit-learn's `MinMaxScaler().fit_transform` applied to the
 * seven scoring features of `reviewer_stats`, on a copy of the table.
 * Each feature column is rescaled independently by (v - min) / (max - min)
 * over the current population; a column whose range is 0 is divided by 1
 * instead, which maps every value of it to 0.
 */
module Normalization {
  import opened Wrappers
  import opened Aggregation

  /** The columns listed in `features`, in that order. */
  datatype Feature =
    | NumReviews | AvgRating | RatingStddev | AvgReviewLength
    | AvgHelpfulVotes | VerifiedRatio | RecentReviews

  const ScoringFeatures: seq<Feature> :=
    [NumReviews, AvgRating, RatingStddev, AvgReviewLength, AvgHelpfulVotes, VerifiedRatio, RecentReviews]

  /** The seven numeric feature values of one reviewer. */
  datatype FeatureVector = FeatureVector(
    numReviews: real,
    avgRating: real,
    ratingStddev: real,
    avgReviewLength: real,
    avgHelpfulVotes: real,
    verifiedRatio: real,
    recentReviews: real)
  {
    function Get(f: Feature): real
    {
      match f
      case NumReviews => numReviews
      case AvgRating => avgRating
      case RatingStddev => ratingStddev
      case AvgReviewLength => avgReviewLength
      case AvgHelpfulVotes => avgHelpfulVotes
      case VerifiedRatio => verifiedRatio
      case RecentReviews => recentReviews
    }

    /** The vector with feature `f` replaced by `x`; every other feature is kept. */
    function Set(f: Feature, x: real): (v: FeatureVector)
      ensures v.Get(f) == x
      ensures forall h :: h != f ==> v.Get(h) == Get(h)
    {
      match f
      case NumReviews => this.(numReviews := x)
      case AvgRating => this.(avgRating := x)
      case RatingStddev => this.(ratingStddev := x)
      case AvgReviewLength => this.(avgReviewLength := x)
      case AvgHelpfulVotes => this.(avgHelpfulVotes := x)
      case VerifiedRatio => this.(verifiedRatio := x)
      case RecentReviews => this.(recentReviews := x)
    }
  }

  /** The unscaled feature values of a `reviewer_stats` row; counts become reals. */
  function Features(s: ReviewerStats): FeatureVector
  {
    FeatureVector(s.numReviews as real, s.avgRating, s.ratingStddev, s.avgReviewLength,
                  s.avgHelpfulVotes, s.verifiedRatio, s.recentReviews as real)
  }

  /** One row of `reviewer_stats_scaled`: the copied id and date, and scaled features. */
  datatype ScaledStats = ScaledStats(reviewerId: string, lastReviewDate: int, features: FeatureVector)

  /** scikit-learn refuses to fit on a table without rows. */
  datatype ScalingError = NoSamples

  /** One feature column of the table, as `reviewer_stats[f]`. */
  function Column(stats: seq<ReviewerStats>, f: Feature): (col: seq<real>)
    ensures |col| == |stats|
    ensures forall i :: 0 <= i < |stats| ==> col[i] == Features(stats[i]).Get(f)
  {
    seq(|stats|, i requires 0 <= i < |stats| => Features(stats[i]).Get(f))
  }

  // ---------------------------------------------------------------------------
  // Column minimum and maximum

  function Min(xs: seq<real>): real
    requires |xs| > 0
  {
    if |xs| == 1 then xs[0]
    else
      var m := Min(xs[..|xs| - 1]);
      if xs[|xs| - 1] < m then xs[|xs| - 1] else m
  }

  function Max(xs: seq<real>): real
    requires |xs| > 0
  {
    if |xs| == 1 then xs[0]
    else
      var m := Max(xs[..|xs| - 1]);
      if m < xs[|xs| - 1] then xs[|xs| - 1] else m
  }

  /** `Min` is a lower bound of the column and one of its values. */
  lemma {:induction false} MinIsMinimum(xs: seq<real>)
    requires |xs| > 0
    ensures forall i :: 0 <= i < |xs| ==> Min(xs) <= xs[i]
    ensures exists i :: 0 <= i < |xs| && xs[i] == Min(xs)
  {
    if |xs| == 1 {
      assert xs[0] == Min(xs);
    } else {
      var p := xs[..|xs| - 1];
      MinIsMinimum(p);
      assert forall i :: 0 <= i < |p| ==> p[i] == xs[i];
      if xs[|xs| - 1] < Min(p) {
        assert xs[|xs| - 1] == Min(xs);
      } else {
        var i :| 0 <= i < |p| && p[i] == Min(p);
        assert xs[i] == Min(xs);
      }
    }
  }

  /** `Max` is an upper bound of the column and one of its values. */
  lemma {:induction false} MaxIsMaximum(xs: seq<real>)
    requires |xs| > 0
    ensures forall i :: 0 <= i < |xs| ==> xs[i] <= Max(xs)
    ensures exists i :: 0 <= i < |xs| && xs[i] == Max(xs)
  {
    if |xs| == 1 {
      assert xs[0] == Max(xs);
    } else {
      var p := xs[..|xs| - 1];
      MaxIsMaximum(p);
      assert forall i :: 0 <= i < |p| ==> p[i] == xs[i];
      if Max(p) < xs[|xs| - 1] {
        assert xs[|xs| - 1] == Max(xs);
      } else {
        var i :| 0 <= i < |p| && p[i] == Max(p);
        assert xs[i] == Max(xs);
      }
    }
  }

  // ---------------------------------------------------------------------------
  // The scaling formula

  /**
   * (x - lo) / (hi - lo), where a zero range is replaced by 1 as scikit-learn's
   * `_handle_zeros_in_scale` does.
   */
  function Scale(x: real, lo: real, hi: real): (y: real)
    ensures hi != lo ==> y * (hi - lo) == x - lo
    ensures hi == lo ==> y == x - lo
  {
    (x - lo) / (if hi - lo == 0.0 then 1.0 else hi - lo)
  }

  /** The inverse map back from [0, 1] onto [lo, hi]. */
  function Unscale(y: real, lo: real, hi: real): real
  {
    lo + y * (hi - lo)
  }

  /** A column after `fit_transform`. */
  function MinMaxScaled(col: seq<real>): (scaled: seq<real>)
    requires |col| > 0
    ensures |scaled| == |col|
    ensures forall i :: 0 <= i < |col| && col[i] == Min(col) ==> scaled[i] == 0.0
  {
    seq(|col|, i requires 0 <= i < |col| => Scale(col[i], Min(col), Max(col)))
  }

  lemma DivideWithinRange(d: real, r: real)
    requires 0.0 <= d <= r && r > 0.0
    ensures 0.0 <= d / r <= 1.0
  {
    var q := d / r;
    assert q * r == d;
  }

  /** Every scaled value lies in [0, 1]. */
  lemma ScaledInUnitRange(col: seq<real>, i: nat)
    requires |col| > 0 && i < |col|
    ensures 0.0 <= MinMaxScaled(col)[i] <= 1.0
  {
    MinIsMinimum(col);
    MaxIsMaximum(col);
    var lo, hi := Min(col), Max(col);
    if hi - lo != 0.0 {
      DivideWithinRange(col[i] - lo, hi - lo);
    }
  }

  /** The reviewer holding the column's minimum is scaled to 0. */
  lemma MinimumScalesToZero(col: seq<real>, i: nat)
    requires |col| > 0 && i < |col| && col[i] == Min(col)
    ensures MinMaxScaled(col)[i] == 0.0
  {
  }

  /** The reviewer holding the maximum is scaled to 1, unless the column is constant. */
  lemma MaximumScalesToOne(col: seq<real>, i: nat)
    requires |col| > 0 && i < |col| && col[i] == Max(col)
    ensures Min(col) < Max(col) ==> MinMaxScaled(col)[i] == 1.0
  {
    var lo, hi := Min(col), Max(col);
    assert MinMaxScaled(col)[i] == Scale(hi, lo, hi);
    if lo < hi {
      SelfQuotient(hi - lo);
    }
  }

  lemma SelfQuotient(r: real)
    requires r != 0.0
    ensures r / r == 1.0
  {
  }

  /** A feature constant across all reviewers scales to 0 for everyone. */
  lemma ConstantColumnScalesToZero(col: seq<real>)
    requires |col| > 0
    requires forall i :: 0 <= i < |col| ==> col[i] == col[0]
    ensures forall i :: 0 <= i < |col| ==> MinMaxScaled(col)[i] == 0.0
  {
    MinIsMinimum(col);
    MaxIsMaximum(col);
  }

  /** Scaling keeps the order of the reviewers within a column. */
  lemma ScalingPreservesOrder(col: seq<real>, i: nat, j: nat)
    requires |col| > 0 && i < |col| && j < |col| && col[i] <= col[j]
    ensures MinMaxScaled(col)[i] <= MinMaxScaled(col)[j]
  {
    MinIsMinimum(col);
    MaxIsMaximum(col);
    var lo, hi := Min(col), Max(col);
    if hi - lo != 0.0 {
      DivideMonotone(col[i] - lo, col[j] - lo, hi - lo);
    }
  }

  lemma DivideMonotone(a: real, b: real, r: real)
    requires a <= b && r > 0.0
    ensures a / r <= b / r
  {
    var qa, qb := a / r, b / r;
    assert qa * r == a && qb * r == b;
  }

  /** No information is lost: the unscaled value is recovered from the scaled one. */
  lemma ScalingRoundTrip(col: seq<real>, i: nat)
    requires |col| > 0 && i < |col|
    ensures Unscale(MinMaxScaled(col)[i], Min(col), Max(col)) == col[i]
  {
    MinIsMinimum(col);
    MaxIsMaximum(col);
    UnscaleScale(col[i], Min(col), Max(col));
  }

  lemma UnscaleScale(x: real, lo: real, hi: real)
    requires lo <= x <= hi
    ensures Unscale(Scale(x, lo, hi), lo, hi) == x
  {
    if hi - lo != 0.0 {
      var q := (x - lo) / (hi - lo);
      DivideThenMultiply(x - lo, hi - lo);
      assert Scale(x, lo, hi) == q;
      assert Unscale(q, lo, hi) == lo + q * (hi - lo);
    }
  }

  lemma DivideThenMultiply(a: real, r: real)
    requires r != 0.0
    ensures (a / r) * r == a
  {
  }

  // ---------------------------------------------------------------------------
  // The two passes over a column

  /** First pass: the column's minimum and maximum. */
  method ColumnRange(col: array<real>) returns (lo: real, hi: real)
    requires col.Length > 0
    ensures forall i :: 0 <= i < col.Length ==> lo <= col[i] <= hi
    ensures (exists i :: 0 <= i < col.Length && col[i] == lo) && (exists i :: 0 <= i < col.Length && col[i] == hi)
    ensures lo == Min(col[..]) && hi == Max(col[..])
  {
    lo, hi := col[0], col[0];
    var i := 1;
    while i < col.Length
      invariant 1 <= i <= col.Length
      invariant lo == Min(col[..i]) && hi == Max(col[..i])
    {
      assert col[..i + 1][..i] == col[..i];
      if col[i] < lo {
        lo := col[i];
      }
      if hi < col[i] {
        hi := col[i];
      }
      i := i + 1;
    }
    assert col[..i] == col[..];
    MinIsMinimum(col[..]);
    MaxIsMaximum(col[..]);
  }

  /** Both passes: the column is rewritten in place with its scaled values. */
  method ScaleColumn(col: array<real>)
    requires col.Length > 0
    modifies col
    ensures col[..] == MinMaxScaled(old(col[..]))
  {
    var lo, hi := ColumnRange(col);
    var i := 0;
    while i < col.Length
      invariant 0 <= i <= col.Length
      invariant forall j :: 0 <= j < i ==> col[j] == Scale(old(col[j]), lo, hi)
      invariant forall j :: i <= j < col.Length ==> col[j] == old(col[j])
    {
      col[i] := Scale(col[i], lo, hi);
      i := i + 1;
    }
  }

  /**
   * `reviewer_stats_scaled = reviewer_stats.copy()` followed by
   * `reviewer_stats_scaled[features] = scaler.fit_transform(reviewer_stats[features])`.
   * The unscaled table is taken by value and is not changed; an empty table is
   * refused, as scikit-learn refuses it.
   */
  method Normalize(stats: seq<ReviewerStats>) returns (res: Result<seq<ScaledStats>, ScalingError>)
    ensures res.Failure? <==> |stats| == 0
    ensures res.Success? ==> |res.value| == |stats|
    ensures res.Success? ==> forall i :: 0 <= i < |stats| ==>
      res.value[i].reviewerId == stats[i].reviewerId && res.value[i].lastReviewDate == stats[i].lastReviewDate
    ensures res.Success? ==> forall i, f :: 0 <= i < |stats| ==>
      res.value[i].features.Get(f) == MinMaxScaled(Column(stats, f))[i]
  {
    if |stats| == 0 {
      return Failure(NoSamples);
    }
    var n := |stats|;
    var rows := seq(n, i requires 0 <= i < n => ScaledStats(stats[i].reviewerId, stats[i].lastReviewDate, Features(stats[i])));
    var k := 0;
    while k < |ScoringFeatures|
      invariant 0 <= k <= |ScoringFeatures|
      invariant |rows| == n
      invariant forall i :: 0 <= i < n ==>
        rows[i].reviewerId == stats[i].reviewerId && rows[i].lastReviewDate == stats[i].lastReviewDate
      invariant forall i, f :: 0 <= i < n && f in ScoringFeatures[..k] ==>
        rows[i].features.Get(f) == MinMaxScaled(Column(stats, f))[i]
      invariant forall i, f :: 0 <= i < n && f !in ScoringFeatures[..k] ==>
        rows[i].features.Get(f) == Features(stats[i]).Get(f)
    {
      var f := ScoringFeatures[k];
      assert f !in ScoringFeatures[..k];
      var col := new real[n](i requires 0 <= i < n => rows[i].features.Get(f));
      assert col[..] == Column(stats, f);
      ScaleColumn(col);
      rows := WriteColumn(rows, f, col[..]);
      assert ScoringFeatures[..k + 1] == ScoringFeatures[..k] + [f];
      k := k + 1;
    }
    forall f ensures f in ScoringFeatures {
      match f
      case NumReviews => assert f == ScoringFeatures[0];
      case AvgRating => assert f == ScoringFeatures[1];
      case RatingStddev => assert f == ScoringFeatures[2];
      case AvgReviewLength => assert f == ScoringFeatures[3];
      case AvgHelpfulVotes => assert f == ScoringFeatures[4];
      case VerifiedRatio => assert f == ScoringFeatures[5];
      case RecentReviews => assert f == ScoringFeatures[6];
    }
    assert ScoringFeatures[..k] == ScoringFeatures;
    return Success(rows);
  }

  /** Writes one column back into the rows; nothing else changes. */
  method WriteColumn(rows: seq<ScaledStats>, f: Feature, col: seq<real>) returns (out: seq<ScaledStats>)
    requires |col| == |rows|
    ensures |out| == |rows|
    ensures forall i :: 0 <= i < |rows| ==>
      out[i].reviewerId == rows[i].reviewerId && out[i].lastReviewDate == rows[i].lastReviewDate
    ensures forall i :: 0 <= i < |rows| ==> out[i].features.Get(f) == col[i]
    ensures forall i, h :: 0 <= i < |rows| && h != f ==> out[i].features.Get(h) == rows[i].features.Get(h)
  {
    out := rows;
    var i := 0;
    while i < |rows|
      invariant 0 <= i <= |rows|
      invariant |out| == |rows|
      invariant forall j :: 0 <= j < |rows| ==>
        out[j].reviewerId == rows[j].reviewerId && out[j].lastReviewDate == rows[j].lastReviewDate
      invariant forall j :: 0 <= j < i ==> out[j].features == rows[j].features.Set(f, col[j])
      invariant forall j :: i <= j < |rows| ==> out[j] == rows[j]
    {
      out := out[i := out[i].(features := out[i].features.Set(f, col[i]))];
      i := i + 1;
    }
  }
}

/**
 * The Scorer: the trust score is a fixed weighted sum of six scaled features.
 * The scaled `avg_rating` is computed by the Normalizer but takes no part in it.
 */
module Scoring {
  import opened Normalization

  /** One weight per scored feature; `avg_rating` has none. */
  datatype Weights = Weights(
    numReviews: real,
    ratingStddev: real,
    avgReviewLength: real,
    avgHelpfulVotes: real,
    verifiedRatio: real,
    recentReviews: real)

  /** The weight table the script uses. */
  const CanonicalWeights: Weights := Weights(0.2, 0.15, 0.1, 0.25, 0.15, 0.15)

  predicate NonNegative(w: Weights)
  {
    && w.numReviews >= 0.0 && w.ratingStddev >= 0.0 && w.avgReviewLength >= 0.0
    && w.avgHelpfulVotes >= 0.0 && w.verifiedRatio >= 0.0 && w.recentReviews >= 0.0
  }

  function Total(w: Weights): real
  {
    w.numReviews + w.ratingStddev + w.avgReviewLength + w.avgHelpfulVotes + w.verifiedRatio + w.recentReviews
  }

  /** Non-negative weights that add up to 1. */
  predicate IsConvex(w: Weights)
  {
    NonNegative(w) && Total(w) == 1.0
  }

  /** Every feature of the vector lies in [0, 1], as after min-max scaling. */
  predicate InUnitRange(v: FeatureVector)
  {
    forall f :: 0.0 <= v.Get(f) <= 1.0
  }

  /** The weight of a scaled feature; `avg_rating` has none in the table, so it weighs 0. */
  function Weight(w: Weights, f: Feature): real
  {
    match f
    case NumReviews => w.numReviews
    case AvgRating => 0.0
    case RatingStddev => w.ratingStddev
    case AvgReviewLength => w.avgReviewLength
    case AvgHelpfulVotes => w.avgHelpfulVotes
    case VerifiedRatio => w.verifiedRatio
    case RecentReviews => w.recentReviews
  }

  /** Sum of `feature * weight` over a list of features. */
  function WeightedSum(v: FeatureVector, w: Weights, fs: seq<Feature>): real
  {
    if fs == [] then 0.0
    else WeightedSum(v, w, fs[..|fs| - 1]) + v.Get(fs[|fs| - 1]) * Weight(w, fs[|fs| - 1])
  }

  /**
   * The weighted sum of `code.py`, in its order of terms. It is the weighted sum
   * over all seven scaled features, with the scaled average rating weighted 0.
   */
  function TrustScore(v: FeatureVector, w: Weights): (score: real)
    ensures score == WeightedSum(v, w, ScoringFeatures)
  {
    WeightedSumOfScoringFeatures(v, w);
    v.numReviews * w.numReviews +
    v.ratingStddev * w.ratingStddev +
    v.avgReviewLength * w.avgReviewLength +
    v.avgHelpfulVotes * w.avgHelpfulVotes +
    v.verifiedRatio * w.verifiedRatio +
    v.recentReviews * w.recentReviews
  }

  lemma WeightedSumOfScoringFeatures(v: FeatureVector, w: Weights)
    ensures WeightedSum(v, w, ScoringFeatures) ==
      v.numReviews * w.numReviews + v.ratingStddev * w.ratingStddev +
      v.avgReviewLength * w.avgReviewLength + v.avgHelpfulVotes * w.avgHelpfulVotes +
      v.verifiedRatio * w.verifiedRatio + v.recentReviews * w.recentReviews
  {
    var fs := ScoringFeatures;
    assert fs[..7] == fs;
    assert fs[..7][..6] == fs[..6] && fs[..6][..5] == fs[..5] && fs[..5][..4] == fs[..4];
    assert fs[..4][..3] == fs[..3] && fs[..3][..2] == fs[..2] && fs[..2][..1] == fs[..1];
    assert fs[..1][..0] == [];
    WeightedSumStep(v, w, fs[..1]);
    WeightedSumStep(v, w, fs[..2]);
    WeightedSumStep(v, w, fs[..3]);
    WeightedSumStep(v, w, fs[..4]);
    WeightedSumStep(v, w, fs[..5]);
    WeightedSumStep(v, w, fs[..6]);
    WeightedSumStep(v, w, fs[..7]);
  }

  lemma WeightedSumStep(v: FeatureVector, w: Weights, fs: seq<Feature>)
    requires |fs| > 0
    ensures WeightedSum(v, w, fs) == WeightedSum(v, w, fs[..|fs| - 1]) + v.Get(fs[|fs| - 1]) * Weight(w, fs[|fs| - 1])
  {
  }

  /** Scaled features and convex weights give a score in [0, 1]. */
  lemma TrustScoreInUnitRange(v: FeatureVector, w: Weights)
    requires InUnitRange(v) && IsConvex(w)
    ensures 0.0 <= TrustScore(v, w) <= 1.0
  {
    assert 0.0 <= v.Get(NumReviews) <= 1.0 && 0.0 <= v.Get(RatingStddev) <= 1.0;
    assert 0.0 <= v.Get(AvgReviewLength) <= 1.0 && 0.0 <= v.Get(AvgHelpfulVotes) <= 1.0;
    assert 0.0 <= v.Get(VerifiedRatio) <= 1.0 && 0.0 <= v.Get(RecentReviews) <= 1.0;
    var t1 := TermBounds(v.numReviews, w.numReviews);
    var t2 := TermBounds(v.ratingStddev, w.ratingStddev);
    var t3 := TermBounds(v.avgReviewLength, w.avgReviewLength);
    var t4 := TermBounds(v.avgHelpfulVotes, w.avgHelpfulVotes);
    var t5 := TermBounds(v.verifiedRatio, w.verifiedRatio);
    var t6 := TermBounds(v.recentReviews, w.recentReviews);
    assert TrustScore(v, w) == t1 + t2 + t3 + t4 + t5 + t6;
  }

  lemma TermBounds(x: real, weight: real) returns (t: real)
    requires 0.0 <= x <= 1.0 && weight >= 0.0
    ensures t == x * weight && 0.0 <= t <= weight
  {
    t := x * weight;
    NonNegativeProduct(x, weight);
    NonNegativeProduct(1.0 - x, weight);
    assert (1.0 - x) * weight == weight - x * weight;
  }

  lemma NonNegativeProduct(a: real, b: real)
    requires a >= 0.0 && b >= 0.0
    ensures a * b >= 0.0
  {
  }

  /** The script's weights are non-negative and add up to 1. */
  lemma CanonicalWeightsAreConvex()
    ensures IsConvex(CanonicalWeights)
  {
  }

  /** The scaled average rating has no influence on the score. */
  lemma AvgRatingIgnored(v: FeatureVector, x: real, w: Weights)
    ensures TrustScore(v.Set(AvgRating, x), w) == TrustScore(v, w)
  {
  }

  /** With non-negative weights, a reviewer at least as good on each scored feature scores at least as high. */
  lemma TrustScoreMonotone(v: FeatureVector, u: FeatureVector, w: Weights)
    requires NonNegative(w)
    requires forall f :: f != AvgRating ==> v.Get(f) <= u.Get(f)
    ensures TrustScore(v, w) <= TrustScore(u, w)
  {
    assert v.Get(NumReviews) <= u.Get(NumReviews) && v.Get(RatingStddev) <= u.Get(RatingStddev);
    assert v.Get(AvgReviewLength) <= u.Get(AvgReviewLength) && v.Get(AvgHelpfulVotes) <= u.Get(AvgHelpfulVotes);
    assert v.Get(VerifiedRatio) <= u.Get(VerifiedRatio) && v.Get(RecentReviews) <= u.Get(RecentReviews);
    var p1, q1 := TermMonotone(v.numReviews, u.numReviews, w.numReviews);
    var p2, q2 := TermMonotone(v.ratingStddev, u.ratingStddev, w.ratingStddev);
    var p3, q3 := TermMonotone(v.avgReviewLength, u.avgReviewLength, w.avgReviewLength);
    var p4, q4 := TermMonotone(v.avgHelpfulVotes, u.avgHelpfulVotes, w.avgHelpfulVotes);
    var p5, q5 := TermMonotone(v.verifiedRatio, u.verifiedRatio, w.verifiedRatio);
    var p6, q6 := TermMonotone(v.recentReviews, u.recentReviews, w.recentReviews);
    assert TrustScore(v, w) == p1 + p2 + p3 + p4 + p5 + p6;
    assert TrustScore(u, w) == q1 + q2 + q3 + q4 + q5 + q6;
  }

  lemma TermMonotone(x: real, y: real, weight: real) returns (p: real, q: real)
    requires x <= y && weight >= 0.0
    ensures p == x * weight && q == y * weight && p <= q
  {
    p, q := x * weight, y * weight;
    NonNegativeProduct(y - x, weight);
    assert (y - x) * weight == y * weight - x * weight;
  }

  /** A row of `reviewer_stats_scaled` with its `trust_score` column. */
  datatype ScoredStats = ScoredStats(row: ScaledStats, trustScore: real)

  /** `reviewer_stats_scaled['trust_score'] = ...`: every row keeps its data and gets its score. */
  function ScoreTable(rows: seq<ScaledStats>, w: Weights): (scored: seq<ScoredStats>)
    ensures |scored| == |rows|
    ensures forall i :: 0 <= i < |rows| ==>
      scored[i].row == rows[i] && scored[i].trustScore == TrustScore(rows[i].features, w)
  {
    seq(|rows|, i requires 0 <= i < |rows| => ScoredStats(rows[i], TrustScore(rows[i].features, w)))
  }

  /** Scaled rows and convex weights give every row a score in [0, 1]. */
  lemma ScoreTableInUnitRange(rows: seq<ScaledStats>, w: Weights)
    requires IsConvex(w) && forall i :: 0 <= i < |rows| ==> InUnitRange(rows[i].features)
    ensures forall i :: 0 <= i < |rows| ==> 0.0 <= ScoreTable(rows, w)[i].trustScore <= 1.0
  {
    forall i | 0 <= i < |rows| ensures 0.0 <= ScoreTable(rows, w)[i].trustScore <= 1.0 {
      TrustScoreInUnitRange(rows[i].features, w);
    }
  }
}

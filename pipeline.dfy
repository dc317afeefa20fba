/**
 * The whole scoring pipeline of `code.py`: clip the ratings, aggregate per
 * reviewer, min-max scale the features, score, and rank.
 */
module Pipeline {
  import opened Wrappers
  import opened Reviews
  import opened Aggregation
  import opened Normalization
  import opened Scoring
  import opened Ranking

  /** The ranked table and its first `TopCount` rows. */
  datatype Leaderboard = Leaderboard(ranked: seq<ScoredStats>, top: seq<ScoredStats>)

  /** After min-max scaling, every feature of every row lies in [0, 1]. */
  lemma ScaledRowsInUnitRange(stats: seq<ReviewerStats>, rows: seq<ScaledStats>)
    requires |stats| > 0 && |rows| == |stats|
    requires forall i, f :: 0 <= i < |stats| ==> rows[i].features.Get(f) == MinMaxScaled(Normalization.Column(stats, f))[i]
    ensures forall i :: 0 <= i < |rows| ==> InUnitRange(rows[i].features)
  {
    forall i | 0 <= i < |rows| ensures InUnitRange(rows[i].features) {
      forall f ensures 0.0 <= rows[i].features.Get(f) <= 1.0 {
        ScaledInUnitRange(Normalization.Column(stats, f), i);
      }
    }
  }

  /** `stats` is `reviewer_stats` of the table: each reviewer once, each row its `StatsOf`. */
  ghost predicate AggregatedFrom(rs: seq<Review>, sqrt: real -> real, stats: seq<ReviewerStats>)
  {
    && (forall i, j :: 0 <= i < j < |stats| ==> stats[i].reviewerId != stats[j].reviewerId)
    && (forall id :: id in Ids(rs) <==> exists i :: 0 <= i < |stats| && stats[i].reviewerId == id)
    && (forall i :: 0 <= i < |stats| ==>
          stats[i].reviewerId in Ids(rs) && stats[i] == StatsOf(rs, stats[i].reviewerId, sqrt))
  }

  /**
   * `scored` is `reviewer_stats_scaled` with its `trust_score` column: row by row,
   * the id and date of `stats`, every feature min-max scaled over its column, and
   * the weighted sum of the scaled features as the score.
   */
  ghost predicate ScoredFrom(stats: seq<ReviewerStats>, w: Weights, scored: seq<ScoredStats>)
  {
    && |scored| == |stats|
    && forall i :: 0 <= i < |stats| ==>
         && scored[i].row.reviewerId == stats[i].reviewerId
         && scored[i].row.lastReviewDate == stats[i].lastReviewDate
         && (forall f :: scored[i].row.features.Get(f) == MinMaxScaled(Normalization.Column(stats, f))[i])
         && scored[i].trustScore == TrustScore(scored[i].row.features, w)
  }

  /**
   * What the scored table promises: each reviewer of the table exactly once,
   * with its own last review date, and with convex weights a score in [0, 1].
   */
  lemma ScoredTableFacts(rs: seq<Review>, sqrt: real -> real, stats: seq<ReviewerStats>,
                         w: Weights, scored: seq<ScoredStats>)
    requires AggregatedFrom(rs, sqrt, stats) && ScoredFrom(stats, w, scored)
    ensures forall i, j :: 0 <= i < j < |scored| ==> scored[i].row.reviewerId != scored[j].row.reviewerId
    ensures forall id :: id in Ids(rs) <==> HasReviewer(scored, id)
    ensures forall i :: 0 <= i < |scored| ==>
      scored[i].row.reviewerId in Ids(rs) &&
      scored[i].row.lastReviewDate == StatsOf(rs, scored[i].row.reviewerId, sqrt).lastReviewDate
    ensures IsConvex(w) ==> forall i :: 0 <= i < |scored| ==> 0.0 <= scored[i].trustScore <= 1.0
  {
    forall id ensures id in Ids(rs) <==> HasReviewer(scored, id) {
      if HasReviewer(scored, id) {
        var i :| 0 <= i < |scored| && scored[i].row.reviewerId == id;
        assert stats[i].reviewerId == id;
      }
      if id in Ids(rs) {
        var i :| 0 <= i < |stats| && stats[i].reviewerId == id;
        assert scored[i].row.reviewerId == id;
      }
    }
    if IsConvex(w) && |stats| > 0 {
      var rows := seq(|scored|, i requires 0 <= i < |scored| => scored[i].row);
      ScaledRowsInUnitRange(stats, rows);
      forall i | 0 <= i < |scored| ensures 0.0 <= scored[i].trustScore <= 1.0 {
        TrustScoreInUnitRange(rows[i].features, w);
      }
    }
  }

  /**
   * Aggregation, scaling and scoring of a review table: `stats` is the aggregated
   * table and the result its scored, scaled version. An empty table makes the
   * scaler fail.
   */
  method TrustScores(rs: seq<Review>, sqrt: real -> real, w: Weights)
    returns (res: Result<seq<ScoredStats>, ScalingError>, ghost stats: seq<ReviewerStats>)
    ensures res.Failure? <==> |rs| == 0
    ensures AggregatedFrom(rs, sqrt, stats)
    ensures res.Success? ==> ScoredFrom(stats, w, res.value)
  {
    var aggregated := Aggregate(rs, sqrt);
    stats := aggregated;
    // The aggregated table is empty exactly when the review table is.
    if |rs| > 0 {
      IdsMembers(rs, rs[0].reviewerId);
    }
    if |aggregated| > 0 {
      IdsMembers(rs, aggregated[0].reviewerId);
    }
    var scaled := Normalize(aggregated);
    if scaled.Failure? {
      return Failure(scaled.error), stats;
    }
    var scored := ScoreTable(scaled.value, w);
    return Success(scored), stats;
  }

  /**
   * The script end to end on a mutable table: ratings clipped in place, then
   * scored with the script's weights, sorted by descending score, and cut to
   * the top rows. `stats` and `scored` are the intermediate tables.
   */
  method Run(df: array<Review>, sqrt: real -> real)
    returns (res: Result<Leaderboard, ScalingError>, ghost stats: seq<ReviewerStats>, ghost scored: seq<ScoredStats>)
    modifies df
    ensures forall i :: 0 <= i < df.Length ==> df[i] == WithClippedRating(old(df[i]))
    ensures res.Failure? <==> df.Length == 0
    ensures AggregatedFrom(df[..], sqrt, stats)
    ensures res.Success? ==> ScoredFrom(stats, CanonicalWeights, scored)
    ensures res.Success? ==> IsLeaderboard(scored, res.value.ranked)
    ensures res.Success? ==> res.value.top == Head(res.value.ranked, TopCount)
    ensures res.Success? ==> forall x :: x in res.value.ranked ==> 0.0 <= x.trustScore <= 1.0
    ensures res.Success? ==> forall id :: id in Ids(df[..]) <==> HasReviewer(res.value.ranked, id)
  {
    ClipRatings(df);
    var table := df[..];
    var r;
    r, stats := TrustScores(table, sqrt, CanonicalWeights);
    if r.Failure? {
      return Failure(r.error), stats, [];
    }
    var rows := r.value;
    scored := rows;
    CanonicalWeightsAreConvex();
    ScoredTableFacts(table, sqrt, stats, CanonicalWeights, scored);
    var ranked := SortByTrust(rows);
    LeaderboardKeepsRows(scored, ranked);
    res := Success(Leaderboard(ranked, Head(ranked, TopCount)));
  }
}

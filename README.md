# Reviewer trust score, modelled in Dafny

`code.py` turns a table of app reviews into a trust score per reviewer in five steps:

1. It clips every rating to [1, 5].
2. It groups the reviews by reviewer into per-reviewer statistics:
   - count;
   - mean and sample standard deviation of the rating;
   - mean review length;
   - mean helpful votes;
   - verified-purchase ratio;
   - last review date;
   - number of reviews within 180 days of the newest review in the whole table.
3. It min-max scales seven of these features to [0, 1].
4. It scores each reviewer as a fixed weighted sum of six scaled features. The scaled average rating is computed but carries no weight.
5. It sorts the reviewers by descending score and keeps the first ten.

The model has one module per step. Each module has the same form as the code it models:

- `Reviews` (`reviews.dfy`):
  - the review record;
  - `Clip`;
  - the in-place clip over an `array` of reviews.
- `Aggregation` (`aggregation.dfy`):
  - per-reviewer statistics defined as functions of the review table (`StatsOf`);
  - the group-by as a one-pass method over a `map` of running totals, proved equal to `StatsOf` for every reviewer.
- `AggregationFacts` (`aggregation_facts.dfy`): what the statistics promise, such as ranges, the NaN fills and the recency window.
- `Normalization` (`normalization.dfy`):
  - the feature vector;
  - `MinMaxScaler.fit_transform` as a method that scales one column array at a time, specified by `MinMaxScaled`;
  - the properties of the scaling.
- `Scoring` (`scoring.dfy`): the weights, the trust score and its bounds.
- `Ranking` (`ranking.dfy`): the descending sort, specified as sorted and a permutation, and the top-ten cut.
- `Pipeline` (`pipeline.dfy`): the steps chained together, as in the script.
- `Wrappers` (`wrappers.dfy`): `Option` (a value or pandas' NaN) and `Result`.

Numbers are `real`, and dates are whole day numbers. numpy's square root is a parameter `sqrt`, and the lemmas that need it assume `IsSqrt(sqrt)`.

Where the code and the usual reading of the script differ, the model follows the code:

- On an empty table, `MinMaxScaler.fit_transform` raises. The pipeline therefore returns `Failure(NoSamples)` rather than an empty leaderboard.
- `sort_values` uses pandas' default unstable sort. The ranking is therefore promised only to be in descending score order and a permutation of the scored rows. The order among equal scores is not fixed.

## Model

| member | source | states |
|---|---|---|
| Reviews.Clip | code.py:34 | the result lies in [lower, upper], equals `x` when `x` is already inside, and is the nearer bound otherwise |
| Reviews.ClipIdempotent | code.py:34 | clipping an already clipped value changes nothing |
| Reviews.WithClippedRating | code.py:34 | the new rating is the old one clipped to [1, 5], and nothing else of the review changes |
| Reviews.ClipRatings | code.py:34 | every row of the table becomes its clipped version, so that afterwards every rating lies in [1, 5] |
| Aggregation.Group | code.py:44 | a reviewer's group is no longer than the table and holds only rows of that reviewer |
| Aggregation.IdsMembers | code.py:44 | an id is a group key exactly when some review carries it |
| Aggregation.GroupIsFilter | code.py:44 | a reviewer's group holds exactly that reviewer's reviews, with their multiplicities |
| Aggregation.MaxDateIsMaximum | code.py:51 | the maximum date bounds every date of the group and is attained by one of them |
| Aggregation.SampleVariance | code.py:47 | the sample variance is NaN (`None`) exactly when the group has fewer than two rows |
| Aggregation.SampleStddev | code.py:47 | the standard deviation is NaN (`None`) exactly when the group has fewer than two rows |
| Aggregation.VarianceFromTotalsCorrect | code.py:47 | the one-pass variance over running totals equals the two-pass sample variance (ddof 1), NaN below two rows included |
| Aggregation.SumSqDevExpand | code.py:47 | the sum of squared deviations expands into the sum of squares, the sum and the count |
| Aggregation.Cutoff | code.py:58 | a review is recent (date >= cutoff) exactly when it is at most 180 days older than the newest review of the table |
| Aggregation.StatsOf | code.py:44-60 | a reviewer's row carries their id and counts their rows (at least one), and its standard deviation is the filled 0 when there is a single row |
| Aggregation.GlobalMaxDate | code.py:58 | the newest date of the whole table bounds every review date and is attained |
| Aggregation.CountRecentByReviewer | code.py:59 | the map holds, for every reviewer with a recent review, the number of their reviews dated on or after the cutoff, and holds no other key |
| Aggregation.GroupBy | code.py:44-52 | after the pass, the map holds each reviewer's running totals (count, sums, sum of squares, last date), and `order` lists each id once |
| Aggregation.Aggregate | code.py:44-60 | one row per reviewer id present in the table, each id once, each row equal to that reviewer's statistics with both NaN fills applied |
| Aggregation.Finish | code.py:52-60 | a row finished from running totals carries the id, count and last date of the totals; with one row its standard deviation is the filled 0, and a reviewer missing from the recency counts gets the filled 0 |
| Aggregation.FinishRows | code.py:52-60 | one finished row per id of `order`, in that order |
| Aggregation.FinishedRowsAreStats | code.py:44-60 | the finished rows hold each reviewer of the table once, each equal to their `StatsOf` |
| Aggregation.FinishAllCorrect | code.py:52-60 | the rows finished from the totals are the per-reviewer statistics |
| AggregationFacts.MeanBounds | code.py:46-50 | a mean lies within any bounds that hold for every value of its column |
| AggregationFacts.AvgRatingInRange | code.py:46 | after clipping, every reviewer's average rating lies in [1, 5] |
| AggregationFacts.VerifiedRatioInUnitRange | code.py:50 | the verified ratio lies in [0, 1] |
| AggregationFacts.StddevNonNegative | code.py:47 | the filled standard deviation is never negative |
| AggregationFacts.StddevSingleReview | code.py:55 | a reviewer with one review gets standard deviation 0 (the NaN fill) |
| AggregationFacts.StddevOfEqualRatings | code.py:47 | a reviewer whose ratings are all equal gets standard deviation 0 |
| AggregationFacts.LastReviewDateIsMaximum | code.py:51 | the last review date is the newest of the reviewer's own dates and is no later than the table's newest date |
| AggregationFacts.RecentAtMostNumReviews | code.py:59-60 | a reviewer's recent count never exceeds their number of reviews |
| AggregationFacts.RecentPositiveIff | code.py:58-60 | the recent count is positive exactly when the reviewer has a review no older than 180 days before the table's newest review |
| AggregationFacts.RecentWindowInclusive | code.py:58-59 | a review dated exactly on the cutoff counts as recent |
| Normalization.Column | code.py:73 | the column has one entry per row, holding that row's feature |
| Normalization.Scale | code.py:73 | the scaled value times the column range is the distance from the minimum; a zero range divides by 1 |
| Normalization.MinMaxScaled | code.py:73 | the scaled column has one value per entry, and every entry equal to the column minimum scales to 0 |
| Normalization.MinIsMinimum | code.py:73 | the column minimum bounds every entry and is attained |
| Normalization.MaxIsMaximum | code.py:73 | the column maximum bounds every entry and is attained |
| Normalization.ScaledInUnitRange | code.py:73 | every scaled value lies in [0, 1] |
| Normalization.MinimumScalesToZero | code.py:73 | the column minimum scales to 0 |
| Normalization.MaximumScalesToOne | code.py:73 | when the column is not constant, its maximum scales to 1 |
| Normalization.ConstantColumnScalesToZero | code.py:73 | a constant column scales to all zeros (zero range divides by 1) |
| Normalization.ScalingPreservesOrder | code.py:73 | scaling never reverses the order of two entries of a column |
| Normalization.ScalingRoundTrip | code.py:73 | the model's inverse map `Unscale` (lo + y·(hi − lo)) recovers every original value, constant columns included |
| Normalization.ColumnRange | code.py:73 | the fitted minimum and maximum of a non-empty column |
| Normalization.ScaleColumn | code.py:73 | the column array is replaced by its min-max scaled version |
| Normalization.WriteColumn | code.py:73 | writing one scaled column into the rows sets that feature of every row and leaves ids, dates and the other features unchanged |
| Normalization.Normalize | code.py:65-73 | fails exactly on an empty table; otherwise the id and date are copied, and each of the seven features of every row is that column's min-max scaled value |
| Scoring.TrustScore | code.py:87-94 | the six-term score equals the weighted sum over all seven scaled features, with the scaled average rating weighted 0 |
| Scoring.TrustScoreInUnitRange | code.py:87-94 | with features in [0, 1] and non-negative weights summing to 1, the trust score lies in [0, 1] |
| Scoring.CanonicalWeightsAreConvex | code.py:77-84 | the script's six weights are non-negative and add up to 1 |
| Scoring.AvgRatingIgnored | code.py:87-94 | changing the scaled average rating leaves the trust score unchanged |
| Scoring.TrustScoreMonotone | code.py:87-94 | with non-negative weights, a reviewer at least as good on every scored feature scores at least as high |
| Scoring.ScoreTable | code.py:87-94 | each row keeps its data and gains as score the trust score of its own scaled features |
| Scoring.ScoreTableInUnitRange | code.py:87-94 | with convex weights and scaled features every score of the table is in [0, 1] |
| Ranking.Insert | code.py:97 | inserting into a descending sequence keeps it descending and adds exactly the new row |
| Ranking.SortByTrust | code.py:97 | the leaderboard is in descending trust-score order and is a permutation of the scored rows |
| Ranking.LeaderIsBest | code.py:97 | the first leaderboard row has the highest score of all |
| Ranking.LeaderboardKeepsRows | code.py:97 | sorting keeps exactly the same rows and reviewer ids |
| Ranking.Head | code.py:102 | the top list holds the first min(10, n) rows of the leaderboard, in order |
| Ranking.HeadHoldsHighestScores | code.py:102 | no row left out of the top list scores higher than a row in it |
| Pipeline.ScaledRowsInUnitRange | code.py:73 | every feature of every scaled row lies in [0, 1] |
| Pipeline.ScoredTableFacts | code.py:44-94 | the scored table holds each reviewer of the table exactly once, with their own last review date, and with convex weights every score is in [0, 1] |
| Pipeline.TrustScores | code.py:44-94 | fails exactly on an empty table; the aggregated table is each reviewer's `StatsOf`, once each; otherwise each scored row carries its reviewer's id and date, every feature min-max scaled over its column, and the trust score of those scaled features |
| Pipeline.Run | code.py:34-102 | the table's ratings are clipped in place; the result fails exactly on an empty table; otherwise the intermediate tables are those of `TrustScores` on the clipped table, the leaderboard is a descending permutation of the scored rows (so each reviewer once, scores in [0, 1]), and the top list is `Head(leaderboard, 10)` |

## Left out

- Downloading the dataset, reading the CSV and printing the shape and previews (code.py:1-16, 39, 62, 75, 98) are I/O. They are not modelled.
- Column selection, renaming, `to_datetime`/`to_numeric` coercion and `dropna` (code.py:19-31) are not modelled. The model starts from their result: a `Review` has an id, text, a numeric rating and a date, none of them missing.
- The word count `review_length_words` (code.py:37) is taken as a given field `lengthWords`. Whitespace splitting of arbitrary text is not modelled.
- The two plots (code.py:99-117) are not modelled, because they only draw output.
- Floating point is modelled as exact `real` arithmetic. Rounding and NaN propagation inside sums are not modelled.
- Aggregation.SampleStddev: numpy's square root is a parameter. Lemmas about the standard deviation assume `IsSqrt(sqrt)` (non-negative, squares back, root of 0 is 0).
- Aggregation.StatsOf: pandas skips NaN helpful-vote counts when taking the mean. The model's helpful votes are always present.
- Aggregation.Aggregate: rows come out in first-appearance order of the ids, not in pandas' sorted group-key order. The contract speaks of the set of ids and the content of each row, not their order.
- Dates are whole days. The sub-day part of `review_date` timestamps is not modelled, so the 180-day window is counted in days.
- Normalization.Scale: from scikit-learn 1.0 on, `_handle_zeros_in_scale` treats a range below 10 times machine epsilon as zero; earlier versions test for exactly 0. The model divides by 1 only when the range is exactly zero, as the earlier versions do.
- Normalization.Unscale: this is the model's inverse map, not scikit-learn's `inverse_transform`, which computes `(y - min_) / scale_`. The two agree on non-constant columns; on a constant column `inverse_transform` gives `lo + y`, which agrees at y = 0, the only value scaling produces there.
- Aggregation.SampleVariance: the contract states when the variance is NaN; its value (sum of squared deviations over n - 1) is stated by the definition and by `VarianceFromTotalsCorrect`, not by a separate ensures.
- Ranking.SortByTrust: the order among equal scores is not fixed, matching pandas' unstable default sort. The model's insertion sort is one valid outcome; its contract promises only what any such sort gives.

/**
 * The Ranker: `sort_values('trust_score', ascending=False)` and `head(10)`.
 * pandas' default sort kind is not stable, so only the order of the scores and
 * the permutation are promised; the order among equal scores is not.
 */
module Ranking {
  import opened Scoring

  /** Number of rows in the reported top list. */
  const TopCount: nat := 10

  /** Trust scores never increase along the sequence. */
  ghost predicate SortedByTrust(s: seq<ScoredStats>)
  {
    forall i, j :: 0 <= i < j < |s| ==> s[i].trustScore >= s[j].trustScore
  }

  /** `lb` is a valid result of sorting `scored` by descending trust score. */
  ghost predicate IsLeaderboard(scored: seq<ScoredStats>, lb: seq<ScoredStats>)
  {
    SortedByTrust(lb) && multiset(lb) == multiset(scored)
  }

  /** Inserts `x` into a descending sequence, before the first row it beats or ties. */
  function Insert(x: ScoredStats, s: seq<ScoredStats>): (r: seq<ScoredStats>)
    requires SortedByTrust(s)
    ensures SortedByTrust(r)
    ensures multiset(r) == multiset(s) + multiset{x}
    ensures |r| == |s| + 1
    ensures r[0] == x || (|s| > 0 && r[0] == s[0])
  {
    if s == [] || x.trustScore >= s[0].trustScore then
      [x] + s
    else
      var rest := Insert(x, s[1..]);
      assert s == [s[0]] + s[1..];
      [s[0]] + rest
  }

  /** A descending sort by trust score. */
  function SortByTrust(s: seq<ScoredStats>): (r: seq<ScoredStats>)
    ensures IsLeaderboard(s, r)
  {
    if s == [] then []
    else
      assert s == [s[0]] + s[1..];
      Insert(s[0], SortByTrust(s[1..]))
  }

  /** `leaderboard.head(k)` */
  function Head(lb: seq<ScoredStats>, k: nat): (top: seq<ScoredStats>)
    ensures |top| == if k < |lb| then k else |lb|
    ensures forall i :: 0 <= i < |top| ==> top[i] == lb[i]
  {
    if k < |lb| then lb[..k] else lb
  }

  /**
   * The top rows of a leaderboard are the best-scored ones: none of the rows
   * left out scores higher than any row kept, and the kept rows are in order.
   */
  lemma HeadHoldsHighestScores(lb: seq<ScoredStats>, k: nat)
    requires SortedByTrust(lb)
    ensures SortedByTrust(Head(lb, k))
    ensures forall i, j :: 0 <= i < |Head(lb, k)| <= j < |lb| ==> Head(lb, k)[i].trustScore >= lb[j].trustScore
  {
  }

  /** The highest score of the leaderboard comes first. */
  lemma LeaderIsBest(scored: seq<ScoredStats>, lb: seq<ScoredStats>)
    requires IsLeaderboard(scored, lb) && |scored| > 0
    ensures |lb| == |scored|
    ensures forall x :: x in scored ==> lb[0].trustScore >= x.trustScore
  {
    assert |lb| == |multiset(lb)| == |multiset(scored)| == |scored|;
    forall x | x in scored ensures lb[0].trustScore >= x.trustScore {
      assert x in multiset(scored);
      assert x in multiset(lb);
      var j :| 0 <= j < |lb| && lb[j] == x;
    }
  }

  /** Some row of `s` belongs to reviewer `id`. */
  predicate HasReviewer(s: seq<ScoredStats>, id: string)
  {
    exists i :: 0 <= i < |s| && s[i].row.reviewerId == id
  }

  /** Ranking keeps exactly the scored rows: the same rows and the same reviewer ids. */
  lemma LeaderboardKeepsRows(scored: seq<ScoredStats>, lb: seq<ScoredStats>)
    requires IsLeaderboard(scored, lb)
    ensures forall x :: x in lb <==> x in scored
    ensures forall id :: HasReviewer(lb, id) <==> HasReviewer(scored, id)
  {
    forall x ensures x in lb <==> x in scored {
      assert x in lb <==> x in multiset(lb);
      assert x in scored <==> x in multiset(scored);
    }
    forall id | HasReviewer(lb, id) ensures HasReviewer(scored, id) {
      var i :| 0 <= i < |lb| && lb[i].row.reviewerId == id;
      assert lb[i] in scored;
    }
    forall id | HasReviewer(scored, id) ensures HasReviewer(lb, id) {
      var j :| 0 <= j < |scored| && scored[j].row.reviewerId == id;
      assert scored[j] in lb;
    }
  }
}

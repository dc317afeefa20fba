/**
 * A cleaned review row of the app-review dataset, and the rating clip that
 * the script applies to every row before aggregation.
 */
module Reviews {

  /** Lower and upper bound of a star rating after clipping. */
  const MinRating: real := 1.0
  const MaxRating: real := 5.0

  /**
   * One review after column selection, renaming and `dropna`: reviewer id,
   * text, rating and date are present by construction. Dates are day numbers.
   * `lengthWords` is the word count of the text, taken as given.
   */
  datatype Review = Review(
    reviewerId: string,
    reviewText: string,
    rating: real,
    reviewDate: int,
    helpfulVotes: int,
    verifiedPurchase: bool,
    lengthWords: nat)

  /** pandas `Series.clip(lower, upper)` on one value. */
  function Clip(x: real, lower: real, upper: real): (r: real)
    requires lower <= upper
    ensures lower <= r <= upper
    ensures lower <= x <= upper ==> r == x
    ensures x < lower ==> r == lower
    ensures upper < x ==> r == upper
  {
    if x < lower then lower else if upper < x then upper else x
  }

  lemma {:induction false} ClipIdempotent(x: real, lower: real, upper: real)
    requires lower <= upper
    ensures Clip(Clip(x, lower, upper), lower, upper) == Clip(x, lower, upper)
  {
    var c := Clip(x, lower, upper);
    assert lower <= c <= upper;
  }

  /** The row with its rating clipped to [MinRating, MaxRating]; nothing else changes. */
  function WithClippedRating(r: Review): (c: Review)
    ensures c.rating == Clip(r.rating, MinRating, MaxRating)
    ensures MinRating <= c.rating <= MaxRating
    ensures c == r.(rating := c.rating)
  {
    r.(rating := Clip(r.rating, MinRating, MaxRating))
  }

  /** Every rating of the table lies in [MinRating, MaxRating]. */
  ghost predicate RatingsClipped(rs: seq<Review>)
  {
    forall i :: 0 <= i < |rs| ==> MinRating <= rs[i].rating <= MaxRating
  }

  /** `df['rating'] = df['rating'].clip(1, 5)`: the rating column is rewritten in place. */
  method ClipRatings(df: array<Review>)
    modifies df
    ensures forall i :: 0 <= i < df.Length ==> df[i] == WithClippedRating(old(df[i]))
    ensures RatingsClipped(df[..])
  {
    var i := 0;
    while i < df.Length
      invariant 0 <= i <= df.Length
      invariant forall j :: 0 <= j < i ==> df[j] == WithClippedRating(old(df[j]))
      invariant forall j :: i <= j < df.Length ==> df[j] == old(df[j])
    {
      df[i] := WithClippedRating(df[i]);
      i := i + 1;
    }
  }
}

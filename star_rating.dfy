/**
 * The arithmetic of the star widgets (ui/components/StarRatingView.kt): the display
 * splits a rating into full, half and empty stars; the selector fills every star up to
 * the rating and sets the rating to the tapped star. `Float`s are modelled as `real`.
 */
module StarRating {

  datatype Icon = FullStar | HalfStar | EmptyStar

  datatype Stars = Stars(full: int, hasHalf: bool, empty: int)

  /** The fractional part of the rating that picks the half star. */
  const HalfFrom: real := 0.25
  const HalfBelow: real := 0.75
  const MaxStars: int := 5

  /** `floor(rating).toInt()`, the half-star test and `5 - full - half`. */
  function StarCounts(rating: real): (s: Stars)
    ensures s.full as real <= rating < s.full as real + 1.0
    ensures s.hasHalf <==> HalfFrom <= rating - s.full as real < HalfBelow
    ensures s.full + (if s.hasHalf then 1 else 0) + s.empty == MaxStars
  {
    var full := rating.Floor;
    var hasHalf := HalfFrom <= rating - full as real && rating - full as real < HalfBelow;
    Stars(full, hasHalf, MaxStars - full - (if hasHalf then 1 else 0))
  }

  /** For a rating in 0..5 no count is negative. */
  lemma CountsInRange(rating: real)
    requires 0.0 <= rating <= 5.0
    ensures var s := StarCounts(rating);
            0 <= s.full <= MaxStars && 0 <= s.empty <= MaxStars
  {
    var s := StarCounts(rating);
    if s.full == MaxStars {
      assert rating == 5.0;
    }
  }

  /** A fraction of 0.75 or more is not rounded up: 4.8 shows four full stars and one empty star. */
  lemma HighFractionNotRoundedUp()
    ensures StarCounts(4.8) == Stars(4, false, 1)
  {
    assert 4.8.Floor == 4;
  }

  /** `repeat(n)` emits nothing for a negative count. */
  function Repeat(icon: Icon, n: int): (icons: seq<Icon>)
    ensures |icons| == if n < 0 then 0 else n
    ensures forall i :: 0 <= i < |icons| ==> icons[i] == icon
  {
    if n <= 0 then [] else [icon] + Repeat(icon, n - 1)
  }

  /** The icons `StarRatingView` draws, left to right. */
  function DisplayRow(rating: real): (icons: seq<Icon>)
    ensures var s := StarCounts(rating);
            var full := if s.full < 0 then 0 else s.full;
            var half := if s.hasHalf then 1 else 0;
            |icons| == full + half + (if s.empty < 0 then 0 else s.empty) &&
            (forall i :: 0 <= i < full ==> icons[i] == FullStar) &&
            (s.hasHalf ==> icons[full] == HalfStar) &&
            (forall i :: full + half <= i < |icons| ==> icons[i] == EmptyStar)
  {
    var s := StarCounts(rating);
    Repeat(FullStar, s.full) + (if s.hasHalf then [HalfStar] else []) + Repeat(EmptyStar, s.empty)
  }

  /** A rating in 0..5 is drawn as exactly five stars: full ones, at most one half, then empty ones. */
  lemma DisplayRowHasFiveStars(rating: real)
    requires 0.0 <= rating <= 5.0
    ensures |DisplayRow(rating)| == MaxStars
    ensures forall i :: 0 <= i < |DisplayRow(rating)| ==>
              (DisplayRow(rating)[i] == FullStar <==> i < StarCounts(rating).full)
  {
    CountsInRange(rating);
  }

  // ---------------------------------------------------------------- selector

  /** Star `i` (1..5) is filled when `i <= rating`. */
  predicate Filled(i: int, rating: real)
  {
    i as real <= rating
  }

  /** The fill state of the selector's five stars, left to right. */
  function SelectorRow(rating: real): (row: seq<bool>)
    ensures |row| == MaxStars
    ensures forall j :: 0 <= j < MaxStars ==> row[j] == Filled(j + 1, rating)
  {
    seq(MaxStars, j requires 0 <= j < MaxStars => Filled(j + 1, rating))
  }

  /** Tapping star `i` reports `i.toFloat()` as the new rating. */
  function Tap(i: int): (rating: real)
    requires 1 <= i <= MaxStars
    ensures rating == i as real
    ensures 1.0 <= rating <= 5.0 && rating.Floor == i
  {
    i as real
  }

  /** After tapping star `i`, stars 1..i are filled and the rest are not. */
  lemma TapFillsUpTo(i: int)
    requires 1 <= i <= MaxStars
    ensures forall j :: 0 <= j < MaxStars ==> (SelectorRow(Tap(i))[j] <==> j < i)
  {
  }

  /** The number of set flags in a row. */
  function CountFilled(row: seq<bool>): nat
  {
    if |row| == 0 then 0 else (if row[0] then 1 else 0) + CountFilled(row[1..])
  }

  /** Filled stars form a prefix, so their number is the rating's floor clamped to 0..5. */
  lemma SelectorFilledCount(rating: real)
    ensures CountFilled(SelectorRow(rating)) ==
              if rating < 1.0 then 0 else if rating >= 5.0 then MaxStars else rating.Floor
  {
    var row := SelectorRow(rating);
    var n := if rating < 1.0 then 0 else if rating >= 5.0 then MaxStars else rating.Floor;
    assert forall j :: 0 <= j < MaxStars ==> (row[j] <==> j < n);
    PrefixCount(row, n);
  }

  lemma {:induction false} PrefixCount(row: seq<bool>, n: int)
    requires 0 <= n <= |row|
    requires forall j :: 0 <= j < |row| ==> (row[j] <==> j < n)
    ensures CountFilled(row) == n
  {
    if |row| > 0 {
      var m := if n > 0 then n - 1 else 0;
      assert forall j :: 0 <= j < |row[1..]| ==> row[1..][j] == row[j + 1];
      PrefixCount(row[1..], m);
    }
  }
}

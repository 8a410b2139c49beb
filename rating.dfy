/** The rating figures of the tour detail page: the average of the reviews'
    ratings as the page prints it, and the star rows. */
module Rating {
  import opened Types
  import opened JsNumber

  /** `reviews.reduce((acc, review) => acc + review.rating, 0)`. With every
      rating between 1 and 5 the sum lies between `count` and `5 * count`. */
  function SumRatings(rs: seq<Review>): (sum: int)
    ensures RatingsInRange(rs) ==> |rs| <= sum <= 5 * |rs|
  {
    if rs == [] then 0 else SumRatings(rs[..|rs| - 1]) + rs[|rs| - 1].rating
  }

  /** Ratings as the rating selector offers them: 1 to 5 stars. */
  predicate RatingsInRange(rs: seq<Review>) {
    forall i :: 0 <= i < |rs| ==> 1 <= rs[i].rating <= 5
  }

  /** `calculateAverageRating()` as it is printed: the number `0` when there is
      no review, otherwise `(sum / count).toFixed(1)`. */
  function AverageLabel(rs: seq<Review>): (shown: string)
    ensures |rs| == 0 ==> shown == "0"
    ensures |rs| > 0 ==> shown == SignedFixedTenths(SumRatings(rs) < 0, AverageTenths(rs))
  {
    if |rs| == 0 then DecimalString(0) else ToFixed1(SumRatings(rs), |rs|)
  }

  /** The whole number of tenths the label shows (its sign apart). */
  function AverageTenths(rs: seq<Review>): nat {
    if |rs| == 0 then 0
    else
      var s := SumRatings(rs);
      NearestTenths(if s < 0 then -s else s, |rs|)
  }

  /** The value the label shows. */
  function AverageValue(rs: seq<Review>): real {
    if |rs| == 0 then 0.0 else TenthsValue(SumRatings(rs) < 0, AverageTenths(rs))
  }

  /** The text beside the star row: `<average> (<count> reviews)`, the
      average's label, then the count of reviews in decimal. */
  function RatingSummary(rs: seq<Review>): (text: string)
    ensures |text| == |AverageLabel(rs)| + 2 + |DecimalString(|rs|)| + 9
    ensures text[..|AverageLabel(rs)|] == AverageLabel(rs)
    ensures text[|AverageLabel(rs)|..|AverageLabel(rs)| + 2] == " ("
    ensures text[|AverageLabel(rs)| + 2..|text| - 9] == DecimalString(|rs|)
    ensures text[|text| - 9..] == " reviews)"
  {
    AverageLabel(rs) + " (" + DecimalString(|rs|) + " reviews)"
  }

  /** `parseInt` of the text after ` (` reads back the number of reviews. */
  lemma RatingSummaryCount(rs: seq<Review>)
    ensures ParseInt(RatingSummary(rs)[|AverageLabel(rs)| + 2..]) == Some(|rs|)
  {
    var text := RatingSummary(rs);
    var count := DecimalString(|rs|);
    assert text[|AverageLabel(rs)| + 2..] == count + " reviews)";
    ParseIntDecimal(|rs|, " reviews)");
  }

  /** `renderStars(rating)`: five star slots, slot `i` filled exactly when
      `i < rating`; `rating` clamped to 0..5 slots are filled. */
  function RenderStars(rating: int): (stars: seq<bool>)
    ensures |stars| == 5
    ensures forall i :: 0 <= i < 5 ==> stars[i] == (i < rating)
    ensures Filled(stars) == if rating < 0 then 0 else if rating > 5 then 5 else rating
  {
    FilledPrefixRow(5, rating);
    seq(5, i => i < rating)
  }

  /** The number of filled slots of a star row. */
  function Filled(stars: seq<bool>): nat {
    if stars == [] then 0 else Filled(stars[..|stars| - 1]) + (if stars[|stars| - 1] then 1 else 0)
  }

  /** The star row beside the average:
      `renderStars(Math.round(parseFloat(calculateAverageRating())))`.
      A `NaN` would fill no slot, as `i < NaN` is false. */
  function AverageStars(rs: seq<Review>): (stars: seq<bool>)
    ensures stars == RenderStars(MathRound(AverageValue(rs)))
  {
    AverageLabelParses(rs);
    match ParseFloat(AverageLabel(rs))
    case Some(x) => RenderStars(MathRound(x))
    case None => RenderStars(0)
  }

  /** A new review at the head of the list adds its rating to the sum. */
  lemma {:induction false} SumRatingsPrepend(r: Review, rs: seq<Review>)
    ensures SumRatings([r] + rs) == r.rating + SumRatings(rs)
    decreases |rs|
  {
    if rs == [] {
      assert [r] + rs == [r];
      assert [r][..0] == [];
    } else {
      SumRatingsPrepend(r, rs[..|rs| - 1]);
      assert ([r] + rs)[..|rs|] == [r] + rs[..|rs| - 1];
    }
  }

  /** `parseFloat` reads the printed average back as the value it shows. */
  lemma AverageLabelParses(rs: seq<Review>)
    ensures ParseFloat(AverageLabel(rs)) == Some(AverageValue(rs))
  {
    if |rs| == 0 {
      NoReviewParses(rs);
    } else {
      SomeReviewsParse(rs);
    }
  }

  lemma NoReviewParses(rs: seq<Review>)
    requires |rs| == 0
    ensures ParseFloat(AverageLabel(rs)) == Some(AverageValue(rs))
  {
    var text := DecimalString(0);
    assert AverageLabel(rs) == text;
    assert AverageValue(rs) == 0 as real;
    ParseFloatDecimal(0);
  }

  lemma SomeReviewsParse(rs: seq<Review>)
    requires |rs| > 0
    ensures ParseFloat(AverageLabel(rs)) == Some(AverageValue(rs))
  {
    var s := SumRatings(rs);
    var text := ToFixed1(s, |rs|);
    assert AverageLabel(rs) == text;
    assert AverageValue(rs) == TenthsValue(s < 0, NearestTenths(if s < 0 then -s else s, |rs|));
    ToFixed1Parses(s, |rs|);
  }

  /** A row of `n` slots whose slot `i` is filled when `i < k` has `k` filled
      slots, clamped to 0..n. */
  lemma {:induction false} FilledPrefixRow(n: nat, k: int)
    ensures Filled(seq(n, i => i < k)) == if k < 0 then 0 else if k > n then n else k
  {
    if n > 0 {
      FilledPrefixRow(n - 1, k);
      assert seq(n, i => i < k)[..n - 1] == seq(n - 1, i => i < k);
    }
  }

  /** An average between 1 and 5 rounds to between 10 and 50 tenths. */
  lemma NearestTenthsBetween(num: nat, den: nat)
    requires 0 < den <= num <= 5 * den
    ensures 10 <= NearestTenths(num, den) <= 50
  {
    var t := NearestTenths(num, den);
    NearestTenthsBounds(num, den);
    if t > 50 {
      MulMonotone(2 * den, 51, t);
    }
    if t < 10 {
      MulMonotone(2 * den, t + 1, 10);
    }
  }

  /** With ratings from 1 to 5 the average shows between 1.0 and 5.0. */
  lemma AverageTenthsInRange(rs: seq<Review>)
    requires |rs| > 0 && RatingsInRange(rs)
    ensures SumRatings(rs) >= |rs|
    ensures 10 <= AverageTenths(rs) <= 50
  {
    NearestTenthsBetween(SumRatings(rs), |rs|);
  }

  /** For a non-negative sum the shown average is its tenths over ten, and
      `Math.round` of it is those tenths rounded half up. */
  lemma AverageValueRounded(rs: seq<Review>)
    requires |rs| > 0 && SumRatings(rs) >= 0
    ensures AverageValue(rs) == AverageTenths(rs) as real / 10.0
    ensures MathRound(AverageValue(rs)) == (AverageTenths(rs) + 5) / 10
  {
    var t := AverageTenths(rs);
    assert AverageValue(rs) == TenthsValue(false, t);
    RoundTenths(t);
  }

  /** For a non-negative sum the star row fills `Math.round` of the shown
      average, which is the shown tenths rounded half up. */
  lemma AverageStarsRounded(rs: seq<Review>)
    requires |rs| > 0 && SumRatings(rs) >= 0
    ensures AverageStars(rs) == RenderStars((AverageTenths(rs) + 5) / 10)
  {
    AverageValueRounded(rs);
  }

  /** The star row shows the average rounded half up: with ratings from 1 to
      5 it fills between 1 and 5 slots, `Math.round` of the printed average. */
  lemma AverageStarsFilled(rs: seq<Review>)
    requires |rs| > 0 && RatingsInRange(rs)
    ensures 10 <= AverageTenths(rs) <= 50
    ensures AverageValue(rs) == AverageTenths(rs) as real / 10.0
    ensures Filled(AverageStars(rs)) == (AverageTenths(rs) + 5) / 10
    ensures 1 <= Filled(AverageStars(rs)) <= 5
  {
    AverageTenthsInRange(rs);
    AverageValueRounded(rs);
    AverageStarsRounded(rs);
  }

  /** Five reviews rated 5, 5, 4, 3 and 5 print as `4.4 (5 reviews)` beside
      four filled stars. */
  lemma FiveReviewsExample(a: Review, b: Review, c: Review, d: Review, e: Review)
    requires a.rating == 5 && b.rating == 5 && c.rating == 4 && d.rating == 3 && e.rating == 5
    ensures RatingSummary([a, b, c, d, e]) == "4.4 (5 reviews)"
    ensures Filled(AverageStars([a, b, c, d, e])) == 4
  {
    var rs := [a, b, c, d, e];
    FiveReviewsSum(a, b, c, d, e);
    assert AverageTenths(rs) == 44;
    FiveReviewsLabel(rs);
    assert RatingsInRange(rs);
    AverageStarsFilled(rs);
  }

  lemma FiveReviewsSum(a: Review, b: Review, c: Review, d: Review, e: Review)
    requires a.rating == 5 && b.rating == 5 && c.rating == 4 && d.rating == 3 && e.rating == 5
    ensures SumRatings([a, b, c, d, e]) == 22
  {
    SumRatingsPrepend(e, []);
    assert [e] + [] == [e];
    SumRatingsPrepend(d, [e]);
    assert [d] + [e] == [d, e];
    SumRatingsPrepend(c, [d, e]);
    assert [c] + [d, e] == [c, d, e];
    SumRatingsPrepend(b, [c, d, e]);
    assert [b] + [c, d, e] == [b, c, d, e];
    SumRatingsPrepend(a, [b, c, d, e]);
    assert [a] + [b, c, d, e] == [a, b, c, d, e];
  }

  lemma FiveReviewsLabel(rs: seq<Review>)
    requires |rs| == 5 && SumRatings(rs) == 22
    ensures RatingSummary(rs) == "4.4 (5 reviews)"
  {
    LabelOfSum(rs, 22, 44);
    FixedTenthsBelowHundred(44);
    assert DigitChar(4) == '4';
    assert DecimalString(5) == "5";
  }

  /** The label of a non-negative sum is the text of its rounded tenths. */
  lemma LabelOfSum(rs: seq<Review>, s: nat, t: nat)
    requires |rs| > 0 && SumRatings(rs) == s
    requires 2 * |rs| * t <= 20 * s + |rs| < 2 * |rs| * t + 2 * |rs|
    ensures AverageLabel(rs) == FixedTenths(t)
  {
    NearestTenthsUnique(s, |rs|, t);
  }

  /** Three reviews rated 5, 4 and 3 print as `4.0`; no review prints as `0`
      beside an empty star row. */
  lemma ThreeReviewsAndNoReviewExample(a: Review, b: Review, c: Review)
    requires a.rating == 5 && b.rating == 4 && c.rating == 3
    ensures AverageLabel([a, b, c]) == "4.0"
    ensures AverageLabel([]) == "0" && Filled(AverageStars([])) == 0
  {
    SumRatingsPrepend(c, []);
    assert [c] + [] == [c];
    SumRatingsPrepend(b, [c]);
    assert [b] + [c] == [b, c];
    SumRatingsPrepend(a, [b, c]);
    assert [a] + [b, c] == [a, b, c];
    ThreeReviewsLabel([a, b, c]);
    NoReviewLabel();
  }

  lemma ThreeReviewsLabel(rs: seq<Review>)
    requires |rs| == 3 && SumRatings(rs) == 12
    ensures AverageLabel(rs) == "4.0"
  {
    LabelOfSum(rs, 12, 40);
    FixedTenthsBelowHundred(40);
    assert DigitChar(4) == '4' && DigitChar(0) == '0';
  }

  lemma NoReviewLabel()
    ensures AverageLabel([]) == "0" && Filled(AverageStars([])) == 0
  {
    assert MathRound(AverageValue([])) == 0;
  }
}

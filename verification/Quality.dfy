/** The ranking score of a listing, over the reals, and the paged recompute that
  * rewrites every listing's score or badge. */
module Quality {
  import opened Prelude

  datatype Weights = Weights(rating: real, reviews: real, verified: real, claimed: real, completeness: real)

  datatype Signals = Signals(rating: Option<real>, reviewCount: Option<int>, verified: bool, claimed: bool,
                             bio: bool, photo: bool, phone: bool, website: bool)

  const REVIEW_PRIOR: real := 10.0
  const REVIEW_SATURATION: real := 500.0

  function Clamp(x: real): (r: real)
    ensures 0.0 <= r <= 1.0
  {
    if x < 0.0 then 0.0 else if x > 1.0 then 1.0 else x
  }

  function Flag(b: bool): real { if b then 1.0 else 0.0 }

  function Completeness(s: Signals): real { (Flag(s.bio) + Flag(s.photo) + Flag(s.phone) + Flag(s.website)) / 4.0 }

  function Count(s: Signals): real {
    if s.reviewCount.Some? && s.reviewCount.value > 0 then s.reviewCount.value as real else 0.0
  }

  /** The listing's own rating, pulled toward the mean by a prior of ten reviews. */
  function Adjusted(mean: real, observed: real, count: real): real
    requires count >= 0.0
  {
    Mixed(REVIEW_PRIOR, mean, observed, count)
  }

  function Mixed(prior: real, mean: real, observed: real, count: real): real
    requires prior + count > 0.0
  {
    (prior * mean + observed * count) / (prior + count)
  }

  function RatingTerm(s: Signals, mean: real): real {
    Clamp((Adjusted(mean, if s.rating.Some? then s.rating.value else mean, Count(s)) - 1.0) / 4.0)
  }

  /** Any logarithm will do: increasing, zero at one, positive at saturation. */
  ghost predicate IsLog(ln: real -> real) {
    && ln(1.0) == 0.0 && ln(REVIEW_SATURATION + 1.0) > 0.0
    && forall x, y :: x <= y ==> ln(x) <= ln(y)
  }

  function ReviewsTerm(s: Signals, ln: real -> real): real
    requires ln(REVIEW_SATURATION + 1.0) > 0.0
  {
    Clamp(ln(Count(s) + 1.0) / ln(REVIEW_SATURATION + 1.0))
  }

  function TotalWeight(w: Weights): real { w.rating + w.reviews + w.verified + w.claimed + w.completeness }

  /** The five reasons, each in 0..1. */
  datatype Terms = Terms(rating: real, reviews: real, verified: real, claimed: real, completeness: real)

  function TermsOf(s: Signals, mean: real, ln: real -> real): Terms
    requires ln(REVIEW_SATURATION + 1.0) > 0.0
  {
    Terms(RatingTerm(s, mean), ReviewsTerm(s, ln), Flag(s.verified), Flag(s.claimed), Completeness(s))
  }

  function Blended(w: Weights, t: Terms): real {
    w.rating * t.rating + w.reviews * t.reviews + w.verified * t.verified + w.claimed * t.claimed
    + w.completeness * t.completeness
  }

  function Score(s: Signals, mean: real, w: Weights, ln: real -> real): (r: real)
    requires ln(REVIEW_SATURATION + 1.0) > 0.0
    ensures 0.0 <= r <= 1.0
  {
    Ratio(Blended(w, TermsOf(s, mean, ln)), TotalWeight(w))
  }

  /** No weight at all scores nothing. */
  function Ratio(blend: real, total: real): (r: real)
    ensures 0.0 <= r <= 1.0
  {
    if total <= 0.0 then 0.0 else Clamp(blend / total)
  }

  predicate NonNegative(w: Weights) {
    w.rating >= 0.0 && w.reviews >= 0.0 && w.verified >= 0.0 && w.claimed >= 0.0 && w.completeness >= 0.0
  }

  // ---------------------------------------------------------------- arithmetic

  lemma DivideBoth(a: real, b: real, t: real)
    requires a <= b && t > 0.0
    ensures a / t <= b / t
  {
  }

  lemma TimesBoth(w: real, a: real, b: real)
    requires w >= 0.0 && a <= b
    ensures w * a <= w * b
  {
  }

  lemma PositiveFactor(x: real, y: real)
    requires y > 0.0 && x * y >= 0.0
    ensures x >= 0.0
  {
  }

  lemma Cancel(k: real, a: real, b: real)
    requires k > 0.0 && b > 0.0
    ensures (k * a) / (k * b) == a / b
  {
    var q := a / b;
    assert q * b == a && k * b > 0.0;
    assert q * (k * b) == k * a;
  }

  // --------------------------------------------------------------- monotonicity

  lemma AdjustedInRating(mean: real, a: real, b: real, count: real)
    requires a <= b && count >= 0.0
    ensures Adjusted(mean, a, count) <= Adjusted(mean, b, count)
  {
    TimesBoth(count, a, b);
    DivideBoth(REVIEW_PRIOR * mean + a * count, REVIEW_PRIOR * mean + b * count, REVIEW_PRIOR + count);
  }

  lemma Between(lo: real, hi: real, blend: real, total: real)
    requires total > 0.0 && lo * total <= blend <= hi * total
    ensures lo <= blend / total <= hi
  {
    var q := blend / total;
    assert q * total == blend;
    assert (q - lo) * total >= 0.0 && (hi - q) * total >= 0.0;
    PositiveFactor(q - lo, total);
    PositiveFactor(hi - q, total);
  }

  lemma TimesSum(x: real, prior: real, count: real)
    ensures x * (prior + count) == prior * x + count * x
  {
  }

  lemma WeightedBetween(lo: real, hi: real, prior: real, count: real)
    requires lo <= hi && prior > 0.0 && count >= 0.0
    ensures lo <= Mixed(prior, lo, hi, count) <= hi && lo <= Mixed(prior, hi, lo, count) <= hi
  {
    TimesSum(lo, prior, count);
    TimesSum(hi, prior, count);
    TimesBoth(prior, lo, hi);
    TimesBoth(count, lo, hi);
    Between(lo, hi, prior * lo + hi * count, prior + count);
    Between(lo, hi, prior * hi + lo * count, prior + count);
  }

  lemma NoWeightLeft(prior: real, x: real, y: real)
    requires prior > 0.0
    ensures Mixed(prior, x, y, 0.0) == x
  {
  }

  /** With no reviews the adjusted rating is the mean, whatever the listing says. */
  lemma UnreviewedIsOrdinary(mean: real, observed: real)
    ensures Adjusted(mean, observed, 0.0) == mean
  {
    NoWeightLeft(REVIEW_PRIOR, mean, observed);
  }

  /** No rating is pulled past the mean. */
  lemma AdjustedBetween(mean: real, observed: real, count: real)
    requires count >= 0.0
    ensures mean <= observed ==> mean <= Adjusted(mean, observed, count) <= observed
    ensures observed <= mean ==> observed <= Adjusted(mean, observed, count) <= mean
  {
    if mean <= observed {
      WeightedBetween(mean, observed, REVIEW_PRIOR, count);
    } else {
      WeightedBetween(observed, mean, REVIEW_PRIOR, count);
    }
  }

  /** More weight on the larger value moves the mean up. */
  lemma WeightedGrows(lo: real, hi: real, prior: real, c: real, d: real)
    requires lo <= hi && prior > 0.0 && 0.0 <= c <= d
    ensures Mixed(prior, lo, hi, c) <= Mixed(prior, lo, hi, d)
  {
    var q := Mixed(prior, lo, hi, c);
    WeightedBetween(lo, hi, prior, c);
    WeightedBetween(lo, hi, prior, d);
    assert q * (prior + c) == prior * lo + hi * c;
    GrowsBy(q, lo, hi, prior, c, d);
    TimesSum(hi, prior, d);
    TimesBoth(prior, lo, hi);
    Between(q, hi, prior * lo + hi * d, prior + d);
  }

  lemma GrowsBy(q: real, lo: real, hi: real, prior: real, c: real, d: real)
    requires q <= hi && c <= d && q * (prior + c) == prior * lo + hi * c
    ensures q * (prior + d) <= prior * lo + hi * d
  {
    TimesSum(q, prior, c);
    TimesSum(q, prior, d);
    TimesBoth(d - c, q, hi);
    TimesDifference(q, c, d);
    TimesDifference(hi, c, d);
  }

  lemma TimesDifference(x: real, c: real, d: real)
    ensures (d - c) * x == d * x - c * x
  {
  }

  lemma Mirrored(prior: real, x: real, y: real, c: real)
    requires prior + c > 0.0
    ensures Mixed(prior, -x, -y, c) == -Mixed(prior, x, y, c)
  {
    assert prior * -x + -y * c == -(prior * x + y * c);
    Negated(prior * x + y * c, prior + c);
  }

  lemma Negated(a: real, t: real)
    requires t > 0.0
    ensures (-a) / t == -(a / t)
  {
  }

  /** More reviews move the adjusted rating toward the observed one, up or down. */
  lemma AdjustedInCount(mean: real, observed: real, c: real, d: real)
    requires 0.0 <= c <= d
    ensures observed >= mean ==> Adjusted(mean, observed, c) <= Adjusted(mean, observed, d)
    ensures observed <= mean ==> Adjusted(mean, observed, c) >= Adjusted(mean, observed, d)
  {
    if observed >= mean {
      WeightedGrows(mean, observed, REVIEW_PRIOR, c, d);
    } else {
      WeightedGrows(-mean, -observed, REVIEW_PRIOR, c, d);
      Mirrored(REVIEW_PRIOR, mean, observed, c);
      Mirrored(REVIEW_PRIOR, mean, observed, d);
    }
    if observed == mean { MixedOfSame(REVIEW_PRIOR, mean, c); MixedOfSame(REVIEW_PRIOR, mean, d); }
  }

  lemma MixedOfSame(prior: real, x: real, c: real)
    requires prior > 0.0 && c >= 0.0
    ensures Mixed(prior, x, x, c) == x
  {
    WeightedBetween(x, x, prior, c);
  }

  predicate NoBetter(t: Terms, u: Terms) {
    && t.rating <= u.rating && t.reviews <= u.reviews && t.verified <= u.verified
    && t.claimed <= u.claimed && t.completeness <= u.completeness
  }

  lemma BlendedMonotone(w: Weights, t: Terms, u: Terms)
    requires NonNegative(w) && NoBetter(t, u)
    ensures Blended(w, t) <= Blended(w, u)
  {
    TimesBoth(w.rating, t.rating, u.rating);
    TimesBoth(w.reviews, t.reviews, u.reviews);
    TimesBoth(w.verified, t.verified, u.verified);
    TimesBoth(w.claimed, t.claimed, u.claimed);
    TimesBoth(w.completeness, t.completeness, u.completeness);
    SumsOrdered(w.rating * t.rating, w.reviews * t.reviews, w.verified * t.verified, w.claimed * t.claimed,
                w.completeness * t.completeness,
                w.rating * u.rating, w.reviews * u.reviews, w.verified * u.verified, w.claimed * u.claimed,
                w.completeness * u.completeness);
  }

  lemma SumsOrdered(a: real, b: real, c: real, d: real, e: real, a': real, b': real, c': real, d': real, e': real)
    requires a <= a' && b <= b' && c <= c' && d <= d' && e <= e'
    ensures a + b + c + d + e <= a' + b' + c' + d' + e'
  {
  }

  lemma ScoreFromTerms(s: Signals, t: Signals, mean: real, w: Weights, ln: real -> real)
    requires NonNegative(w) && IsLog(ln) && NoBetter(TermsOf(s, mean, ln), TermsOf(t, mean, ln))
    ensures Score(s, mean, w, ln) <= Score(t, mean, w, ln)
  {
    var a, b := Blended(w, TermsOf(s, mean, ln)), Blended(w, TermsOf(t, mean, ln));
    BlendedMonotone(w, TermsOf(s, mean, ln), TermsOf(t, mean, ln));
    if TotalWeight(w) > 0.0 { DivideBoth(a, b, TotalWeight(w)); }
  }

  /** Better on every count that is not the number of reviews; two listings nobody
    * has rated are compared on the rest. */
  predicate Better(t: Signals, s: Signals) {
    && t.reviewCount == s.reviewCount
    && (t.rating == s.rating || (s.rating.Some? && t.rating.Some? && s.rating.value <= t.rating.value))
    && (s.verified ==> t.verified) && (s.claimed ==> t.claimed)
    && (s.bio ==> t.bio) && (s.photo ==> t.photo) && (s.phone ==> t.phone) && (s.website ==> t.website)
  }

  /** A better listing never ranks lower, whatever the weights. */
  lemma ScoreMonotone(s: Signals, t: Signals, mean: real, w: Weights, ln: real -> real)
    requires Better(t, s) && NonNegative(w) && IsLog(ln)
    ensures Score(s, mean, w, ln) <= Score(t, mean, w, ln)
  {
    RatingTermInRating(s, t, mean);
    DivideBoth(Flag(s.bio) + Flag(s.photo) + Flag(s.phone) + Flag(s.website),
               Flag(t.bio) + Flag(t.photo) + Flag(t.phone) + Flag(t.website), 4.0);
    ScoreFromTerms(s, t, mean, w, ln);
  }

  lemma RatingTermInRating(s: Signals, t: Signals, mean: real)
    requires Better(t, s)
    ensures RatingTerm(s, mean) <= RatingTerm(t, mean)
  {
    if s.rating.Some? && t.rating.Some? { AdjustedInRating(mean, s.rating.value, t.rating.value, Count(s)); }
  }

  lemma RatingTermInCount(s: Signals, t: Signals, mean: real)
    requires t.rating == s.rating && Count(s) <= Count(t) && (s.rating.Some? ==> s.rating.value >= mean)
    ensures RatingTerm(s, mean) <= RatingTerm(t, mean)
  {
    var observed := if s.rating.Some? then s.rating.value else mean;
    AdjustedInCount(mean, observed, Count(s), Count(t));
  }

  lemma ReviewsTermInCount(s: Signals, t: Signals, ln: real -> real)
    requires IsLog(ln) && Count(s) <= Count(t)
    ensures ReviewsTerm(s, ln) <= ReviewsTerm(t, ln)
  {
    DivideBoth(ln(Count(s) + 1.0), ln(Count(t) + 1.0), ln(REVIEW_SATURATION + 1.0));
  }

  /** More reviews never hurt a listing rated at the mean or above, or not at all. */
  lemma MoreReviewsHelp(s: Signals, n: int, mean: real, w: Weights, ln: real -> real)
    requires NonNegative(w) && IsLog(ln) && (s.rating.Some? ==> s.rating.value >= mean)
    requires s.reviewCount.Some? ==> s.reviewCount.value <= n
    ensures Score(s, mean, w, ln) <= Score(s.(reviewCount := Some(n)), mean, w, ln)
  {
    var t := s.(reviewCount := Some(n));
    RatingTermInCount(s, t, mean);
    ReviewsTermInCount(s, t, ln);
    ScoreFromTerms(s, t, mean, w, ln);
  }

  function Scaled(w: Weights, k: real): Weights {
    Weights(k * w.rating, k * w.reviews, k * w.verified, k * w.claimed, k * w.completeness)
  }

  lemma BlendedScaled(w: Weights, k: real, t: Terms)
    ensures Blended(Scaled(w, k), t) == k * Blended(w, t)
  {
    Distribute(k, w.rating, t.rating);
    Distribute(k, w.reviews, t.reviews);
    Distribute(k, w.verified, t.verified);
    Distribute(k, w.claimed, t.claimed);
    Distribute(k, w.completeness, t.completeness);
  }

  lemma Distribute(k: real, w: real, x: real)
    ensures (k * w) * x == k * (w * x)
  {
  }

  /** Only the proportions of the weights matter. */
  lemma ScaleFree(s: Signals, mean: real, w: Weights, k: real, ln: real -> real)
    requires NonNegative(w) && IsLog(ln) && k > 0.0
    ensures Score(s, mean, Scaled(w, k), ln) == Score(s, mean, w, ln)
  {
    RatioOfScaled(w, k, TermsOf(s, mean, ln));
  }

  lemma RatioOfScaled(w: Weights, k: real, t: Terms)
    requires k > 0.0
    ensures Ratio(Blended(Scaled(w, k), t), TotalWeight(Scaled(w, k))) == Ratio(Blended(w, t), TotalWeight(w))
  {
    BlendedScaled(w, k, t);
    TotalScaled(w, k);
    SameRatio(k, Blended(w, t), TotalWeight(w), Blended(Scaled(w, k), t), TotalWeight(Scaled(w, k)));
  }

  lemma SameRatio(k: real, blend: real, total: real, blend': real, total': real)
    requires k > 0.0 && blend' == k * blend && total' == k * total
    ensures Ratio(blend', total') == Ratio(blend, total)
  {
    RatioScaled(k, blend, total);
  }

  lemma TotalScaled(w: Weights, k: real)
    ensures TotalWeight(Scaled(w, k)) == k * TotalWeight(w)
  {
  }

  lemma RatioScaled(k: real, blend: real, total: real)
    requires k > 0.0
    ensures Ratio(k * blend, k * total) == Ratio(blend, total)
  {
    if total > 0.0 {
      Cancel(k, blend, total);
      assert k * total > 0.0;
    } else {
      TimesBoth(k, total, 0.0);
    }
  }

  // ------------------------------------------------------- what each part is worth

  predicate InUnit(t: Terms) {
    && 0.0 <= t.rating <= 1.0 && 0.0 <= t.reviews <= 1.0 && 0.0 <= t.verified <= 1.0
    && 0.0 <= t.claimed <= 1.0 && 0.0 <= t.completeness <= 1.0
  }

  lemma BlendedWithin(w: Weights, t: Terms)
    requires NonNegative(w) && InUnit(t)
    ensures 0.0 <= Blended(w, t) <= TotalWeight(w)
  {
    var all, none := Terms(1.0, 1.0, 1.0, 1.0, 1.0), Terms(0.0, 0.0, 0.0, 0.0, 0.0);
    BlendedMonotone(w, none, t);
    BlendedMonotone(w, t, all);
    BlendedEnds(w);
  }

  lemma BlendedEnds(w: Weights)
    ensures Blended(w, Terms(1.0, 1.0, 1.0, 1.0, 1.0)) == TotalWeight(w)
    ensures Blended(w, Terms(0.0, 0.0, 0.0, 0.0, 0.0)) == 0.0
  {
  }

  /** With weights to speak of, the score is the weighted mean of its five terms:
    * the last clamp never has anything to do. */
  lemma ScoreIsWeightedMean(s: Signals, mean: real, w: Weights, ln: real -> real)
    requires NonNegative(w) && TotalWeight(w) > 0.0 && IsLog(ln)
    ensures Score(s, mean, w, ln) == Blended(w, TermsOf(s, mean, ln)) / TotalWeight(w)
  {
    var t := TermsOf(s, mean, ln);
    BlendedWithin(w, t);
    var blend, total := Blended(w, t), TotalWeight(w);
    Between(0.0, 1.0, blend, total);
  }

  lemma SplitQuotient(a: real, b: real, t: real)
    requires t > 0.0
    ensures (a + b) / t == a / t + b / t
  {
  }

  lemma RaisedBy(s: Signals, t: Signals, extra: real, mean: real, w: Weights, ln: real -> real)
    requires NonNegative(w) && TotalWeight(w) > 0.0 && IsLog(ln)
    requires Blended(w, TermsOf(t, mean, ln)) == Blended(w, TermsOf(s, mean, ln)) + extra
    ensures Score(t, mean, w, ln) == Score(s, mean, w, ln) + extra / TotalWeight(w)
  {
    ScoreIsWeightedMean(s, mean, w, ln);
    ScoreIsWeightedMean(t, mean, w, ln);
    SplitQuotient(Blended(w, TermsOf(s, mean, ln)), extra, TotalWeight(w));
  }

  lemma TermRaised(w: Weights, t: Terms)
    ensures Blended(w, t.(verified := 1.0)) == Blended(w, t.(verified := 0.0)) + w.verified
    ensures Blended(w, t.(claimed := 1.0)) == Blended(w, t.(claimed := 0.0)) + w.claimed
    ensures Blended(w, t.(completeness := t.completeness + 0.25)) == Blended(w, t) + w.completeness / 4.0
  {
    Quarter(w.completeness, t.completeness);
  }

  lemma Quarter(w: real, c: real)
    ensures w * (c + 0.25) == w * c + w / 4.0
  {
  }

  /** The badge is worth exactly its weight. */
  lemma WorthOfBadge(s: Signals, mean: real, w: Weights, ln: real -> real)
    requires NonNegative(w) && TotalWeight(w) > 0.0 && IsLog(ln)
    ensures Score(s.(verified := true), mean, w, ln)
            == Score(s.(verified := false), mean, w, ln) + w.verified / TotalWeight(w)
  {
    var t := TermsOf(s, mean, ln);
    TermRaised(w, t);
    assert TermsOf(s.(verified := true), mean, ln) == t.(verified := 1.0);
    assert TermsOf(s.(verified := false), mean, ln) == t.(verified := 0.0);
    RaisedBy(s.(verified := false), s.(verified := true), w.verified, mean, w, ln);
  }

  /** So is the claim. */
  lemma WorthOfClaim(s: Signals, mean: real, w: Weights, ln: real -> real)
    requires NonNegative(w) && TotalWeight(w) > 0.0 && IsLog(ln)
    ensures Score(s.(claimed := true), mean, w, ln)
            == Score(s.(claimed := false), mean, w, ln) + w.claimed / TotalWeight(w)
  {
    var t := TermsOf(s, mean, ln);
    TermRaised(w, t);
    assert TermsOf(s.(claimed := true), mean, ln) == t.(claimed := 1.0);
    assert TermsOf(s.(claimed := false), mean, ln) == t.(claimed := 0.0);
    RaisedBy(s.(claimed := false), s.(claimed := true), w.claimed, mean, w, ln);
  }

  /** `t` is `s` with one more of the four profile fields filled in. */
  predicate OneMoreField(s: Signals, t: Signals) {
    || (!s.bio && t == s.(bio := true)) || (!s.photo && t == s.(photo := true))
    || (!s.phone && t == s.(phone := true)) || (!s.website && t == s.(website := true))
  }

  lemma FieldRaises(s: Signals, t: Signals, mean: real, ln: real -> real)
    requires IsLog(ln) && OneMoreField(s, t)
    ensures TermsOf(t, mean, ln) == TermsOf(s, mean, ln).(completeness := Completeness(s) + 0.25)
  {
  }

  /** And each field is worth a quarter of the completeness weight. */
  lemma WorthOfField(s: Signals, t: Signals, mean: real, w: Weights, ln: real -> real)
    requires NonNegative(w) && TotalWeight(w) > 0.0 && IsLog(ln) && OneMoreField(s, t)
    ensures Score(t, mean, w, ln) == Score(s, mean, w, ln) + w.completeness / 4.0 / TotalWeight(w)
  {
    var u := TermsOf(s, mean, ln);
    TermRaised(w, u);
    FieldRaises(s, t, mean, ln);
    RaisedBy(s, t, w.completeness / 4.0, mean, w, ln);
  }

  lemma TermShifted(w: Weights, t: Terms, d: real)
    ensures Blended(w, t.(rating := t.rating + d)) == Blended(w, t) + w.rating * d
    ensures Blended(w, t.(reviews := t.reviews + d)) == Blended(w, t) + w.reviews * d
  {
    Spread(w.rating, t.rating, d);
    Spread(w.reviews, t.reviews, d);
  }

  lemma Spread(w: real, x: real, d: real)
    ensures w * (x + d) == w * x + w * d
  {
  }

  /** A listing with this many reviews, and this rating if any. */
  function Reviewed(s: Signals, rating: Option<real>, n: nat): Signals {
    s.(rating := rating, reviewCount := Some(n))
  }

  /** What the rating weighs with n reviews. */
  function Pulled(rating: Option<real>, n: nat, mean: real): real {
    if rating.None? then mean else (10.0 * mean + rating.value * n as real) / (10.0 + n as real)
  }

  /** Ratings run from one to five, and so does the mean: no clamp is needed then. */
  lemma RatingTermIs(s: Signals, rating: Option<real>, n: nat, mean: real)
    requires 1.0 <= mean <= 5.0 && (rating.Some? ==> 1.0 <= rating.value <= 5.0)
    ensures RatingTerm(Reviewed(s, rating, n), mean) == (Pulled(rating, n, mean) - 1.0) / 4.0
  {
    var count, observed := n as real, if rating.Some? then rating.value else mean;
    assert Count(Reviewed(s, rating, n)) == count;
    AdjustedBetween(mean, observed, count);
    if rating.None? { MixedOfSame(REVIEW_PRIOR, mean, count); }
    assert Adjusted(mean, observed, count) == Pulled(rating, n, mean);
  }

  lemma PulledApart(a: real, b: real, n: nat, mean: real)
    ensures Pulled(Some(b), n, mean) == Pulled(Some(a), n, mean) + (b - a) * n as real / (10.0 + n as real)
  {
    var count := n as real;
    TimesDifference(count, a, b);
    SplitQuotient(10.0 * mean + a * count, (b - a) * count, 10.0 + count);
  }

  lemma StarsApart(s: Signals, a: real, b: real, n: nat, mean: real) returns (d: real)
    requires 1.0 <= mean <= 5.0 && 1.0 <= a <= 5.0 && 1.0 <= b <= 5.0
    ensures d == (b - a) * n as real / (10.0 + n as real) / 4.0
    ensures RatingTerm(Reviewed(s, Some(b), n), mean) == RatingTerm(Reviewed(s, Some(a), n), mean) + d
  {
    var step := (b - a) * n as real / (10.0 + n as real);
    d := step / 4.0;
    RatingTermIs(s, Some(a), n, mean);
    RatingTermIs(s, Some(b), n, mean);
    PulledApart(a, b, n, mean);
    SplitQuotient(Pulled(Some(a), n, mean) - 1.0, step, 4.0);
  }

  lemma RatingShifts(s: Signals, t: Signals, d: real, mean: real, w: Weights, ln: real -> real)
    requires NonNegative(w) && TotalWeight(w) > 0.0 && IsLog(ln)
    requires TermsOf(t, mean, ln) == TermsOf(s, mean, ln).(rating := RatingTerm(s, mean) + d)
    ensures Score(t, mean, w, ln) == Score(s, mean, w, ln) + w.rating * d / TotalWeight(w)
  {
    TermShifted(w, TermsOf(s, mean, ln), d);
    RaisedBy(s, t, w.rating * d, mean, w, ln);
  }

  /** What a better rating is worth: with n reviews, n parts in n + 10 of the
    * difference, as a share of the four points between one and five. */
  lemma WorthOfRating(s: Signals, a: real, b: real, n: nat, mean: real, w: Weights, ln: real -> real)
      returns (d: real)
    requires NonNegative(w) && TotalWeight(w) > 0.0 && IsLog(ln)
    requires 1.0 <= mean <= 5.0 && 1.0 <= a <= 5.0 && 1.0 <= b <= 5.0
    ensures d == (b - a) * n as real / (10.0 + n as real) / 4.0
    ensures Score(Reviewed(s, Some(b), n), mean, w, ln)
            == Score(Reviewed(s, Some(a), n), mean, w, ln) + w.rating * d / TotalWeight(w)
  {
    d := StarsApart(s, a, b, n, mean);
    RatingShifts(Reviewed(s, Some(a), n), Reviewed(s, Some(b), n), d, mean, w, ln);
  }

  lemma ReviewsTermIs(s: Signals, rating: Option<real>, n: nat, ln: real -> real)
    requires IsLog(ln)
    ensures ReviewsTerm(Reviewed(s, rating, n), ln) == if n >= 500 then 1.0 else ln(n as real + 1.0) / ln(501.0)
  {
    var all, part := ln(501.0), ln(n as real + 1.0);
    assert Count(Reviewed(s, rating, n)) == n as real;
    if n >= 500 { Between(1.0, part / all, part, all); } else { Between(0.0, 1.0, part, all); }
  }

  lemma ReviewsShift(s: Signals, t: Signals, d: real, mean: real, w: Weights, ln: real -> real)
    requires NonNegative(w) && TotalWeight(w) > 0.0 && IsLog(ln)
    requires TermsOf(t, mean, ln) == TermsOf(s, mean, ln).(reviews := ReviewsTerm(s, ln) + d)
    ensures Score(t, mean, w, ln) == Score(s, mean, w, ln) + w.reviews * d / TotalWeight(w)
  {
    TermShifted(w, TermsOf(s, mean, ln), d);
    RaisedBy(s, t, w.reviews * d, mean, w, ln);
  }

  lemma ReviewsApart(s: Signals, n: nat, mean: real, ln: real -> real) returns (d: real)
    requires IsLog(ln) && 1.0 <= mean <= 5.0
    ensures d == if n >= 500 then 1.0 else ln(n as real + 1.0) / ln(501.0)
    ensures TermsOf(Reviewed(s, None, n), mean, ln)
            == TermsOf(Reviewed(s, None, 0), mean, ln).(reviews := ReviewsTerm(Reviewed(s, None, 0), ln) + d)
  {
    d := ReviewsTerm(Reviewed(s, None, n), ln);
    RatingTermIs(s, None, 0, mean);
    RatingTermIs(s, None, n, mean);
    ReviewsTermIs(s, None, 0, ln);
    ReviewsTermIs(s, None, n, ln);
  }

  /** What reviews are worth to a listing nobody has rated: nothing without any, the
    * whole weight from five hundred on, and by the logarithm in between. */
  lemma WorthOfReviews(s: Signals, n: nat, mean: real, w: Weights, ln: real -> real) returns (d: real)
    requires NonNegative(w) && TotalWeight(w) > 0.0 && IsLog(ln) && 1.0 <= mean <= 5.0
    ensures d == if n >= 500 then 1.0 else ln(n as real + 1.0) / ln(501.0)
    ensures Score(Reviewed(s, None, n), mean, w, ln)
            == Score(Reviewed(s, None, 0), mean, w, ln) + w.reviews * d / TotalWeight(w)
  {
    d := ReviewsApart(s, n, mean, ln);
    ReviewsShift(Reviewed(s, None, 0), Reviewed(s, None, n), d, mean, w, ln);
  }

  lemma OnlyRating(w: Weights, x: real)
    ensures Blended(w, Terms(x, 0.0, 0.0, 0.0, 0.0)) == w.rating * x
  {
  }

  /** A listing with nothing to show scores what the mean is worth. */
  lemma NothingToShow(mean: real, w: Weights, ln: real -> real)
    requires NonNegative(w) && TotalWeight(w) > 0.0 && IsLog(ln) && 1.0 <= mean <= 5.0
    ensures Score(Signals(None, None, false, false, false, false, false, false), mean, w, ln)
            == w.rating * ((mean - 1.0) / 4.0) / TotalWeight(w)
  {
    var s := Signals(None, None, false, false, false, false, false, false);
    ScoreIsWeightedMean(s, mean, w, ln);
    MixedOfSame(REVIEW_PRIOR, mean, 0.0);
    assert RatingTerm(s, mean) == (mean - 1.0) / 4.0;
    Between(0.0, 0.0, 0.0, ln(501.0));
    assert TermsOf(s, mean, ln) == Terms((mean - 1.0) / 4.0, 0.0, 0.0, 0.0, 0.0);
    OnlyRating(w, (mean - 1.0) / 4.0);
  }
}

/** The nightly recompute: ids in pages, each page resuming after the last id of
  * the one before. Used for the score and for the badge alike. */
module PagedRecompute {
  import opened Prelude
  import Quality
  import Claims

  type Id = nat

  ghost predicate After(after: Option<Id>, id: Id) { after.Some? ==> id > after.value }

  predicate Ascending(s: seq<Id>) { forall i, j :: 0 <= i < j < |s| ==> s[i] < s[j] }

  /** The smallest of a set of ids. */
  method Smallest(ids: set<Id>) returns (m: Id)
    requires ids != {}
    ensures m in ids && forall x :: x in ids ==> m <= x
  {
    m :| m in ids;
    var todo := ids;
    while todo != {}
      invariant todo <= ids && m in ids
      invariant forall x :: x in ids && x !in todo ==> m <= x
      decreases todo
    {
      var x :| x in todo;
      todo := todo - {x};
      if x < m { m := x; }
    }
  }

  /** `WHERE id > after ORDER BY id LIMIT page`. */
  method NextPage(ids: set<Id>, after: Option<Id>, page: nat) returns (s: seq<Id>)
    ensures Ascending(s) && |s| <= page
    ensures forall x :: x in s ==> x in ids && After(after, x)
    ensures forall x, y :: x in s && y in ids && After(after, y) && y !in s ==> x < y
    ensures |s| < page ==> forall x :: x in ids && After(after, x) ==> x in s
  {
    var left := set x | x in ids && (after.None? || x > after.value);
    s := [];
    while left != {} && |s| < page
      invariant Ascending(s) && |s| <= page
      invariant forall x :: x in s ==> x in ids && After(after, x)
      invariant forall x :: x in left <==> x in ids && After(after, x) && x !in s
      invariant forall x, y :: x in s && y in left ==> x < y
      decreases left
    {
      var m := Smallest(left);
      assert forall i :: 0 <= i < |s| ==> s[i] in s;
      s := s + [m];
      left := left - {m};
    }
  }

  /** The stored value is what the rule makes of the facts. */
  predicate Agrees<R, V(==)>(facts: map<Id, R>, stored: map<Id, V>, rule: R -> V, id: Id) {
    id in facts && id in stored && stored[id] == rule(facts[id])
  }

  /** Those of `ids` that do not agree. */
  function Off<R, V(==)>(facts: map<Id, R>, stored: map<Id, V>, rule: R -> V, ids: set<Id>): set<Id> {
    set id | id in ids && !Agrees(facts, stored, rule, id)
  }

  function Rewritten<R, V(==)>(facts: map<Id, R>, stored: map<Id, V>, rule: R -> V, ids: set<Id>): map<Id, V> {
    map id | id in stored :: if id in ids && id in facts then rule(facts[id]) else stored[id]
  }

  lemma RewriteOneMore<R, V>(facts: map<Id, R>, stored: map<Id, V>, rule: R -> V, ids: set<Id>, id: Id)
    requires id in facts && id in stored && id !in ids
    ensures Rewritten(facts, stored, rule, ids + {id}) == Rewritten(facts, stored, rule, ids)[id := rule(facts[id])]
    ensures stored[id] == rule(facts[id]) ==>
            Rewritten(facts, stored, rule, ids + {id}) == Rewritten(facts, stored, rule, ids)
    ensures |Off(facts, stored, rule, ids + {id})|
            == |Off(facts, stored, rule, ids)| + if stored[id] != rule(facts[id]) then 1 else 0
  {
    var before, after := Off(facts, stored, rule, ids), Off(facts, stored, rule, ids + {id});
    if stored[id] != rule(facts[id]) { assert after == before + {id}; } else { assert after == before; }
  }

  lemma RewriteInTwo<R, V>(facts: map<Id, R>, stored: map<Id, V>, rule: R -> V, a: set<Id>, b: set<Id>)
    requires a !! b
    ensures Rewritten(facts, Rewritten(facts, stored, rule, a), rule, b) == Rewritten(facts, stored, rule, a + b)
    ensures |Off(facts, stored, rule, a + b)|
            == |Off(facts, stored, rule, a)| + |Off(facts, Rewritten(facts, stored, rule, a), rule, b)|
  {
    var x, y := Off(facts, stored, rule, a), Off(facts, Rewritten(facts, stored, rule, a), rule, b);
    assert y == Off(facts, stored, rule, b);
    assert Off(facts, stored, rule, a + b) == x + y && x !! y;
  }

  /** The listings: what is known of each, and the value kept beside it. */
  class Table<R, V(==)> {
    const facts: map<Id, R>
    var stored: map<Id, V>

    constructor (facts: map<Id, R>, stored: map<Id, V>)
      ensures this.facts == facts && this.stored == stored
    {
      this.facts, this.stored := facts, stored;
    }

    /** Every row is visited exactly once, in order, and ends as the rule says; the
      * rows counted as changed are the ones that did not follow it before. */
    method RecomputeAll(rule: R -> V, page: nat) returns (processed: nat, changed: nat, visited: seq<Id>)
      requires page >= 1 && stored.Keys == facts.Keys
      modifies this
      ensures stored.Keys == facts.Keys && forall id :: id in facts ==> Agrees(facts, stored, rule, id)
      ensures Ascending(visited) && SetOf(visited) == facts.Keys && processed == |visited|
      ensures changed == |Off(facts, old(stored), rule, facts.Keys)|
    {
      processed, changed, visited := 0, 0, [];
      var after: Option<Id> := None;
      assert stored == Rewritten(facts, stored, rule, SetOf(visited));
      while true
        invariant stored == Rewritten(facts, old(stored), rule, SetOf(visited))
        invariant Walked(visited, after, facts.Keys) && processed == |visited|
        invariant changed == |Off(facts, old(stored), rule, SetOf(visited))|
        decreases |facts| - |visited|
      {
        var ids := NextPage(facts.Keys, after, page);
        if ids == [] {
          WalkedAll(visited, after, facts.Keys);
          assert forall id :: id in facts ==> Agrees(facts, stored, rule, id);
          return;
        }
        PageExtends(visited, ids, after, facts.Keys);
        NothingTwice(visited, ids);
        RewriteInTwo(facts, old(stored), rule, SetOf(visited), SetOf(ids));
        var n := Rewrite(rule, ids);
        after := Some(ids[|ids| - 1]);
        visited := visited + ids;
        processed, changed := processed + |ids|, changed + n;
      }
    }

    /** One page in one transaction, leaving alone the rows that already agree. */
    method Rewrite(rule: R -> V, ids: seq<Id>) returns (changed: nat)
      requires Ascending(ids) && forall x :: x in ids ==> x in facts && x in stored
      modifies this
      ensures stored == Rewritten(facts, old(stored), rule, SetOf(ids))
      ensures changed == |Off(facts, old(stored), rule, SetOf(ids))|
    {
      changed := 0;
      assert stored == Rewritten(facts, stored, rule, SetOf(ids[..0]));
      for i := 0 to |ids|
        invariant stored == Rewritten(facts, old(stored), rule, SetOf(ids[..i]))
        invariant changed == |Off(facts, old(stored), rule, SetOf(ids[..i]))|
      {
        var id := ids[i];
        assert ids[..i + 1] == ids[..i] + [id] && id !in SetOf(ids[..i]);
        assert SetOf(ids[..i + 1]) == SetOf(ids[..i]) + {id};
        RewriteOneMore(facts, old(stored), rule, SetOf(ids[..i]), id);
        var value := rule(facts[id]);
        if stored[id] != value {
          stored := stored[id := value];
          changed := changed + 1;
        }
      }
      assert ids[..|ids|] == ids;
    }
  }

  lemma NothingTwice(visited: seq<Id>, ids: seq<Id>)
    requires Ascending(visited + ids)
    ensures SetOf(visited) !! SetOf(ids) && SetOf(visited + ids) == SetOf(visited) + SetOf(ids)
  {
    forall x | x in visited ensures x !in ids {
      var i :| 0 <= i < |visited| && visited[i] == x;
      forall k | 0 <= k < |ids| ensures ids[k] != x {
        assert (visited + ids)[i] == x && (visited + ids)[|visited| + k] == ids[k];
      }
    }
  }

  /** Every listing's score is the pure score of its signals. */
  method RecomputeScores(t: Table<Quality.Signals, real>, mean: real, w: Quality.Weights, ln: real -> real, page: nat)
      returns (scanned: nat, changed: nat)
    requires page >= 1 && t.stored.Keys == t.facts.Keys && ln(Quality.REVIEW_SATURATION + 1.0) > 0.0
    modifies t
    ensures t.stored.Keys == t.facts.Keys && scanned == |t.facts|
    ensures forall id :: id in t.facts ==> t.stored[id] == Quality.Score(t.facts[id], mean, w, ln)
  {
    var rule := (s: Quality.Signals) =>
      if ln(Quality.REVIEW_SATURATION + 1.0) > 0.0 then Quality.Score(s, mean, w, ln) else 0.0;
    var visited;
    scanned, changed, visited := t.RecomputeAll(rule, page);
    MembersSize(visited);
    assert forall id :: id in t.facts ==> Agrees(t.facts, t.stored, rule, id);
  }

  /** Every listing's badge is the decision on its claim and licence as of `today`. */
  method RecomputeBadges(t: Table<(bool, Option<Claims.Licence>), bool>, today: int, page: nat) returns (processed: nat)
    requires page >= 1 && t.stored.Keys == t.facts.Keys
    modifies t
    ensures t.stored.Keys == t.facts.Keys && processed == |t.facts|
    ensures forall id :: id in t.facts ==>
              (t.stored[id] <==>
                 && t.facts[id].0 && t.facts[id].1.Some? && t.facts[id].1.value.status == Claims.Active
                 && (t.facts[id].1.value.expires == None || t.facts[id].1.value.expires.value >= today))
  {
    var rule := (f: (bool, Option<Claims.Licence>)) => Claims.Deserves(f.0, f.1, today);
    var changed, visited;
    processed, changed, visited := t.RecomputeAll(rule, page);
    MembersSize(visited);
    assert forall id :: id in t.facts ==> Agrees(t.facts, t.stored, rule, id);
  }

  lemma LastIsNew(before: seq<Id>, x: Id)
    requires Ascending(before + [x])
    ensures Ascending(before) && x !in SetOf(before) && SetOf(before + [x]) == SetOf(before) + {x}
  {
    var s := before + [x];
    forall i | 0 <= i < |before| ensures before[i] < x { assert s[i] < s[|before|]; }
    assert forall i, j :: 0 <= i < j < |before| ==> before[i] == s[i] && before[j] == s[j];
  }

  lemma {:induction false} MembersSize(s: seq<Id>)
    requires Ascending(s)
    ensures |SetOf(s)| == |s|
    decreases |s|
  {
    if s != [] {
      var before, x := s[..|s| - 1], s[|s| - 1];
      assert s == before + [x];
      LastIsNew(before, x);
      MembersSize(before);
    }
  }

  /** Exactly the ids up to the cursor, in order. */
  ghost predicate Walked(visited: seq<Id>, after: Option<Id>, all: set<Id>) {
    && Ascending(visited) && |visited| <= |all|
    && forall x :: x in visited <==> x in all && !After(after, x)
  }

  lemma WalkedAll(visited: seq<Id>, after: Option<Id>, all: set<Id>)
    requires Walked(visited, after, all) && forall x :: x in all ==> !After(after, x)
    ensures SetOf(visited) == all
  {
  }

  /** Where a page leaves the walk: nothing skipped, nothing seen twice. */
  lemma PageExtends(visited: seq<Id>, ids: seq<Id>, after: Option<Id>, all: set<Id>)
    requires Walked(visited, after, all) && Ascending(ids) && ids != []
    requires forall x :: x in ids ==> x in all && After(after, x)
    requires forall x, y :: x in ids && y in all && After(after, y) && y !in ids ==> x < y
    ensures Walked(visited + ids, Some(ids[|ids| - 1]), all)
  {
    var last, more := ids[|ids| - 1], visited + ids;
    assert last in ids && After(after, last);
    forall i | 0 <= i < |visited| ensures visited[i] < ids[0] {
      assert visited[i] in visited && ids[0] in ids && After(after, ids[0]);
    }
    assert Ascending(more);
    forall x ensures x in more <==> x in all && x <= last {
      assert x in more <==> x in visited || x in ids;
    }
    SetOfDistinct(more);
    SubsetSize(SetOf(more), all);
  }
}

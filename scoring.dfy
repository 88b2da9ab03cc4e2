/** Score arithmetic: clamping, the 32-bit string hash, simulated Phoenix
    predictions, the weighted aggregate and the heat score. */
module Scoring {
  import opened Wrappers
  import opened Types
  import opened Text

  function MaxR(a: real, b: real): real { if a >= b then a else b }

  function MinR(a: real, b: real): real { if a <= b then a else b }

  function AbsR(x: real): real { if x < 0.0 then -x else x }

  // ---------------------------------------------------------------- clamp

  /** `Math.max(lo, Math.min(hi, value))`. */
  function Clamp(value: real, lo: real, hi: real): (r: real)
    ensures lo <= hi ==> lo <= r <= hi
    ensures lo <= value <= hi ==> r == value
    ensures value < lo ==> r == lo
    ensures lo <= hi < value ==> r == hi
    ensures hi < lo ==> r == lo
  {
    MaxR(lo, MinR(hi, value))
  }

  lemma ClampMonotone(x: real, y: real, lo: real, hi: real)
    requires x <= y
    ensures Clamp(x, lo, hi) <= Clamp(y, lo, hi)
  {
  }

  // ---------------------------------------------------------------- 32-bit hash

  const TwoTo31: int := 0x8000_0000
  const TwoTo32: int := 0x1_0000_0000

  /** ECMAScript's ToInt32: the integer in [-2^31, 2^31) congruent to `x` modulo 2^32. */
  function ToInt32(x: int): (r: int)
    ensures -TwoTo31 <= r < TwoTo31
    ensures (x - r) % TwoTo32 == 0
  {
    var m := x % TwoTo32;
    if m >= TwoTo31 then m - TwoTo32 else m
  }

  lemma ToInt32Congruent(x: int, y: int)
    requires (x - y) % TwoTo32 == 0
    ensures ToInt32(x) == ToInt32(y)
  {
    var k := (x - y) / TwoTo32;
    assert x == y + k * TwoTo32;
    assert x % TwoTo32 == y % TwoTo32;
  }

  /** The hash of a sequence of UTF-16 code units as its defining recurrence: each unit `c`
      takes `h` to `31·h + c` reduced to a 32-bit integer. */
  function HashPrefix(u: seq<int>): int
    decreases |u|
  {
    if u == [] then 0 else ToInt32(31 * HashPrefix(u[..|u| - 1]) + u[|u| - 1])
  }

  function Abs(x: int): nat { if x < 0 then -x else x }

  /** `(hash << 5) - hash + c`, truncated to 32 bits, is the recurrence's `31·hash + c`. */
  lemma ShiftSubtract(hash: int, code: int)
    ensures ToInt32(ToInt32(ToInt32(hash) * 32) - hash + code) == ToInt32(31 * hash + code)
  {
    var h1 := ToInt32(hash);
    var p := ToInt32(h1 * 32);
    var k1 := (hash - h1) / TwoTo32;
    var k2 := (h1 * 32 - p) / TwoTo32;
    assert hash - h1 == k1 * TwoTo32;
    assert h1 * 32 - p == k2 * TwoTo32;
    assert 32 * hash == 32 * h1 + (32 * k1) * TwoTo32;
    MultipleOfModulus(-k2 - 32 * k1);
    ToInt32Congruent(p - hash + code, 31 * hash + code);
  }

  lemma MultipleOfModulus(k: int)
    ensures (k * TwoTo32) % TwoTo32 == 0
  {
  }

  /** `hashString`: the shift-and-subtract loop over the `charCodeAt` units computes the absolute
      value of the recurrence, a number in [0, 2^31]. */
  method HashString(str: string) returns (h: nat)
    ensures h == Abs(HashPrefix(Utf16(str)))
    ensures h <= TwoTo31
  {
    var units := Utf16(str);
    var hash := 0;
    for i := 0 to |units|
      invariant hash == HashPrefix(units[..i])
    {
      var code := units[i];                           // str.charCodeAt(i)
      var shifted := ToInt32(ToInt32(hash) * 32);   // hash << 5
      ShiftSubtract(hash, code);
      hash := shifted - hash + code;
      hash := ToInt32(hash);                          // hash & hash
      assert units[..i + 1][..i] == units[..i];
    }
    assert units[..|units|] == units;
    h := Abs(hash);
  }

  // ---------------------------------------------------------------- simulated Phoenix scores

  datatype MediaKind = NoMedia | Image | Video

  datatype AuthorType = Normal | VerifiedAuthor | Influencer

  /** The tweet being analysed; `Math.log10(followerCount + 1)` is passed to the simulation separately. */
  datatype TweetInput = TweetInput(content: string, hasMedia: MediaKind, videoDurationMs: Option<real>, authorType: AuthorType)

  predicate InUnit(x: real) { 0.0 <= x <= 1.0 }

  /** `simulatePhoenixScores` with its random generator given as the stream `rng`
      (`rng(k)` is the k-th number drawn) and `Math.log10(followerCount + 1)` as
      `followerLog10`. Whatever the stream holds, every score lands in its range;
      `draws` is how many numbers were taken. */
  method SimulatePhoenixScores(tweet: TweetInput, followerLog10: real, rng: nat -> real)
    returns (scores: PhoenixScores, draws: nat)
    ensures InUnit(scores.favorite) && InUnit(scores.reply) && InUnit(scores.retweet)
    ensures InUnit(scores.photoExpand) && InUnit(scores.click) && InUnit(scores.profileClick)
    ensures InUnit(scores.vqv) && InUnit(scores.share) && InUnit(scores.shareViaDm)
    ensures InUnit(scores.shareViaCopyLink) && InUnit(scores.dwell) && InUnit(scores.quote)
    ensures InUnit(scores.quotedClick) && InUnit(scores.followAuthor)
    ensures 0.0 <= scores.notInterested <= 0.3
    ensures 0.0 <= scores.blockAuthor <= 0.15
    ensures 0.0 <= scores.muteAuthor <= 0.2
    ensures 0.0 <= scores.report <= 0.1
    ensures scores.dwellTime >= 500.0
    ensures tweet.hasMedia != Image ==> scores.photoExpand == 0.05
    ensures tweet.hasMedia != Video ==> scores.vqv == 0.02
    ensures draws == if tweet.hasMedia == NoMedia then 17 else 18
  {
    var content := tweet.content;
    var next := 0;

    var baseEngagement := 0.3;
    var contentLength := |Utf16(content)|;           // tweet.content.length
    if contentLength > 200 {
      baseEngagement := baseEngagement + 0.1;
    } else if contentLength > 100 {
      baseEngagement := baseEngagement + 0.05;
    } else if contentLength < 20 {
      baseEngagement := baseEngagement - 0.05;
    }
    if tweet.hasMedia == Video {
      baseEngagement := baseEngagement + 0.2;
    } else if tweet.hasMedia == Image {
      baseEngagement := baseEngagement + 0.15;
    }

    var authorBoost := 0.0;
    if tweet.authorType == Influencer {
      authorBoost := 0.15;
    } else if tweet.authorType == VerifiedAuthor {
      authorBoost := 0.08;
    }

    var followerInfluence := followerLog10 / 7.0;

    var contentQuality := 0.0;
    if Contains(content, "?") { contentQuality := contentQuality + 0.05; }
    if Contains(content, "!!") { contentQuality := contentQuality - 0.02; }
    if TagCount(content, '@') > 3 { contentQuality := contentQuality - 0.05; }
    if TagCount(content, '#') > 5 { contentQuality := contentQuality - 0.08; }
    var emojiCount := CountInRange(content, '\U{1F300}', '\U{1F9FF}');
    if emojiCount > 0 && emojiCount <= 3 {
      contentQuality := contentQuality + 0.03;
    } else if emojiCount > 5 {
      contentQuality := contentQuality - 0.03;
    }

    var engagement := Clamp(baseEngagement + authorBoost + followerInfluence + contentQuality, 0.0, 1.0);

    var vqvBoost := 0.0;
    if tweet.hasMedia == Video && tweet.videoDurationMs.Some? && tweet.videoDurationMs.value != 0.0 {
      var durationSec := tweet.videoDurationMs.value / 1000.0;
      if durationSec >= 30.0 && durationSec <= 60.0 {
        vqvBoost := 0.15;
      } else if durationSec > 60.0 && durationSec <= 180.0 {
        vqvBoost := 0.1;
      } else if durationSec > 180.0 {
        vqvBoost := 0.05;
      } else {
        vqvBoost := 0.05;
      }
    }

    var questionBonus := if Contains(content, "?") then 0.1 else 0.0;
    var favorite := Clamp(engagement + (rng(next) - 0.5) * 0.15, 0.0, 1.0);
    next := next + 1;
    var reply := Clamp(engagement * 0.6 + (rng(next) - 0.5) * 0.1 + questionBonus, 0.0, 1.0);
    next := next + 1;
    var retweet := Clamp(engagement * 0.7 + (rng(next) - 0.5) * 0.12, 0.0, 1.0);
    next := next + 1;
    var photoExpand := 0.05;
    if tweet.hasMedia == Image {
      photoExpand := Clamp(0.5 + (rng(next) - 0.5) * 0.2, 0.0, 1.0);
      next := next + 1;
    }
    var click := Clamp(engagement * 0.4 + (rng(next) - 0.5) * 0.1, 0.0, 1.0);
    next := next + 1;
    var profileClick := Clamp(engagement * 0.3 + (rng(next) - 0.5) * 0.08 + authorBoost, 0.0, 1.0);
    next := next + 1;
    var vqv := 0.02;
    if tweet.hasMedia == Video {
      vqv := Clamp(0.4 + vqvBoost + (rng(next) - 0.5) * 0.15, 0.0, 1.0);
      next := next + 1;
    }
    var share := Clamp(engagement * 0.4 + (rng(next) - 0.5) * 0.1, 0.0, 1.0);
    next := next + 1;
    var shareViaDm := Clamp(engagement * 0.2 + (rng(next) - 0.5) * 0.08, 0.0, 1.0);
    next := next + 1;
    var shareViaCopyLink := Clamp(engagement * 0.25 + (rng(next) - 0.5) * 0.08, 0.0, 1.0);
    next := next + 1;
    var dwell := Clamp(0.3 + (contentLength as real) / 1000.0 + (rng(next) - 0.5) * 0.1, 0.0, 1.0);
    next := next + 1;
    var quote := Clamp(engagement * 0.3 + (rng(next) - 0.5) * 0.08, 0.0, 1.0);
    next := next + 1;
    var quotedClick := Clamp(0.2 + (rng(next) - 0.5) * 0.1, 0.0, 1.0);
    next := next + 1;
    var followAuthor := Clamp(engagement * 0.15 + authorBoost * 0.5 + (rng(next) - 0.5) * 0.05, 0.0, 1.0);
    next := next + 1;

    var baseNegative := 0.05 - contentQuality * 0.5;
    var notInterested := Clamp(baseNegative + (rng(next) - 0.5) * 0.05, 0.0, 0.3);
    next := next + 1;
    var blockAuthor := Clamp(baseNegative * 0.3 + (rng(next) - 0.5) * 0.02, 0.0, 0.15);
    next := next + 1;
    var muteAuthor := Clamp(baseNegative * 0.5 + (rng(next) - 0.5) * 0.03, 0.0, 0.2);
    next := next + 1;
    var report := Clamp(baseNegative * 0.2 + (rng(next) - 0.5) * 0.01, 0.0, 0.1);
    next := next + 1;

    var mediaDwell := if tweet.hasMedia != NoMedia then 2000.0 else 0.0;
    var dwellTime := MaxR(500.0, (contentLength as real) * 50.0 + mediaDwell + rng(next) * 1000.0);
    next := next + 1;

    scores := PhoenixScores(favorite, reply, retweet, photoExpand, click, profileClick, vqv, share,
                            shareViaDm, shareViaCopyLink, dwell, quote, quotedClick, followAuthor,
                            notInterested, blockAuthor, muteAuthor, report, dwellTime);
    draws := next;
  }

  // ---------------------------------------------------------------- weighted score

  /** The VQV weight counts only for a duration that is present, non-zero and above the minimum. */
  predicate VqvGateOpen(w: WeightConfig, videoDurationMs: Option<real>)
  {
    videoDurationMs.Some? && videoDurationMs.value != 0.0 && videoDurationMs.value > w.minVideoDurationMs
  }

  function VqvWeight(w: WeightConfig, videoDurationMs: Option<real>): real
  {
    if VqvGateOpen(w, videoDurationMs) then w.vqv else 0.0
  }

  function PositivePart(s: PhoenixScores, w: WeightConfig, vqvWeight: real): real
  {
    s.favorite * w.favorite + s.reply * w.reply + s.retweet * w.retweet +
    s.photoExpand * w.photoExpand + s.click * w.click + s.profileClick * w.profileClick +
    s.vqv * vqvWeight + s.share * w.share + s.shareViaDm * w.shareViaDm +
    s.shareViaCopyLink * w.shareViaCopyLink + s.dwell * w.dwell + s.quote * w.quote +
    s.quotedClick * w.quotedClick + s.followAuthor * w.followAuthor +
    s.dwellTime * w.dwellTime
  }

  function NegativePart(s: PhoenixScores, w: WeightConfig): real
  {
    s.notInterested * w.notInterested + s.blockAuthor * w.blockAuthor +
    s.muteAuthor * w.muteAuthor + s.report * w.report
  }

  function Combined(s: PhoenixScores, w: WeightConfig, videoDurationMs: Option<real>): real
  {
    PositivePart(s, w, VqvWeight(w, videoDurationMs)) + NegativePart(s, w)
  }

  function NegativeWeightsMagnitude(w: WeightConfig): real
  {
    AbsR(w.notInterested) + AbsR(w.blockAuthor) + AbsR(w.muteAuthor) + AbsR(w.report)
  }

  function PositiveWeightsSum(w: WeightConfig, vqvWeight: real): real
  {
    w.favorite + w.reply + w.retweet + w.photoExpand + w.click + w.profileClick + vqvWeight +
    w.share + w.shareViaDm + w.shareViaCopyLink + w.dwell + w.quote + w.quotedClick +
    w.followAuthor + AbsR(w.dwellTime)
  }

  function WeightSum(w: WeightConfig, videoDurationMs: Option<real>): real
  {
    PositiveWeightsSum(w, VqvWeight(w, videoDurationMs)) + NegativeWeightsMagnitude(w)
  }

  /** The three branches of the aggregate: with no weights the combined sum floored at 0; a negative
      combined sum is rescaled into [0, offset]; otherwise the combined sum is shifted up by the offset. */
  function Aggregate(combined: real, negMag: real, weightSum: real, offset: real): real
  {
    if weightSum == 0.0 then MaxR(combined, 0.0)
    else if combined < 0.0 then ((combined + negMag) / weightSum) * offset
    else combined + offset
  }

  /** `computeWeightedScore`. */
  function ComputeWeightedScore(s: PhoenixScores, w: WeightConfig, videoDurationMs: Option<real>): (r: real)
    ensures WeightSum(w, videoDurationMs) == 0.0 ==> r >= 0.0
  {
    Aggregate(Combined(s, w, videoDurationMs), NegativeWeightsMagnitude(w), WeightSum(w, videoDurationMs),
              w.negativeScoresOffset)
  }

  /** Positive weights are non-negative, negative weights non-positive, the offset non-negative. */
  predicate WellSigned(w: WeightConfig)
  {
    w.favorite >= 0.0 && w.reply >= 0.0 && w.retweet >= 0.0 && w.photoExpand >= 0.0 &&
    w.click >= 0.0 && w.profileClick >= 0.0 && w.vqv >= 0.0 && w.share >= 0.0 &&
    w.shareViaDm >= 0.0 && w.shareViaCopyLink >= 0.0 && w.dwell >= 0.0 && w.quote >= 0.0 &&
    w.quotedClick >= 0.0 && w.followAuthor >= 0.0 && w.dwellTime >= 0.0 &&
    w.notInterested <= 0.0 && w.blockAuthor <= 0.0 && w.muteAuthor <= 0.0 && w.report <= 0.0 &&
    w.negativeScoresOffset >= 0.0
  }

  /** The 18 probabilities lie in [0, 1] and the dwell time is non-negative. */
  predicate ScoresInRange(s: PhoenixScores)
  {
    InUnit(s.favorite) && InUnit(s.reply) && InUnit(s.retweet) && InUnit(s.photoExpand) &&
    InUnit(s.click) && InUnit(s.profileClick) && InUnit(s.vqv) && InUnit(s.share) &&
    InUnit(s.shareViaDm) && InUnit(s.shareViaCopyLink) && InUnit(s.dwell) && InUnit(s.quote) &&
    InUnit(s.quotedClick) && InUnit(s.followAuthor) && InUnit(s.notInterested) &&
    InUnit(s.blockAuthor) && InUnit(s.muteAuthor) && InUnit(s.report) && s.dwellTime >= 0.0
  }

  lemma ProductNonNegative(x: real, y: real)
    requires x >= 0.0 && y >= 0.0
    ensures x * y >= 0.0
  {
  }

  lemma NegativeTerm(x: real, y: real)
    requires InUnit(x) && y <= 0.0
    ensures y <= x * y <= 0.0
  {
    assert (1.0 - x) * y <= 0.0;
  }

  lemma PositivePartNonNegative(s: PhoenixScores, w: WeightConfig, vqvWeight: real)
    requires WellSigned(w) && ScoresInRange(s) && vqvWeight >= 0.0
    ensures PositivePart(s, w, vqvWeight) >= 0.0
  {
    ProductNonNegative(s.favorite, w.favorite);
    ProductNonNegative(s.reply, w.reply);
    ProductNonNegative(s.retweet, w.retweet);
    ProductNonNegative(s.photoExpand, w.photoExpand);
    ProductNonNegative(s.click, w.click);
    ProductNonNegative(s.profileClick, w.profileClick);
    ProductNonNegative(s.vqv, vqvWeight);
    ProductNonNegative(s.share, w.share);
    ProductNonNegative(s.shareViaDm, w.shareViaDm);
    ProductNonNegative(s.shareViaCopyLink, w.shareViaCopyLink);
    ProductNonNegative(s.dwell, w.dwell);
    ProductNonNegative(s.quote, w.quote);
    ProductNonNegative(s.quotedClick, w.quotedClick);
    ProductNonNegative(s.followAuthor, w.followAuthor);
    ProductNonNegative(s.dwellTime, w.dwellTime);
  }

  lemma SumOfNegativeTerms(a: real, b: real, c: real, d: real, wa: real, wb: real, wc: real, wd: real)
    requires wa <= a <= 0.0 && wb <= b <= 0.0 && wc <= c <= 0.0 && wd <= d <= 0.0
    ensures -(AbsR(wa) + AbsR(wb) + AbsR(wc) + AbsR(wd)) <= a + b + c + d <= 0.0
  {
  }

  lemma NegativeSumBounds(x1: real, x2: real, x3: real, x4: real, y1: real, y2: real, y3: real, y4: real)
    requires InUnit(x1) && InUnit(x2) && InUnit(x3) && InUnit(x4)
    requires y1 <= 0.0 && y2 <= 0.0 && y3 <= 0.0 && y4 <= 0.0
    ensures -(AbsR(y1) + AbsR(y2) + AbsR(y3) + AbsR(y4)) <= x1 * y1 + x2 * y2 + x3 * y3 + x4 * y4 <= 0.0
  {
    NegativeTerm(x1, y1);
    NegativeTerm(x2, y2);
    NegativeTerm(x3, y3);
    NegativeTerm(x4, y4);
    SumOfNegativeTerms(x1 * y1, x2 * y2, x3 * y3, x4 * y4, y1, y2, y3, y4);
  }

  lemma NegativePartBounds(s: PhoenixScores, w: WeightConfig)
    requires WellSigned(w) && ScoresInRange(s)
    ensures -NegativeWeightsMagnitude(w) <= NegativePart(s, w) <= 0.0
  {
    NegativeSumBounds(s.notInterested, s.blockAuthor, s.muteAuthor, s.report,
                      w.notInterested, w.blockAuthor, w.muteAuthor, w.report);
  }

  lemma ScaleWithinOffset(x: real, total: real, offset: real)
    requires 0.0 <= x <= total && total > 0.0 && offset >= 0.0
    ensures 0.0 <= (x / total) * offset <= offset
  {
    assert 0.0 <= x / total <= 1.0;
    assert (x / total) * offset <= 1.0 * offset;
  }

  /** The aggregate is non-negative whenever the combined sum is at least minus the negative-weight
      magnitude, which itself is at most the total weight; below zero it stays within the offset. */
  lemma AggregateBounds(combined: real, negMag: real, weightSum: real, offset: real)
    requires -negMag <= combined && 0.0 <= negMag <= weightSum && offset >= 0.0
    ensures Aggregate(combined, negMag, weightSum, offset) >= 0.0
    ensures combined < 0.0 ==> Aggregate(combined, negMag, weightSum, offset) <= offset
    ensures combined >= 0.0 && weightSum != 0.0 ==> Aggregate(combined, negMag, weightSum, offset) >= offset
  {
    if weightSum != 0.0 && combined < 0.0 {
      ScaleWithinOffset(combined + negMag, weightSum, offset);
    }
  }

  /** With well-signed weights and in-range scores the aggregate is non-negative; a negative combined
      sum lands in [0, offset], and a non-negative one at or above the offset. */
  lemma WeightedScoreBounds(s: PhoenixScores, w: WeightConfig, videoDurationMs: Option<real>)
    requires WellSigned(w) && ScoresInRange(s)
    ensures ComputeWeightedScore(s, w, videoDurationMs) >= 0.0
    ensures Combined(s, w, videoDurationMs) < 0.0 ==> ComputeWeightedScore(s, w, videoDurationMs) <= w.negativeScoresOffset
    ensures Combined(s, w, videoDurationMs) >= 0.0 && WeightSum(w, videoDurationMs) != 0.0 ==>
              ComputeWeightedScore(s, w, videoDurationMs) >= w.negativeScoresOffset
  {
    var vqvWeight := VqvWeight(w, videoDurationMs);
    PositivePartNonNegative(s, w, vqvWeight);
    NegativePartBounds(s, w);
    assert PositiveWeightsSum(w, vqvWeight) >= 0.0;
    AggregateBounds(Combined(s, w, videoDurationMs), NegativeWeightsMagnitude(w), WeightSum(w, videoDurationMs),
                    w.negativeScoresOffset);
  }

  /** Under the same weights and duration, a candidate whose combined sum is negative never outscores one whose sum is not. */
  lemma NegativeCombinedRanksLower(a: PhoenixScores, b: PhoenixScores, w: WeightConfig, videoDurationMs: Option<real>)
    requires WellSigned(w) && ScoresInRange(a) && ScoresInRange(b)
    requires Combined(a, w, videoDurationMs) < 0.0 <= Combined(b, w, videoDurationMs)
    ensures ComputeWeightedScore(a, w, videoDurationMs) <= ComputeWeightedScore(b, w, videoDurationMs)
  {
    WeightedScoreBounds(a, w, videoDurationMs);
    WeightedScoreBounds(b, w, videoDurationMs);
    var vqvWeight := VqvWeight(w, videoDurationMs);
    PositivePartNonNegative(a, w, vqvWeight);
    NegativePartBounds(a, w);
    assert WeightSum(w, videoDurationMs) != 0.0;
  }

  /** When the duration gate is closed the VQV weight has no influence on the score. */
  lemma VqvWeightIgnoredWhenGated(s: PhoenixScores, w: WeightConfig, videoDurationMs: Option<real>, vqv: real)
    requires !VqvGateOpen(w, videoDurationMs)
    ensures ComputeWeightedScore(s, w, videoDurationMs) == ComputeWeightedScore(s, w.(vqv := vqv), videoDurationMs)
  {
    var w' := w.(vqv := vqv);
    assert VqvWeight(w, videoDurationMs) == 0.0 == VqvWeight(w', videoDurationMs);
    assert PositivePart(s, w, 0.0) == PositivePart(s, w', 0.0);
    assert NegativePart(s, w) == NegativePart(s, w');
    assert Combined(s, w, videoDurationMs) == Combined(s, w', videoDurationMs);
    assert WeightSum(w, videoDurationMs) == WeightSum(w', videoDurationMs);
    assert NegativeWeightsMagnitude(w) == NegativeWeightsMagnitude(w');
  }

  /** When the gate is open the VQV score enters the aggregate with the configured weight. */
  lemma VqvWeightAppliedWhenOpen(s: PhoenixScores, w: WeightConfig, videoDurationMs: Option<real>)
    requires VqvGateOpen(w, videoDurationMs)
    ensures Combined(s, w, videoDurationMs) == Combined(s, w, None) + s.vqv * w.vqv
    ensures WeightSum(w, videoDurationMs) == WeightSum(w, None) + w.vqv
  {
  }

  /** The weights the simulator starts with. */
  const DefaultWeights: WeightConfig := WeightConfig(
    favorite := 1.0, reply := 0.5, retweet := 2.0, photoExpand := 0.3, click := 0.3,
    profileClick := 0.5, vqv := 1.5, share := 1.0, shareViaDm := 0.8, shareViaCopyLink := 0.6,
    dwell := 0.5, quote := 1.5, quotedClick := 0.4, followAuthor := 3.0,
    notInterested := -2.0, blockAuthor := -5.0, muteAuthor := -3.0, report := -10.0,
    dwellTime := 0.0003, minVideoDurationMs := 15000.0, negativeScoresOffset := 1.0,
    authorDiversityDecay := 0.8, authorDiversityFloor := 0.2, oonWeightFactor := 0.7)

  // ---------------------------------------------------------------- heat score

  function HeatRaw(s: PhoenixScores): real
  {
    var positiveSum := s.favorite * 1.0 + s.retweet * 1.5 + s.reply * 0.8 + s.share * 1.2 +
                       s.followAuthor * 2.0 + s.vqv * 1.0;
    var negativePenalty := s.notInterested * 2.0 + s.blockAuthor * 3.0 + s.muteAuthor * 2.5 + s.report * 4.0;
    (positiveSum - negativePenalty) / 7.5 * 100.0
  }

  /** `calculateHeatScore`: the weighted engagement balance scaled to and clamped into [0, 100]. */
  function CalculateHeatScore(s: PhoenixScores): (r: real)
    ensures 0.0 <= r <= 100.0
  {
    Clamp(HeatRaw(s), 0.0, 100.0)
  }

  /** More positive engagement and less negative feedback never lower the heat score. */
  lemma HeatScoreMonotone(a: PhoenixScores, b: PhoenixScores)
    requires a.favorite <= b.favorite && a.retweet <= b.retweet && a.reply <= b.reply
    requires a.share <= b.share && a.followAuthor <= b.followAuthor && a.vqv <= b.vqv
    requires a.notInterested >= b.notInterested && a.blockAuthor >= b.blockAuthor
    requires a.muteAuthor >= b.muteAuthor && a.report >= b.report
    ensures CalculateHeatScore(a) <= CalculateHeatScore(b)
  {
    assert HeatRaw(a) <= HeatRaw(b);
    ClampMonotone(HeatRaw(a), HeatRaw(b), 0.0, 100.0);
  }

  datatype HeatLevel = Low | Medium | High | Viral

  function LevelRank(l: HeatLevel): nat
  {
    match l
    case Low => 0
    case Medium => 1
    case High => 2
    case Viral => 3
  }

  /** `getHeatLevel`: the band the score falls in. */
  function GetHeatLevel(score: real): (l: HeatLevel)
    ensures l == Viral <==> score >= 80.0
    ensures l == High <==> 60.0 <= score < 80.0
    ensures l == Medium <==> 40.0 <= score < 60.0
    ensures l == Low <==> score < 40.0
  {
    if score >= 80.0 then Viral
    else if score >= 60.0 then High
    else if score >= 40.0 then Medium
    else Low
  }

  /** A higher score never gets a lower level. */
  lemma HeatLevelMonotone(x: real, y: real)
    requires x <= y
    ensures LevelRank(GetHeatLevel(x)) <= LevelRank(GetHeatLevel(y))
  {
  }
}

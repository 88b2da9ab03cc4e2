/** The scorer chain: Phoenix (a display mean), the weighted sum, the author-diversity decay
    and the out-of-network factor, run in that order by `runAllScorers`. */
module Scorers {
  import opened Wrappers
  import opened Types
  import opened Seqs
  import opened StableSort
  import opened Scoring

  /** A scorer's report together with the candidates it hands to the next scorer. */
  datatype ScorerOutput = ScorerOutput(result: ScorerResult, updatedCandidates: seq<Candidate>)

  // ---------------------------------------------------------------- phoenix

  function PhoenixSum(s: PhoenixScores): real
  {
    s.favorite + s.reply + s.retweet + s.photoExpand + s.click + s.profileClick + s.vqv + s.share
    + s.shareViaDm + s.shareViaCopyLink + s.dwell + s.quote + s.quotedClick + s.followAuthor
    + s.notInterested + s.blockAuthor + s.muteAuthor + s.report + s.dwellTime
  }

  /** The mean of all nineteen fields, expected dwell time included. */
  function PhoenixMean(s: PhoenixScores): real
  {
    PhoenixSum(s) / 19.0
  }

  function PhoenixEntry(c: Candidate): ScoreEntry
  {
    ScoreEntry(c.id, PhoenixMean(c.phoenixScores))
  }

  /** `runPhoenixScorer`: one entry per candidate, in order; the candidates themselves are not touched. */
  function RunPhoenixScorer(candidates: seq<Candidate>): (r: ScorerResult)
    ensures r.scorerId == "phoenix" && |r.candidateScores| == |candidates|
    ensures forall i :: 0 <= i < |candidates| ==>
              r.candidateScores[i].candidateId == candidates[i].id &&
              r.candidateScores[i].finalScore * 19.0 == PhoenixSum(candidates[i].phoenixScores)
  {
    ScorerResult("phoenix", Map(PhoenixEntry, candidates))
  }

  /** Raising any field never lowers the reported mean; with no negative field it is not negative. */
  lemma PhoenixMeanMonotone(a: PhoenixScores, b: PhoenixScores)
    requires a.favorite <= b.favorite && a.reply <= b.reply && a.retweet <= b.retweet
    requires a.photoExpand <= b.photoExpand && a.click <= b.click && a.profileClick <= b.profileClick
    requires a.vqv <= b.vqv && a.share <= b.share && a.shareViaDm <= b.shareViaDm
    requires a.shareViaCopyLink <= b.shareViaCopyLink && a.dwell <= b.dwell && a.quote <= b.quote
    requires a.quotedClick <= b.quotedClick && a.followAuthor <= b.followAuthor
    requires a.notInterested <= b.notInterested && a.blockAuthor <= b.blockAuthor
    requires a.muteAuthor <= b.muteAuthor && a.report <= b.report && a.dwellTime <= b.dwellTime
    ensures PhoenixMean(a) <= PhoenixMean(b)
  {
    assert PhoenixSum(a) <= PhoenixSum(b);
  }

  // ---------------------------------------------------------------- weighted

  /** `computeWeightedScore(candidate.phoenixScores, weights)`: no video duration is passed. */
  function WithWeightedScore(c: Candidate, w: WeightConfig): Candidate
  {
    c.(weightedScore := Some(ComputeWeightedScore(c.phoenixScores, w, None)))
  }

  function WeightedEntry(c: Candidate): ScoreEntry
  {
    ScoreEntry(c.id, OrZero(c.weightedScore))
  }

  function Weigher(w: WeightConfig): Candidate -> Candidate
  {
    (c: Candidate) => WithWeightedScore(c, w)
  }

  /** `runWeightedScorer`: every candidate, in order, gains its weighted score and nothing else. */
  function RunWeightedScorer(candidates: seq<Candidate>, w: WeightConfig): (out: ScorerOutput)
    ensures out.result.scorerId == "weighted"
    ensures |out.updatedCandidates| == |candidates| == |out.result.candidateScores|
    ensures forall i :: 0 <= i < |candidates| ==>
              out.updatedCandidates[i] == candidates[i].(weightedScore := out.updatedCandidates[i].weightedScore) &&
              out.updatedCandidates[i].weightedScore == Some(ComputeWeightedScore(candidates[i].phoenixScores, w, None)) &&
              out.result.candidateScores[i] == ScoreEntry(candidates[i].id, out.updatedCandidates[i].weightedScore.value)
  {
    var updated := Map(Weigher(w), candidates);
    ScorerOutput(ScorerResult("weighted", Map(WeightedEntry, updated)), updated)
  }

  /** The scorer passes no video duration, so the VQV weight never counts: two weight
      configurations that differ only in it score every candidate alike. */
  lemma WeightedScorerIgnoresVqvWeight(candidates: seq<Candidate>, w: WeightConfig, vqv: real)
    ensures RunWeightedScorer(candidates, w) == RunWeightedScorer(candidates, w.(vqv := vqv))
  {
    var a, b := RunWeightedScorer(candidates, w), RunWeightedScorer(candidates, w.(vqv := vqv));
    forall i | 0 <= i < |candidates|
      ensures a.updatedCandidates[i] == b.updatedCandidates[i]
    {
      VqvWeightIgnoredWhenGated(candidates[i].phoenixScores, w, None, vqv);
    }
    assert a.updatedCandidates == b.updatedCandidates;
  }

  /** With well-signed weights and scores in range, every weighted score is non-negative. */
  lemma WeightedScorerNonNegative(candidates: seq<Candidate>, w: WeightConfig)
    requires WellSigned(w)
    requires forall c :: c in candidates ==> ScoresInRange(c.phoenixScores)
    ensures forall c :: c in RunWeightedScorer(candidates, w).updatedCandidates ==> WeightedScoreOf(c) >= 0.0
  {
    var out := RunWeightedScorer(candidates, w);
    forall c | c in out.updatedCandidates
      ensures WeightedScoreOf(c) >= 0.0
    {
      var i :| 0 <= i < |out.updatedCandidates| && out.updatedCandidates[i] == c;
      WeightedScoreBounds(candidates[i].phoenixScores, w, None);
    }
  }

  /** The weights the simulator ships with are well signed, so under them the weighted scorer
      never gives a negative score. */
  lemma DefaultWeightsNonNegative(candidates: seq<Candidate>)
    requires forall c :: c in candidates ==> ScoresInRange(c.phoenixScores)
    ensures WellSigned(DefaultWeights)
    ensures forall c :: c in RunWeightedScorer(candidates, DefaultWeights).updatedCandidates ==> WeightedScoreOf(c) >= 0.0
  {
    WeightedScorerNonNegative(candidates, DefaultWeights);
  }

  // ---------------------------------------------------------------- author diversity

  function Pow(b: real, n: nat): real
  {
    if n == 0 then 1.0 else b * Pow(b, n - 1)
  }

  /** `(1 - floor) * Math.pow(decay, count) + floor`. */
  function Multiplier(decay: real, floor: real, count: nat): real
  {
    (1.0 - floor) * Pow(decay, count) + floor
  }

  lemma {:induction false} PowBounds(b: real, n: nat)
    requires 0.0 <= b <= 1.0
    ensures 0.0 <= Pow(b, n) <= 1.0
    ensures Pow(b, n + 1) <= Pow(b, n)
  {
    if n > 0 {
      PowBounds(b, n - 1);
      UnitProduct(b, Pow(b, n - 1));
    }
    UnitProduct(b, Pow(b, n));
  }

  /** Scaling by a factor in [0, 1] keeps a value in [0, 1] and does not increase it. */
  lemma UnitProduct(x: real, y: real)
    requires 0.0 <= x <= 1.0 && 0.0 <= y <= 1.0
    ensures 0.0 <= x * y <= y
  {
    ProductNonNegative(x, y);
    ProductNonNegative(1.0 - x, y);
  }

  /** The first tweet of an author keeps its score; each later one is damped at least as much
      as the one before, and never below `floor`. */
  lemma {:induction false} MultiplierShape(decay: real, floor: real, m: nat, n: nat)
    requires 0.0 <= decay <= 1.0 && 0.0 <= floor <= 1.0
    requires m <= n
    ensures Multiplier(decay, floor, 0) == 1.0
    ensures floor <= Multiplier(decay, floor, n) <= 1.0
    ensures Multiplier(decay, floor, n) <= Multiplier(decay, floor, m)
    decreases n - m
  {
    PowBounds(decay, n);
    var p := Pow(decay, n);
    ProductNonNegative(1.0 - floor, p);
    assert (1.0 - floor) * p <= 1.0 - floor by {
      ProductNonNegative(1.0 - floor, 1.0 - p);
    }
    if m < n {
      MultiplierShape(decay, floor, m + 1, n);
      PowBounds(decay, m);
      assert (1.0 - floor) * Pow(decay, m + 1) <= (1.0 - floor) * Pow(decay, m) by {
        ProductNonNegative(1.0 - floor, Pow(decay, m) - Pow(decay, m + 1));
      }
    }
  }

  /** How many candidates of `s` the author wrote. */
  function CountAuthor(s: seq<Candidate>, author: UserId): nat
    decreases |s|
  {
    if s == [] then 0
    else CountAuthor(s[..|s| - 1], author) + (if s[|s| - 1].authorId == author then 1 else 0)
  }

  /** `score * multiplier`. */
  function Damp(score: real, multiplier: real): real
  {
    score * multiplier
  }

  function Diversify(c: Candidate, multiplier: real): Candidate
  {
    c.(diversityAdjustedScore := Some(Damp(OrZero(c.weightedScore), multiplier)))
  }

  /** The candidates of `sorted`, each damped by the multiplier for the number of same-author
      candidates before it. */
  function Diversified(sorted: seq<Candidate>, decay: real, floor: real): seq<Candidate>
    decreases |sorted|
  {
    if sorted == [] then []
    else
      var prefix := sorted[..|sorted| - 1];
      var c := sorted[|sorted| - 1];
      Diversified(prefix, decay, floor) + [Diversify(c, Multiplier(decay, floor, CountAuthor(prefix, c.authorId)))]
  }

  /** Position by position: the i-th output is the i-th input with only its adjusted score set,
      damped by the count of same-author candidates among the first i. */
  lemma {:induction false} DiversifiedAt(sorted: seq<Candidate>, decay: real, floor: real)
    ensures |Diversified(sorted, decay, floor)| == |sorted|
    ensures forall i :: 0 <= i < |sorted| ==>
              Diversified(sorted, decay, floor)[i]
                == Diversify(sorted[i], Multiplier(decay, floor, CountAuthor(sorted[..i], sorted[i].authorId)))
    decreases |sorted|
  {
    if sorted != [] {
      var prefix := sorted[..|sorted| - 1];
      var c := sorted[|sorted| - 1];
      var d := Diversified(sorted, decay, floor);
      var dp := Diversified(prefix, decay, floor);
      DiversifiedAt(prefix, decay, floor);
      assert d == dp + [Diversify(c, Multiplier(decay, floor, CountAuthor(prefix, c.authorId)))];
      forall i | 0 <= i < |sorted|
        ensures d[i] == Diversify(sorted[i], Multiplier(decay, floor, CountAuthor(sorted[..i], sorted[i].authorId)))
      {
        if i < |prefix| {
          assert sorted[..i] == prefix[..i] && sorted[i] == prefix[i];
          assert d[i] == dp[i];
        } else {
          assert sorted[..i] == prefix;
        }
      }
    }
  }

  function DiversityEntry(c: Candidate): ScoreEntry
  {
    ScoreEntry(c.id, OrZero(c.diversityAdjustedScore))
  }

  /** What `runAuthorDiversityScorer` returns. */
  function AuthorDiversityOutcome(candidates: seq<Candidate>, decay: real, floor: real): ScorerOutput
  {
    var diversified := Diversified(SortDesc(candidates, WeightedScoreOf), decay, floor);
    ScorerOutput(ScorerResult("author_diversity", Map(DiversityEntry, diversified)), diversified)
  }

  /** `runAuthorDiversityScorer`: a stable sort by weighted score, then one pass that counts each
      author's earlier candidates in a map and damps the candidate's score by the multiplier. */
  method RunAuthorDiversityScorer(candidates: seq<Candidate>, decay: real, floor: real) returns (out: ScorerOutput)
    ensures out.updatedCandidates == Diversified(SortDesc(candidates, WeightedScoreOf), decay, floor)
    ensures out.result == ScorerResult("author_diversity", Map(DiversityEntry, out.updatedCandidates))
    ensures out == AuthorDiversityOutcome(candidates, decay, floor)
  {
    var sorted := SortDesc(candidates, WeightedScoreOf);
    var authorCounts: map<UserId, nat> := map[];
    var updatedCandidates: seq<Candidate> := [];
    for i := 0 to |sorted|
      invariant updatedCandidates == Diversified(sorted[..i], decay, floor)
      invariant forall a :: a in authorCounts ==> authorCounts[a] == CountAuthor(sorted[..i], a)
      invariant forall a :: a !in authorCounts ==> CountAuthor(sorted[..i], a) == 0
    {
      var candidate := sorted[i];
      assert sorted[..i + 1][..i] == sorted[..i] && sorted[..i + 1][i] == candidate;
      var count := if candidate.authorId in authorCounts then authorCounts[candidate.authorId] else 0;
      assert Diversified(sorted[..i + 1], decay, floor)
          == Diversified(sorted[..i], decay, floor) + [Diversify(candidate, Multiplier(decay, floor, count))];
      authorCounts := authorCounts[candidate.authorId := count + 1];
      var multiplier := Multiplier(decay, floor, count);
      var diversityAdjustedScore := Damp(OrZero(candidate.weightedScore), multiplier);
      updatedCandidates := updatedCandidates + [candidate.(diversityAdjustedScore := Some(diversityAdjustedScore))];
    }
    assert sorted[..|sorted|] == sorted;
    out := ScorerOutput(ScorerResult("author_diversity", Map(DiversityEntry, updatedCandidates)), updatedCandidates);
  }

  /** The diversity scorer's output is a rearrangement of its input (ids and weighted scores
      alike), sorted non-increasing by weighted score, with equal scores kept in input order; each
      candidate's adjusted score is its weighted score times the multiplier for the number of
      same-author candidates placed before it. */
  lemma DiversityScorerOrder(candidates: seq<Candidate>, decay: real, floor: real)
    ensures var sorted := SortDesc(candidates, WeightedScoreOf);
            var r := Diversified(sorted, decay, floor);
            |r| == |sorted| == |candidates| &&
            multiset(Map(IdOf, r)) == multiset(Map(IdOf, candidates)) &&
            SortedDesc(r, WeightedScoreOf) &&
            (forall v :: KeyClass(sorted, WeightedScoreOf, v) == KeyClass(candidates, WeightedScoreOf, v)) &&
            (forall i :: 0 <= i < |r| ==>
               r[i].diversityAdjustedScore
                 == Some(Damp(OrZero(sorted[i].weightedScore), Multiplier(decay, floor, CountAuthor(sorted[..i], sorted[i].authorId)))))
  {
    var sorted := SortDesc(candidates, WeightedScoreOf);
    var r := Diversified(sorted, decay, floor);
    SortDescSpec(candidates, WeightedScoreOf);
    SortDescMapMultiset(candidates, WeightedScoreOf, IdOf);
    DiversifiedAt(sorted, decay, floor);
    assert Map(IdOf, r) == Map(IdOf, sorted);
    forall v
      ensures KeyClass(sorted, WeightedScoreOf, v) == KeyClass(candidates, WeightedScoreOf, v)
    {
      SortDescStable(candidates, WeightedScoreOf, v);
    }
  }

  // ---------------------------------------------------------------- out of network

  /** `candidate.diversityAdjustedScore || candidate.weightedScore || 0`. */
  function OonBase(c: Candidate): real
  {
    if OrZero(c.diversityAdjustedScore) != 0.0 then OrZero(c.diversityAdjustedScore) else OrZero(c.weightedScore)
  }

  function WithFinalScore(c: Candidate, oonFactor: real): Candidate
  {
    c.(finalScore := Some(if c.inNetwork then OonBase(c) else OonBase(c) * oonFactor))
  }

  function OonEntry(c: Candidate): ScoreEntry
  {
    ScoreEntry(c.id, OrZero(c.finalScore))
  }

  function OonScaler(oonFactor: real): Candidate -> Candidate
  {
    (c: Candidate) => WithFinalScore(c, oonFactor)
  }

  /** `runOONScorer`: every candidate, in order, gains a final score and nothing else. */
  function RunOONScorer(candidates: seq<Candidate>, oonFactor: real): (out: ScorerOutput)
    ensures out.result.scorerId == "oon"
    ensures |out.updatedCandidates| == |candidates| == |out.result.candidateScores|
    ensures forall i :: 0 <= i < |candidates| ==>
              out.updatedCandidates[i] == candidates[i].(finalScore := out.updatedCandidates[i].finalScore) &&
              out.updatedCandidates[i].finalScore.Some? &&
              out.result.candidateScores[i] == ScoreEntry(candidates[i].id, out.updatedCandidates[i].finalScore.value)
  {
    var updated := Map(OonScaler(oonFactor), candidates);
    ScorerOutput(ScorerResult("oon", Map(OonEntry, updated)), updated)
  }

  /** In-network candidates keep their base score; out-of-network ones get it times the factor.
      The base is the adjusted score when that is nonzero, else the weighted score, else 0. So
      with a factor in [0, 1] and a non-negative base, no candidate gains and none goes negative. */
  lemma OonScores(candidates: seq<Candidate>, oonFactor: real, i: nat)
    requires i < |candidates|
    ensures var c := candidates[i];
            var f := RunOONScorer(candidates, oonFactor).updatedCandidates[i].finalScore.value;
            var base := if c.diversityAdjustedScore.Some? && c.diversityAdjustedScore.value != 0.0
                        then c.diversityAdjustedScore.value
                        else if c.weightedScore.Some? then c.weightedScore.value else 0.0;
            (c.inNetwork ==> f == base) &&
            (!c.inNetwork ==> f == base * oonFactor) &&
            (0.0 <= oonFactor <= 1.0 && base >= 0.0 ==> 0.0 <= f <= base)
  {
    var c := candidates[i];
    var base := OonBase(c);
    if !c.inNetwork && 0.0 <= oonFactor <= 1.0 && base >= 0.0 {
      assert base * oonFactor <= base by {
        assert base * (1.0 - oonFactor) >= 0.0;
      }
    }
  }

  // ---------------------------------------------------------------- the chain

  datatype ScoringOutcome = ScoringOutcome(results: seq<ScorerResult>, finalCandidates: seq<Candidate>)

  /** What `runAllScorers` returns. */
  function ScoreChain(candidates: seq<Candidate>, w: WeightConfig): ScoringOutcome
  {
    var weighted := RunWeightedScorer(candidates, w);
    var diversity := AuthorDiversityOutcome(weighted.updatedCandidates, w.authorDiversityDecay, w.authorDiversityFloor);
    var oon := RunOONScorer(diversity.updatedCandidates, w.oonWeightFactor);
    ScoringOutcome([RunPhoenixScorer(candidates), weighted.result, diversity.result, oon.result],
                   SortDesc(oon.updatedCandidates, FinalScoreOf))
  }

  /** `runAllScorers`: the four scorers in sequence, each fed the previous one's candidates, then
      the final list sorted in place by final score. */
  method RunAllScorers(candidates: seq<Candidate>, w: WeightConfig) returns (results: seq<ScorerResult>, finalCandidates: seq<Candidate>)
    ensures ScoringOutcome(results, finalCandidates) == ScoreChain(candidates, w)
  {
    results := [];
    var phoenixResult := RunPhoenixScorer(candidates);
    results := results + [phoenixResult];
    var weighted := RunWeightedScorer(candidates, w);
    results := results + [weighted.result];
    var diversity := RunAuthorDiversityScorer(weighted.updatedCandidates, w.authorDiversityDecay, w.authorDiversityFloor);
    results := results + [diversity.result];
    var oon := RunOONScorer(diversity.updatedCandidates, w.oonWeightFactor);
    results := results + [oon.result];
    finalCandidates := SortDesc(oon.updatedCandidates, FinalScoreOf);
  }

  function ResultIdsOf(results: seq<ScorerResult>): seq<string>
  {
    Map((r: ScorerResult) => r.scorerId, results)
  }

  /** The chain reports the four scorers in order, each with one entry per candidate. */
  lemma ScoreChainResults(candidates: seq<Candidate>, w: WeightConfig)
    ensures ResultIdsOf(ScoreChain(candidates, w).results) == ["phoenix", "weighted", "author_diversity", "oon"]
  {
    var weighted := RunWeightedScorer(candidates, w);
    var diversity := AuthorDiversityOutcome(weighted.updatedCandidates, w.authorDiversityDecay, w.authorDiversityFloor);
    DiversityScorerOrder(weighted.updatedCandidates, w.authorDiversityDecay, w.authorDiversityFloor);
    var oon := RunOONScorer(diversity.updatedCandidates, w.oonWeightFactor);
    assert ScoreChain(candidates, w).results == [RunPhoenixScorer(candidates), weighted.result, diversity.result, oon.result];
  }

  /** Every scorer scores every candidate it is given. */
  lemma ScoreChainCounts(candidates: seq<Candidate>, w: WeightConfig)
    ensures forall k :: 0 <= k < |ScoreChain(candidates, w).results| ==>
              |ScoreChain(candidates, w).results[k].candidateScores| == |candidates|
  {
    var weighted := RunWeightedScorer(candidates, w);
    var diversity := AuthorDiversityOutcome(weighted.updatedCandidates, w.authorDiversityDecay, w.authorDiversityFloor);
    DiversityScorerOrder(weighted.updatedCandidates, w.authorDiversityDecay, w.authorDiversityFloor);
    var oon := RunOONScorer(diversity.updatedCandidates, w.oonWeightFactor);
    var rs := [RunPhoenixScorer(candidates), weighted.result, diversity.result, oon.result];
    assert ScoreChain(candidates, w).results == rs;
    FourCounted(rs, |candidates|);
  }

  lemma FourCounted(rs: seq<ScorerResult>, n: nat)
    requires |rs| == 4
    requires |rs[0].candidateScores| == n && |rs[1].candidateScores| == n
    requires |rs[2].candidateScores| == n && |rs[3].candidateScores| == n
    ensures forall k :: 0 <= k < |rs| ==> |rs[k].candidateScores| == n
  {
  }

  lemma OonKeepsIds(candidates: seq<Candidate>, oonFactor: real)
    ensures Map(IdOf, RunOONScorer(candidates, oonFactor).updatedCandidates) == Map(IdOf, candidates)
  {
  }

  lemma WeightedKeepsIds(candidates: seq<Candidate>, w: WeightConfig)
    ensures Map(IdOf, RunWeightedScorer(candidates, w).updatedCandidates) == Map(IdOf, candidates)
  {
  }

  /** The chain returns the input's candidates (by id) rearranged into non-increasing final-score
      order, every one of them carrying a final score. */
  lemma ScoreChainRanks(candidates: seq<Candidate>, w: WeightConfig)
    ensures var fin := ScoreChain(candidates, w).finalCandidates;
            |fin| == |candidates| &&
            multiset(Map(IdOf, fin)) == multiset(Map(IdOf, candidates)) &&
            SortedDesc(fin, FinalScoreOf) &&
            (forall c :: c in fin ==> c.finalScore.Some?)
  {
    var weighted := RunWeightedScorer(candidates, w);
    var sorted := SortDesc(weighted.updatedCandidates, WeightedScoreOf);
    var diversified := Diversified(sorted, w.authorDiversityDecay, w.authorDiversityFloor);
    var oon := RunOONScorer(diversified, w.oonWeightFactor).updatedCandidates;
    var fin := SortDesc(oon, FinalScoreOf);
    assert fin == ScoreChain(candidates, w).finalCandidates;
    DiversityScorerOrder(weighted.updatedCandidates, w.authorDiversityDecay, w.authorDiversityFloor);
    WeightedKeepsIds(candidates, w);
    OonKeepsIds(diversified, w.oonWeightFactor);
    SortDescSpec(oon, FinalScoreOf);
    SortDescMapMultiset(oon, FinalScoreOf, IdOf);
    forall c | c in fin
      ensures c.finalScore.Some?
    {
      assert c in multiset(oon);
    }
  }
}

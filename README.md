# x-algorithm-simulator ranking core, in Dafny

This project models the ranking core of the "For You" timeline simulator and proves properties of that model. The simulator is a TypeScript re-creation of the X recommendation pipeline. Given a pool of candidate tweets, a viewer context and a weight configuration, it runs these stages in order:

- two query hydrators;
- two retrieval sources: Thunder (in-network) and Phoenix (out-of-network);
- a merge that drops repeated ids;
- five candidate hydrators;
- a pre-scoring filter chain;
- four scorers: Phoenix mean, weighted sum, author diversity and out-of-network;
- a stable sort by final score, then top-K selection;
- a post-selection filter chain, then a final sort.

The pipeline has two entry points:

- the eager `runPipeline`, which returns the list of steps and the final timeline;
- the generator `runPipelineStepByStep`, which yields one step at a time together with the candidates that step produced.

Modules, one concept each:

- `Types`: candidates, Phoenix scores, weights, filter and scorer results, pipeline steps.
- `Seqs`: order-preserving subsequences, `Map`, distinct keys.
- `Text`: ASCII case mapping, substring search, `#`/`@` tag counting, and the UTF-16 code units through which JavaScript sees a string (`length`, `charCodeAt` and regular expressions without the `u` flag).
- `StableSort`: a stable descending insertion sort. `Array.prototype.sort` must be stable (ECMA-262, section 23.1.3.30), and the author-diversity scorer and the selector rely on that.
- `Scoring`: `clamp`, the 32-bit string hash, the simulated Phoenix scores, the weighted aggregate, the heat score and level.
- `Snowflake`: packing and unpacking of Snowflake ids, ages, relative-time text.
- `Filters`: the filter catalog, the twelve predicates, `runFilter` and the filter chains.
- `FilterProps`: the properties of the filters and of the chains.
- `Scorers`: the four scorers and `runAllScorers`.
- `Stages`: the sources, the id merge, the hydrators, the final-score sort and the top-K cut.
- `Pipeline`: the eager run.
- `Stepwise`: the generator. `PipelineRun` is a class whose `Step` method plays one resumption; `Trace` is the list of yields still to come from a suspended state.
- `Equivalence`: the proof that draining the generator reproduces the eager run, given the same clock reading and the same random draws.

Inputs the source reads from its environment become parameters:

- the clock (`Date.now`) is `Env.now`;
- the random draw of the `conversation_depth` filter is `Env.depthDraw`, an arbitrary function of the tweet id;
- the random fields of a new Snowflake id are arguments;
- the seeded generator of `simulatePhoenixScores` is an arbitrary stream `rng: nat -> real`;
- `Math.log10(followerCount + 1)` is a real argument.

The two filter lists are a `FilterPlan` parameter. `pipeline.ts` imports `PRE_SCORING_FILTERS`, `POST_SELECTION_FILTERS` and `runPostSelectionFilters`, and none of them exists in `src/core/filters/index.ts`. Each chain is the left fold of `runFilter` over the enabled ids, as `runAllFilters` does. `Filters.RunAllFilters` is the fold over the catalog order.

The eager run, as written, runs its pre-scoring chain through `runAllFilters`, which walks the whole `FILTERS` catalog. The generator walks `PRE_SCORING_FILTERS`. In the model both runs use the same `FilterPlan.preScoring` list, and the equivalence holds for any such shared plan. It matches the code exactly when that list is the catalog order: then `Pipeline.CatalogPlanRunsAllFilters` shows the eager filter steps are those of the `runAllFilters` fold.

The equivalence also assumes both runs share one `Env`, that is one clock reading and one random draw per tweet id. The source reads `Date.now()` and calls `Math.random()` afresh in each run, so two real runs agree only when those happen to coincide.

## Model

| member | source | states |
|---|---|---|
| Stages.DedupeById | src/core/pipeline.ts:39-52 | the seen-set loop returns exactly `Dedupe(candidates)` |
| Stages.DedupeSubsequence | src/core/pipeline.ts:39-52 | the merged list is an order-preserving subsequence of its input |
| Stages.DedupeDistinct | src/core/pipeline.ts:39-52 | the merged list has pairwise-distinct ids |
| Stages.DedupeIds | src/core/pipeline.ts:39-52 | the merged list carries exactly the input's set of ids |
| Stages.DedupeKeepsFirst | src/core/pipeline.ts:39-52 | the first occurrence of every id is kept |
| Stages.DedupeOnlyFirst | src/core/pipeline.ts:39-52 | every kept candidate is the first occurrence of its id |
| Stages.DedupeLength | src/core/pipeline.ts:227-236 | the merge outputs no more candidates than it receives (source_merge output ≤ input) |
| Stages.ThunderWinsMerge | src/core/pipeline.ts:201-203 | a candidate whose id Thunder returned survives the merge in its Thunder form |
| Stages.SourceThunderSpec | src/core/pipeline.ts:54-70 | Thunder returns, in order, exactly the in-network, self-authored or followed-author candidates, each marked in-network, served as `for_you_in_network` and unfiltered |
| Stages.SourcePhoenixSpec | src/core/pipeline.ts:72-86 | Phoenix returns nothing when `inNetworkOnly` is set, and otherwise exactly the out-of-network candidates in order, marked `for_you_phoenix_retrieval` and unfiltered |
| Stages.HydrateInNetwork | src/core/pipeline.ts:88-96 | keeps length and every other field; `inNetwork` holds iff the author is the viewer, is followed, or the candidate was served in-network |
| Stages.HydrateCoreData | src/core/pipeline.ts:98-104 | changes nothing, since content and author are always present strings here |
| Stages.HydrateVideoDuration | src/core/pipeline.ts:106-121 | only a video whose duration is missing or not positive changes, and it gets 15000 ms |
| Stages.HydrateVideoDurationIdempotent | src/core/pipeline.ts:106-121 | running the duration hydrator twice equals running it once |
| Stages.HydrateSubscription | src/core/pipeline.ts:123-139 | an existing subscription author is never overwritten; a change happens only at an index ≡ 0 mod 11 and sets it to the author |
| Stages.HydrateVisibility | src/core/pipeline.ts:141-153 | the flag is true iff it already was, or the lower-cased text contains a blocked term; an existing true is never cleared |
| Stages.HydratorsKeepIds | src/core/pipeline.ts:88-153 | each of the five hydrators keeps the list of ids, hence length and order |
| Stages.SelectionSpec | src/core/pipeline.ts:338 | top-K returns min(topK, n) candidates for topK ≥ 0, as a prefix of a stable permutation sorted by final score, none ranked below an unselected one |
| StableSort.SortDescSpec | src/core/pipeline.ts:155-157 | the sort is non-increasing in the key and a permutation of its input |
| StableSort.SortDescStable | src/core/scorers/index.ts:84-86 | for every key value, the candidates carrying it keep their input order |
| StableSort.SortDescIdempotent | src/core/scorers/index.ts:196 | sorting an already sorted list again changes nothing |
| StableSort.SortDescMapMultiset | src/core/scorers/index.ts:84-86 | any projection of the elements (their ids) is permuted, not changed |
| Text.ToLowerAscii | src/core/filters/index.ts:138 | same length; upper-case ASCII letters lowered, every other character kept |
| Text.ToUpperAscii | src/core/filters/index.ts:150 | same length; lower-case ASCII letters raised, every other character kept |
| Text.CodeUnits | src/utils/scoring.ts:12 | a character below U+10000 is one code unit, itself; any other is a high surrogate followed by a low surrogate |
| Text.Utf16Length | src/core/filters/index.ts:148 | `length` is the number of characters plus one for each character above U+FFFF |
| Text.AstralRepetition | src/core/filters/index.ts:148-162 | three emoji are six units long, and six equal emoji are no run of six equal units |
| Filters.FindConfigIn | src/core/filters/index.ts:206 | a found configuration is in the catalog with the id; none found means no entry has the id |
| Filters.FirstInConversation | src/core/filters/index.ts:108-110 | `find`: the result is the first unfiltered candidate in the conversation, and there is none exactly when no candidate is |
| Filters.IndexOfId | src/core/filters/index.ts:184 | `findIndex`: the first position holding the id, or -1 exactly when none does |
| Filters.RunFilter | src/core/filters/index.ts:201-261 | the loop over the candidates produces exactly `FilterOutcome`, whose properties follow |
| Filters.RunFilterChain | src/core/filters/index.ts:264-285 | the loop over a list of ids produces exactly the fold `FilterChain` |
| Filters.RunAllFilters | src/core/filters/index.ts:264-285 | `runAllFilters` is the fold over the catalog ids in catalog order |
| FilterProps.PartitionSizes | src/core/filters/index.ts:233-251 | passed and filtered lists together are as long as the input |
| FilterProps.PassedMembers | src/core/filters/index.ts:233-251 | a candidate passes iff it is in the input, not already filtered and accepted by the predicate; the passed list is a subsequence |
| FilterProps.FilteredMembers | src/core/filters/index.ts:234-250 | every filtered entry is marked filtered; already-filtered ones go there unchanged; new rejects are marked with this filter's id and description |
| FilterProps.RunFilterShape | src/core/filters/index.ts:201-261 | inputCount = passed + filtered and outputCount = passed; an id that is unknown, disabled or unimplemented passes everything with an empty filtered list |
| FilterProps.CatalogIdsDistinct | src/core/filters/index.ts:5-102 | the twelve catalog ids are pairwise distinct |
| FilterProps.ConfigAt | src/core/filters/index.ts:206-215 | every catalog entry is found by its own id and has an implementation |
| FilterProps.CatalogEntryRuns | src/core/filters/index.ts:206-228 | every catalog entry is enabled and implemented, so it really filters |
| FilterProps.FindConfigIsFind | src/core/filters/index.ts:206 | the lookup by id equals a first-match search of the catalog |
| FilterProps.KeepsByKind | src/core/filters/index.ts:233-243 | an implemented filter passes exactly the unfiltered candidates its predicate accepts |
| FilterProps.AgeFilterKeeps | src/core/filters/index.ts:115-118 | `age` keeps exactly the candidates at most 7 days old at `now` |
| FilterProps.SelfTweetFilterKeeps | src/core/filters/index.ts:120-122 | `self_tweet` rejects exactly the viewer's own tweets |
| FilterProps.BlockedAuthorFilterKeeps | src/core/filters/index.ts:124-126 | `blocked_author` rejects exactly authors in the blocked list |
| FilterProps.MutedAuthorFilterKeeps | src/core/filters/index.ts:128-130 | `muted_author` rejects exactly authors in the muted list |
| FilterProps.SeenTweetsFilterKeeps | src/core/filters/index.ts:132-134 | `seen_tweets` rejects exactly ids in the seen list |
| FilterProps.NsfwFilterKeeps | src/core/filters/index.ts:136-141 | `nsfw` rejects exactly text whose lower-cased form contains a keyword |
| FilterProps.LowQualityFilterKeeps | src/core/filters/index.ts:143-165 | `low_quality` rejects text shorter than 5 UTF-16 units, shouting over 10 units, more than 10 hashtags or mentions, or a run of 6 equal code units |
| FilterProps.ConversationDepthFilterKeeps | src/core/filters/index.ts:167-171 | `conversation_depth` keeps a candidate iff its random draw exceeds 0.05 |
| FilterProps.RetweetOfSeenFilterKeeps | src/core/filters/index.ts:173-176 | `retweet_of_seen` rejects exactly retweets whose original id was seen |
| FilterProps.NegativeFeedbackFilterKeeps | src/core/filters/index.ts:188-197 | `negative_feedback` rejects exactly when notInterested + 2·block + 1.5·mute + 3·report ≥ 0.5 |
| FilterProps.DropDuplicatesOnePerConversation | src/core/filters/index.ts:106-113 | after `drop_duplicates` no two passed candidates share a non-empty conversation id |
| FilterProps.AuthorDiversityRank | src/core/filters/index.ts:178-186 | a passed candidate is among the first three unfiltered tweets of its author |
| FilterProps.AuthorDiversityNoFour | src/core/filters/index.ts:178-186 | no four distinct passed candidates share an author |
| FilterProps.AuthorDiversityAtMostThree | src/core/filters/index.ts:178-186 | after `author_diversity` at most three passed candidates remain per author |
| FilterProps.FilterChainIds | src/core/filters/index.ts:264-285 | the chain reports one result per enabled id (every id when there is no enabled list), in the order given |
| FilterProps.FilterChainShape | src/core/filters/index.ts:264-285 | the first stage counts the input, each stage counts the previous stage's output, counts never increase, and the last passed list is the result |
| FilterProps.FilterChainSubsequence | src/core/filters/index.ts:264-285 | the chain's result is an order-preserving subsequence of its input |
| FilterProps.RunAllFiltersVisitsCatalog | src/core/filters/index.ts:264-285 | with no enabled list, `runAllFilters` runs every catalog filter in catalog order |
| Scorers.RunPhoenixScorer | src/core/scorers/index.ts:37-47 | one entry per candidate, in order, whose score is the sum of the 19 fields divided by 19 |
| Scorers.PhoenixMeanMonotone | src/core/scorers/index.ts:44 | raising any field never lowers the Phoenix mean |
| Scorers.RunWeightedScorer | src/core/scorers/index.ts:50-74 | same length and order; only `weightedScore` changes, and it becomes `computeWeightedScore` of the candidate's Phoenix scores with no duration; the reported entry carries it |
| Scorers.WeightedKeepsIds | src/core/scorers/index.ts:54-60 | the weighted scorer keeps the list of ids |
| Scorers.WeightedScorerIgnoresVqvWeight | src/core/scorers/index.ts:55 | no duration is passed, so the VQV weight never affects the weighted scorer |
| Scorers.WeightedScorerNonNegative | src/core/scorers/index.ts:54-60 | with well-signed weights and scores in range, every weighted score is ≥ 0 |
| Scorers.DefaultWeightsNonNegative | src/data/defaultWeights.ts:3-37 | the shipped weights are well signed, so under them every weighted score is ≥ 0 |
| Scorers.PowBounds | src/core/scorers/index.ts:96 | for a decay in [0,1], its powers stay in [0,1] and never increase |
| Scorers.MultiplierShape | src/core/scorers/index.ts:96-97 | the multiplier is 1 at count 0, lies in [floor, 1] and does not increase with the count |
| Scorers.DiversifiedAt | src/core/scorers/index.ts:88-103 | each candidate's multiplier uses the number of earlier same-author candidates in sorted order |
| Scorers.RunAuthorDiversityScorer | src/core/scorers/index.ts:78-122 | the loop with the per-author count map computes the diversified sorted list and its entries |
| Scorers.DiversityScorerOrder | src/core/scorers/index.ts:84-103 | the output is a stable permutation of the input's ids, sorted by weighted score, with the damped score at each position |
| Scorers.RunOONScorer | src/core/scorers/index.ts:125-158 | same length and order; only `finalScore` changes, and it is always set; the reported entry carries it |
| Scorers.OonScores | src/core/scorers/index.ts:129-139 | final score = base in-network and base·factor otherwise, where base is the non-zero diversity score, else the weighted score, else 0; with a factor in [0,1] it lies in [0, base] |
| Scorers.OonKeepsIds | src/core/scorers/index.ts:129-139 | the out-of-network scorer keeps the list of ids |
| Scorers.RunAllScorers | src/core/scorers/index.ts:161-199 | the four scorers and the final sort produce exactly `ScoreChain` |
| Scorers.ScoreChainResults | src/core/scorers/index.ts:168-193 | results come in the order phoenix, weighted, author_diversity, oon |
| Scorers.ScoreChainCounts | src/core/scorers/index.ts:161-199 | every scorer reports one entry per input candidate |
| Scorers.ScoreChainRanks | src/core/scorers/index.ts:189-198 | the final list is a permutation of the input's ids, sorted by final score, each carrying a final score |
| Scoring.Clamp | src/utils/scoring.ts:4-6 | the result lies in [lo, hi] when lo ≤ hi, equals the value inside the range and the nearer bound outside it; it is lo when hi < lo |
| Scoring.ClampMonotone | src/utils/scoring.ts:4-6 | clamping preserves order |
| Scoring.ShiftSubtract | src/utils/scoring.ts:13-14 | `(hash << 5) - hash + c` cut to 32 bits is the recurrence 31·h + c cut to 32 bits |
| Scoring.HashString | src/utils/scoring.ts:9-17 | the loop over the `charCodeAt` code units returns the absolute value of the recurrence, a number in [0, 2^31] |
| Scoring.SimulatePhoenixScores | src/utils/scoring.ts:36-143 | for any random stream the 14 positive scores lie in [0,1], the negatives in [0,0.3], [0,0.15], [0,0.2], [0,0.1], dwell time ≥ 500, photo-expand is 0.05 without an image and VQV 0.02 without a video; content length is counted in UTF-16 units |
| Scoring.ComputeWeightedScore | src/utils/scoring.ts:146-211 | with a zero weight sum the result is never negative |
| Scoring.PositivePartNonNegative | src/utils/scoring.ts:155-170 | the positive sum is ≥ 0 under well-signed weights and scores in range |
| Scoring.NegativePartBounds | src/utils/scoring.ts:172-183 | the negative sum lies between minus the negative weights' magnitude and 0 |
| Scoring.AggregateBounds | src/utils/scoring.ts:202-210 | the three-branch aggregate is ≥ 0; it is ≤ offset when combined < 0 and ≥ offset when combined ≥ 0 and the weight sum is non-zero |
| Scoring.WeightedScoreBounds | src/utils/scoring.ts:146-211 | the weighted score is ≥ 0, ≤ offset for a negative combination, ≥ offset otherwise |
| Scoring.NegativeCombinedRanksLower | src/utils/scoring.ts:206-210 | a candidate with a negative combination never outranks one with a non-negative combination |
| Scoring.VqvWeightIgnoredWhenGated | src/utils/scoring.ts:151-153 | with no duration, a zero duration, or one not above the minimum, the VQV weight does not matter |
| Scoring.VqvWeightAppliedWhenOpen | src/utils/scoring.ts:151-153 | otherwise the VQV term and weight enter the combination and the weight sum |
| Scoring.CalculateHeatScore | src/utils/scoring.ts:214-235 | the heat score lies in [0, 100] |
| Scoring.HeatScoreMonotone | src/utils/scoring.ts:214-235 | more positive or fewer negative signals never lower the heat score |
| Scoring.GetHeatLevel | src/utils/scoring.ts:238-253 | viral iff ≥ 80, high iff in [60, 80), medium iff in [40, 60), low otherwise |
| Scoring.HeatLevelMonotone | src/utils/scoring.ts:244-252 | a higher score never gets a lower level |
| Snowflake.GenerateSnowflakeId | src/utils/snowflake.ts:8-22 | the id's bits above the lowest 22 hold the floored timestamp minus the epoch |
| Snowflake.GenerateRoundTrip | src/utils/snowflake.ts:8-29 | extracting from a generated id gives the floored timestamp back, and the datacenter, worker and sequence fields too |
| Snowflake.GenerateMonotonic | src/utils/snowflake.ts:13-19 | a strictly earlier timestamp gives a strictly smaller id, whatever the low fields |
| Snowflake.AgeInDaysAtMost | src/utils/snowflake.ts:32-41 | the age in days is at most d iff the id is at most d·86 400 000 ms old |
| Snowflake.GenerateFromAgeRoundTrip | src/utils/snowflake.ts:44-47 | the id made for h hours ago decodes to now − h·3 600 000 floored, and its age is h up to one millisecond |
| Snowflake.NestedFloor | src/utils/snowflake.ts:55-58 | the chained floors of seconds, minutes, hours and days equal one floor by the product |
| Snowflake.RelativeTimeBuckets | src/utils/snowflake.ts:55-70 | days iff ≥ 1 day, hours iff in [1 h, 1 day), minutes iff in [1 min, 1 h), just-now otherwise, each with its quotient |
| Snowflake.NatToString | src/utils/snowflake.ts:67-69 | a non-empty string of decimal digits |
| Snowflake.NatToStringRoundTrip | src/utils/snowflake.ts:67-69 | reading the decimal text back gives the number |
| Snowflake.FormatRelativeTimeEnglish | src/utils/snowflake.ts:67-70 | English text: "Nd ago", "Nh ago", "Nm ago" or "just now", by the first positive unit |
| Snowflake.FormatRelativeTimeChinese | src/utils/snowflake.ts:60-65 | Chinese text: 天前, 小时前, 分钟前 or 刚刚, by the first positive unit |
| Pipeline.Hydrated | src/core/pipeline.ts:238-296 | the five hydrators in order keep the merged list's length and ids |
| Pipeline.RunSources | src/core/pipeline.ts:165-296 | the retrieval part appends the eleven source and hydrator steps and ends with the hydrated merge |
| Pipeline.AppendFilterSteps | src/core/pipeline.ts:301-314 | one filter step per filter result, in order |
| Pipeline.AppendScorerSteps | src/core/pipeline.ts:323-336 | one scorer step per scorer result, in order, each counting the filtered candidates |
| Pipeline.RunPipeline | src/core/pipeline.ts:160-400 | `runPipeline` returns exactly `PipelineOutcome`, the steps and final list that the equivalence compares |
| Pipeline.CatalogPlanRunsAllFilters | src/core/pipeline.ts:298-314 | with the catalog as the pre-scoring list, the eager filter steps and the count after filtering are those of the `runAllFilters` fold |
| Stepwise.NextStage | src/core/pipeline.ts:403-734 | the generator only moves forward: a later stage, or the same filter stage with fewer ids left |
| Stepwise.Skip | src/core/pipeline.ts:573-576 | skipping disabled filter ids stops at a stage that yields or at the end |
| Stepwise.SilentStep | src/core/pipeline.ts:573-576 | a disabled filter id is passed over without changing anything still to come |
| Stepwise.SkipKeepsTrace | src/core/pipeline.ts:573-576 | passing over disabled ids changes nothing still to come, and never finishes the run early |
| Stepwise.ResumeTrace | src/core/pipeline.ts:403-734 | one resumption yields the head of the remaining trace and leaves its tail |
| Stepwise.ResumeProgress | src/core/pipeline.ts:403-734 | a resumption yields nothing only when the run has finished, and a finished run stays finished |
| Stepwise.FilterAdvance | src/core/pipeline.ts:573-594 | an enabled filter yields its step with the passed list, which becomes the current list |
| Stepwise.PipelineRun.constructor | src/core/pipeline.ts:403-408 | a fresh run is suspended before the candidate pool with the raw candidates current |
| Stepwise.PipelineRun.Step | src/core/pipeline.ts:403-734 | one resumption: the yield is the head of the remaining trace, something is yielded iff the run had not finished, and a finished run stays finished |
| Stepwise.PipelineRun.Resume | src/core/pipeline.ts:403-734 | from a stage that yields, the yield and the new state are those of `Next` |
| Stepwise.PipelineRun.ResumeQueries | src/core/pipeline.ts:410-450 | from the candidate pool and query stages, the yield and the new state are exactly those `Next` specifies |
| Stepwise.PipelineRun.ResumeSources | src/core/pipeline.ts:452-480 | from the two source stages, the yield and the new state are exactly those `Next` specifies; both lists are kept for the merge |
| Stepwise.PipelineRun.ResumeMerge | src/core/pipeline.ts:482-495 | from the merge stage, the yield and the new state are exactly those `Next` specifies; the merged list becomes current |
| Stepwise.PipelineRun.ResumeEarlyHydration | src/core/pipeline.ts:497-540 | from the in-network, core-data and video-duration stages, the yield and the new state are exactly those `Next` specifies |
| Stepwise.PipelineRun.ResumeLateHydration | src/core/pipeline.ts:542-570 | from the subscription and visibility stages, the yield and the new state are exactly those `Next` specifies |
| Stepwise.PipelineRun.ResumeFilter | src/core/pipeline.ts:573-594 | from an enabled filter of either chain, the yield is that filter's result and the new state is exactly the one `Next` specifies |
| Stepwise.PipelineRun.ResumeEarlyScoring | src/core/pipeline.ts:597-632 | from the Phoenix and weighted scorer stages, the yield and the new state are exactly those `Next` specifies |
| Stepwise.PipelineRun.ResumeDiversity | src/core/pipeline.ts:634-655 | from the author-diversity stage, the yield and the new state are exactly those `Next` specifies |
| Stepwise.PipelineRun.ResumeOon | src/core/pipeline.ts:657-676 | from the out-of-network stage, the yield and the new state are exactly those `Next` specifies |
| Stepwise.PipelineRun.ResumeSelection | src/core/pipeline.ts:678-693 | from the top-K stage, the yield and the new state are exactly those `Next` specifies; the selection is kept for the final step's count |
| Stepwise.PipelineRun.ResumeFinal | src/core/pipeline.ts:719-733 | from the final stage, the yield and the new state are exactly those `Next` specifies, and the run is finished |
| Equivalence.QueriesTrace | src/core/pipeline.ts:410-450 | the generator's first three yields are the pool and query hydrator steps |
| Equivalence.RetrievalTrace | src/core/pipeline.ts:452-480 | then the two source steps with their lists |
| Equivalence.MergeTrace | src/core/pipeline.ts:482-495 | then the merge step |
| Equivalence.HydrationTrace | src/core/pipeline.ts:497-570 | then the five hydrator steps, ending at the pre-scoring filters with the hydrated list |
| Equivalence.FilterTrace | src/core/pipeline.ts:573-594 | a filter stage yields one step per enabled id, exactly as the chain fold runs them, and hands on the chain's result |
| Equivalence.ScoringTrace | src/core/pipeline.ts:597-693 | then the four scorer steps and the selection of the sorted scored list |
| Equivalence.FinalTrace | src/core/pipeline.ts:719-733 | the final ranking is the last yield |
| Equivalence.GeneratorTrace | src/core/pipeline.ts:403-734 | the whole trace of a fresh run, stage by stage |
| Equivalence.HeadSteps | src/core/pipeline.ts:168-296 | the generator's first eleven steps equal the eager run's first eleven |
| Equivalence.ScoredSelection | src/core/pipeline.ts:338 | selecting from the scorer chain's sorted list equals selecting from the unsorted scored list, so the eager double sort equals the lazy single sort |
| Equivalence.ScoringSteps | src/core/pipeline.ts:319-348 | the generator's scorer and selector steps equal the eager run's |
| Equivalence.TailSteps | src/core/pipeline.ts:298-382 | the generator's steps from the filters on equal the eager run's |
| Equivalence.StepsMatch | src/core/pipeline.ts:160-734 | draining the generator yields the eager run's steps: same ids, types, counts and details, in the same order |
| Equivalence.LastYieldMatch | src/core/pipeline.ts:371-399 | the generator's last yielded list equals the eager `finalCandidates` |
| Equivalence.DrainedAgrees | src/core/pipeline.ts:160-734 | a drained trace agrees with the eager run in steps and final list |
| Equivalence.DrainPipeline | src/core/pipeline.ts:403-734 | calling `Step` on a fresh `PipelineRun` until it finishes collects the whole trace, which agrees with `runPipeline` |

## Left out

- `allCandidates` in the eager result is left out. It concatenates the final, filtered-out and unselected lists for display, and needs the filtered-out lists that `runAllFilters` does not return.
- `runPostSelectionFilters`, `PRE_SCORING_FILTERS` and `POST_SELECTION_FILTERS` do not exist in the filter module. The two lists are the `FilterPlan` parameter, and both chains are the `runAllFilters` fold.
- The eager pre-scoring chain walks `FILTERS` while the generator walks `PRE_SCORING_FILTERS`. The model gives both the same list (see above).
- The display fields of steps, filters and scorers are not modelled: `name`, `nameZh`, `description*`, `filterName`, `scorerName`, the `SCORERS` catalog, and the per-scorer `scores` breakdown maps. Each scorer entry keeps the candidate id and the final score.
- `getFilterById` and `getScorerById` are catalog lookups used only by the UI.
- Clock and randomness are parameters: `Date.now` is `Env.now` or `now`. `Math.random` in `conversation_depth` is `Env.depthDraw`. In `generateSnowflakeId` the random fields are arguments.
- The seeded generator (`seededRandom`, `generateSeedFromInput`) is not modelled. Its integer product exceeds 2^53, so JavaScript rounds it. `SimulatePhoenixScores` takes an arbitrary real stream instead, and its bounds hold for every stream.
- `Math.log10(followerCount + 1)` is a real argument of `SimulatePhoenixScores`.
- The emoji test counts code points in U+1F300..U+1F9FF, as the `u` flag does, with no grapheme handling.
- `conversation_depth` draws from `Env.depthDraw`, keyed by tweet id. A tweet met twice in one run gets the same draw, where the source calls `Math.random()` each time.
- `#\w+` and `@\w+` are counted as a mark followed by an ASCII word character.
- `(.)\1{5,}` is a run of six equal characters.
- Case mapping is ASCII-only: `toLowerCase` and `toUpperCase` leave non-ASCII letters unchanged.
- Scores are `real`. IEEE-754 rounding, NaN and infinities are not modelled. `||` on a number is read as "absent or zero".
- Snowflake ids are integers. BigInt parsing and printing of the decimal string are not modelled, and neither is the `Number` conversion.
- `Stages.HydrateCoreData`: the `|| ''` defaults never fire, because content and author are always strings in the model.
- `FilterProps.DropDuplicatesOnePerConversation` and `FilterProps.AuthorDiversityAtMostThree` assume the input has distinct ids. With a repeated id, both copies of a kept tweet pass. Inside the pipeline the merge guarantees distinct ids.
- `Scorers.ScoreChainCounts`: each scorer reports one entry per candidate. The per-entry score breakdowns are not modelled.
- `Scoring.ComputeWeightedScore`: its own contract covers only the zero-weight-sum branch. The other branches are stated in `Scoring.AggregateBounds` and `Scoring.WeightedScoreBounds`.
- `Scoring.HashString` returns the hash of the whole string. The seed string built from the tweet's fields is not modelled.

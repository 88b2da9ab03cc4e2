/** The ranking pipeline's two entry points: the eager run, which returns the list of steps and
    the final timeline, and the step-by-step run, a generator that yields one step at a time
    together with the candidates it produced. */
module Pipeline {
  import opened Wrappers
  import opened Types
  import opened Seqs
  import opened StableSort
  import opened Filters
  import opened Scorers
  import opened Stages

  datatype PipelineConfig = PipelineConfig(enabledFilters: seq<string>, weights: WeightConfig, topK: int)

  /** The ordered filter ids of the pre-scoring and the post-selection chains. */
  datatype FilterPlan = FilterPlan(preScoring: seq<string>, postSelection: seq<string>)

  /** Everything one run depends on: the raw corpus, the viewer, the configuration, the filter
      plan and the filters' clock and random draws. */
  datatype Request = Request(raw: seq<Candidate>, ctx: FilterContext, config: PipelineConfig, plan: FilterPlan, env: Env)

  datatype PipelineResult = PipelineResult(steps: seq<PipelineStep>, initialCount: nat, afterFilterCount: nat,
                                           finalCount: nat, finalCandidates: seq<Candidate>)

  function Enabled(req: Request): Option<seq<string>>
  {
    Some(req.config.enabledFilters)
  }

  function Plain(id: string, kind: StepType, inputCount: nat, outputCount: nat): PipelineStep
  {
    PipelineStep(id, kind, inputCount, outputCount, NoDetails)
  }

  function FilterStep(r: FilterResult): PipelineStep
  {
    PipelineStep(r.filterId, Filter, r.inputCount, r.outputCount, FilterDetails(r))
  }

  function ScorerStep(r: ScorerResult, n: nat): PipelineStep
  {
    PipelineStep(r.scorerId, Scorer, n, n, ScorerDetails(r))
  }

  function ScorerSteps(n: nat): ScorerResult -> PipelineStep
  {
    (r: ScorerResult) => ScorerStep(r, n)
  }

  /** The five candidate hydrators, in pipeline order. */
  function Hydrated(merged: seq<Candidate>, ctx: FilterContext): (r: seq<Candidate>)
    ensures |r| == |merged|
    ensures Map(IdOf, r) == Map(IdOf, merged)
  {
    HydratorsKeepIds(merged, ctx);
    var inNetwork := HydrateInNetwork(merged, ctx);
    HydratorsKeepIds(inNetwork, ctx);
    var coreData := HydrateCoreData(inNetwork);
    var video := HydrateVideoDuration(coreData);
    HydratorsKeepIds(video, ctx);
    var subscription := HydrateSubscription(video);
    HydratorsKeepIds(subscription, ctx);
    HydrateVisibility(subscription)
  }

  // ---------------------------------------------------------------- the eager run

  function Merged(req: Request): seq<Candidate>
  {
    Dedupe(SourceThunder(req.raw, req.ctx) + SourcePhoenix(req.raw, req.ctx))
  }

  /** The steps `runPipeline` records before the first filter: the pool, the two query
      hydrators, the two sources, the merge and the five candidate hydrators. Every hydrator keeps
      the list's length, so each hydrator step counts the merged list. */
  function SourceSteps(req: Request): seq<PipelineStep>
  {
    var n := |req.raw|;
    var thunder := SourceThunder(req.raw, req.ctx);
    var phoenix := SourcePhoenix(req.raw, req.ctx);
    var m := |Merged(req)|;
    [Plain("candidate_pool", Source, n, n),
     Plain("query_hydrator_user_action_seq", QueryHydrator, n, n),
     Plain("query_hydrator_user_features", QueryHydrator, n, n),
     Plain("source_thunder", Source, n, |thunder|),
     Plain("source_phoenix", Source, n, |phoenix|),
     Plain("source_merge", Source, |thunder| + |phoenix|, m),
     Plain("hydrator_in_network", Hydrator, m, m),
     Plain("hydrator_core_data", Hydrator, m, m),
     Plain("hydrator_video_duration", Hydrator, m, m),
     Plain("hydrator_subscription", Hydrator, m, m),
     Plain("hydrator_vf", Hydrator, m, m)]
  }

  /** The selection: the scored list sorted by final score, cut to the first `topK`. */
  function Selection(scored: seq<Candidate>, topK: int): seq<Candidate>
  {
    TopK(SortByFinalScore(scored), topK)
  }

  /** What `runPipeline` returns. */
  function PipelineOutcome(req: Request): PipelineResult
  {
    var pre := FilterChain(req.plan.preScoring, Enabled(req), Hydrated(Merged(req), req.ctx), req.ctx, req.env);
    var afterFilterCount := |pre.finalCandidates|;
    var scored := ScoreChain(pre.finalCandidates, req.config.weights);
    var selected := Selection(scored.finalCandidates, req.config.topK);
    var post := FilterChain(req.plan.postSelection, Enabled(req), selected, req.ctx, req.env);
    var final := SortByFinalScore(post.finalCandidates);
    PipelineResult(
      SourceSteps(req)
      + Map(FilterStep, pre.results)
      + Map(ScorerSteps(afterFilterCount), scored.results)
      + [Plain("selector_top_k", Selector, |scored.finalCandidates|, |selected|)]
      + Map(FilterStep, post.results)
      + [Plain("final_ranking", Ranker, |selected|, |final|)],
      |req.raw|, afterFilterCount, |final|, final)
  }

  /** `runPipeline` as written filters before scoring with `runAllFilters`, which walks the whole
      catalog. With the catalog as the pre-scoring list, the eager run's filter steps and its
      count after filtering are exactly those of that fold, the one `Filters.RunAllFilters` computes. */
  lemma CatalogPlanRunsAllFilters(req: Request, all: ChainResult)
    requires req.plan.preScoring == CatalogIds()
    requires all == FilterChain(CatalogIds(), Enabled(req), Hydrated(Merged(req), req.ctx), req.ctx, req.env)
    ensures |PipelineOutcome(req).steps| >= 11 + |all.results|
    ensures PipelineOutcome(req).steps[11..11 + |all.results|] == Map(FilterStep, all.results)
    ensures PipelineOutcome(req).afterFilterCount == |all.finalCandidates|
  {
    var scored := ScoreChain(all.finalCandidates, req.config.weights);
    var selected := Selection(scored.finalCandidates, req.config.topK);
    var post := FilterChain(req.plan.postSelection, Enabled(req), selected, req.ctx, req.env);
    var filterSteps := Map(FilterStep, all.results);
    var scorerSteps := Map(ScorerSteps(|all.finalCandidates|), scored.results);
    var selectorStep := [Plain("selector_top_k", Selector, |scored.finalCandidates|, |selected|)];
    var postSteps := Map(FilterStep, post.results);
    var finalStep := [Plain("final_ranking", Ranker, |selected|, |SortByFinalScore(post.finalCandidates)|)];
    assert PipelineOutcome(req).steps == SourceSteps(req) + filterSteps + scorerSteps + selectorStep + postSteps + finalStep;
    SecondOfSix(SourceSteps(req), filterSteps, scorerSteps, selectorStep, postSteps, finalStep);
  }

  lemma SecondOfSix<T>(a: seq<T>, b: seq<T>, c: seq<T>, d: seq<T>, e: seq<T>, f: seq<T>)
    ensures |a + b + c + d + e + f| >= |a| + |b|
    ensures (a + b + c + d + e + f)[|a|..|a| + |b|] == b
  {
    assert a + b + c + d + e + f == (a + b) + (c + d + e + f);
  }

  /** The first part of `runPipeline`: retrieval, merge and hydration. */
  method RunSources(req: Request) returns (steps: seq<PipelineStep>, candidates: seq<Candidate>)
    ensures steps == SourceSteps(req)
    ensures candidates == Hydrated(Merged(req), req.ctx)
  {
    var ctx := req.ctx;
    var initialCount := |req.raw|;
    steps := [];
    steps := steps + [Plain("candidate_pool", Source, initialCount, initialCount)];
    steps := steps + [Plain("query_hydrator_user_action_seq", QueryHydrator, initialCount, initialCount)];
    steps := steps + [Plain("query_hydrator_user_features", QueryHydrator, initialCount, initialCount)];

    var thunderCandidates := SourceThunder(req.raw, ctx);
    var phoenixCandidates := SourcePhoenix(req.raw, ctx);
    candidates := DedupeById(thunderCandidates + phoenixCandidates);
    steps := steps + [Plain("source_thunder", Source, initialCount, |thunderCandidates|)];
    steps := steps + [Plain("source_phoenix", Source, initialCount, |phoenixCandidates|)];
    steps := steps + [Plain("source_merge", Source, |thunderCandidates| + |phoenixCandidates|, |candidates|)];

    candidates := HydrateInNetwork(candidates, ctx);
    steps := steps + [Plain("hydrator_in_network", Hydrator, |candidates|, |candidates|)];
    candidates := HydrateCoreData(candidates);
    steps := steps + [Plain("hydrator_core_data", Hydrator, |candidates|, |candidates|)];
    candidates := HydrateVideoDuration(candidates);
    steps := steps + [Plain("hydrator_video_duration", Hydrator, |candidates|, |candidates|)];
    candidates := HydrateSubscription(candidates);
    steps := steps + [Plain("hydrator_subscription", Hydrator, |candidates|, |candidates|)];
    candidates := HydrateVisibility(candidates);
    steps := steps + [Plain("hydrator_vf", Hydrator, |candidates|, |candidates|)];
  }

  /** `runPipeline`: the stages in order, appending one step per stage, per filter and per scorer. */
  method RunPipeline(req: Request) returns (result: PipelineResult)
    ensures result == PipelineOutcome(req)
  {
    var ctx, config, env := req.ctx, req.config, req.env;
    var steps, candidates := RunSources(req);

    var preFilterResults, preFilteredCandidates := RunFilterChain(req.plan.preScoring, candidates, ctx, env, Enabled(req));
    steps := AppendFilterSteps(steps, preFilterResults);
    var afterFilterCount := |preFilteredCandidates|;

    var scorerResults, scoredCandidates := RunAllScorers(preFilteredCandidates, config.weights);
    steps := AppendScorerSteps(steps, scorerResults, afterFilterCount);

    var selectedCandidates := Selection(scoredCandidates, config.topK);
    steps := steps + [Plain("selector_top_k", Selector, |scoredCandidates|, |selectedCandidates|)];

    var postFilterResults, postFilteredCandidates := RunFilterChain(req.plan.postSelection, selectedCandidates, ctx, env, Enabled(req));
    steps := AppendFilterSteps(steps, postFilterResults);

    var finalCandidates := SortByFinalScore(postFilteredCandidates);
    steps := steps + [Plain("final_ranking", Ranker, |selectedCandidates|, |finalCandidates|)];
    result := PipelineResult(steps, |req.raw|, afterFilterCount, |finalCandidates|, finalCandidates);
  }

  /** One scorer step per scorer result, in order, each counting the `n` filtered candidates. */
  method AppendScorerSteps(steps: seq<PipelineStep>, results: seq<ScorerResult>, n: nat) returns (out: seq<PipelineStep>)
    ensures out == steps + Map(ScorerSteps(n), results)
  {
    out := steps;
    for i := 0 to |results|
      invariant out == steps + Map(ScorerSteps(n), results[..i])
    {
      assert results[..i + 1] == results[..i] + [results[i]];
      MapAppend(ScorerSteps(n), results[..i], [results[i]]);
      out := out + [ScorerStep(results[i], n)];
    }
    assert results[..|results|] == results;
  }

  /** One filter step per filter result, in order. */
  method AppendFilterSteps(steps: seq<PipelineStep>, results: seq<FilterResult>) returns (out: seq<PipelineStep>)
    ensures out == steps + Map(FilterStep, results)
  {
    out := steps;
    for i := 0 to |results|
      invariant out == steps + Map(FilterStep, results[..i])
    {
      assert results[..i + 1] == results[..i] + [results[i]];
      MapAppend(FilterStep, results[..i], [results[i]]);
      out := out + [FilterStep(results[i])];
    }
    assert results[..|results|] == results;
  }
}

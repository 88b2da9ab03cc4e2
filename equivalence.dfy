/** The generator and the eager run agree: draining `runPipelineStepByStep` yields, in order,
    exactly the steps `runPipeline` records, and its last yield carries the final timeline.

    Both runs are given the same `Request`, hence the same `Env`: one clock reading `now` and one
    draw per tweet id for `conversation_depth`. The source calls `Date.now()` and `Math.random()`
    afresh in each run, so two real runs agree only when their clock readings and random draws
    coincide; the lemmas here are about runs that share them.

    The proof walks the generator stage by stage. Each `…Next` lemma computes one resumption on
    a state given by its fields; `StepTrace` turns it into one element of the trace; the segment
    lemmas string the elements together. */
module Equivalence {
  import opened Wrappers
  import opened Types
  import opened Seqs
  import opened StableSort
  import opened Filters
  import opened Scorers
  import opened Stages
  import opened Pipeline
  import opened Stepwise

  function StepOf(y: Yield): PipelineStep
  {
    y.step
  }

  /** A resumption that yields `y` and moves to `next` puts `y` in front of the trace. */
  lemma StepTrace(req: Request, st: RunState, y: Yield, next: RunState)
    requires st.stage != Done && Next(req, st) == Transition(Some(y), next)
    ensures Trace(req, st) == [y] + Trace(req, next)
  {
    TraceUnfold(req, st);
  }

  lemma Chain3<T>(a0: seq<T>, a1: seq<T>, a2: seq<T>, a3: seq<T>, y0: T, y1: T, y2: T)
    requires a0 == [y0] + a1 && a1 == [y1] + a2 && a2 == [y2] + a3
    ensures a0 == [y0, y1, y2] + a3
  {
  }

  lemma Join<T>(a0: seq<T>, a1: seq<T>, a2: seq<T>, x: seq<T>, y: seq<T>)
    requires a0 == x + a1 && a1 == y + a2
    ensures a0 == (x + y) + a2
  {
  }

  lemma JoinAs<T>(a0: seq<T>, a1: seq<T>, a2: seq<T>, x: seq<T>, y: seq<T>, z: seq<T>)
    requires a0 == x + a1 && a1 == y + a2 && z == x + y
    ensures a0 == z + a2
  {
  }

  lemma Regroup<T>(a: seq<T>, b: seq<T>, c: seq<T>, d: seq<T>, e: seq<T>, f: seq<T>)
    ensures a + (((b + (c + d)) + e) + f) == ((((a + b) + c) + d) + e) + f
  {
  }

  lemma MapOne<T, U>(f: T -> U, x: T)
    ensures Map(f, [x]) == [f(x)]
  {
  }

  lemma MapFour<T, U>(f: T -> U, x0: T, x1: T, x2: T, x3: T)
    ensures Map(f, [x0, x1, x2, x3]) == [f(x0), f(x1), f(x2), f(x3)]
  {
  }

  lemma MapFive<T, U>(f: T -> U, x0: T, x1: T, x2: T, x3: T, x4: T)
    ensures Map(f, [x0, x1, x2, x3, x4]) == [f(x0), f(x1), f(x2), f(x3), f(x4)]
  {
  }

  lemma Chain2<T>(a0: seq<T>, a1: seq<T>, a2: seq<T>, y0: T, y1: T)
    requires a0 == [y0] + a1 && a1 == [y1] + a2
    ensures a0 == [y0, y1] + a2
  {
  }

  lemma Chain5<T>(a0: seq<T>, a1: seq<T>, a2: seq<T>, a3: seq<T>, a4: seq<T>, a5: seq<T>, y0: T, y1: T, y2: T, y3: T, y4: T)
    requires a0 == [y0] + a1 && a1 == [y1] + a2 && a2 == [y2] + a3 && a3 == [y3] + a4 && a4 == [y4] + a5
    ensures a0 == [y0, y1, y2, y3, y4] + a5
  {
  }

  lemma ChainCons<T, U>(a0: seq<U>, a1: seq<U>, a2: seq<U>, f: T -> U, x: T, s: seq<T>)
    requires a0 == [f(x)] + a1 && a1 == Map(f, s) + a2
    ensures a0 == Map(f, [x] + s) + a2
  {
    assert Map(f, [x] + s) == [f(x)] + Map(f, s);
  }

  // ---------------------------------------------------------------- one resumption per stage

  lemma PoolNext(req: Request, c: seq<Candidate>, t: seq<Candidate>, p: seq<Candidate>, sel: seq<Candidate>)
    ensures Next(req, RunState(CandidatePool, c, t, p, sel))
         == Transition(Some(Yield(Plain("candidate_pool", Source, |c|, |c|), c)), RunState(ActionSeqQuery, c, t, p, sel))
  {
  }

  lemma ActionSeqNext(req: Request, c: seq<Candidate>, t: seq<Candidate>, p: seq<Candidate>, sel: seq<Candidate>)
    ensures Next(req, RunState(ActionSeqQuery, c, t, p, sel))
         == Transition(Some(Yield(Plain("query_hydrator_user_action_seq", QueryHydrator, |c|, |c|), c)),
                       RunState(FeaturesQuery, c, t, p, sel))
  {
  }

  lemma FeaturesNext(req: Request, c: seq<Candidate>, t: seq<Candidate>, p: seq<Candidate>, sel: seq<Candidate>)
    ensures Next(req, RunState(FeaturesQuery, c, t, p, sel))
         == Transition(Some(Yield(Plain("query_hydrator_user_features", QueryHydrator, |c|, |c|), c)),
                       RunState(ThunderSourcing, c, t, p, sel))
  {
  }

  lemma ThunderNext(req: Request, c: seq<Candidate>, t: seq<Candidate>, p: seq<Candidate>, sel: seq<Candidate>)
    ensures var th := SourceThunder(c, req.ctx);
            Next(req, RunState(ThunderSourcing, c, t, p, sel))
              == Transition(Some(Yield(Plain("source_thunder", Source, |c|, |th|), th)), RunState(PhoenixSourcing, c, th, p, sel))
  {
  }

  lemma PhoenixNext(req: Request, c: seq<Candidate>, t: seq<Candidate>, p: seq<Candidate>, sel: seq<Candidate>)
    ensures var ph := SourcePhoenix(c, req.ctx);
            Next(req, RunState(PhoenixSourcing, c, t, p, sel))
              == Transition(Some(Yield(Plain("source_phoenix", Source, |c|, |ph|), ph)), RunState(SourceMerge, c, t, ph, sel))
  {
  }

  lemma MergeNext(req: Request, c: seq<Candidate>, t: seq<Candidate>, p: seq<Candidate>, sel: seq<Candidate>)
    ensures var m := Dedupe(t + p);
            Next(req, RunState(SourceMerge, c, t, p, sel))
              == Transition(Some(Yield(Plain("source_merge", Source, |t| + |p|, |m|), m)), RunState(InNetworkHydration, m, t, p, sel))
  {
  }

  lemma InNetworkNext(req: Request, c: seq<Candidate>, t: seq<Candidate>, p: seq<Candidate>, sel: seq<Candidate>)
    ensures var h := HydrateInNetwork(c, req.ctx);
            Next(req, RunState(InNetworkHydration, c, t, p, sel))
              == Transition(Some(Yield(Plain("hydrator_in_network", Hydrator, |h|, |h|), h)), RunState(CoreDataHydration, h, t, p, sel))
  {
  }

  lemma CoreDataNext(req: Request, c: seq<Candidate>, t: seq<Candidate>, p: seq<Candidate>, sel: seq<Candidate>)
    ensures var h := HydrateCoreData(c);
            Next(req, RunState(CoreDataHydration, c, t, p, sel))
              == Transition(Some(Yield(Plain("hydrator_core_data", Hydrator, |h|, |h|), h)), RunState(VideoDurationHydration, h, t, p, sel))
  {
  }

  lemma VideoDurationNext(req: Request, c: seq<Candidate>, t: seq<Candidate>, p: seq<Candidate>, sel: seq<Candidate>)
    ensures var h := HydrateVideoDuration(c);
            Next(req, RunState(VideoDurationHydration, c, t, p, sel))
              == Transition(Some(Yield(Plain("hydrator_video_duration", Hydrator, |h|, |h|), h)), RunState(SubscriptionHydration, h, t, p, sel))
  {
  }

  lemma SubscriptionNext(req: Request, c: seq<Candidate>, t: seq<Candidate>, p: seq<Candidate>, sel: seq<Candidate>)
    ensures var h := HydrateSubscription(c);
            Next(req, RunState(SubscriptionHydration, c, t, p, sel))
              == Transition(Some(Yield(Plain("hydrator_subscription", Hydrator, |h|, |h|), h)), RunState(VisibilityHydration, h, t, p, sel))
  {
  }

  lemma VisibilityNext(req: Request, c: seq<Candidate>, t: seq<Candidate>, p: seq<Candidate>, sel: seq<Candidate>)
    ensures var h := HydrateVisibility(c);
            Next(req, RunState(VisibilityHydration, c, t, p, sel))
              == Transition(Some(Yield(Plain("hydrator_vf", Hydrator, |h|, |h|), h)),
                            RunState(PreScoringFilters(req.plan.preScoring), h, t, p, sel))
  {
  }

  lemma PhoenixScoringNext(req: Request, c: seq<Candidate>, t: seq<Candidate>, p: seq<Candidate>, sel: seq<Candidate>)
    ensures Next(req, RunState(PhoenixScoring, c, t, p, sel))
         == Transition(Some(Yield(ScorerStep(RunPhoenixScorer(c), |c|), c)), RunState(WeightedScoring, c, t, p, sel))
  {
  }

  lemma WeightedNext(req: Request, c: seq<Candidate>, t: seq<Candidate>, p: seq<Candidate>, sel: seq<Candidate>)
    ensures var o := RunWeightedScorer(c, req.config.weights);
            Next(req, RunState(WeightedScoring, c, t, p, sel))
              == Transition(Some(Yield(ScorerStep(o.result, |o.updatedCandidates|), o.updatedCandidates)),
                            RunState(DiversityScoring, o.updatedCandidates, t, p, sel))
  {
  }

  lemma DiversityNext(req: Request, c: seq<Candidate>, t: seq<Candidate>, p: seq<Candidate>, sel: seq<Candidate>)
    ensures var w := req.config.weights;
            var o := AuthorDiversityOutcome(c, w.authorDiversityDecay, w.authorDiversityFloor);
            Next(req, RunState(DiversityScoring, c, t, p, sel))
              == Transition(Some(Yield(ScorerStep(o.result, |o.updatedCandidates|), o.updatedCandidates)),
                            RunState(OonScoring, o.updatedCandidates, t, p, sel))
  {
  }

  lemma OonNext(req: Request, c: seq<Candidate>, t: seq<Candidate>, p: seq<Candidate>, sel: seq<Candidate>)
    ensures var o := RunOONScorer(c, req.config.weights.oonWeightFactor);
            Next(req, RunState(OonScoring, c, t, p, sel))
              == Transition(Some(Yield(ScorerStep(o.result, |o.updatedCandidates|), o.updatedCandidates)),
                            RunState(TopKSelection, o.updatedCandidates, t, p, sel))
  {
  }

  lemma SelectionNext(req: Request, c: seq<Candidate>, t: seq<Candidate>, p: seq<Candidate>, sel: seq<Candidate>)
    ensures var s := Selection(c, req.config.topK);
            Next(req, RunState(TopKSelection, c, t, p, sel))
              == Transition(Some(Yield(Plain("selector_top_k", Selector, |c|, |s|), s)),
                            RunState(PostSelectionFilters(req.plan.postSelection), s, t, p, s))
  {
  }

  lemma FinalNext(req: Request, c: seq<Candidate>, t: seq<Candidate>, p: seq<Candidate>, sel: seq<Candidate>)
    ensures var f := SortByFinalScore(c);
            Next(req, RunState(FinalRanking, c, t, p, sel))
              == Transition(Some(Yield(Plain("final_ranking", Ranker, |sel|, |f|), f)), RunState(Done, f, t, p, sel))
  {
  }

  /** An enabled filter id runs its filter on the current list. */
  lemma FilterNext(req: Request, post: bool, rest: seq<string>, c: seq<Candidate>, t: seq<Candidate>, p: seq<Candidate>, sel: seq<Candidate>)
    requires rest != [] && Selected(Enabled(req), rest[0])
    ensures var r := FilterOutcome(rest[0], c, req.ctx, req.env);
            Next(req, RunState(FilterStage(post, rest), c, t, p, sel))
              == Transition(Some(FilterYield(r)), RunState(FilterStage(post, rest[1..]), r.passedCandidates, t, p, sel))
  {
    var st := RunState(FilterStage(post, rest), c, t, p, sel);
    assert IsFilterStage(st.stage) && st.stage.rest == rest;
    FilterAdvance(req, st, FilterOutcome(rest[0], c, req.ctx, req.env));
    FilterNextStage(req, post, rest);
  }

  /** An exhausted filter list, or an id that is not enabled, passes to the next stage. */
  lemma FilterSkip(req: Request, post: bool, rest: seq<string>, c: seq<Candidate>, t: seq<Candidate>, p: seq<Candidate>, sel: seq<Candidate>)
    requires rest == [] || !Selected(Enabled(req), rest[0])
    ensures Trace(req, RunState(FilterStage(post, rest), c, t, p, sel))
         == Trace(req, RunState(if rest == [] then AfterFilters(post) else FilterStage(post, rest[1..]), c, t, p, sel))
  {
    var st := RunState(FilterStage(post, rest), c, t, p, sel);
    SilentStep(req, st);
    FilterNextStage(req, post, rest);
  }

  lemma FilterNextStage(req: Request, post: bool, rest: seq<string>)
    ensures NextStage(req, FilterStage(post, rest)) == if rest == [] then AfterFilters(post) else FilterStage(post, rest[1..])
  {
    if post {
      assert FilterStage(post, rest) == PostSelectionFilters(rest);
    } else {
      assert FilterStage(post, rest) == PreScoringFilters(rest);
    }
  }

  // ---------------------------------------------------------------- segments

  function QueryYields(c: seq<Candidate>): seq<Yield>
  {
    [Yield(Plain("candidate_pool", Source, |c|, |c|), c),
     Yield(Plain("query_hydrator_user_action_seq", QueryHydrator, |c|, |c|), c),
     Yield(Plain("query_hydrator_user_features", QueryHydrator, |c|, |c|), c)]
  }

  lemma QueriesTrace(req: Request, c: seq<Candidate>, t: seq<Candidate>, p: seq<Candidate>, sel: seq<Candidate>)
    ensures Trace(req, RunState(CandidatePool, c, t, p, sel)) == QueryYields(c) + Trace(req, RunState(ThunderSourcing, c, t, p, sel))
  {
    var s0, s1, s2, s3 := RunState(CandidatePool, c, t, p, sel), RunState(ActionSeqQuery, c, t, p, sel),
                          RunState(FeaturesQuery, c, t, p, sel), RunState(ThunderSourcing, c, t, p, sel);
    var y0, y1, y2 := Yield(Plain("candidate_pool", Source, |c|, |c|), c),
                      Yield(Plain("query_hydrator_user_action_seq", QueryHydrator, |c|, |c|), c),
                      Yield(Plain("query_hydrator_user_features", QueryHydrator, |c|, |c|), c);
    PoolNext(req, c, t, p, sel);
    StepTrace(req, s0, y0, s1);
    ActionSeqNext(req, c, t, p, sel);
    StepTrace(req, s1, y1, s2);
    FeaturesNext(req, c, t, p, sel);
    StepTrace(req, s2, y2, s3);
    Chain3(Trace(req, s0), Trace(req, s1), Trace(req, s2), Trace(req, s3), y0, y1, y2);
  }

  /** The two sources; `th` and `ph` are what they return. */
  lemma RetrievalTrace(req: Request, c: seq<Candidate>, t: seq<Candidate>, p: seq<Candidate>, sel: seq<Candidate>,
                       th: seq<Candidate>, ph: seq<Candidate>)
    requires th == SourceThunder(c, req.ctx) && ph == SourcePhoenix(c, req.ctx)
    ensures Trace(req, RunState(ThunderSourcing, c, t, p, sel))
         == [Yield(Plain("source_thunder", Source, |c|, |th|), th), Yield(Plain("source_phoenix", Source, |c|, |ph|), ph)]
            + Trace(req, RunState(SourceMerge, c, th, ph, sel))
  {
    var s0, s1, s2 := RunState(ThunderSourcing, c, t, p, sel), RunState(PhoenixSourcing, c, th, p, sel),
                      RunState(SourceMerge, c, th, ph, sel);
    var y0, y1 := Yield(Plain("source_thunder", Source, |c|, |th|), th), Yield(Plain("source_phoenix", Source, |c|, |ph|), ph);
    ThunderNext(req, c, t, p, sel);
    StepTrace(req, s0, y0, s1);
    PhoenixNext(req, c, th, p, sel);
    StepTrace(req, s1, y1, s2);
    Chain2(Trace(req, s0), Trace(req, s1), Trace(req, s2), y0, y1);
  }

  /** The merge; `m` is the merged list. */
  lemma MergeTrace(req: Request, c: seq<Candidate>, t: seq<Candidate>, p: seq<Candidate>, sel: seq<Candidate>, m: seq<Candidate>)
    requires m == Dedupe(t + p)
    ensures Trace(req, RunState(SourceMerge, c, t, p, sel))
         == [Yield(Plain("source_merge", Source, |t| + |p|, |m|), m)] + Trace(req, RunState(InNetworkHydration, m, t, p, sel))
  {
    MergeNext(req, c, t, p, sel);
    StepTrace(req, RunState(SourceMerge, c, t, p, sel), Yield(Plain("source_merge", Source, |t| + |p|, |m|), m),
              RunState(InNetworkHydration, m, t, p, sel));
  }

  function HydrationYields(c: seq<Candidate>, ctx: FilterContext): seq<Yield>
  {
    var h1 := HydrateInNetwork(c, ctx);
    var h2 := HydrateCoreData(h1);
    var h3 := HydrateVideoDuration(h2);
    var h4 := HydrateSubscription(h3);
    var h5 := HydrateVisibility(h4);
    [Yield(Plain("hydrator_in_network", Hydrator, |h1|, |h1|), h1),
     Yield(Plain("hydrator_core_data", Hydrator, |h2|, |h2|), h2),
     Yield(Plain("hydrator_video_duration", Hydrator, |h3|, |h3|), h3),
     Yield(Plain("hydrator_subscription", Hydrator, |h4|, |h4|), h4),
     Yield(Plain("hydrator_vf", Hydrator, |h5|, |h5|), h5)]
  }

  lemma HydrationTrace(req: Request, c: seq<Candidate>, t: seq<Candidate>, p: seq<Candidate>, sel: seq<Candidate>)
    ensures Trace(req, RunState(InNetworkHydration, c, t, p, sel))
         == HydrationYields(c, req.ctx) + Trace(req, RunState(PreScoringFilters(req.plan.preScoring), Hydrated(c, req.ctx), t, p, sel))
  {
    var h1 := HydrateInNetwork(c, req.ctx);
    var h2 := HydrateCoreData(h1);
    var h3 := HydrateVideoDuration(h2);
    var h4 := HydrateSubscription(h3);
    var h5 := HydrateVisibility(h4);
    var s0, s1, s2 := RunState(InNetworkHydration, c, t, p, sel), RunState(CoreDataHydration, h1, t, p, sel),
                      RunState(VideoDurationHydration, h2, t, p, sel);
    var s3, s4, s5 := RunState(SubscriptionHydration, h3, t, p, sel), RunState(VisibilityHydration, h4, t, p, sel),
                      RunState(PreScoringFilters(req.plan.preScoring), h5, t, p, sel);
    var y0, y1, y2 := Yield(Plain("hydrator_in_network", Hydrator, |h1|, |h1|), h1),
                      Yield(Plain("hydrator_core_data", Hydrator, |h2|, |h2|), h2),
                      Yield(Plain("hydrator_video_duration", Hydrator, |h3|, |h3|), h3);
    var y3, y4 := Yield(Plain("hydrator_subscription", Hydrator, |h4|, |h4|), h4),
                  Yield(Plain("hydrator_vf", Hydrator, |h5|, |h5|), h5);
    InNetworkNext(req, c, t, p, sel);
    StepTrace(req, s0, y0, s1);
    CoreDataNext(req, h1, t, p, sel);
    StepTrace(req, s1, y1, s2);
    VideoDurationNext(req, h2, t, p, sel);
    StepTrace(req, s2, y2, s3);
    SubscriptionNext(req, h3, t, p, sel);
    StepTrace(req, s3, y3, s4);
    VisibilityNext(req, h4, t, p, sel);
    StepTrace(req, s4, y4, s5);
    Chain5(Trace(req, s0), Trace(req, s1), Trace(req, s2), Trace(req, s3), Trace(req, s4), Trace(req, s5), y0, y1, y2, y3, y4);
    assert h5 == Hydrated(c, req.ctx);
  }

  /** A filter stage yields one step per enabled filter of its list, in order, each with the list
      that filter passed, and hands the chain's final list to the stage after the filters. */
  lemma {:induction false} FilterTrace(req: Request, post: bool, rest: seq<string>, c: seq<Candidate>,
                                       t: seq<Candidate>, p: seq<Candidate>, sel: seq<Candidate>)
    ensures var chain := FilterChain(rest, Enabled(req), c, req.ctx, req.env);
            Trace(req, RunState(FilterStage(post, rest), c, t, p, sel))
              == Map(FilterYield, chain.results) + Trace(req, RunState(AfterFilters(post), chain.finalCandidates, t, p, sel))
    decreases |rest|
  {
    var chain := FilterChain(rest, Enabled(req), c, req.ctx, req.env);
    var s0 := RunState(FilterStage(post, rest), c, t, p, sel);
    if rest == [] {
      FilterSkip(req, post, rest, c, t, p, sel);
      assert chain == ChainResult([], c);
    } else if !Selected(Enabled(req), rest[0]) {
      FilterSkip(req, post, rest, c, t, p, sel);
      FilterTrace(req, post, rest[1..], c, t, p, sel);
      assert chain == FilterChain(rest[1..], Enabled(req), c, req.ctx, req.env);
    } else {
      var r := FilterOutcome(rest[0], c, req.ctx, req.env);
      var tail := FilterChain(rest[1..], Enabled(req), r.passedCandidates, req.ctx, req.env);
      var s1 := RunState(FilterStage(post, rest[1..]), r.passedCandidates, t, p, sel);
      var s2 := RunState(AfterFilters(post), tail.finalCandidates, t, p, sel);
      FilterNext(req, post, rest, c, t, p, sel);
      StepTrace(req, s0, FilterYield(r), s1);
      FilterTrace(req, post, rest[1..], r.passedCandidates, t, p, sel);
      ChainCons(Trace(req, s0), Trace(req, s1), Trace(req, s2), FilterYield, r, tail.results);
      assert chain == ChainResult([r] + tail.results, tail.finalCandidates);
    }
  }

  /** The list the out-of-network scorer leaves, before any sort. */
  function LateScored(c: seq<Candidate>, w: WeightConfig): seq<Candidate>
  {
    var weighted := RunWeightedScorer(c, w);
    var diversity := AuthorDiversityOutcome(weighted.updatedCandidates, w.authorDiversityDecay, w.authorDiversityFloor);
    RunOONScorer(diversity.updatedCandidates, w.oonWeightFactor).updatedCandidates
  }

  function ScoringYields(c: seq<Candidate>, w: WeightConfig, topK: int): seq<Yield>
  {
    var weighted := RunWeightedScorer(c, w);
    var diversity := AuthorDiversityOutcome(weighted.updatedCandidates, w.authorDiversityDecay, w.authorDiversityFloor);
    var oon := RunOONScorer(diversity.updatedCandidates, w.oonWeightFactor);
    var s := Selection(oon.updatedCandidates, topK);
    [Yield(ScorerStep(RunPhoenixScorer(c), |c|), c),
     Yield(ScorerStep(weighted.result, |weighted.updatedCandidates|), weighted.updatedCandidates),
     Yield(ScorerStep(diversity.result, |diversity.updatedCandidates|), diversity.updatedCandidates),
     Yield(ScorerStep(oon.result, |oon.updatedCandidates|), oon.updatedCandidates),
     Yield(Plain("selector_top_k", Selector, |oon.updatedCandidates|, |s|), s)]
  }

  lemma ScoringTrace(req: Request, c: seq<Candidate>, t: seq<Candidate>, p: seq<Candidate>, sel: seq<Candidate>)
    ensures var s := Selection(LateScored(c, req.config.weights), req.config.topK);
            Trace(req, RunState(PhoenixScoring, c, t, p, sel))
              == ScoringYields(c, req.config.weights, req.config.topK)
                 + Trace(req, RunState(PostSelectionFilters(req.plan.postSelection), s, t, p, s))
  {
    var w := req.config.weights;
    var weighted := RunWeightedScorer(c, w);
    var diversity := AuthorDiversityOutcome(weighted.updatedCandidates, w.authorDiversityDecay, w.authorDiversityFloor);
    var oon := RunOONScorer(diversity.updatedCandidates, w.oonWeightFactor);
    var s := Selection(oon.updatedCandidates, req.config.topK);
    var s0, s1, s2 := RunState(PhoenixScoring, c, t, p, sel), RunState(WeightedScoring, c, t, p, sel),
                      RunState(DiversityScoring, weighted.updatedCandidates, t, p, sel);
    var s3, s4, s5 := RunState(OonScoring, diversity.updatedCandidates, t, p, sel),
                      RunState(TopKSelection, oon.updatedCandidates, t, p, sel),
                      RunState(PostSelectionFilters(req.plan.postSelection), s, t, p, s);
    var y0, y1 := Yield(ScorerStep(RunPhoenixScorer(c), |c|), c),
                  Yield(ScorerStep(weighted.result, |weighted.updatedCandidates|), weighted.updatedCandidates);
    var y2, y3 := Yield(ScorerStep(diversity.result, |diversity.updatedCandidates|), diversity.updatedCandidates),
                  Yield(ScorerStep(oon.result, |oon.updatedCandidates|), oon.updatedCandidates);
    var y4 := Yield(Plain("selector_top_k", Selector, |oon.updatedCandidates|, |s|), s);
    PhoenixScoringNext(req, c, t, p, sel);
    StepTrace(req, s0, y0, s1);
    WeightedNext(req, c, t, p, sel);
    StepTrace(req, s1, y1, s2);
    DiversityNext(req, weighted.updatedCandidates, t, p, sel);
    StepTrace(req, s2, y2, s3);
    OonNext(req, diversity.updatedCandidates, t, p, sel);
    StepTrace(req, s3, y3, s4);
    SelectionNext(req, oon.updatedCandidates, t, p, sel);
    StepTrace(req, s4, y4, s5);
    Chain5(Trace(req, s0), Trace(req, s1), Trace(req, s2), Trace(req, s3), Trace(req, s4), Trace(req, s5), y0, y1, y2, y3, y4);
    assert oon.updatedCandidates == LateScored(c, w);
  }

  function FinalYield(c: seq<Candidate>, sel: seq<Candidate>): Yield
  {
    var f := SortByFinalScore(c);
    Yield(Plain("final_ranking", Ranker, |sel|, |f|), f)
  }

  lemma FinalTrace(req: Request, c: seq<Candidate>, t: seq<Candidate>, p: seq<Candidate>, sel: seq<Candidate>)
    ensures Trace(req, RunState(FinalRanking, c, t, p, sel)) == [FinalYield(c, sel)]
  {
    FinalNext(req, c, t, p, sel);
    StepTrace(req, RunState(FinalRanking, c, t, p, sel), FinalYield(c, sel), RunState(Done, SortByFinalScore(c), t, p, sel));
  }

  // ---------------------------------------------------------------- the whole run

  /** The yields before the pre-scoring filters: the pool, the two query hydrators, the two
      sources, the merge and the five candidate hydrators. */
  function HeadYields(req: Request): seq<Yield>
  {
    PrefixYields(req.raw, SourceThunder(req.raw, req.ctx), SourcePhoenix(req.raw, req.ctx), Merged(req))
    + HydrationYields(Merged(req), req.ctx)
  }

  /** The pool, the query hydrators, the sources `th` and `ph` and their merge `m`. */
  function PrefixYields(c: seq<Candidate>, th: seq<Candidate>, ph: seq<Candidate>, m: seq<Candidate>): seq<Yield>
  {
    QueryYields(c)
    + [Yield(Plain("source_thunder", Source, |c|, |th|), th), Yield(Plain("source_phoenix", Source, |c|, |ph|), ph)]
    + [Yield(Plain("source_merge", Source, |th| + |ph|, |m|), m)]
  }

  /** The yields from the pre-scoring filters on, given the hydrated list `c`: the enabled
      pre-scoring filters, the four scorers, the selection, the enabled post-selection filters
      and the final ranking. */
  function TailYields(req: Request, c: seq<Candidate>): seq<Yield>
  {
    var pre := FilterChain(req.plan.preScoring, Enabled(req), c, req.ctx, req.env);
    var s := Selection(LateScored(pre.finalCandidates, req.config.weights), req.config.topK);
    var post := FilterChain(req.plan.postSelection, Enabled(req), s, req.ctx, req.env);
    Map(FilterYield, pre.results)
    + ScoringYields(pre.finalCandidates, req.config.weights, req.config.topK)
    + Map(FilterYield, post.results)
    + [FinalYield(post.finalCandidates, s)]
  }

  lemma PrefixYieldsSplit(c: seq<Candidate>, th: seq<Candidate>, ph: seq<Candidate>, m: seq<Candidate>)
    ensures PrefixYields(c, th, ph, m)
         == (QueryYields(c) + [Yield(Plain("source_thunder", Source, |c|, |th|), th), Yield(Plain("source_phoenix", Source, |c|, |ph|), ph)])
            + [Yield(Plain("source_merge", Source, |th| + |ph|, |m|), m)]
  {
  }

  /** The pool, the query hydrators and the two sources. */
  lemma RetrievalHeadTrace(req: Request, th: seq<Candidate>, ph: seq<Candidate>)
    requires th == SourceThunder(req.raw, req.ctx) && ph == SourcePhoenix(req.raw, req.ctx)
    ensures Trace(req, Start(req))
         == (QueryYields(req.raw)
             + [Yield(Plain("source_thunder", Source, |req.raw|, |th|), th), Yield(Plain("source_phoenix", Source, |req.raw|, |ph|), ph)])
            + Trace(req, RunState(SourceMerge, req.raw, th, ph, []))
  {
    var c := req.raw;
    QueriesTrace(req, c, [], [], []);
    RetrievalTrace(req, c, [], [], [], th, ph);
    Join(Trace(req, RunState(CandidatePool, c, [], [], [])), Trace(req, RunState(ThunderSourcing, c, [], [], [])),
         Trace(req, RunState(SourceMerge, c, th, ph, [])), QueryYields(c),
         [Yield(Plain("source_thunder", Source, |c|, |th|), th), Yield(Plain("source_phoenix", Source, |c|, |ph|), ph)]);
  }

  /** ... followed by the merge. */
  lemma MergedHeadTrace(req: Request, th: seq<Candidate>, ph: seq<Candidate>, m: seq<Candidate>)
    requires th == SourceThunder(req.raw, req.ctx) && ph == SourcePhoenix(req.raw, req.ctx) && m == Dedupe(th + ph)
    ensures Trace(req, Start(req)) == PrefixYields(req.raw, th, ph, m) + Trace(req, RunState(InNetworkHydration, m, th, ph, []))
  {
    var c := req.raw;
    RetrievalHeadTrace(req, th, ph);
    MergeTrace(req, c, th, ph, [], m);
    PrefixYieldsSplit(c, th, ph, m);
    JoinAs(Trace(req, Start(req)), Trace(req, RunState(SourceMerge, c, th, ph, [])),
         Trace(req, RunState(InNetworkHydration, m, th, ph, [])),
         QueryYields(c) + [Yield(Plain("source_thunder", Source, |c|, |th|), th), Yield(Plain("source_phoenix", Source, |c|, |ph|), ph)],
         [Yield(Plain("source_merge", Source, |th| + |ph|, |m|), m)], PrefixYields(c, th, ph, m));
  }

  /** ... followed by the five candidate hydrators. */
  lemma HeadTrace(req: Request, th: seq<Candidate>, ph: seq<Candidate>, m: seq<Candidate>)
    requires th == SourceThunder(req.raw, req.ctx) && ph == SourcePhoenix(req.raw, req.ctx) && m == Dedupe(th + ph)
    ensures Trace(req, Start(req))
         == HeadYields(req) + Trace(req, RunState(PreScoringFilters(req.plan.preScoring), Hydrated(m, req.ctx), th, ph, []))
  {
    var c := req.raw;
    MergedHeadTrace(req, th, ph, m);
    HydrationTrace(req, m, th, ph, []);
    Join(Trace(req, Start(req)), Trace(req, RunState(InNetworkHydration, m, th, ph, [])),
         Trace(req, RunState(PreScoringFilters(req.plan.preScoring), Hydrated(m, req.ctx), th, ph, [])),
         PrefixYields(c, th, ph, m), HydrationYields(m, req.ctx));
  }

  lemma TailTrace(req: Request, c: seq<Candidate>, t: seq<Candidate>, p: seq<Candidate>)
    ensures Trace(req, RunState(PreScoringFilters(req.plan.preScoring), c, t, p, [])) == TailYields(req, c)
  {
    var w, topK := req.config.weights, req.config.topK;
    var pre := FilterChain(req.plan.preScoring, Enabled(req), c, req.ctx, req.env);
    var s := Selection(LateScored(pre.finalCandidates, w), topK);
    var post := FilterChain(req.plan.postSelection, Enabled(req), s, req.ctx, req.env);
    var s0 := RunState(FilterStage(false, req.plan.preScoring), c, t, p, []);
    var s1 := RunState(AfterFilters(false), pre.finalCandidates, t, p, []);
    var s2 := RunState(FilterStage(true, req.plan.postSelection), s, t, p, s);
    var s3 := RunState(AfterFilters(true), post.finalCandidates, t, p, s);
    FilterTrace(req, false, req.plan.preScoring, c, t, p, []);
    ScoringTrace(req, pre.finalCandidates, t, p, []);
    FilterTrace(req, true, req.plan.postSelection, s, t, p, s);
    FinalTrace(req, post.finalCandidates, t, p, s);
    var a, b, d := Map(FilterYield, pre.results), ScoringYields(pre.finalCandidates, w, topK), Map(FilterYield, post.results);
    Join(Trace(req, s0), Trace(req, s1), Trace(req, s2), a, b);
    Join(Trace(req, s0), Trace(req, s2), Trace(req, s3), a + b, d);
    assert Trace(req, s0) == (a + b + d) + [FinalYield(post.finalCandidates, s)];
  }

  /** Draining a fresh generator yields the head and then the tail. */
  lemma GeneratorTrace(req: Request)
    ensures Trace(req, Start(req)) == HeadYields(req) + TailYields(req, Hydrated(Merged(req), req.ctx))
  {
    var th, ph := SourceThunder(req.raw, req.ctx), SourcePhoenix(req.raw, req.ctx);
    HeadTrace(req, th, ph, Dedupe(th + ph));
    TailTrace(req, Hydrated(Dedupe(th + ph), req.ctx), th, ph);
  }

  // ---------------------------------------------------------------- agreement with the eager run

  lemma FilterStepsOf(rs: seq<FilterResult>)
    ensures Map(StepOf, Map(FilterYield, rs)) == Map(FilterStep, rs)
  {
  }

  /** The generator's first eleven steps are the eager run's: the hydrators keep the merged
      list's length, so each of them counts the merged list. */
  lemma HeadSteps(req: Request)
    ensures Map(StepOf, HeadYields(req)) == SourceSteps(req)
  {
    var m := Merged(req);
    var h1 := HydrateInNetwork(m, req.ctx);
    var h2 := HydrateCoreData(h1);
    var h3 := HydrateVideoDuration(h2);
    var h4 := HydrateSubscription(h3);
    var h5 := HydrateVisibility(h4);
    assert |h5| == |h4| == |h3| == |h2| == |h1| == |m|;
    var ys := HeadYields(req);
    assert |ys| == 11;
    forall i | 0 <= i < 11
      ensures Map(StepOf, ys)[i] == SourceSteps(req)[i]
    {
    }
  }

  /** `runAllScorers` sorts the scored list by final score and the selection sorts it again,
      while the generator sorts it only inside the selection; the stable sort is idempotent, so
      both select the same list from a list of the same length. */
  lemma ScoredSelection(c: seq<Candidate>, w: WeightConfig, topK: int)
    ensures Selection(ScoreChain(c, w).finalCandidates, topK) == Selection(LateScored(c, w), topK)
    ensures |ScoreChain(c, w).finalCandidates| == |LateScored(c, w)|
  {
    var o := LateScored(c, w);
    assert ScoreChain(c, w).finalCandidates == SortDesc(o, FinalScoreOf);
    SortDescSpec(o, FinalScoreOf);
    SortDescIdempotent(o, FinalScoreOf);
  }

  /** The generator's four scorer steps and its selector step are the eager run's: every scorer
      keeps the list's length, so each counts the filtered list. */
  lemma ScoringSteps(c: seq<Candidate>, w: WeightConfig, topK: int)
    ensures Map(StepOf, ScoringYields(c, w, topK))
         == Map(ScorerSteps(|c|), ScoreChain(c, w).results)
            + [Plain("selector_top_k", Selector, |ScoreChain(c, w).finalCandidates|, |Selection(ScoreChain(c, w).finalCandidates, topK)|)]
  {
    var weighted := RunWeightedScorer(c, w);
    var diversity := AuthorDiversityOutcome(weighted.updatedCandidates, w.authorDiversityDecay, w.authorDiversityFloor);
    DiversityScorerOrder(weighted.updatedCandidates, w.authorDiversityDecay, w.authorDiversityFloor);
    var oon := RunOONScorer(diversity.updatedCandidates, w.oonWeightFactor);
    assert ScoreChain(c, w).results == [RunPhoenixScorer(c), weighted.result, diversity.result, oon.result];
    ScoredSelection(c, w, topK);
    var s := Selection(oon.updatedCandidates, topK);
    var y0, y1 := Yield(ScorerStep(RunPhoenixScorer(c), |c|), c),
                  Yield(ScorerStep(weighted.result, |weighted.updatedCandidates|), weighted.updatedCandidates);
    var y2, y3 := Yield(ScorerStep(diversity.result, |diversity.updatedCandidates|), diversity.updatedCandidates),
                  Yield(ScorerStep(oon.result, |oon.updatedCandidates|), oon.updatedCandidates);
    var y4 := Yield(Plain("selector_top_k", Selector, |oon.updatedCandidates|, |s|), s);
    assert ScoringYields(c, w, topK) == [y0, y1, y2, y3, y4];
    MapFive(StepOf, y0, y1, y2, y3, y4);
    MapFour(ScorerSteps(|c|), RunPhoenixScorer(c), weighted.result, diversity.result, oon.result);
  }

  /** The generator's steps from the pre-scoring filters on, for the pre-scoring outcome `pre`,
      the selection `selected` and the post-selection outcome `post`. */
  lemma TailSteps(req: Request, h: seq<Candidate>, pre: ChainResult, selected: seq<Candidate>, post: ChainResult)
    requires pre == FilterChain(req.plan.preScoring, Enabled(req), h, req.ctx, req.env)
    requires selected == Selection(ScoreChain(pre.finalCandidates, req.config.weights).finalCandidates, req.config.topK)
    requires post == FilterChain(req.plan.postSelection, Enabled(req), selected, req.ctx, req.env)
    ensures Map(StepOf, TailYields(req, h))
         == ((Map(FilterStep, pre.results)
              + (Map(ScorerSteps(|pre.finalCandidates|), ScoreChain(pre.finalCandidates, req.config.weights).results)
                 + [Plain("selector_top_k", Selector, |ScoreChain(pre.finalCandidates, req.config.weights).finalCandidates|, |selected|)]))
             + Map(FilterStep, post.results))
            + [Plain("final_ranking", Ranker, |selected|, |SortByFinalScore(post.finalCandidates)|)]
  {
    var w, topK := req.config.weights, req.config.topK;
    ScoredSelection(pre.finalCandidates, w, topK);
    ScoringSteps(pre.finalCandidates, w, topK);
    FilterStepsOf(pre.results);
    FilterStepsOf(post.results);
    var a, b := Map(FilterYield, pre.results), ScoringYields(pre.finalCandidates, w, topK);
    var d, e := Map(FilterYield, post.results), [FinalYield(post.finalCandidates, selected)];
    assert TailYields(req, h) == a + b + d + e;
    MapAppend(StepOf, a + b + d, e);
    MapAppend(StepOf, a + b, d);
    MapAppend(StepOf, a, b);
    MapOne(StepOf, FinalYield(post.finalCandidates, selected));
  }

  /** The last thing the generator yields is the final ranking of the post-selection list. */
  lemma TailLast(req: Request, h: seq<Candidate>, pre: ChainResult, selected: seq<Candidate>, post: ChainResult)
    requires pre == FilterChain(req.plan.preScoring, Enabled(req), h, req.ctx, req.env)
    requires selected == Selection(ScoreChain(pre.finalCandidates, req.config.weights).finalCandidates, req.config.topK)
    requires post == FilterChain(req.plan.postSelection, Enabled(req), selected, req.ctx, req.env)
    ensures |TailYields(req, h)| > 0
    ensures TailYields(req, h)[|TailYields(req, h)| - 1].candidates == SortByFinalScore(post.finalCandidates)
  {
    ScoredSelection(pre.finalCandidates, req.config.weights, req.config.topK);
  }

  /** What `runPipeline` returns, for the same intermediate outcomes. */
  lemma OutcomeShape(req: Request, pre: ChainResult, selected: seq<Candidate>, post: ChainResult)
    requires pre == FilterChain(req.plan.preScoring, Enabled(req), Hydrated(Merged(req), req.ctx), req.ctx, req.env)
    requires selected == Selection(ScoreChain(pre.finalCandidates, req.config.weights).finalCandidates, req.config.topK)
    requires post == FilterChain(req.plan.postSelection, Enabled(req), selected, req.ctx, req.env)
    ensures PipelineOutcome(req).steps
         == SourceSteps(req)
            + Map(FilterStep, pre.results)
            + Map(ScorerSteps(|pre.finalCandidates|), ScoreChain(pre.finalCandidates, req.config.weights).results)
            + [Plain("selector_top_k", Selector, |ScoreChain(pre.finalCandidates, req.config.weights).finalCandidates|, |selected|)]
            + Map(FilterStep, post.results)
            + [Plain("final_ranking", Ranker, |selected|, |SortByFinalScore(post.finalCandidates)|)]
    ensures PipelineOutcome(req).finalCandidates == SortByFinalScore(post.finalCandidates)
  {
  }

  /** Every step the generator yields, in order, is the step `runPipeline` records, for the same
      clock and the same random draws. */
  lemma StepsMatch(req: Request)
    ensures Map(StepOf, Trace(req, Start(req))) == PipelineOutcome(req).steps
  {
    var h := Hydrated(Merged(req), req.ctx);
    var pre := FilterChain(req.plan.preScoring, Enabled(req), h, req.ctx, req.env);
    var selected := Selection(ScoreChain(pre.finalCandidates, req.config.weights).finalCandidates, req.config.topK);
    var post := FilterChain(req.plan.postSelection, Enabled(req), selected, req.ctx, req.env);
    GeneratorTrace(req);
    HeadSteps(req);
    TailSteps(req, h, pre, selected, post);
    OutcomeShape(req, pre, selected, post);
    MapAppend(StepOf, HeadYields(req), TailYields(req, h));
    var scored := ScoreChain(pre.finalCandidates, req.config.weights);
    Regroup(SourceSteps(req), Map(FilterStep, pre.results), Map(ScorerSteps(|pre.finalCandidates|), scored.results),
            [Plain("selector_top_k", Selector, |scored.finalCandidates|, |selected|)], Map(FilterStep, post.results),
            [Plain("final_ranking", Ranker, |selected|, |SortByFinalScore(post.finalCandidates)|)]);
  }

  /** The generator's last yield carries the timeline `runPipeline` returns. */
  lemma LastYieldMatch(req: Request)
    ensures |Trace(req, Start(req))| > 0
    ensures Trace(req, Start(req))[|Trace(req, Start(req))| - 1].candidates == PipelineOutcome(req).finalCandidates
  {
    var h := Hydrated(Merged(req), req.ctx);
    var pre := FilterChain(req.plan.preScoring, Enabled(req), h, req.ctx, req.env);
    var selected := Selection(ScoreChain(pre.finalCandidates, req.config.weights).finalCandidates, req.config.topK);
    var post := FilterChain(req.plan.postSelection, Enabled(req), selected, req.ctx, req.env);
    GeneratorTrace(req);
    TailLast(req, h, pre, selected, post);
    OutcomeShape(req, pre, selected, post);
  }

  /** `produced` agrees with `runPipeline` on `req`: the same steps in the same order, and the
      final timeline as the last yield's candidates. */
  ghost predicate AgreesWithEager(req: Request, produced: seq<Yield>)
  {
    && Map(StepOf, produced) == PipelineOutcome(req).steps
    && |produced| > 0
    && produced[|produced| - 1].candidates == PipelineOutcome(req).finalCandidates
  }

  /** Whatever lists exactly the generator's yields agrees with `runPipeline` run on the same
      request, clock and random draws included. */
  lemma DrainedAgrees(req: Request, produced: seq<Yield>)
    requires produced == Trace(req, Start(req))
    ensures AgreesWithEager(req, produced)
  {
    StepsMatch(req);
    LastYieldMatch(req);
  }

  /** One turn of the drain loop: moving the yielded element from the trace still to come to
      the list collected so far keeps their concatenation, and shortens what is to come. */
  lemma DrainStep(produced: seq<Yield>, before: seq<Yield>, y: Yield, after: seq<Yield>, total: seq<Yield>)
    requires produced + before == total && before == [y] + after
    ensures (produced + [y]) + after == total && |after| < |before|
  {
  }

  /** Draining a fresh generator: call `Step` until the run is done, collecting what it yields;
      the result agrees with `runPipeline` under the same `Env` (clock and random draws). */
  method DrainPipeline(raw: seq<Candidate>, ctx: FilterContext, config: PipelineConfig, plan: FilterPlan, env: Env)
    returns (produced: seq<Yield>)
    ensures produced == Trace(Request(raw, ctx, config, plan, env), Start(Request(raw, ctx, config, plan, env)))
    ensures AgreesWithEager(Request(raw, ctx, config, plan, env), produced)
  {
    var run := new PipelineRun(raw, ctx, config, plan, env);
    ghost var req := Request(raw, ctx, config, plan, env);
    assert run.request == req;
    produced := [];
    while run.stage != Done
      invariant produced + Trace(req, run.State()) == Trace(req, Start(req))
      decreases |Trace(req, run.State())|
    {
      ghost var before := Trace(req, run.State());
      var y := run.Step();
      DrainStep(produced, before, y.value, Trace(req, run.State()), Trace(req, Start(req)));
      produced := produced + [y.value];
    }
    assert produced == Trace(req, Start(req));
    DrainedAgrees(req, produced);
  }
}

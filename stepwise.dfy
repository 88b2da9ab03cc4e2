/** `runPipelineStepByStep`: the pipeline as a generator. Each resumption runs the next stage and
    yields its step together with the candidates that stage produced. The generator is a
    `PipelineRun` object whose `Step` method plays one resumption; `Trace` is the list of yields
    still to come from a given state. */
module Stepwise {
  import opened Wrappers
  import opened Types
  import opened Seqs
  import opened StableSort
  import opened Filters
  import opened Scorers
  import opened Stages
  import opened Pipeline

  /** Where the generator is suspended: the stage whose step it yields next. */
  datatype Stage =
    | CandidatePool | ActionSeqQuery | FeaturesQuery
    | ThunderSourcing | PhoenixSourcing | SourceMerge
    | InNetworkHydration | CoreDataHydration | VideoDurationHydration | SubscriptionHydration | VisibilityHydration
    | PreScoringFilters(rest: seq<string>)
    | PhoenixScoring | WeightedScoring | DiversityScoring | OonScoring
    | TopKSelection
    | PostSelectionFilters(rest: seq<string>)
    | FinalRanking
    | Done

  datatype Yield = Yield(step: PipelineStep, candidates: seq<Candidate>)

  /** The generator's locals: the current list, the two source lists kept for the merge and the
      selection kept for the final step's input count. */
  datatype RunState = RunState(stage: Stage, current: seq<Candidate>, thunder: seq<Candidate>,
                               phoenix: seq<Candidate>, selected: seq<Candidate>)

  datatype Transition = Transition(out: Option<Yield>, next: RunState)

  /** Position of a stage from the end of the run. */
  function Phase(s: Stage): nat
  {
    match s
    case CandidatePool => 19
    case ActionSeqQuery => 18
    case FeaturesQuery => 17
    case ThunderSourcing => 16
    case PhoenixSourcing => 15
    case SourceMerge => 14
    case InNetworkHydration => 13
    case CoreDataHydration => 12
    case VideoDurationHydration => 11
    case SubscriptionHydration => 10
    case VisibilityHydration => 9
    case PreScoringFilters(_) => 8
    case PhoenixScoring => 7
    case WeightedScoring => 6
    case DiversityScoring => 5
    case OonScoring => 4
    case TopKSelection => 3
    case PostSelectionFilters(_) => 2
    case FinalRanking => 1
    case Done => 0
  }

  /** Filter ids still to visit in a filter stage. */
  function Pending(s: Stage): nat
  {
    if s.PreScoringFilters? || s.PostSelectionFilters? then |s.rest| else 0
  }

  function FilterStage(post: bool, rest: seq<string>): Stage
  {
    if post then PostSelectionFilters(rest) else PreScoringFilters(rest)
  }

  function AfterFilters(post: bool): Stage
  {
    if post then FinalRanking else PhoenixScoring
  }

  function FilterYield(r: FilterResult): Yield
  {
    Yield(FilterStep(r), r.passedCandidates)
  }

  /** The stage after `s`. The run only moves forward: every live stage is followed by a later
      stage, or by the same filter stage with fewer ids left. */
  function NextStage(req: Request, s: Stage): (n: Stage)
    ensures s != Done ==> Phase(n) < Phase(s) || (Phase(n) == Phase(s) && Pending(n) < Pending(s))
  {
    match s
    case CandidatePool => ActionSeqQuery
    case ActionSeqQuery => FeaturesQuery
    case FeaturesQuery => ThunderSourcing
    case ThunderSourcing => PhoenixSourcing
    case PhoenixSourcing => SourceMerge
    case SourceMerge => InNetworkHydration
    case InNetworkHydration => CoreDataHydration
    case CoreDataHydration => VideoDurationHydration
    case VideoDurationHydration => SubscriptionHydration
    case SubscriptionHydration => VisibilityHydration
    case VisibilityHydration => PreScoringFilters(req.plan.preScoring)
    case PreScoringFilters(rest) => if rest == [] then PhoenixScoring else PreScoringFilters(rest[1..])
    case PhoenixScoring => WeightedScoring
    case WeightedScoring => DiversityScoring
    case DiversityScoring => OonScoring
    case OonScoring => TopKSelection
    case TopKSelection => PostSelectionFilters(req.plan.postSelection)
    case PostSelectionFilters(rest) => if rest == [] then FinalRanking else PostSelectionFilters(rest[1..])
    case FinalRanking => Done
    case Done => Done
  }

  /** A filter stage with ids left: an id that is not enabled is passed over without a yield, an
      enabled one runs its filter on the current list and yields the result with the passed list. */
  function FilterOutput(req: Request, c: seq<Candidate>, rest: seq<string>): Option<Yield>
  {
    if rest == [] || !Selected(Enabled(req), rest[0]) then None
    else Some(FilterYield(FilterOutcome(rest[0], c, req.ctx, req.env)))
  }

  predicate IsFilterStage(s: Stage)
  {
    s.PreScoringFilters? || s.PostSelectionFilters?
  }

  /** What the generator yields from `st`, from the code between two of its `yield`s: nothing
      once it has finished, possibly nothing from a filter stage, and one step from any other. */
  function Output(req: Request, st: RunState): Option<Yield>
  {
    if st.stage == Done then None
    else if IsFilterStage(st.stage) then FilterOutput(req, st.current, st.stage.rest)
    else Some(StageYield(req, st))
  }

  /** The step a stage other than a filter stage yields. */
  function StageYield(req: Request, st: RunState): Yield
    requires st.stage != Done && !IsFilterStage(st.stage)
  {
    var c := st.current;
    var w := req.config.weights;
    match st.stage
    case CandidatePool => Yield(Plain("candidate_pool", Source, |c|, |c|), c)
    case ActionSeqQuery => Yield(Plain("query_hydrator_user_action_seq", QueryHydrator, |c|, |c|), c)
    case FeaturesQuery => Yield(Plain("query_hydrator_user_features", QueryHydrator, |c|, |c|), c)
    case ThunderSourcing =>
      var t := SourceThunder(c, req.ctx);
      Yield(Plain("source_thunder", Source, |c|, |t|), t)
    case PhoenixSourcing =>
      var p := SourcePhoenix(c, req.ctx);
      Yield(Plain("source_phoenix", Source, |c|, |p|), p)
    case SourceMerge =>
      var m := Dedupe(st.thunder + st.phoenix);
      Yield(Plain("source_merge", Source, |st.thunder| + |st.phoenix|, |m|), m)
    case InNetworkHydration =>
      var h := HydrateInNetwork(c, req.ctx);
      Yield(Plain("hydrator_in_network", Hydrator, |h|, |h|), h)
    case CoreDataHydration =>
      var h := HydrateCoreData(c);
      Yield(Plain("hydrator_core_data", Hydrator, |h|, |h|), h)
    case VideoDurationHydration =>
      var h := HydrateVideoDuration(c);
      Yield(Plain("hydrator_video_duration", Hydrator, |h|, |h|), h)
    case SubscriptionHydration =>
      var h := HydrateSubscription(c);
      Yield(Plain("hydrator_subscription", Hydrator, |h|, |h|), h)
    case VisibilityHydration =>
      var h := HydrateVisibility(c);
      Yield(Plain("hydrator_vf", Hydrator, |h|, |h|), h)
    case PhoenixScoring => Yield(ScorerStep(RunPhoenixScorer(c), |c|), c)
    case WeightedScoring =>
      var o := RunWeightedScorer(c, w);
      Yield(ScorerStep(o.result, |o.updatedCandidates|), o.updatedCandidates)
    case DiversityScoring =>
      var o := AuthorDiversityOutcome(c, w.authorDiversityDecay, w.authorDiversityFloor);
      Yield(ScorerStep(o.result, |o.updatedCandidates|), o.updatedCandidates)
    case OonScoring =>
      var o := RunOONScorer(c, w.oonWeightFactor);
      Yield(ScorerStep(o.result, |o.updatedCandidates|), o.updatedCandidates)
    case TopKSelection =>
      var sel := Selection(c, req.config.topK);
      Yield(Plain("selector_top_k", Selector, |c|, |sel|), sel)
    case FinalRanking =>
      var f := SortByFinalScore(c);
      Yield(Plain("final_ranking", Ranker, |st.selected|, |f|), f)
  }

  /** One resumption: the stage advances, and what is yielded becomes the current list, except
      that the two sources' lists are kept aside for the merge and the selection is also kept for
      the final step's input count. */
  function Next(req: Request, st: RunState): Transition
  {
    var out := Output(req, st);
    var s := st.stage;
    var yielded := if out.Some? then out.value.candidates else st.current;
    Transition(out, RunState(NextStage(req, s),
                             if s.ThunderSourcing? || s.PhoenixSourcing? then st.current else yielded,
                             if s.ThunderSourcing? then yielded else st.thunder,
                             if s.PhoenixSourcing? then yielded else st.phoenix,
                             if s.TopKSelection? then yielded else st.selected))
  }

  function Emitted(out: Option<Yield>): seq<Yield>
  {
    if out.Some? then [out.value] else []
  }

  /** Every yield still to come from `st`, in order. */
  function Trace(req: Request, st: RunState): seq<Yield>
    decreases Phase(st.stage), Pending(st.stage)
  {
    if st.stage == Done then []
    else
      var t := Next(req, st);
      Emitted(t.out) + Trace(req, t.next)
  }

  lemma TraceUnfold(req: Request, st: RunState)
    requires st.stage != Done
    ensures Trace(req, st) == Emitted(Output(req, st)) + Trace(req, Next(req, st).next)
  {
  }

  /** Passing over a silent stage changes nothing still to come. */
  lemma SilentStep(req: Request, st: RunState)
    requires Silent(req, st.stage)
    ensures Trace(req, st) == Trace(req, st.(stage := NextStage(req, st.stage)))
  {
    assert Output(req, st) == None;
    assert Next(req, st).next == st.(stage := NextStage(req, st.stage));
  }

  /** The first stage from `st` on that yields, or the end of the run. */
  function Skip(req: Request, st: RunState): (r: RunState)
    ensures !Silent(req, r.stage)
    decreases Phase(st.stage), Pending(st.stage)
  {
    if Silent(req, st.stage) then Skip(req, st.(stage := NextStage(req, st.stage))) else st
  }

  /** Passing over silent stages changes nothing still to come. */
  lemma {:induction false} SkipKeepsTrace(req: Request, st: RunState)
    ensures Trace(req, Skip(req, st)) == Trace(req, st)
    ensures Skip(req, st).stage == Done <==> st.stage == Done
    decreases Phase(st.stage), Pending(st.stage)
  {
    if Silent(req, st.stage) {
      SilentStep(req, st);
      SkipKeepsTrace(req, st.(stage := NextStage(req, st.stage)));
    }
  }

  /** One resumption, as the step method performs it: pass over the silent stages, then yield
      from the first stage that yields. */
  lemma ResumeTrace(req: Request, start: RunState, mid: RunState, y: Option<Yield>, end: RunState)
    requires mid == Skip(req, start)
    requires y == Output(req, mid) && end == Next(req, mid).next
    ensures Trace(req, start) == Emitted(y) + Trace(req, end)
  {
    SkipKeepsTrace(req, start);
    if mid.stage != Done {
      TraceUnfold(req, mid);
    }
  }

  /** Only a finished generator yields nothing, and it stays finished. */
  lemma ResumeProgress(req: Request, start: RunState, mid: RunState, y: Option<Yield>, end: RunState)
    requires mid == Skip(req, start)
    requires y == Output(req, mid) && end == Next(req, mid).next
    ensures start.stage != Done <==> y.Some?
    ensures start.stage == Done ==> end.stage == Done
  {
    SkipKeepsTrace(req, start);
  }

  /** A stage other than a filter stage, a source or the selection yields its step, and what it
      yields becomes the current list. */
  lemma Advance(req: Request, st: RunState, y: Yield)
    requires st.stage != Done && !IsFilterStage(st.stage)
    requires !st.stage.ThunderSourcing? && !st.stage.PhoenixSourcing? && !st.stage.TopKSelection?
    requires y == StageYield(req, st)
    ensures Output(req, st) == Some(y)
    ensures Next(req, st).next == st.(stage := NextStage(req, st.stage), current := y.candidates)
  {
  }

  /** The author-diversity stage yields its scorer step with the re-ranked list, which becomes
      the current list. */
  lemma DiversityAdvance(req: Request, st: RunState, o: ScorerOutput)
    requires st.stage.DiversityScoring?
    requires o == AuthorDiversityOutcome(st.current, req.config.weights.authorDiversityDecay, req.config.weights.authorDiversityFloor)
    ensures Output(req, st) == Some(Yield(ScorerStep(o.result, |o.updatedCandidates|), o.updatedCandidates))
    ensures Next(req, st).next == st.(stage := OonScoring, current := o.updatedCandidates)
  {
    assert Output(req, st) == Some(StageYield(req, st));
    assert StageYield(req, st) == Yield(ScorerStep(o.result, |o.updatedCandidates|), o.updatedCandidates);
  }

  /** An enabled filter yields its result with the passed list, which becomes the current list. */
  lemma FilterAdvance(req: Request, st: RunState, r: FilterResult)
    requires IsFilterStage(st.stage) && !Silent(req, st.stage)
    requires r == FilterOutcome(st.stage.rest[0], st.current, req.ctx, req.env)
    ensures Output(req, st) == Some(FilterYield(r))
    ensures Next(req, st).next == st.(stage := NextStage(req, st.stage), current := r.passedCandidates)
  {
  }

  /** The generator before its first resumption. */
  function Start(req: Request): RunState
  {
    RunState(CandidatePool, req.raw, [], [], [])
  }

  /** A stage that produces nothing on its own: an exhausted filter list, or a filter id that is
      not enabled. */
  predicate Silent(req: Request, s: Stage)
  {
    IsFilterStage(s) && (s.rest == [] || !Selected(Enabled(req), s.rest[0]))
  }

  class PipelineRun {
    const request: Request
    var stage: Stage
    var current: seq<Candidate>
    var thunder: seq<Candidate>
    var phoenix: seq<Candidate>
    var selected: seq<Candidate>

    function State(): RunState
      reads this
    {
      RunState(stage, current, thunder, phoenix, selected)
    }

    /** Calling `runPipelineStepByStep`: nothing runs until the first resumption. */
    constructor (raw: seq<Candidate>, ctx: FilterContext, config: PipelineConfig, plan: FilterPlan, env: Env)
      ensures request == Request(raw, ctx, config, plan, env)
      ensures State() == Start(request)
    {
      request := Request(raw, ctx, config, plan, env);
      stage := CandidatePool;
      current := raw;
      thunder := [];
      phoenix := [];
      selected := [];
    }

    /** One resumption: runs up to the next `yield` and returns what it yields, or nothing once
        the generator has finished. What it yields is the head of the remaining trace. */
    method Step() returns (y: Option<Yield>)
      modifies this
      ensures Trace(request, old(State())) == Emitted(y) + Trace(request, State())
      ensures old(stage) != Done <==> y.Some?
      ensures old(stage) == Done ==> stage == Done
    {
      // Filter ids that are not enabled, and the end of a filter list, yield nothing.
      ghost var start := State();
      while Silent(request, stage)
        invariant Skip(request, State()) == Skip(request, start)
        invariant State() == start.(stage := stage)
        decreases Phase(stage), Pending(stage)
      {
        var rest := stage.rest;
        if stage.PreScoringFilters? {
          stage := if rest == [] then PhoenixScoring else PreScoringFilters(rest[1..]);
        } else {
          stage := if rest == [] then FinalRanking else PostSelectionFilters(rest[1..]);
        }
      }
      ghost var mid := State();
      y := Resume();
      ResumeTrace(request, start, mid, y, State());
      ResumeProgress(request, start, mid, y, State());
    }

    /** The body of one resumption from a stage that yields. */
    method Resume() returns (y: Option<Yield>)
      requires !Silent(request, stage)
      modifies this
      ensures y == Output(request, old(State())) && State() == Next(request, old(State())).next
    {
      match stage {
        case CandidatePool => y := ResumeQueries();
        case ActionSeqQuery => y := ResumeQueries();
        case FeaturesQuery => y := ResumeQueries();
        case ThunderSourcing => y := ResumeSources();
        case PhoenixSourcing => y := ResumeSources();
        case SourceMerge => y := ResumeMerge();
        case InNetworkHydration => y := ResumeEarlyHydration();
        case CoreDataHydration => y := ResumeEarlyHydration();
        case VideoDurationHydration => y := ResumeEarlyHydration();
        case SubscriptionHydration => y := ResumeLateHydration();
        case VisibilityHydration => y := ResumeLateHydration();
        case PreScoringFilters(_) => y := ResumeFilter();
        case PhoenixScoring => y := ResumeEarlyScoring();
        case WeightedScoring => y := ResumeEarlyScoring();
        case DiversityScoring => y := ResumeDiversity();
        case OonScoring => y := ResumeOon();
        case TopKSelection => y := ResumeSelection();
        case PostSelectionFilters(_) => y := ResumeFilter();
        case FinalRanking => y := ResumeFinal();
        case Done => y := None;
      }
    }

    /** Resumption from the candidate pool and the two query hydrators. */
    method ResumeQueries() returns (y: Option<Yield>)
      requires stage.CandidatePool? || stage.ActionSeqQuery? || stage.FeaturesQuery?
      modifies this
      ensures y == Output(request, old(State())) && State() == Next(request, old(State())).next
    {
      match stage {
        case CandidatePool =>
          y := Some(Yield(Plain("candidate_pool", Source, |current|, |current|), current));
          stage := ActionSeqQuery;
        case ActionSeqQuery =>
          y := Some(Yield(Plain("query_hydrator_user_action_seq", QueryHydrator, |current|, |current|), current));
          stage := FeaturesQuery;
        case FeaturesQuery =>
          y := Some(Yield(Plain("query_hydrator_user_features", QueryHydrator, |current|, |current|), current));
          stage := ThunderSourcing;
      }
    }

    /** Resumption from the two sources. */
    method ResumeSources() returns (y: Option<Yield>)
      requires stage.ThunderSourcing? || stage.PhoenixSourcing?
      modifies this
      ensures y == Output(request, old(State())) && State() == Next(request, old(State())).next
    {
      var ctx := request.ctx;
      match stage {
        case ThunderSourcing =>
          thunder := SourceThunder(current, ctx);
          y := Some(Yield(Plain("source_thunder", Source, |current|, |thunder|), thunder));
          stage := PhoenixSourcing;
        case PhoenixSourcing =>
          phoenix := SourcePhoenix(current, ctx);
          y := Some(Yield(Plain("source_phoenix", Source, |current|, |phoenix|), phoenix));
          stage := SourceMerge;
      }
    }

    /** Resumption from the merge. */
    method ResumeMerge() returns (y: Option<Yield>)
      requires stage.SourceMerge?
      modifies this
      ensures y == Output(request, old(State())) && State() == Next(request, old(State())).next
    {
      ghost var st := State();
      current := DedupeById(thunder + phoenix);
      y := Some(Yield(Plain("source_merge", Source, |thunder| + |phoenix|, |current|), current));
      assert y.value == StageYield(request, st);
      Advance(request, st, y.value);
      stage := InNetworkHydration;
    }

    /** Resumption from the in-network, core-data and video-duration hydrators. */
    method ResumeEarlyHydration() returns (y: Option<Yield>)
      requires stage.InNetworkHydration? || stage.CoreDataHydration? || stage.VideoDurationHydration?
      modifies this
      ensures y == Output(request, old(State())) && State() == Next(request, old(State())).next
    {
      var ctx := request.ctx;
      ghost var st := State();
      match stage {
        case InNetworkHydration =>
          current := HydrateInNetwork(current, ctx);
          y := Some(Yield(Plain("hydrator_in_network", Hydrator, |current|, |current|), current));
          stage := CoreDataHydration;
        case CoreDataHydration =>
          current := HydrateCoreData(current);
          y := Some(Yield(Plain("hydrator_core_data", Hydrator, |current|, |current|), current));
          stage := VideoDurationHydration;
        case VideoDurationHydration =>
          current := HydrateVideoDuration(current);
          y := Some(Yield(Plain("hydrator_video_duration", Hydrator, |current|, |current|), current));
          stage := SubscriptionHydration;
      }
      assert y.value == StageYield(request, st);
      Advance(request, st, y.value);
    }

    /** Resumption from the subscription and visibility hydrators. */
    method ResumeLateHydration() returns (y: Option<Yield>)
      requires stage.SubscriptionHydration? || stage.VisibilityHydration?
      modifies this
      ensures y == Output(request, old(State())) && State() == Next(request, old(State())).next
    {
      ghost var st := State();
      match stage {
        case SubscriptionHydration =>
          current := HydrateSubscription(current);
          y := Some(Yield(Plain("hydrator_subscription", Hydrator, |current|, |current|), current));
          stage := VisibilityHydration;
        case VisibilityHydration =>
          current := HydrateVisibility(current);
          y := Some(Yield(Plain("hydrator_vf", Hydrator, |current|, |current|), current));
          stage := PreScoringFilters(request.plan.preScoring);
      }
      assert y.value == StageYield(request, st);
      Advance(request, st, y.value);
    }

    /** Resumption from an enabled filter of either chain. */
    method ResumeFilter() returns (y: Option<Yield>)
      requires stage.PreScoringFilters? || stage.PostSelectionFilters?
      requires !Silent(request, stage)
      modifies this
      ensures y == Output(request, old(State())) && State() == Next(request, old(State())).next
    {
      var ctx, env := request.ctx, request.env;
      ghost var st := State();
      match stage {
        case PreScoringFilters(rest) =>
          var result := RunFilter(rest[0], current, ctx, env);
          FilterAdvance(request, st, result);
          current := result.passedCandidates;
          y := Some(Yield(FilterStep(result), current));
          stage := PreScoringFilters(rest[1..]);
        case PostSelectionFilters(rest) =>
          var result := RunFilter(rest[0], current, ctx, env);
          FilterAdvance(request, st, result);
          current := result.passedCandidates;
          y := Some(Yield(FilterStep(result), current));
          stage := PostSelectionFilters(rest[1..]);
      }
    }

    /** Resumption from the Phoenix and the weighted scorers. */
    method ResumeEarlyScoring() returns (y: Option<Yield>)
      requires stage.PhoenixScoring? || stage.WeightedScoring?
      modifies this
      ensures y == Output(request, old(State())) && State() == Next(request, old(State())).next
    {
      var config := request.config;
      ghost var st := State();
      match stage {
        case PhoenixScoring =>
          var phoenixResult := RunPhoenixScorer(current);
          y := Some(Yield(ScorerStep(phoenixResult, |current|), current));
          stage := WeightedScoring;
        case WeightedScoring =>
          var weighted := RunWeightedScorer(current, config.weights);
          current := weighted.updatedCandidates;
          y := Some(Yield(ScorerStep(weighted.result, |current|), current));
          stage := DiversityScoring;
      }
      assert y.value == StageYield(request, st);
      Advance(request, st, y.value);
    }

    /** Resumption from the author-diversity scorer. */
    method ResumeDiversity() returns (y: Option<Yield>)
      requires stage.DiversityScoring?
      modifies this
      ensures y == Output(request, old(State())) && State() == Next(request, old(State())).next
    {
      var config := request.config;
      ghost var st := State();
      var diversity := RunAuthorDiversityScorer(current, config.weights.authorDiversityDecay, config.weights.authorDiversityFloor);
      current := diversity.updatedCandidates;
      y := Some(Yield(ScorerStep(diversity.result, |current|), current));
      DiversityAdvance(request, st, diversity);
      stage := OonScoring;
    }

    /** Resumption from the out-of-network scorer. */
    method ResumeOon() returns (y: Option<Yield>)
      requires stage.OonScoring?
      modifies this
      ensures y == Output(request, old(State())) && State() == Next(request, old(State())).next
    {
      var config := request.config;
      ghost var st := State();
      var oon := RunOONScorer(current, config.weights.oonWeightFactor);
      current := oon.updatedCandidates;
      y := Some(Yield(ScorerStep(oon.result, |current|), current));
      assert y.value == StageYield(request, st);
      Advance(request, st, y.value);
      stage := TopKSelection;
    }

    /** Resumption from the top-K selection. */
    method ResumeSelection() returns (y: Option<Yield>)
      requires stage.TopKSelection?
      modifies this
      ensures y == Output(request, old(State())) && State() == Next(request, old(State())).next
    {
      var config := request.config;
      selected := Selection(current, config.topK);
      y := Some(Yield(Plain("selector_top_k", Selector, |current|, |selected|), selected));
      current := selected;
      stage := PostSelectionFilters(request.plan.postSelection);
    }

    /** Resumption from the final ranking. */
    method ResumeFinal() returns (y: Option<Yield>)
      requires stage.FinalRanking?
      modifies this
      ensures y == Output(request, old(State())) && State() == Next(request, old(State())).next
    {
      ghost var st := State();
      current := SortByFinalScore(current);
      y := Some(Yield(Plain("final_ranking", Ranker, |selected|, |current|), current));
      assert y.value == StageYield(request, st);
      Advance(request, st, y.value);
      stage := Done;
    }
  }
}

/** The filter stage: a catalog of twelve filters, the predicate behind each,
    `runFilter` (one filter over a list) and `runAllFilters` (a chain of them). */
module Filters {
  import opened Wrappers
  import opened Types
  import opened Seqs
  import opened Text
  import Snowflake

  /** What the filters read besides the candidates: the clock (`Date.now()`) and the
      `Math.random()` draw the conversation-depth filter makes, given per tweet id. Keyed by id,
      the draw for a tweet is the same wherever the filter meets it, where the source draws afresh. */
  datatype Env = Env(now: int, depthDraw: TweetId -> real)

  datatype FilterKind =
    | DropDuplicates | Age | SelfTweet | BlockedAuthor | MutedAuthor | SeenTweets
    | Nsfw | LowQuality | ConversationDepth | RetweetOfSeen | AuthorDiversity | NegativeFeedback

  /** The `FILTERS` catalog, in the order `runAllFilters` visits it. */
  const Catalog: seq<FilterConfig> := [
    FilterConfig("drop_duplicates", "DropDuplicatesFilter", "Remove duplicate tweets from the same conversation", true),
    FilterConfig("age", "AgeFilter", "Filter tweets older than 7 days", true),
    FilterConfig("self_tweet", "SelfTweetFilter", "Remove user's own tweets from timeline", true),
    FilterConfig("blocked_author", "BlockedAuthorFilter", "Remove tweets from blocked users", true),
    FilterConfig("muted_author", "MutedAuthorFilter", "Remove tweets from muted users", true),
    FilterConfig("seen_tweets", "SeenTweetsFilter", "Remove tweets user has already seen", true),
    FilterConfig("nsfw", "NSFWFilter", "Filter sensitive/adult content based on user settings", true),
    FilterConfig("low_quality", "LowQualityFilter", "Filter low quality or spam-like content", true),
    FilterConfig("conversation_depth", "ConversationDepthFilter", "Filter deeply nested replies (depth > 3)", true),
    FilterConfig("retweet_of_seen", "RetweetOfSeenFilter", "Filter retweets of already seen content", true),
    FilterConfig("author_diversity", "AuthorDiversityPreFilter", "Limit tweets from same author in initial pool", true),
    FilterConfig("negative_feedback", "NegativeFeedbackFilter", "Filter content with high negative feedback signals", true)
  ]

  function CatalogIds(): (ids: seq<string>)
    ensures |ids| == |Catalog| && forall i :: 0 <= i < |Catalog| ==> ids[i] == Catalog[i].id
  {
    Map((f: FilterConfig) => f.id, Catalog)
  }

  /** `FILTERS.find(f => f.id === id)`. */
  function FindConfigIn(configs: seq<FilterConfig>, id: string): (r: Option<FilterConfig>)
    ensures r.Some? ==> r.value in configs && r.value.id == id
    ensures r.None? ==> forall f :: f in configs ==> f.id != id
  {
    if configs == [] then None
    else if configs[0].id == id then Some(configs[0])
    else FindConfigIn(configs[1..], id)
  }

  /** The catalog entry registered under `id`, looked up by id; `FindConfigIsFind` proves it is
      what the first-match search `FindConfigIn(Catalog, id)` returns. */
  function FindConfig(id: string): Option<FilterConfig>
  {
    match id
    case "drop_duplicates" => Some(Catalog[0])
    case "age" => Some(Catalog[1])
    case "self_tweet" => Some(Catalog[2])
    case "blocked_author" => Some(Catalog[3])
    case "muted_author" => Some(Catalog[4])
    case "seen_tweets" => Some(Catalog[5])
    case "nsfw" => Some(Catalog[6])
    case "low_quality" => Some(Catalog[7])
    case "conversation_depth" => Some(Catalog[8])
    case "retweet_of_seen" => Some(Catalog[9])
    case "author_diversity" => Some(Catalog[10])
    case "negative_feedback" => Some(Catalog[11])
    case _ => None
  }

  /** `filterFunctions[id]`: the predicate registered under an id. */
  function ImplementationOf(id: string): Option<FilterKind>
  {
    match id
    case "drop_duplicates" => Some(DropDuplicates)
    case "age" => Some(Age)
    case "self_tweet" => Some(SelfTweet)
    case "blocked_author" => Some(BlockedAuthor)
    case "muted_author" => Some(MutedAuthor)
    case "seen_tweets" => Some(SeenTweets)
    case "nsfw" => Some(Nsfw)
    case "low_quality" => Some(LowQuality)
    case "conversation_depth" => Some(ConversationDepth)
    case "retweet_of_seen" => Some(RetweetOfSeen)
    case "author_diversity" => Some(AuthorDiversity)
    case "negative_feedback" => Some(NegativeFeedback)
    case _ => None
  }

  // ---------------------------------------------------------------- the predicates

  /** A candidate `find` looks for: in conversation `conv` and not yet filtered. */
  predicate InConversation(c: Candidate, conv: string)
  {
    c.conversationId == Some(conv) && !c.filtered
  }

  /** `all.find(...)`: the first candidate of `all` in conversation `conv` that is not yet
      filtered, and none exactly when no candidate is. */
  function FirstInConversation(all: seq<Candidate>, conv: string): (r: Option<Candidate>)
    ensures r.Some? ==> exists k :: 0 <= k < |all| && all[k] == r.value && InConversation(all[k], conv) &&
                          forall j :: 0 <= j < k ==> !InConversation(all[j], conv)
    ensures r.None? <==> forall j :: 0 <= j < |all| ==> !InConversation(all[j], conv)
  {
    if all == [] then None
    else if InConversation(all[0], conv) then Some(all[0])
    else
      assert forall j :: 1 <= j < |all| ==> all[j] == all[1..][j - 1];
      FirstInConversation(all[1..], conv)
  }

  function SameAuthorUnfiltered(author: UserId): Candidate -> bool
  {
    (c: Candidate) => c.authorId == author && !c.filtered
  }

  function Identity(): Candidate -> Candidate
  {
    (c: Candidate) => c
  }

  /** `candidates.filter(c => c.authorId === author && !c.filtered)`. */
  function AuthorTweets(all: seq<Candidate>, author: UserId): seq<Candidate>
  {
    FilterMap(all, SameAuthorUnfiltered(author), Identity())
  }

  /** `findIndex(c => c.id === id)`: the first position holding `id`, or -1. */
  function IndexOfId(s: seq<Candidate>, id: TweetId): (r: int)
    ensures -1 <= r < |s|
    ensures r >= 0 ==> s[r].id == id && forall k :: 0 <= k < r ==> s[k].id != id
    ensures r == -1 <==> forall k :: 0 <= k < |s| ==> s[k].id != id
  {
    if s == [] then -1
    else if s[0].id == id then 0
    else
      var r := IndexOfId(s[1..], id);
      assert forall k :: 1 <= k < |s| ==> s[k] == s[1..][k - 1];
      if r == -1 then -1 else r + 1
  }

  const NsfwKeywords: seq<string> := ["nsfw", "explicit", "18+", "adult"]

  /** `low_quality`: too short, shouting, hashtag or mention spam, or a long run of one character. */
  predicate QualityOk(content: string)
  {
    var units := Utf16(content);
    if |units| < 5 then false
    else if content == ToUpperAscii(content) && |units| > 10 then false
    else if TagCount(content, '#') > 10 then false
    else if TagCount(content, '@') > 10 then false
    else if HasRepeatedRun(units) then false
    else true
  }

  function NegativeSignal(s: PhoenixScores): real
  {
    s.notInterested + s.blockAuthor * 2.0 + s.muteAuthor * 1.5 + s.report * 3.0
  }

  /** `filterFunctions[kind](c, context, all)`: true keeps the candidate. `all` is the whole
      list `runFilter` was given. */
  predicate Verdict(kind: FilterKind, c: Candidate, ctx: FilterContext, env: Env, all: seq<Candidate>)
  {
    match kind
    case DropDuplicates =>
      if !Truthy(c.conversationId) then true
      else
        var first := FirstInConversation(all, c.conversationId.value);
        first.None? || first.value.id == c.id
    case Age => Snowflake.AgeInDays(c.id, env.now) <= 7.0
    case SelfTweet => c.authorId != ctx.currentUserId
    case BlockedAuthor => c.authorId !in ctx.blockedUsers
    case MutedAuthor => c.authorId !in ctx.mutedUsers
    case SeenTweets => c.id !in ctx.seenTweetIds
    case Nsfw => !ContainsAny(ToLowerAscii(c.content), NsfwKeywords)
    case LowQuality => QualityOk(c.content)
    case ConversationDepth => env.depthDraw(c.id) > 0.05
    case RetweetOfSeen =>
      if !c.isRetweet || c.originalTweetId.None? then true
      else c.originalTweetId.value !in ctx.seenTweetIds
    case AuthorDiversity => IndexOfId(AuthorTweets(all, c.authorId), c.id) < 3
    case NegativeFeedback => NegativeSignal(c.phoenixScores) < 0.5
  }

  // ---------------------------------------------------------------- runFilter

  /** A candidate goes to the passed list when it is not already filtered and the predicate keeps it. */
  function Keeps(kind: FilterKind, ctx: FilterContext, env: Env, all: seq<Candidate>): Candidate -> bool
  {
    (c: Candidate) => !c.filtered && Verdict(kind, c, ctx, env, all)
  }

  function Drops(kind: FilterKind, ctx: FilterContext, env: Env, all: seq<Candidate>): Candidate -> bool
  {
    (c: Candidate) => !(!c.filtered && Verdict(kind, c, ctx, env, all))
  }

  /** An already filtered candidate is moved over unchanged; a newly rejected one is marked. */
  function Reject(filterId: string, reason: string, c: Candidate): Candidate
  {
    if c.filtered then c
    else c.(filtered := true, filteredBy := Some(filterId), filterReason := Some(reason))
  }

  function Rejector(filterId: string, reason: string): Candidate -> Candidate
  {
    (c: Candidate) => Reject(filterId, reason, c)
  }

  function PassedOf(kind: FilterKind, s: seq<Candidate>, ctx: FilterContext, env: Env, all: seq<Candidate>): seq<Candidate>
  {
    FilterMap(s, Keeps(kind, ctx, env, all), Identity())
  }

  function FilteredOf(kind: FilterKind, filterId: string, reason: string, s: seq<Candidate>,
                      ctx: FilterContext, env: Env, all: seq<Candidate>): seq<Candidate>
  {
    FilterMap(s, Drops(kind, ctx, env, all), Rejector(filterId, reason))
  }

  /** The filter id names a catalog entry that is enabled and has a predicate. */
  predicate Runs(filterId: string)
  {
    FindConfig(filterId).Some? && FindConfig(filterId).value.enabled && ImplementationOf(filterId).Some?
  }

  /** The result `runFilter(filterId, candidates, context)` returns. */
  function FilterOutcome(filterId: string, candidates: seq<Candidate>, ctx: FilterContext, env: Env): FilterResult
  {
    var n := |candidates|;
    var config := FindConfig(filterId);
    if config.None? then FilterResult(filterId, filterId, n, n, [], candidates)
    else if !config.value.enabled then
      FilterResult(filterId, if config.value.name != "" then config.value.name else filterId, n, n, [], candidates)
    else if ImplementationOf(filterId).None? then FilterResult(filterId, config.value.name, n, n, [], candidates)
    else
      var kind := ImplementationOf(filterId).value;
      var passed := PassedOf(kind, candidates, ctx, env, candidates);
      FilterResult(filterId, config.value.name, n, |passed|,
                   FilteredOf(kind, filterId, config.value.description, candidates, ctx, env, candidates),
                   passed)
  }

  /** `runFilter`: one pass over the candidates, pushing each into the passed or the filtered list. */
  method RunFilter(filterId: string, candidates: seq<Candidate>, ctx: FilterContext, env: Env)
    returns (result: FilterResult)
    ensures result == FilterOutcome(filterId, candidates, ctx, env)
  {
    var config := FindConfig(filterId);
    if config.None? || !config.value.enabled {
      var name := if config.Some? && config.value.name != "" then config.value.name else filterId;
      return FilterResult(filterId, name, |candidates|, |candidates|, [], candidates);
    }
    var implementation := ImplementationOf(filterId);
    if implementation.None? {
      return FilterResult(filterId, config.value.name, |candidates|, |candidates|, [], candidates);
    }
    var kind := implementation.value;
    var reason := config.value.description;

    var passedCandidates: seq<Candidate> := [];
    var filteredCandidates: seq<Candidate> := [];
    for i := 0 to |candidates|
      invariant passedCandidates == PassedOf(kind, candidates[..i], ctx, env, candidates)
      invariant filteredCandidates == FilteredOf(kind, filterId, reason, candidates[..i], ctx, env, candidates)
    {
      var candidate := candidates[i];
      assert candidates[..i + 1][..i] == candidates[..i];
      if candidate.filtered {
        filteredCandidates := filteredCandidates + [candidate];
        continue;
      }
      var passed := Verdict(kind, candidate, ctx, env, candidates);
      if passed {
        passedCandidates := passedCandidates + [candidate];
      } else {
        filteredCandidates := filteredCandidates + [candidate.(filtered := true, filteredBy := Some(filterId), filterReason := Some(reason))];
      }
    }
    assert candidates[..|candidates|] == candidates;
    result := FilterResult(filterId, config.value.name, |candidates|, |passedCandidates|,
                           filteredCandidates, passedCandidates);
  }

  // ---------------------------------------------------------------- runAllFilters

  /** The id is visited: no list of enabled ids was given, or the id is on it. */
  predicate Selected(enabledFilterIds: Option<seq<string>>, id: string)
  {
    enabledFilterIds.None? || id in enabledFilterIds.value
  }

  datatype ChainResult = ChainResult(results: seq<FilterResult>, finalCandidates: seq<Candidate>)

  /** The left fold of `runFilter` over the selected ids of `ids`, each stage fed the previous stage's passed list. */
  function FilterChain(ids: seq<string>, enabledFilterIds: Option<seq<string>>, candidates: seq<Candidate>,
                       ctx: FilterContext, env: Env): ChainResult
    decreases |ids|
  {
    if ids == [] then ChainResult([], candidates)
    else if !Selected(enabledFilterIds, ids[0]) then FilterChain(ids[1..], enabledFilterIds, candidates, ctx, env)
    else
      var r := FilterOutcome(ids[0], candidates, ctx, env);
      var rest := FilterChain(ids[1..], enabledFilterIds, r.passedCandidates, ctx, env);
      ChainResult([r] + rest.results, rest.finalCandidates)
  }

  /** The loop of `runAllFilters`, over an arbitrary list of filter ids. */
  method RunFilterChain(ids: seq<string>, candidates: seq<Candidate>, ctx: FilterContext, env: Env,
                        enabledFilterIds: Option<seq<string>>)
    returns (results: seq<FilterResult>, finalCandidates: seq<Candidate>)
    ensures ChainResult(results, finalCandidates) == FilterChain(ids, enabledFilterIds, candidates, ctx, env)
  {
    results := [];
    var currentCandidates := candidates;
    for i := 0 to |ids|
      invariant results + FilterChain(ids[i..], enabledFilterIds, currentCandidates, ctx, env).results
             == FilterChain(ids, enabledFilterIds, candidates, ctx, env).results
      invariant FilterChain(ids[i..], enabledFilterIds, currentCandidates, ctx, env).finalCandidates
             == FilterChain(ids, enabledFilterIds, candidates, ctx, env).finalCandidates
    {
      assert ids[i..][1..] == ids[i + 1..];
      if !Selected(enabledFilterIds, ids[i]) {
        continue;
      }
      var result := RunFilter(ids[i], currentCandidates, ctx, env);
      results := results + [result];
      currentCandidates := result.passedCandidates;
    }
    finalCandidates := currentCandidates;
  }

  /** `runAllFilters`: the chain over the whole catalog, in catalog order. */
  method RunAllFilters(candidates: seq<Candidate>, ctx: FilterContext, env: Env, enabledFilterIds: Option<seq<string>>)
    returns (results: seq<FilterResult>, finalCandidates: seq<Candidate>)
    ensures ChainResult(results, finalCandidates) == FilterChain(CatalogIds(), enabledFilterIds, candidates, ctx, env)
  {
    results, finalCandidates := RunFilterChain(CatalogIds(), candidates, ctx, env, enabledFilterIds);
  }
}

/** What `runFilter` and `runAllFilters` guarantee about their results. */
module FilterProps {
  import opened Wrappers
  import opened Types
  import opened Seqs
  import opened Filters
  import opened Text
  import Snowflake

  lemma MapIdentity(s: seq<Candidate>)
    ensures Map(Identity(), s) == s
  {
  }

  /** Every candidate lands in exactly one of the two lists. */
  lemma {:induction false} PartitionSizes(kind: FilterKind, filterId: string, reason: string, s: seq<Candidate>,
                                          ctx: FilterContext, env: Env, all: seq<Candidate>)
    ensures |PassedOf(kind, s, ctx, env, all)| + |FilteredOf(kind, filterId, reason, s, ctx, env, all)| == |s|
    decreases |s|
  {
    if s != [] {
      PartitionSizes(kind, filterId, reason, s[..|s| - 1], ctx, env, all);
    }
  }

  /** Membership in the passed list: exactly the not-yet-filtered inputs the predicate keeps. */
  lemma PassedMembers(kind: FilterKind, s: seq<Candidate>, ctx: FilterContext, env: Env, all: seq<Candidate>)
    ensures forall x :: x in PassedOf(kind, s, ctx, env, all) <==> x in s && !x.filtered && Verdict(kind, x, ctx, env, all)
    ensures IsSubsequence(PassedOf(kind, s, ctx, env, all), s)
  {
    FilterMapSpec(s, Keeps(kind, ctx, env, all), Identity());
    MapIdentity(s);
    forall x | x in s && !x.filtered && Verdict(kind, x, ctx, env, all)
      ensures x in PassedOf(kind, s, ctx, env, all)
    {
      var i :| 0 <= i < |s| && s[i] == x;
    }
  }

  /** Membership in the filtered list: inputs that were already filtered, unchanged, and inputs the
      predicate rejects, marked with the filter's id and description. */
  lemma FilteredMembers(kind: FilterKind, filterId: string, reason: string, s: seq<Candidate>,
                        ctx: FilterContext, env: Env, all: seq<Candidate>)
    ensures forall x :: x in FilteredOf(kind, filterId, reason, s, ctx, env, all) ==> x.filtered
    ensures forall x :: x in s && x.filtered ==> x in FilteredOf(kind, filterId, reason, s, ctx, env, all)
    ensures forall x :: x in s && !x.filtered && !Verdict(kind, x, ctx, env, all) ==>
              x.(filtered := true, filteredBy := Some(filterId), filterReason := Some(reason))
                in FilteredOf(kind, filterId, reason, s, ctx, env, all)
    ensures forall y :: y in FilteredOf(kind, filterId, reason, s, ctx, env, all) ==>
              (y in s && y.filtered) ||
              (y.filteredBy == Some(filterId) && y.filterReason == Some(reason) &&
               exists x :: x in s && !x.filtered && !Verdict(kind, x, ctx, env, all) &&
                           y == x.(filtered := true, filteredBy := Some(filterId), filterReason := Some(reason)))
  {
    var p, f := Drops(kind, ctx, env, all), Rejector(filterId, reason);
    FilterMapSpec(s, p, f);
    forall x | x in s && (x.filtered || !Verdict(kind, x, ctx, env, all))
      ensures Reject(filterId, reason, x) in FilteredOf(kind, filterId, reason, s, ctx, env, all)
    {
      var i :| 0 <= i < |s| && s[i] == x;
    }
    forall y | y in FilteredOf(kind, filterId, reason, s, ctx, env, all)
      ensures y.filtered
      ensures (y in s && y.filtered) ||
              (y.filteredBy == Some(filterId) && y.filterReason == Some(reason) &&
               exists x :: x in s && !x.filtered && !Verdict(kind, x, ctx, env, all) &&
                           y == x.(filtered := true, filteredBy := Some(filterId), filterReason := Some(reason)))
    {
      var i :| 0 <= i < |s| && p(s[i]) && y == f(s[i]);
      var x := s[i];
      assert x in s;
    }
  }

  /** `runFilter`'s bookkeeping and the shape of its result: counts always add up; a filter that
      does not run passes everything; a filter that runs keeps an order-preserving subsequence of
      not-yet-filtered inputs and sends everything else, marked, to the filtered list. */
  lemma RunFilterShape(filterId: string, s: seq<Candidate>, ctx: FilterContext, env: Env)
    ensures var r := FilterOutcome(filterId, s, ctx, env);
            r.filterId == filterId &&
            r.inputCount == |s| == |r.passedCandidates| + |r.filteredCandidates| &&
            r.outputCount == |r.passedCandidates| &&
            IsSubsequence(r.passedCandidates, s)
    ensures !Runs(filterId) ==>
              var r := FilterOutcome(filterId, s, ctx, env);
              r.passedCandidates == s && r.filteredCandidates == [] && r.inputCount == r.outputCount
    ensures Runs(filterId) ==>
              var r := FilterOutcome(filterId, s, ctx, env);
              var kind := ImplementationOf(filterId).value;
              var reason := FindConfig(filterId).value.description;
              (forall x :: x in r.passedCandidates <==> x in s && !x.filtered && Verdict(kind, x, ctx, env, s)) &&
              (forall x :: x in r.filteredCandidates ==> x.filtered) &&
              (forall x :: x in s && x.filtered ==> x in r.filteredCandidates) &&
              (forall x :: x in s && !x.filtered && !Verdict(kind, x, ctx, env, s) ==>
                 x.(filtered := true, filteredBy := Some(filterId), filterReason := Some(reason)) in r.filteredCandidates)
  {
    if Runs(filterId) {
      var kind := ImplementationOf(filterId).value;
      var reason := FindConfig(filterId).value.description;
      PartitionSizes(kind, filterId, reason, s, ctx, env, s);
      PassedMembers(kind, s, ctx, env, s);
      FilteredMembers(kind, filterId, reason, s, ctx, env, s);
    } else {
      SubsequenceRefl(s);
    }
  }

  lemma CatalogIdsDistinct()
    ensures forall i, j :: 0 <= i < j < |Catalog| ==> Catalog[i].id != Catalog[j].id
  {
  }

  lemma {:induction false} FindConfigAt(configs: seq<FilterConfig>, i: nat)
    requires i < |configs|
    requires forall j :: 0 <= j < i ==> configs[j].id != configs[i].id
    ensures FindConfigIn(configs, configs[i].id) == Some(configs[i])
  {
    if i > 0 {
      FindConfigAt(configs[1..], i - 1);
    }
  }

  lemma ConfigAt(i: nat)
    requires i < |Catalog|
    ensures FindConfig(Catalog[i].id) == Some(Catalog[i])
    ensures ImplementationOf(Catalog[i].id).Some?
  {
    if i < 6 {
      ConfigAtFirstHalf(i);
    } else {
      ConfigAtSecondHalf(i);
    }
  }

  lemma ConfigAtFirstHalf(i: nat)
    requires i < 6
    ensures FindConfig(Catalog[i].id) == Some(Catalog[i])
    ensures ImplementationOf(Catalog[i].id).Some?
  {
    if i == 0 {} else if i == 1 {} else if i == 2 {} else if i == 3 {} else if i == 4 {} else {}
  }

  lemma ConfigAtSecondHalf(i: nat)
    requires 6 <= i < |Catalog|
    ensures FindConfig(Catalog[i].id) == Some(Catalog[i])
    ensures ImplementationOf(Catalog[i].id).Some?
  {
    if i == 6 {} else if i == 7 {} else if i == 8 {} else if i == 9 {} else if i == 10 {} else {}
  }

  /** The lookup by id agrees with `FILTERS.find(f => f.id === id)` on every id. */
  lemma FindConfigIsFind(id: string)
    ensures FindConfig(id) == FindConfigIn(Catalog, id)
  {
    if i :| 0 <= i < |Catalog| && Catalog[i].id == id {
      CatalogIdsDistinct();
      FindConfigAt(Catalog, i);
      ConfigAt(i);
    } else {
      assert FindConfig(id) == None by {
        assert forall i :: 0 <= i < |Catalog| ==> Catalog[i].id != id;
      }
    }
  }

  /** Every catalog id finds its own entry, and every catalog filter runs: it is enabled and has a predicate. */
  lemma CatalogEntryRuns(i: nat)
    requires i < |Catalog|
    ensures FindConfig(Catalog[i].id) == Some(Catalog[i])
    ensures Runs(Catalog[i].id)
  {
    ConfigAt(i);
  }

  /** For a filter that runs, the passed list holds exactly the not-yet-filtered inputs its predicate keeps. */
  lemma KeepsByKind(filterId: string, kind: FilterKind, s: seq<Candidate>, ctx: FilterContext, env: Env)
    requires Runs(filterId) && ImplementationOf(filterId) == Some(kind)
    ensures forall x :: x in FilterOutcome(filterId, s, ctx, env).passedCandidates <==>
              x in s && !x.filtered && Verdict(kind, x, ctx, env, s)
  {
    RunFilterShape(filterId, s, ctx, env);
  }

  /** `age` keeps exactly the not-yet-filtered candidates at most seven days old by their Snowflake timestamp. */
  lemma AgeFilterKeeps(s: seq<Candidate>, ctx: FilterContext, env: Env)
    ensures forall x :: x in FilterOutcome("age", s, ctx, env).passedCandidates <==>
              x in s && !x.filtered && Snowflake.AgeInDays(x.id, env.now) <= 7.0
  {
    KeepsByKind("age", Age, s, ctx, env);
  }

  /** `self_tweet` keeps exactly the not-yet-filtered candidates someone else wrote. */
  lemma SelfTweetFilterKeeps(s: seq<Candidate>, ctx: FilterContext, env: Env)
    ensures forall x :: x in FilterOutcome("self_tweet", s, ctx, env).passedCandidates <==>
              x in s && !x.filtered && x.authorId != ctx.currentUserId
  {
    KeepsByKind("self_tweet", SelfTweet, s, ctx, env);
  }

  /** `blocked_author` keeps exactly the not-yet-filtered candidates whose author is not blocked. */
  lemma BlockedAuthorFilterKeeps(s: seq<Candidate>, ctx: FilterContext, env: Env)
    ensures forall x :: x in FilterOutcome("blocked_author", s, ctx, env).passedCandidates <==>
              x in s && !x.filtered && x.authorId !in ctx.blockedUsers
  {
    KeepsByKind("blocked_author", BlockedAuthor, s, ctx, env);
  }

  /** `muted_author` keeps exactly the not-yet-filtered candidates whose author is not muted. */
  lemma MutedAuthorFilterKeeps(s: seq<Candidate>, ctx: FilterContext, env: Env)
    ensures forall x :: x in FilterOutcome("muted_author", s, ctx, env).passedCandidates <==>
              x in s && !x.filtered && x.authorId !in ctx.mutedUsers
  {
    KeepsByKind("muted_author", MutedAuthor, s, ctx, env);
  }

  /** `seen_tweets` keeps exactly the not-yet-filtered candidates the user has not seen. */
  lemma SeenTweetsFilterKeeps(s: seq<Candidate>, ctx: FilterContext, env: Env)
    ensures forall x :: x in FilterOutcome("seen_tweets", s, ctx, env).passedCandidates <==>
              x in s && !x.filtered && x.id !in ctx.seenTweetIds
  {
    KeepsByKind("seen_tweets", SeenTweets, s, ctx, env);
  }

  /** `nsfw` keeps exactly the not-yet-filtered candidates whose lower-cased text contains none of the keywords. */
  lemma NsfwFilterKeeps(s: seq<Candidate>, ctx: FilterContext, env: Env)
    ensures forall x :: x in FilterOutcome("nsfw", s, ctx, env).passedCandidates <==>
              x in s && !x.filtered && !ContainsAny(ToLowerAscii(x.content), NsfwKeywords)
  {
    KeepsByKind("nsfw", Nsfw, s, ctx, env);
  }

  /** `low_quality` keeps exactly the not-yet-filtered candidates of at least five characters that are not
      shouting, not hashtag or mention spam and hold no run of six equal characters. */
  lemma LowQualityFilterKeeps(s: seq<Candidate>, ctx: FilterContext, env: Env)
    ensures forall x :: x in FilterOutcome("low_quality", s, ctx, env).passedCandidates <==>
              x in s && !x.filtered && |Utf16(x.content)| >= 5 && !(x.content == ToUpperAscii(x.content) && |Utf16(x.content)| > 10) &&
              TagCount(x.content, '#') <= 10 && TagCount(x.content, '@') <= 10 && !HasRepeatedRun(Utf16(x.content))
  {
    KeepsByKind("low_quality", LowQuality, s, ctx, env);
  }

  /** `conversation_depth` keeps exactly the not-yet-filtered candidates whose random draw exceeds 0.05. */
  lemma ConversationDepthFilterKeeps(s: seq<Candidate>, ctx: FilterContext, env: Env)
    ensures forall x :: x in FilterOutcome("conversation_depth", s, ctx, env).passedCandidates <==>
              x in s && !x.filtered && env.depthDraw(x.id) > 0.05
  {
    KeepsByKind("conversation_depth", ConversationDepth, s, ctx, env);
  }

  /** `retweet_of_seen` keeps exactly the not-yet-filtered candidates that are not retweets of a seen tweet. */
  lemma RetweetOfSeenFilterKeeps(s: seq<Candidate>, ctx: FilterContext, env: Env)
    ensures forall x :: x in FilterOutcome("retweet_of_seen", s, ctx, env).passedCandidates <==>
              x in s && !x.filtered && (x.isRetweet && x.originalTweetId.Some? ==> x.originalTweetId.value !in ctx.seenTweetIds)
  {
    KeepsByKind("retweet_of_seen", RetweetOfSeen, s, ctx, env);
  }

  /** `negative_feedback` keeps exactly the not-yet-filtered candidates whose weighted negative signal is below 0.5. */
  lemma NegativeFeedbackFilterKeeps(s: seq<Candidate>, ctx: FilterContext, env: Env)
    ensures forall x :: x in FilterOutcome("negative_feedback", s, ctx, env).passedCandidates <==>
              x in s && !x.filtered && NegativeSignal(x.phoenixScores) < 0.5
  {
    KeepsByKind("negative_feedback", NegativeFeedback, s, ctx, env);
  }

  lemma {:induction false} FirstInConversationExists(all: seq<Candidate>, conv: string, x: Candidate)
    requires x in all && !x.filtered && x.conversationId == Some(conv)
    ensures FirstInConversation(all, conv).Some?
    decreases |all|
  {
    if !(all[0].conversationId == Some(conv) && !all[0].filtered) {
      assert x in all[1..];
      FirstInConversationExists(all[1..], conv, x);
    }
  }

  /** With distinct ids, `drop_duplicates` leaves at most one candidate per non-empty conversation. */
  lemma DropDuplicatesOnePerConversation(s: seq<Candidate>, ctx: FilterContext, env: Env)
    requires DistinctKeys(s, IdOf)
    ensures var p := FilterOutcome("drop_duplicates", s, ctx, env).passedCandidates;
            forall i, j :: 0 <= i < j < |p| && Truthy(p[i].conversationId) ==>
              p[i].conversationId != p[j].conversationId
  {
    CatalogEntryRuns(0);
    RunFilterShape("drop_duplicates", s, ctx, env);
    var p := FilterOutcome("drop_duplicates", s, ctx, env).passedCandidates;
    SubsequenceDistinct(p, s, IdOf);
    forall i, j | 0 <= i < j < |p| && Truthy(p[i].conversationId)
      ensures p[i].conversationId != p[j].conversationId
    {
      if p[i].conversationId == p[j].conversationId {
        var v := p[i].conversationId.value;
        assert p[i] in p && p[j] in p;
        FirstInConversationExists(s, v, p[i]);
      }
    }
  }

  lemma AuthorTweetsMember(all: seq<Candidate>, x: Candidate)
    requires x in all && !x.filtered
    ensures x in AuthorTweets(all, x.authorId)
  {
    FilterMapSpec(all, SameAuthorUnfiltered(x.authorId), Identity());
    var i :| 0 <= i < |all| && all[i] == x;
  }

  /** A candidate `author_diversity` keeps is among its author's first three unfiltered tweets. */
  lemma AuthorDiversityRank(s: seq<Candidate>, ctx: FilterContext, env: Env, x: Candidate)
    requires x in FilterOutcome("author_diversity", s, ctx, env).passedCandidates
    ensures var a := AuthorTweets(s, x.authorId);
            var k := IndexOfId(a, x.id);
            0 <= k < 3 && a[k].id == x.id
  {
    KeepsByKind("author_diversity", AuthorDiversity, s, ctx, env);
    AuthorTweetsMember(s, x);
  }

  /** Four positions among the first three of `a` cannot name four different ids. */
  lemma FourOfThree(a: seq<Candidate>, k0: int, k1: int, k2: int, k3: int, i0: TweetId, i1: TweetId, i2: TweetId, i3: TweetId)
    requires 0 <= k0 < 3 && 0 <= k1 < 3 && 0 <= k2 < 3 && 0 <= k3 < 3 && 3 <= |a|
    requires a[k0].id == i0 && a[k1].id == i1 && a[k2].id == i2 && a[k3].id == i3
    ensures !(i0 != i1 && i0 != i2 && i0 != i3 && i1 != i2 && i1 != i3 && i2 != i3)
  {
  }

  /** No four candidates with distinct ids by one author all survive `author_diversity`. */
  lemma AuthorDiversityNoFour(s: seq<Candidate>, ctx: FilterContext, env: Env, x0: Candidate, x1: Candidate,
                              x2: Candidate, x3: Candidate)
    requires var p := FilterOutcome("author_diversity", s, ctx, env).passedCandidates;
             x0 in p && x1 in p && x2 in p && x3 in p
    requires x0.authorId == x1.authorId == x2.authorId == x3.authorId
    ensures !(x0.id != x1.id && x0.id != x2.id && x0.id != x3.id && x1.id != x2.id && x1.id != x3.id && x2.id != x3.id)
  {
    var a := AuthorTweets(s, x0.authorId);
    AuthorDiversityRank(s, ctx, env, x0);
    AuthorDiversityRank(s, ctx, env, x1);
    AuthorDiversityRank(s, ctx, env, x2);
    AuthorDiversityRank(s, ctx, env, x3);
    if 3 <= |a| {
      FourOfThree(a, IndexOfId(a, x0.id), IndexOfId(a, x1.id), IndexOfId(a, x2.id), IndexOfId(a, x3.id), x0.id, x1.id, x2.id, x3.id);
    }
  }

  /** With distinct ids, `author_diversity` leaves at most three candidates per author. */
  lemma AuthorDiversityAtMostThree(s: seq<Candidate>, ctx: FilterContext, env: Env)
    requires DistinctKeys(s, IdOf)
    ensures var p := FilterOutcome("author_diversity", s, ctx, env).passedCandidates;
            forall i0, i1, i2, i3 :: 0 <= i0 < i1 < i2 < i3 < |p| ==>
              !(p[i0].authorId == p[i1].authorId == p[i2].authorId == p[i3].authorId)
  {
    RunFilterShape("author_diversity", s, ctx, env);
    var p := FilterOutcome("author_diversity", s, ctx, env).passedCandidates;
    SubsequenceDistinct(p, s, IdOf);
    forall i0, i1, i2, i3 | 0 <= i0 < i1 < i2 < i3 < |p|
      ensures !(p[i0].authorId == p[i1].authorId == p[i2].authorId == p[i3].authorId)
    {
      AuthorDiversityQuadruple(s, ctx, env, i0, i1, i2, i3);
    }
  }

  lemma AuthorDiversityQuadruple(s: seq<Candidate>, ctx: FilterContext, env: Env, i0: int, i1: int, i2: int, i3: int)
    requires DistinctKeys(FilterOutcome("author_diversity", s, ctx, env).passedCandidates, IdOf)
    requires 0 <= i0 < i1 < i2 < i3 < |FilterOutcome("author_diversity", s, ctx, env).passedCandidates|
    ensures var p := FilterOutcome("author_diversity", s, ctx, env).passedCandidates;
            !(p[i0].authorId == p[i1].authorId == p[i2].authorId == p[i3].authorId)
  {
    var p := FilterOutcome("author_diversity", s, ctx, env).passedCandidates;
    assert IdOf(p[i0]) != IdOf(p[i1]) && IdOf(p[i0]) != IdOf(p[i2]) && IdOf(p[i0]) != IdOf(p[i3]);
    assert IdOf(p[i1]) != IdOf(p[i2]) && IdOf(p[i1]) != IdOf(p[i3]) && IdOf(p[i2]) != IdOf(p[i3]);
    if p[i0].authorId == p[i1].authorId == p[i2].authorId == p[i3].authorId {
      AuthorDiversityNoFour(s, ctx, env, p[i0], p[i1], p[i2], p[i3]);
    }
  }

  // ---------------------------------------------------------------- chains

  /** The selected ids, in their given order. */
  function SelectedIds(ids: seq<string>, enabledFilterIds: Option<seq<string>>): seq<string>
    decreases |ids|
  {
    if ids == [] then []
    else (if Selected(enabledFilterIds, ids[0]) then [ids[0]] else []) + SelectedIds(ids[1..], enabledFilterIds)
  }

  function ResultIds(results: seq<FilterResult>): seq<string>
  {
    Map((r: FilterResult) => r.filterId, results)
  }

  /** Along a chain: one result per selected id, in order. */
  lemma {:induction false} FilterChainIds(ids: seq<string>, enabledFilterIds: Option<seq<string>>,
                                          s: seq<Candidate>, ctx: FilterContext, env: Env)
    ensures ResultIds(FilterChain(ids, enabledFilterIds, s, ctx, env).results) == SelectedIds(ids, enabledFilterIds)
    decreases |ids|
  {
    if ids == [] {
    } else if !Selected(enabledFilterIds, ids[0]) {
      FilterChainIds(ids[1..], enabledFilterIds, s, ctx, env);
    } else {
      var r := FilterOutcome(ids[0], s, ctx, env);
      var rest := FilterChain(ids[1..], enabledFilterIds, r.passedCandidates, ctx, env);
      FilterChainIds(ids[1..], enabledFilterIds, r.passedCandidates, ctx, env);
      assert FilterChain(ids, enabledFilterIds, s, ctx, env).results == [r] + rest.results;
      assert ResultIds([r] + rest.results) == [ids[0]] + ResultIds(rest.results);
    }
  }

  /** Along a chain: the first stage sees the whole input; each stage's input is the previous
      stage's output; counts never grow; and the final list is the last stage's passed list. */
  lemma {:induction false} FilterChainShape(ids: seq<string>, enabledFilterIds: Option<seq<string>>,
                                            s: seq<Candidate>, ctx: FilterContext, env: Env)
    ensures var ch := FilterChain(ids, enabledFilterIds, s, ctx, env);
            var rs := ch.results;
            (rs == [] ==> ch.finalCandidates == s) &&
            (rs != [] ==> rs[0].inputCount == |s| &&
                          rs[|rs| - 1].passedCandidates == ch.finalCandidates &&
                          rs[|rs| - 1].outputCount == |ch.finalCandidates|) &&
            (forall i :: 0 <= i < |rs| ==> rs[i].outputCount <= rs[i].inputCount) &&
            (forall i :: 0 <= i < |rs| - 1 ==> rs[i + 1].inputCount == rs[i].outputCount)
    decreases |ids|
  {
    var ch := FilterChain(ids, enabledFilterIds, s, ctx, env);
    if ids == [] {
    } else if !Selected(enabledFilterIds, ids[0]) {
      FilterChainShape(ids[1..], enabledFilterIds, s, ctx, env);
    } else {
      var r := FilterOutcome(ids[0], s, ctx, env);
      RunFilterShape(ids[0], s, ctx, env);
      var rest := FilterChain(ids[1..], enabledFilterIds, r.passedCandidates, ctx, env);
      FilterChainShape(ids[1..], enabledFilterIds, r.passedCandidates, ctx, env);
      assert ch.results == [r] + rest.results;
      if rest.results != [] {
        assert rest.results[0].inputCount == |r.passedCandidates| == r.outputCount;
      }
    }
  }

  /** A chain's final list is an order-preserving subsequence of its input. */
  lemma {:induction false} FilterChainSubsequence(ids: seq<string>, enabledFilterIds: Option<seq<string>>,
                                                  s: seq<Candidate>, ctx: FilterContext, env: Env)
    ensures IsSubsequence(FilterChain(ids, enabledFilterIds, s, ctx, env).finalCandidates, s)
    ensures |FilterChain(ids, enabledFilterIds, s, ctx, env).finalCandidates| <= |s|
    decreases |ids|
  {
    if ids == [] {
      SubsequenceRefl(s);
    } else if !Selected(enabledFilterIds, ids[0]) {
      FilterChainSubsequence(ids[1..], enabledFilterIds, s, ctx, env);
    } else {
      var r := FilterOutcome(ids[0], s, ctx, env);
      RunFilterShape(ids[0], s, ctx, env);
      var rest := FilterChain(ids[1..], enabledFilterIds, r.passedCandidates, ctx, env);
      FilterChainSubsequence(ids[1..], enabledFilterIds, r.passedCandidates, ctx, env);
      SubsequenceTrans(rest.finalCandidates, r.passedCandidates, s);
      SubsequenceMembers(rest.finalCandidates, s);
    }
  }

  /** `runAllFilters` with no list of enabled ids runs the whole catalog, in catalog order. */
  lemma RunAllFiltersVisitsCatalog(s: seq<Candidate>, ctx: FilterContext, env: Env)
    ensures ResultIds(FilterChain(CatalogIds(), None, s, ctx, env).results) == CatalogIds()
  {
    FilterChainIds(CatalogIds(), None, s, ctx, env);
    SelectedAll(CatalogIds());
  }

  lemma {:induction false} SelectedAll(ids: seq<string>)
    ensures SelectedIds(ids, None) == ids
    decreases |ids|
  {
    if ids != [] {
      SelectedAll(ids[1..]);
    }
  }
}

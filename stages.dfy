/** The pipeline's own stages: the two retrieval sources, the merge that drops repeated ids,
    the five candidate hydrators, the sort by final score and the top-K slice. */
module Stages {
  import opened Wrappers
  import opened Types
  import opened Seqs
  import opened Text
  import opened StableSort

  // ---------------------------------------------------------------- sources

  /** Thunder retrieves what the user's network produced: in-network posts, the user's own and
      those of followed authors. */
  predicate FromNetwork(c: Candidate, ctx: FilterContext)
  {
    c.inNetwork || c.authorId == ctx.currentUserId || c.authorId in ctx.followedAuthorIds
  }

  function InThunder(ctx: FilterContext): Candidate -> bool
  {
    (c: Candidate) => FromNetwork(c, ctx)
  }

  /** A retrieved candidate starts afresh: no filter has looked at it yet. */
  function AsThunder(c: Candidate): Candidate
  {
    c.(inNetwork := true, servedType := Some(ForYouInNetwork), filtered := false, filteredBy := None, filterReason := None)
  }

  function AsPhoenix(c: Candidate): Candidate
  {
    c.(servedType := Some(ForYouPhoenixRetrieval), filtered := false, filteredBy := None, filterReason := None)
  }

  function ThunderForm(): Candidate -> Candidate
  {
    (c: Candidate) => AsThunder(c)
  }

  function PhoenixForm(): Candidate -> Candidate
  {
    (c: Candidate) => AsPhoenix(c)
  }

  function OutOfNetwork(): Candidate -> bool
  {
    (c: Candidate) => !c.inNetwork
  }

  /** `sourceThunder`. */
  function SourceThunder(candidates: seq<Candidate>, ctx: FilterContext): seq<Candidate>
  {
    FilterMap(candidates, InThunder(ctx), ThunderForm())
  }

  /** `sourcePhoenix`: nothing at all when the request asks for in-network posts only. */
  function SourcePhoenix(candidates: seq<Candidate>, ctx: FilterContext): seq<Candidate>
  {
    if ctx.inNetworkOnly then [] else FilterMap(candidates, OutOfNetwork(), PhoenixForm())
  }

  /** Thunder returns, in input order, exactly the network's candidates, each marked in-network,
      served by Thunder and not filtered. */
  lemma SourceThunderSpec(candidates: seq<Candidate>, ctx: FilterContext)
    ensures var t := SourceThunder(candidates, ctx);
            |t| <= |candidates| &&
            IsSubsequence(t, Map(ThunderForm(), candidates)) &&
            (forall c :: c in candidates && FromNetwork(c, ctx) ==> AsThunder(c) in t) &&
            (forall x :: x in t ==> exists c :: c in candidates && FromNetwork(c, ctx) && x == AsThunder(c)) &&
            (forall x :: x in t ==>
               x.inNetwork && x.servedType == Some(ForYouInNetwork) && !x.filtered && x.filteredBy.None?)
  {
    FilterMapSpec(candidates, InThunder(ctx), ThunderForm());
    var t := SourceThunder(candidates, ctx);
    forall c | c in candidates && FromNetwork(c, ctx)
      ensures AsThunder(c) in t
    {
      var i :| 0 <= i < |candidates| && candidates[i] == c;
    }
    forall x | x in t
      ensures exists c :: c in candidates && FromNetwork(c, ctx) && x == AsThunder(c)
    {
      var i :| 0 <= i < |candidates| && InThunder(ctx)(candidates[i]) && x == ThunderForm()(candidates[i]);
      assert candidates[i] in candidates;
    }
  }

  /** Phoenix returns nothing for an in-network-only request and otherwise, in input order,
      exactly the out-of-network candidates, each marked as served by Phoenix and not filtered. */
  lemma SourcePhoenixSpec(candidates: seq<Candidate>, ctx: FilterContext)
    ensures ctx.inNetworkOnly ==> SourcePhoenix(candidates, ctx) == []
    ensures !ctx.inNetworkOnly ==>
              var p := SourcePhoenix(candidates, ctx);
              IsSubsequence(p, Map(PhoenixForm(), candidates)) &&
              (forall c :: c in candidates && !c.inNetwork ==> AsPhoenix(c) in p) &&
              (forall x :: x in p ==> exists c :: c in candidates && !c.inNetwork && x == AsPhoenix(c)) &&
              (forall x :: x in p ==> !x.inNetwork && x.servedType == Some(ForYouPhoenixRetrieval) && !x.filtered)
  {
    if !ctx.inNetworkOnly {
      FilterMapSpec(candidates, OutOfNetwork(), PhoenixForm());
      var p := SourcePhoenix(candidates, ctx);
      forall c | c in candidates && !c.inNetwork
        ensures AsPhoenix(c) in p
      {
        var i :| 0 <= i < |candidates| && candidates[i] == c;
      }
      forall x | x in p
        ensures exists c :: c in candidates && !c.inNetwork && x == AsPhoenix(c)
      {
        var i :| 0 <= i < |candidates| && OutOfNetwork()(candidates[i]) && x == PhoenixForm()(candidates[i]);
        assert candidates[i] in candidates;
      }
    }
  }

  // ---------------------------------------------------------------- merge

  function IdsOf(s: seq<Candidate>): set<TweetId>
  {
    set c | c in s :: c.id
  }

  lemma IdsOfCons(c: Candidate, s: seq<Candidate>)
    ensures IdsOf([c] + s) == {c.id} + IdsOf(s)
  {
    assert forall x :: x in [c] + s <==> x == c || x in s;
  }

  /** The first candidate with each id, in input order. */
  function Dedupe(s: seq<Candidate>): seq<Candidate>
  {
    DedupeFrom(s, {})
  }

  /** The merge's pass from some point on, with the ids `seen` before it: a candidate is kept
      when its id is new, and its id is then seen. */
  function DedupeFrom(s: seq<Candidate>, seen: set<TweetId>): seq<Candidate>
  {
    if s == [] then []
    else if s[0].id in seen then DedupeFrom(s[1..], seen)
    else [s[0]] + DedupeFrom(s[1..], seen + {s[0].id})
  }

  /** `dedupeById`: one pass with a set of the ids seen so far. */
  method DedupeById(candidates: seq<Candidate>) returns (merged: seq<Candidate>)
    ensures merged == Dedupe(candidates)
  {
    var seenIds: set<TweetId> := {};
    merged := [];
    for i := 0 to |candidates|
      invariant merged + DedupeFrom(candidates[i..], seenIds) == Dedupe(candidates)
    {
      var candidate := candidates[i];
      assert candidates[i..][1..] == candidates[i + 1..];
      if candidate.id in seenIds {
        continue;
      }
      seenIds := seenIds + {candidate.id};
      merged := merged + [candidate];
    }
  }

  lemma {:induction false} DedupeFromSubsequence(s: seq<Candidate>, seen: set<TweetId>)
    ensures IsSubsequence(DedupeFrom(s, seen), s)
    decreases |s|
  {
    if s == [] {
      SubsequenceEmpty(s);
    } else {
      var seen' := if s[0].id in seen then seen else seen + {s[0].id};
      DedupeFromSubsequence(s[1..], seen');
      SubsequenceCons(DedupeFrom(s[1..], seen'), s[1..], s[0]);
      assert [s[0]] + s[1..] == s;
    }
  }

  /** The merge keeps an order-preserving subsequence of its input. */
  lemma DedupeSubsequence(s: seq<Candidate>)
    ensures IsSubsequence(Dedupe(s), s)
  {
    DedupeFromSubsequence(s, {});
  }

  lemma {:induction false} DedupeFromIds(s: seq<Candidate>, seen: set<TweetId>)
    ensures IdsOf(DedupeFrom(s, seen)) == IdsOf(s) - seen
    decreases |s|
  {
    if s != [] {
      var c := s[0];
      assert s == [c] + s[1..];
      IdsOfCons(c, s[1..]);
      if c.id in seen {
        DedupeFromIds(s[1..], seen);
      } else {
        DedupeFromIds(s[1..], seen + {c.id});
        IdsOfCons(c, DedupeFrom(s[1..], seen + {c.id}));
      }
    }
  }

  /** The merge loses no id. */
  lemma DedupeIds(s: seq<Candidate>)
    ensures IdsOf(Dedupe(s)) == IdsOf(s)
  {
    DedupeFromIds(s, {});
  }

  lemma {:induction false} DedupeFromDistinct(s: seq<Candidate>, seen: set<TweetId>)
    ensures DistinctKeys(DedupeFrom(s, seen), IdOf)
    ensures forall y :: y in DedupeFrom(s, seen) ==> y.id !in seen
    decreases |s|
  {
    if s != [] {
      var c := s[0];
      if c.id in seen {
        DedupeFromDistinct(s[1..], seen);
      } else {
        var d := DedupeFrom(s[1..], seen + {c.id});
        DedupeFromDistinct(s[1..], seen + {c.id});
        forall i, j | 0 <= i < j < |[c] + d|
          ensures IdOf(([c] + d)[i]) != IdOf(([c] + d)[j])
        {
          assert ([c] + d)[j] == d[j - 1] && d[j - 1] in d;
          if i > 0 {
            assert ([c] + d)[i] == d[i - 1];
          }
        }
      }
    }
  }

  /** The merge's candidates have pairwise distinct ids. */
  lemma DedupeDistinct(s: seq<Candidate>)
    ensures DistinctKeys(Dedupe(s), IdOf)
  {
    DedupeFromDistinct(s, {});
  }

  /** The merge is never longer than its input. */
  lemma DedupeLength(s: seq<Candidate>)
    ensures |Dedupe(s)| <= |s|
  {
    DedupeSubsequence(s);
    SubsequenceMembers(Dedupe(s), s);
  }

  lemma {:induction false} DedupeFromKeepsFirst(s: seq<Candidate>, seen: set<TweetId>, i: nat)
    requires i < |s| && s[i].id !in seen
    requires forall j :: 0 <= j < i ==> s[j].id != s[i].id
    ensures s[i] in DedupeFrom(s, seen)
    decreases |s|
  {
    if i > 0 {
      var seen' := if s[0].id in seen then seen else seen + {s[0].id};
      DedupeFromKeepsFirst(s[1..], seen', i - 1);
    }
  }

  /** The merge keeps every candidate that is the first with its id. */
  lemma DedupeKeepsFirst(s: seq<Candidate>, i: nat)
    requires i < |s|
    requires forall j :: 0 <= j < i ==> s[j].id != s[i].id
    ensures s[i] in Dedupe(s)
  {
    DedupeFromKeepsFirst(s, {}, i);
  }

  lemma {:induction false} DedupeFromOnlyFirst(s: seq<Candidate>, seen: set<TweetId>, y: Candidate)
    requires y in DedupeFrom(s, seen)
    ensures y.id !in seen
    ensures exists i :: 0 <= i < |s| && s[i] == y && forall j :: 0 <= j < i ==> s[j].id != y.id
    decreases |s|
  {
    var c := s[0];
    var seen' := if c.id in seen then seen else seen + {c.id};
    if c.id !in seen && y == c {
      assert s[0] == y;
    } else {
      assert y in DedupeFrom(s[1..], seen');
      DedupeFromOnlyFirst(s[1..], seen', y);
      var i :| 0 <= i < |s[1..]| && s[1..][i] == y && forall j :: 0 <= j < i ==> s[1..][j].id != y.id;
      assert s[i + 1] == y;
      forall j | 0 <= j < i + 1
        ensures s[j].id != y.id
      {
        if j > 0 {
          assert s[j] == s[1..][j - 1];
        }
      }
    }
  }

  /** Every candidate the merge keeps is the first of its id in the input. */
  lemma DedupeOnlyFirst(s: seq<Candidate>, y: Candidate)
    requires y in Dedupe(s)
    ensures exists i :: 0 <= i < |s| && s[i] == y && forall j :: 0 <= j < i ==> s[j].id != y.id
  {
    DedupeFromOnlyFirst(s, {}, y);
  }

  /** A candidate both sources return survives the merge as Thunder produced it: whatever the
      merge keeps under an id that Thunder returned is Thunder's candidate. */
  lemma ThunderWinsMerge(t: seq<Candidate>, p: seq<Candidate>, y: Candidate)
    requires y in Dedupe(t + p)
    requires y.id in IdsOf(t)
    ensures y in t
  {
    var s := t + p;
    DedupeOnlyFirst(s, y);
    var i :| 0 <= i < |s| && s[i] == y && forall j :: 0 <= j < i ==> s[j].id != y.id;
    var x :| x in t && x.id == y.id;
    var k :| 0 <= k < |t| && t[k] == x;
    assert s[k] == x;
    if i >= |t| {
      assert false;
    }
  }

  // ---------------------------------------------------------------- hydrators

  predicate MarkedInNetwork(c: Candidate, ctx: FilterContext)
  {
    c.authorId == ctx.currentUserId || c.authorId in ctx.followedAuthorIds || c.servedType == Some(ForYouInNetwork)
  }

  function InNetworkMarker(ctx: FilterContext): Candidate -> Candidate
  {
    (c: Candidate) => c.(inNetwork := MarkedInNetwork(c, ctx))
  }

  /** `hydrateInNetwork`: the flag is recomputed from the follow graph and the serving source. */
  function HydrateInNetwork(candidates: seq<Candidate>, ctx: FilterContext): (r: seq<Candidate>)
    ensures |r| == |candidates|
    ensures forall i :: 0 <= i < |r| ==>
              r[i] == candidates[i].(inNetwork := r[i].inNetwork) &&
              (r[i].inNetwork <==> candidates[i].authorId == ctx.currentUserId ||
                                   candidates[i].authorId in ctx.followedAuthorIds ||
                                   candidates[i].servedType == Some(ForYouInNetwork))
  {
    Map(InNetworkMarker(ctx), candidates)
  }

  /** `hydrateCoreData`: `content || ''` and `authorId || ''` on fields that are always strings
      change nothing. */
  function HydrateCoreData(candidates: seq<Candidate>): (r: seq<Candidate>)
    ensures r == candidates
  {
    Map((c: Candidate) => c.(content := if c.content != "" then c.content else "",
                             authorId := if c.authorId != "" then c.authorId else ""), candidates)
  }

  /** A duration that reads as present: defined, not zero and positive. */
  predicate HasDuration(c: Candidate)
  {
    c.videoDurationMs.Some? && c.videoDurationMs.value > 0.0
  }

  function DefaultVideoDuration(c: Candidate): Candidate
  {
    if !c.hasVideo then c
    else if HasDuration(c) then c
    else c.(videoDurationMs := Some(15000.0))
  }

  /** `hydrateVideoDuration`. */
  function HydrateVideoDuration(candidates: seq<Candidate>): (r: seq<Candidate>)
    ensures |r| == |candidates|
    ensures forall i :: 0 <= i < |r| ==>
              (candidates[i].hasVideo && !HasDuration(candidates[i]) ==>
                 r[i] == candidates[i].(videoDurationMs := Some(15000.0))) &&
              (!(candidates[i].hasVideo && !HasDuration(candidates[i])) ==> r[i] == candidates[i])
  {
    Map(DefaultVideoDuration, candidates)
  }

  /** Filling in durations twice fills in nothing more. */
  lemma HydrateVideoDurationIdempotent(candidates: seq<Candidate>)
    ensures HydrateVideoDuration(HydrateVideoDuration(candidates)) == HydrateVideoDuration(candidates)
  {
    var once := HydrateVideoDuration(candidates);
    var twice := HydrateVideoDuration(once);
    forall i | 0 <= i < |once|
      ensures twice[i] == once[i]
    {
      assert once[i].hasVideo ==> HasDuration(once[i]);
    }
  }

  function SubscriptionAt(c: Candidate, index: nat): Candidate
  {
    if Truthy(c.subscriptionAuthorId) then c
    else if index % 11 == 0 then c.(subscriptionAuthorId := Some(c.authorId))
    else c
  }

  /** `hydrateSubscription`: the index is the candidate's position in the list. */
  function HydrateSubscription(candidates: seq<Candidate>): (r: seq<Candidate>)
    ensures |r| == |candidates|
    ensures forall i :: 0 <= i < |r| ==>
              r[i] == candidates[i].(subscriptionAuthorId := r[i].subscriptionAuthorId) &&
              (Truthy(candidates[i].subscriptionAuthorId) ==> r[i] == candidates[i]) &&
              (r[i].subscriptionAuthorId != candidates[i].subscriptionAuthorId ==>
                 i % 11 == 0 && r[i].subscriptionAuthorId == Some(candidates[i].authorId))
  {
    seq(|candidates|, i requires 0 <= i < |candidates| => SubscriptionAt(candidates[i], i))
  }

  const BlockedTerms: seq<string> := ["gore", "violence", "graphic", "explicit scam"]

  function VisibilityMarker(): Candidate -> Candidate
  {
    (c: Candidate) => c.(visibilityFiltered :=
                           Some(c.visibilityFiltered == Some(true) || ContainsAny(ToLowerAscii(c.content), BlockedTerms)))
  }

  /** `hydrateVisibility`: the flag becomes true when it already was or the lower-cased text
      holds a blocked term, and false otherwise. */
  function HydrateVisibility(candidates: seq<Candidate>): (r: seq<Candidate>)
    ensures |r| == |candidates|
    ensures forall i :: 0 <= i < |r| ==>
              r[i] == candidates[i].(visibilityFiltered := r[i].visibilityFiltered) &&
              (r[i].visibilityFiltered == Some(true) <==>
                 candidates[i].visibilityFiltered == Some(true) || ContainsAny(ToLowerAscii(candidates[i].content), BlockedTerms)) &&
              r[i].visibilityFiltered.Some?
  {
    Map(VisibilityMarker(), candidates)
  }

  /** Every hydrator keeps the candidates' ids, in order. */
  lemma HydratorsKeepIds(candidates: seq<Candidate>, ctx: FilterContext)
    ensures Map(IdOf, HydrateInNetwork(candidates, ctx)) == Map(IdOf, candidates)
    ensures Map(IdOf, HydrateCoreData(candidates)) == Map(IdOf, candidates)
    ensures Map(IdOf, HydrateVideoDuration(candidates)) == Map(IdOf, candidates)
    ensures Map(IdOf, HydrateSubscription(candidates)) == Map(IdOf, candidates)
    ensures Map(IdOf, HydrateVisibility(candidates)) == Map(IdOf, candidates)
  {
  }

  // ---------------------------------------------------------------- selection

  /** `sortByFinalScore`: a stable sort, highest final score first. */
  function SortByFinalScore(candidates: seq<Candidate>): seq<Candidate>
  {
    SortDesc(candidates, FinalScoreOf)
  }

  /** Where `slice(0, k)` stops on a list of `n`: a negative `k` counts back from the end. */
  function SliceEnd(n: nat, k: int): (e: nat)
    ensures e <= n
  {
    if k < 0 then (if n + k > 0 then n + k else 0)
    else if k < n then k else n
  }

  function TopK(s: seq<Candidate>, k: int): seq<Candidate>
  {
    s[..SliceEnd(|s|, k)]
  }

  /** The selection holds min(k, n) candidates for a non-negative k, sorted highest final score
      first; it is the head of a stable rearrangement of the input, so no candidate outside it
      scores more than one inside it. */
  lemma SelectionSpec(candidates: seq<Candidate>, k: int)
    ensures var sorted := SortByFinalScore(candidates);
            var sel := TopK(sorted, k);
            (k >= 0 ==> |sel| == Min(k, |candidates|)) &&
            sel == sorted[..|sel|] &&
            multiset(sorted) == multiset(candidates) &&
            (forall v :: KeyClass(sorted, FinalScoreOf, v) == KeyClass(candidates, FinalScoreOf, v)) &&
            SortedDesc(sel, FinalScoreOf) &&
            (forall i, j :: 0 <= i < |sel| <= j < |sorted| ==> FinalScoreOf(sorted[j]) <= FinalScoreOf(sel[i]))
  {
    var sorted := SortByFinalScore(candidates);
    SortDescSpec(candidates, FinalScoreOf);
    forall v
      ensures KeyClass(sorted, FinalScoreOf, v) == KeyClass(candidates, FinalScoreOf, v)
    {
      SortDescStable(candidates, FinalScoreOf, v);
    }
  }
}

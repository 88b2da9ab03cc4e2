/** The records the ranking pipeline passes between its stages. */
module Types {
  import opened Wrappers

  /** A tweet id: the integer value of its Snowflake id. */
  type TweetId = int
  type UserId = string

  /** `servedType`: which retrieval source produced the candidate. */
  datatype ServedType = ForYouInNetwork | ForYouPhoenixRetrieval

  /** The 18 predicted engagement probabilities and the expected dwell time in milliseconds. */
  datatype PhoenixScores = PhoenixScores(
    favorite: real,
    reply: real,
    retweet: real,
    photoExpand: real,
    click: real,
    profileClick: real,
    vqv: real,
    share: real,
    shareViaDm: real,
    shareViaCopyLink: real,
    dwell: real,
    quote: real,
    quotedClick: real,
    followAuthor: real,
    notInterested: real,
    blockAuthor: real,
    muteAuthor: real,
    report: real,
    dwellTime: real)

  /** Weights of the weighted scorer, the diversity decay and the out-of-network factor. */
  datatype WeightConfig = WeightConfig(
    favorite: real,
    reply: real,
    retweet: real,
    photoExpand: real,
    click: real,
    profileClick: real,
    vqv: real,
    share: real,
    shareViaDm: real,
    shareViaCopyLink: real,
    dwell: real,
    quote: real,
    quotedClick: real,
    followAuthor: real,
    notInterested: real,
    blockAuthor: real,
    muteAuthor: real,
    report: real,
    dwellTime: real,
    minVideoDurationMs: real,
    negativeScoresOffset: real,
    authorDiversityDecay: real,
    authorDiversityFloor: real,
    oonWeightFactor: real)

  /** A tweet moving through the pipeline. Optional fields are the ones that may be `undefined`. */
  datatype Candidate = Candidate(
    id: TweetId,
    content: string,
    authorId: UserId,
    hasImage: bool,
    hasVideo: bool,
    videoDurationMs: Option<real>,
    inNetwork: bool,
    servedType: Option<ServedType>,
    conversationId: Option<string>,
    isRetweet: bool,
    originalTweetId: Option<TweetId>,
    subscriptionAuthorId: Option<UserId>,
    visibilityFiltered: Option<bool>,
    phoenixScores: PhoenixScores,
    weightedScore: Option<real>,
    diversityAdjustedScore: Option<real>,
    finalScore: Option<real>,
    filtered: bool,
    filteredBy: Option<string>,
    filterReason: Option<string>)

  /** The parts of the request context the filters and sources read. */
  datatype FilterContext = FilterContext(
    currentUserId: UserId,
    blockedUsers: seq<UserId>,
    mutedUsers: seq<UserId>,
    followedAuthorIds: seq<UserId>,
    seenTweetIds: seq<TweetId>,
    inNetworkOnly: bool)

  datatype FilterConfig = FilterConfig(id: string, name: string, description: string, enabled: bool)

  datatype FilterResult = FilterResult(
    filterId: string,
    filterName: string,
    inputCount: nat,
    outputCount: nat,
    filteredCandidates: seq<Candidate>,
    passedCandidates: seq<Candidate>)

  datatype ScoreEntry = ScoreEntry(candidateId: TweetId, finalScore: real)

  datatype ScorerResult = ScorerResult(scorerId: string, candidateScores: seq<ScoreEntry>)

  datatype StepType = QueryHydrator | Source | Hydrator | Filter | Scorer | Selector | Ranker

  datatype StepDetails = NoDetails | FilterDetails(filter: FilterResult) | ScorerDetails(scorer: ScorerResult)

  /** A pipeline step as reported to the user interface, without its display strings. */
  datatype PipelineStep = PipelineStep(id: string, kind: StepType, inputCount: nat, outputCount: nat, details: StepDetails)

  function IdOf(c: Candidate): TweetId { c.id }

  function FinalScoreOf(c: Candidate): real { OrZero(c.finalScore) }

  function WeightedScoreOf(c: Candidate): real { OrZero(c.weightedScore) }

  /** A string field read as a JavaScript condition: present and non-empty. */
  predicate Truthy(s: Option<string>)
  {
    s.Some? && s.value != ""
  }
}

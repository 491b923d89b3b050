/**
 * The records of the contest platform, with the default values a freshly
 * built record gets (backend/models.py). Timestamps that default to the
 * clock and identifiers that default to a fresh uuid are parameters.
 */
module Models {
  import opened Base

  datatype VideoStatus = VideoActive | VideoArchived | VideoSuspended

  datatype CompetitionStatus = CompetitionActive | CompetitionEnded | CompetitionDraft

  datatype User = User(
    id: string,
    username: string,
    displayName: string,
    email: Option<string>,
    phone: Option<string>,
    googleId: Option<string>,
    avatarUrl: Option<string>,
    bio: Option<string>,
    isVerified: bool,
    followerCount: int,
    followingCount: int,
    totalLikes: int,
    totalViews: int,
    credits: int,
    createdAt: Timestamp,
    lastActive: Timestamp,
    isActive: bool)

  /** `User(id=..., username=..., display_name=...)` with every other field at its default. */
  function NewUser(id: string, username: string, displayName: string, now: Timestamp): User {
    User(id, username, displayName, None, None, None, None, Some(""),
         false, 0, 0, 0, 0, 0, now, now, true)
  }

  /** A video entry; the engagement counters only ever grow, so they are naturals. */
  datatype Video = Video(
    id: string,
    title: string,
    description: Option<string>,
    hashtags: seq<string>,
    userId: string,
    filename: string,
    filePath: string,
    thumbnailUrl: Option<string>,
    duration: Option<real>,
    fileSize: int,
    viewCount: nat,
    likeCount: nat,
    commentCount: nat,
    shareCount: nat,
    engagementRate: real,
    completionRate: real,
    replayRate: real,
    timeWatched: real,
    competitionRound: string,
    isPaid: bool,
    paymentSessionId: Option<string>,
    status: VideoStatus,
    isFeatured: bool,
    uploadDate: Timestamp,
    publishedAt: Option<Timestamp>,
    lastUpdated: Timestamp)

  function NewVideo(id: string, title: string, userId: string, filename: string, filePath: string,
                    fileSize: int, competitionRound: string, now: Timestamp): Video
  {
    Video(id, title, Some(""), [], userId, filename, filePath, None, None, fileSize,
          0, 0, 0, 0, 0.0, 0.0, 0.0, 0.0,
          competitionRound, false, None, VideoActive, false, now, None, now)
  }

  /** Rates in [0, 1]: the shape the scorer expects of a video. */
  predicate WellFormedVideo(v: Video) {
    0.0 <= v.completionRate <= 1.0 && 0.0 <= v.replayRate <= 1.0
  }

  /** One entry of a competition's stored result list. */
  datatype Winner = Winner(rank: int, videoId: string, userId: string, score: real, isSpecialWinner: bool)

  /**
   * A competition round. The five signal weights are read with
   * `competition.get(name, default)`, so a stored document may lack any
   * of them: they are optional here.
   */
  datatype Competition = Competition(
    id: string,
    title: string,
    description: Option<string>,
    startDate: Timestamp,
    endDate: Timestamp,
    entryFee: real,
    totalRevenue: real,
    prizePool: real,
    participantCount: int,
    videoCount: int,
    status: CompetitionStatus,
    winnerCount: int,
    specialWinnerCount: int,
    viewWeight: Option<real>,
    likeWeight: Option<real>,
    commentWeight: Option<real>,
    shareWeight: Option<real>,
    completionWeight: Option<real>,
    createdAt: Timestamp,
    createdBy: string,
    winners: seq<Winner>)

  const DefaultViewWeight: real := 0.4
  const DefaultLikeWeight: real := 0.2
  const DefaultCommentWeight: real := 0.2
  const DefaultShareWeight: real := 0.1
  const DefaultCompletionWeight: real := 0.1

  function NewCompetition(id: string, title: string, startDate: Timestamp, endDate: Timestamp,
                          createdBy: string, now: Timestamp): Competition
  {
    Competition(id, title, Some(""), startDate, endDate, 30.0, 0.0, 0.0, 0, 0, CompetitionDraft,
                1000, 10,
                Some(DefaultViewWeight), Some(DefaultLikeWeight), Some(DefaultCommentWeight),
                Some(DefaultShareWeight), Some(DefaultCompletionWeight),
                now, createdBy, [])
  }

  /** A new competition's weights sum to one, and its special winners are among its winners. */
  lemma NewCompetitionDefaults(id: string, title: string, s: Timestamp, e: Timestamp, creator: string, now: Timestamp)
    ensures var c := NewCompetition(id, title, s, e, creator, now);
      && c.viewWeight.value + c.likeWeight.value + c.commentWeight.value
         + c.shareWeight.value + c.completionWeight.value == 1.0
      && 0 <= c.specialWinnerCount <= c.winnerCount
  {
  }

  datatype AlgorithmConfig = AlgorithmConfig(
    id: string,
    name: string,
    version: string,
    recencyFactor: real,
    halfLifeDays: int,
    viralThreshold: real,
    qualityThreshold: real,
    followBoost: real,
    hashtagBoost: real,
    similarContentBoost: real,
    maxSameUser: int,
    maxSameHashtag: int,
    isActive: bool,
    createdAt: Timestamp,
    updatedAt: Timestamp)

  function DefaultConfig(id: string, name: string, version: string, now: Timestamp): AlgorithmConfig {
    AlgorithmConfig(id, name, version, 0.3, 7, 0.1, 0.5, 2.0, 1.5, 1.2, 2, 3, true, now, now)
  }

  /**
   * What the design asks of a configuration: a positive half-life, a
   * recency weight in [0, 1], boosts above 1 and diversity caps of at least 1.
   */
  predicate WellFormedConfig(c: AlgorithmConfig) {
    && c.halfLifeDays > 0
    && 0.0 <= c.recencyFactor <= 1.0
    && c.followBoost > 1.0
    && c.hashtagBoost > 1.0
    && c.maxSameUser >= 1
    && c.maxSameHashtag >= 1
  }

  lemma DefaultConfigWellFormed(id: string, name: string, version: string, now: Timestamp)
    ensures WellFormedConfig(DefaultConfig(id, name, version, now))
    ensures DefaultConfig(id, name, version, now).isActive
  {
  }

  datatype UserPreference = UserPreference(
    id: string,
    userId: string,
    preferredHashtags: seq<string>,
    preferredUsers: seq<string>,
    preferredDuration: Option<real>,
    preferredCategories: seq<string>,
    avgWatchTime: real,
    peakActivityHours: seq<int>,
    skippedHashtags: seq<string>,
    blockedUsers: seq<string>,
    updatedAt: Timestamp)

  function NewPreference(id: string, userId: string, now: Timestamp): UserPreference {
    UserPreference(id, userId, [], [], None, [], 0.0, [], [], [], now)
  }

  /** The design's invariant of a profile: no hashtag is both preferred and skipped. */
  predicate Exclusive(p: UserPreference) {
    forall h :: h in p.preferredHashtags ==> h !in p.skippedHashtags
  }

  /** A profile whose three learned lists hold no repeated entry. */
  predicate DuplicateFree(p: UserPreference) {
    NoDuplicates(p.preferredHashtags) && NoDuplicates(p.skippedHashtags) && NoDuplicates(p.preferredUsers)
  }

  lemma NewPreferenceIsClean(id: string, userId: string, now: Timestamp)
    ensures Exclusive(NewPreference(id, userId, now)) && DuplicateFree(NewPreference(id, userId, now))
  {
  }

  /**
   * The per-video score record. Its own uuid and calculation time are not
   * modelled: nothing in the back end reads them (they only leave with the
   * feed entry's `algorithm_data`).
   */
  datatype AlgorithmScore = AlgorithmScore(
    videoId: string,
    competitionId: string,
    viewScore: real,
    engagementScore: real,
    recencyScore: real,
    qualityScore: real,
    userScore: real,
    totalScore: real,
    rankPosition: int,
    algorithmVersion: string)

  datatype UserFollow = UserFollow(id: string, followerId: string, followingId: string, createdAt: Timestamp)

  /**
   * A ledger entry. The record's declaration is not among the model's
   * sources; its fields are those the credit operations write, and a field
   * they leave to the record's default is `None`.
   */
  datatype CreditTransaction = CreditTransaction(
    id: string,
    userId: string,
    amount: int,
    transactionType: string,
    description: string,
    paymentSessionId: Option<string>,
    videoId: Option<string>,
    status: Option<string>,
    createdAt: Timestamp)

  /** A one-time password record; as for `CreditTransaction`, its fields are those its users read and write. */
  datatype PhoneOtp = PhoneOtp(id: string, phone: string, otpCode: string, expiresAt: Timestamp, isUsed: bool, createdAt: Timestamp)
}

/**
 * `VideoRecommendationEngine` (backend/algorithm.py:10-374): an object
 * holding the database and a cached configuration. Its methods do the
 * lookups and writes of the original and are proved to compute exactly
 * the functions of the Scoring, Personalization, Sorting, Diversity and
 * Feedback modules on the stored records.
 */
module Engine {
  import opened Base
  import opened Models
  import opened Store
  import opened Scoring
  import opened Personalization
  import opened Sorting
  import opened Diversity
  import opened Feedback

  /** The first stored configuration marked active (`find_one({"is_active": True})`). */
  function FirstActive(configs: seq<AlgorithmConfig>): Option<AlgorithmConfig> {
    match FirstIndex(configs, (c: AlgorithmConfig) => c.isActive)
    case None => None
    case Some(i) => Some(configs[i])
  }

  /** The configuration a fresh engine settles on: the first active one, else the default it creates. */
  function ChosenConfig(configs: seq<AlgorithmConfig>, freshId: string, now: Timestamp): (c: AlgorithmConfig)
    ensures FirstActive(configs).None? ==> c.halfLifeDays == 7 && c.isActive && c.id == freshId
    ensures FirstActive(configs).Some? ==> c == FirstActive(configs).value
  {
    FirstActive(configs).GetOr(DefaultConfig(freshId, "Default Recommendation Algorithm", "1.0", now))
  }

  /** The stored configurations once a fresh engine has chosen: the default is stored when none is active. */
  function ConfigsAfter(configs: seq<AlgorithmConfig>, freshId: string, now: Timestamp): (r: seq<AlgorithmConfig>)
    ensures FirstActive(configs).Some? ==> r == configs
    ensures FirstActive(configs).None? ==> r == configs + [ChosenConfig(configs, freshId, now)]
    ensures FirstActive(r) == Some(ChosenConfig(configs, freshId, now))
  {
    if FirstActive(configs).Some? then configs
    else
      var c := ChosenConfig(configs, freshId, now);
      FirstIndexAppendActive(configs, c);
      configs + [c]
  }

  /** The ids a viewer follows (`[f["following_id"] for f in follows]`), in stored order. */
  function FollowingIds(follows: seq<UserFollow>, viewer: string): (r: seq<string>)
    ensures forall u :: u in r <==> exists i :: 0 <= i < |follows| && follows[i].followerId == viewer && follows[i].followingId == u
  {
    if follows == [] then []
    else
      var rest := FollowingIds(follows[..|follows| - 1], viewer);
      var f := follows[|follows| - 1];
      assert forall i :: 0 <= i < |follows| - 1 ==> follows[..|follows| - 1][i] == follows[i];
      if f.followerId == viewer then rest + [f.followingId] else rest
  }

  /** A video taking part in competition `id` and eligible for the feed. */
  predicate InRound(v: Video, id: string) {
    v.competitionRound == id && v.status == VideoActive && v.isPaid
  }

  /** The feed entries, before sorting, for `videos`: composite score, then personalisation. */
  function ScoredFeed(videos: seq<Video>, competitionId: string, comp: Option<Competition>, users: seq<User>,
                      profile: Option<UserPreference>, following: seq<string>, c: AlgorithmConfig,
                      now: Timestamp, m: Numerics): (r: seq<ScoredVideo>)
    requires videos == [] || c.halfLifeDays != 0
    ensures |r| == |videos|
    ensures forall i :: 0 <= i < |videos| ==> r[i].video == videos[i]
  {
    if videos == [] then []
    else
      ScoredFeed(videos[..|videos| - 1], competitionId, comp, users, profile, following, c, now, m)
        + [Scored(videos[|videos| - 1], competitionId, comp, users, profile, following, c, now, m)]
  }

  /** One feed entry: the video, its personalised score and the composite score behind it. */
  function Scored(v: Video, competitionId: string, comp: Option<Competition>, users: seq<User>,
                  profile: Option<UserPreference>, following: seq<string>, c: AlgorithmConfig,
                  now: Timestamp, m: Numerics): (r: ScoredVideo)
    requires c.halfLifeDays != 0
    ensures r.video == v && r.algorithmData.videoId == v.id
  {
    var s := CompositeScore(v, competitionId, comp, LookupUser(users, v.userId), c, now, m);
    ScoredVideo(v, PersonalizedScore(s.totalScore, v, profile, following, c), s)
  }

  /** Scoring one more video extends the scored prefix by that video's entry. */
  lemma ScoredFeedStep(videos: seq<Video>, n: nat, competitionId: string, comp: Option<Competition>, users: seq<User>,
                       profile: Option<UserPreference>, following: seq<string>, c: AlgorithmConfig,
                       now: Timestamp, m: Numerics)
    requires c.halfLifeDays != 0 && n < |videos|
    ensures ScoredFeed(videos[..n + 1], competitionId, comp, users, profile, following, c, now, m)
         == ScoredFeed(videos[..n], competitionId, comp, users, profile, following, c, now, m)
            + [Scored(videos[n], competitionId, comp, users, profile, following, c, now, m)]
  {
    assert videos[..n + 1][..n] == videos[..n];
  }

  /** The sort key of the feed. */
  function ByScore(x: ScoredVideo): real {
    x.score
  }

  /** The stored profile of `userId`, or the profile a first interaction creates. */
  function StoredOrNew(preferences: seq<UserPreference>, userId: string, freshId: string, now: Timestamp): (p: UserPreference)
    ensures p.userId == userId
  {
    match FindPreference(preferences, userId)
    case Some(i) => preferences[i]
    case None => NewPreference(freshId, userId, now)
  }

  /** Every stored profile is duplicate-free. */
  ghost predicate CleanProfiles(preferences: seq<UserPreference>) {
    forall i :: 0 <= i < |preferences| ==> DuplicateFree(preferences[i])
  }

  class RecommendationEngine {
    const db: Database
    /** The numeric library the scorer calls. */
    const math: Numerics
    /** `self.current_config`, filled on first use and never refreshed. */
    var currentConfig: Option<AlgorithmConfig>

    /**
     * The configuration in use has a non-zero half-life: the cached one
     * when there is one, otherwise the one the next lookup would choose
     * (the first active stored one, or the default with half-life 7).
     */
    ghost predicate Usable()
      reads this, db
    {
      match currentConfig
      case Some(c) => c.halfLifeDays != 0
      case None => FirstActive(db.configs).Some? ==> FirstActive(db.configs).value.halfLifeDays != 0
    }

    constructor (db: Database, math: Numerics)
      ensures this.db == db && this.math == math && currentConfig == None
    {
      this.db := db;
      this.math := math;
      currentConfig := None;
    }

    /**
     * `get_algorithm_config`: the cached configuration if there is one;
     * otherwise the first active stored configuration, or a new default
     * one that is also stored. Whatever is returned becomes the cache.
     */
    method GetAlgorithmConfig(freshId: string, now: Timestamp) returns (config: AlgorithmConfig)
      modifies this`currentConfig, db`configs
      ensures currentConfig == Some(config)
      ensures Usable() == old(Usable()) && (Usable() <==> config.halfLifeDays != 0)
      ensures old(currentConfig).Some? ==> config == old(currentConfig).value && db.configs == old(db.configs)
      ensures old(currentConfig).None? ==> config == ChosenConfig(old(db.configs), freshId, now)
      ensures old(currentConfig).None? ==> db.configs == ConfigsAfter(old(db.configs), freshId, now)
    {
      if currentConfig.None? {
        var stored := FirstActive(db.configs);
        if stored.Some? {
          currentConfig := stored;
        } else {
          var created := DefaultConfig(freshId, "Default Recommendation Algorithm", "1.0", now);
          currentConfig := Some(created);
          FirstIndexAppendActive(db.configs, created);
          db.configs := db.configs + [created];
        }
      }
      config := currentConfig.value;
    }

    /** `calculate_recency_score` with the engine's configuration. */
    method CalculateRecencyScore(video: Video, freshId: string, now: Timestamp) returns (score: real)
      requires Usable()
      modifies this`currentConfig, db`configs
      ensures Usable() && currentConfig.Some?
      ensures old(currentConfig).Some? ==> currentConfig == old(currentConfig) && db.configs == old(db.configs)
      ensures old(currentConfig).None? ==> currentConfig == Some(ChosenConfig(old(db.configs), freshId, now))
      ensures old(currentConfig).None? ==> db.configs == ConfigsAfter(old(db.configs), freshId, now)
      ensures score == RecencyScore(video, currentConfig.value, now, math)
    {
      var config := GetAlgorithmConfig(freshId, now);
      score := RecencyScore(video, config, now, math);
    }

    /** `calculate_user_score`: the creator is looked up by id. */
    method CalculateUserScore(video: Video) returns (score: real)
      ensures score == UserScore(LookupUser(db.users, video.userId), math)
      ensures 50.0 <= score <= 100.0 || !Lawful(math)
    {
      var found := FindUser(db.users, video.userId);
      var user := if found.Some? then Some(db.users[found.value]) else None;
      score := UserScore(user, math);
      if Lawful(math) { UserScoreRange(user, math); }
    }

    /**
     * `calculate_composite_score`: the competition is looked up by id and
     * the creator by the video's owner; nothing but the configuration
     * cache (and, on first use, the stored configurations) changes.
     */
    method CalculateCompositeScore(video: Video, competitionId: string, freshId: string, now: Timestamp)
      returns (score: AlgorithmScore)
      requires Usable()
      modifies this`currentConfig, db`configs
      ensures Usable() && currentConfig.Some?
      ensures old(currentConfig).Some? ==> currentConfig == old(currentConfig) && db.configs == old(db.configs)
      ensures old(currentConfig).None? ==> currentConfig == Some(ChosenConfig(old(db.configs), freshId, now))
      ensures old(currentConfig).None? ==> db.configs == ConfigsAfter(old(db.configs), freshId, now)
      ensures score == CompositeScore(video, competitionId, LookupCompetition(db.competitions, competitionId),
                                      LookupUser(db.users, video.userId), currentConfig.value, now, math)
    {
      var competition := LookupCompetition(db.competitions, competitionId);
      var recency := CalculateRecencyScore(video, freshId, now);
      var user := CalculateUserScore(video);
      var config := currentConfig.value;
      var weights := CompetitionWeights(competition);
      var view, engagement, quality := ViewScore(video, math), EngagementScore(video, math), QualityScore(video);
      var total := WeightedTotal(weights, view, engagement, quality, recency, user);
      score := AlgorithmScore(video.id, competitionId, view, engagement, recency, quality, user, Min(total, 100.0), 0, "1.0");
    }

    /** One iteration of the scoring loop of `get_personalized_feed`. */
    method ScoreOne(video: Video, competitionId: string, profile: Option<UserPreference>,
                    following: seq<string>, freshId: string, now: Timestamp) returns (item: ScoredVideo)
      requires Usable() && currentConfig.Some?
      modifies this`currentConfig, db`configs
      ensures Usable() && currentConfig == old(currentConfig) && db.configs == old(db.configs)
      ensures item == Scored(video, competitionId, LookupCompetition(db.competitions, competitionId), db.users,
                             profile, following, currentConfig.value, now, math)
    {
      var score := CalculateCompositeScore(video, competitionId, freshId, now);
      var finalScore := Personalize(score.totalScore, video, profile, following, currentConfig.value);
      item := ScoredVideo(video, finalScore, score);
    }

    /** The scoring loop of `get_personalized_feed`, once the configuration is cached. */
    method ScoreVideos(videos: seq<Video>, competitionId: string, profile: Option<UserPreference>,
                       following: seq<string>, freshId: string, now: Timestamp) returns (scored: seq<ScoredVideo>)
      requires currentConfig.Some? && (videos != [] ==> Usable())
      modifies this`currentConfig, db`configs
      ensures currentConfig == old(currentConfig) && db.configs == old(db.configs)
      ensures scored == ScoredFeed(videos, competitionId, LookupCompetition(db.competitions, competitionId), db.users,
                                   profile, following, currentConfig.value, now, math)
    {
      var config := currentConfig.value;
      var comp := LookupCompetition(db.competitions, competitionId);
      scored := [];
      var n := 0;
      while n < |videos|
        invariant 0 <= n <= |videos|
        invariant currentConfig == Some(config) && db.configs == old(db.configs)
        invariant videos != [] ==> Usable()
        invariant scored == ScoredFeed(videos[..n], competitionId, comp, db.users, profile, following, config, now, math)
      {
        var item := ScoreOne(videos[n], competitionId, profile, following, freshId, now);
        ScoredFeedStep(videos, n, competitionId, comp, db.users, profile, following, config, now, math);
        scored := scored + [item];
        n := n + 1;
      }
      assert videos[..n] == videos;
    }

    /**
     * `get_personalized_feed`: the eligible videos of the first active
     * competition, scored and personalised (a logged-in viewer's stored
     * profile and follows), sorted by score with ties in stored order,
     * then thinned by the diversity filter.
     */
    method GetPersonalizedFeed(userId: Option<string>, limit: int, freshId: string, now: Timestamp)
      returns (feed: seq<ScoredVideo>)
      requires FeedScores(db.competitions, db.videos) ==> Usable()
      modifies this`currentConfig, db`configs
      ensures currentConfig.Some? && Usable() == old(Usable())
      ensures old(currentConfig).Some? ==> currentConfig == old(currentConfig) && db.configs == old(db.configs)
      ensures old(currentConfig).None? ==> currentConfig == Some(ChosenConfig(old(db.configs), freshId, now))
      ensures old(currentConfig).None? ==> db.configs == ConfigsAfter(old(db.configs), freshId, now)
      ensures feed == PersonalizedFeed(db.competitions, db.videos, db.users, db.preferences, db.follows, userId,
                                       currentConfig.value, limit, now, math)
    {
      var config := GetAlgorithmConfig(freshId, now);
      var active := ActiveCompetition(db.competitions);
      if active.None? {
        return [];
      }
      var comp := active.value;
      var profile: Option<UserPreference> := None;
      var following: seq<string> := [];
      if userId.Some? && userId.value != "" {
        profile := LookupPreference(db.preferences, userId.value);
        following := FollowingIds(db.follows, userId.value);
      }
      var videos := RoundVideos(db.videos, comp.id);
      var scored := ScoreVideos(videos, comp.id, profile, following, freshId, now);
      var sorted := SortDesc(ByScore, scored);
      feed := ApplyDiversityRules(sorted, config, limit);
    }

    /**
     * `update_video_metrics`: the first video with that id is rewritten
     * as `AfterInteraction` describes; with no such video nothing is
     * written.
     */
    method UpdateVideoMetrics(videoId: string, kind: string, value: Option<real>, now: Timestamp)
      requires FindVideo(db.videos, videoId).Some? ==> WatchDurationKnown(db.videos[FindVideo(db.videos, videoId).value], kind, value)
      modifies db`videos
      ensures FindVideo(old(db.videos), videoId).None? ==> db.videos == old(db.videos)
      ensures FindVideo(old(db.videos), videoId).Some? ==>
        var i := FindVideo(old(db.videos), videoId).value;
        db.videos == old(db.videos)[i := AfterInteraction(old(db.videos)[i], kind, value, now)]
    {
      var found := FindVideo(db.videos, videoId);
      if found.None? {
        return;
      }
      var updated := InteractedVideo(db.videos[found.value], kind, value, now);
      db.videos := db.videos[found.value := updated];
    }

    /**
     * `learn_user_preferences`: for a known video, the viewer's stored
     * profile (or a new one) is updated in place, list by list, and
     * upserted; the result is `Learn` of the profile, and clean profiles
     * stay clean. With no such video nothing is written.
     */
    method LearnUserPreferences(userId: string, videoId: string, kind: string, value: Option<real>,
                                freshId: string, now: Timestamp)
      modifies db`preferences
      ensures FindVideo(db.videos, videoId).None? ==> db.preferences == old(db.preferences)
      ensures FindVideo(db.videos, videoId).Some? ==>
        db.preferences == UpsertPreference(old(db.preferences),
          Learn(StoredOrNew(old(db.preferences), userId, freshId, now), db.videos[FindVideo(db.videos, videoId).value],
                kind, value, now))
      ensures CleanProfiles(old(db.preferences)) ==> CleanProfiles(db.preferences)
      ensures OnePerViewer(old(db.preferences)) ==> OnePerViewer(db.preferences)
    {
      var found := FindVideo(db.videos, videoId);
      if found.None? {
        return;
      }
      var video := db.videos[found.value];
      var pref := StoredOrNew(db.preferences, userId, freshId, now);
      var learned := LearnProfile(pref, video, kind, value, now);
      ghost var before := db.preferences;
      db.preferences := UpsertPreference(db.preferences, learned);
      if CleanProfiles(before) {
        NewPreferenceIsClean(freshId, userId, now);
        LearnKeepsDuplicateFree(pref, video, kind, value, now);
      }
    }
  }

  /** The list-by-list update of the profile in `learn_user_preferences`. */
  method LearnProfile(pref: UserPreference, video: Video, kind: string, value: Option<real>, now: Timestamp)
    returns (learned: UserPreference)
    ensures learned == Learn(pref, video, kind, value, now)
  {
    var preferred, skipped, users := pref.preferredHashtags, pref.skippedHashtags, pref.preferredUsers;
    var duration := pref.preferredDuration;
    if kind == "like" || kind == "comment" || kind == "share" {
      preferred, skipped := LikeHashtags(preferred, skipped, video.hashtags);
      if video.userId !in users {
        users := users + [video.userId];
      }
    } else if kind == "watch_time" && Truthy(value) && Truthy(video.duration) {
      if value.value / video.duration.value < 0.3 {
        skipped := SkipHashtags(skipped, video.hashtags);
      } else if Truthy(duration) {
        duration := Some((duration.value + video.duration.value) / 2.0);
      } else {
        duration := video.duration;
      }
    }
    learned := pref.(preferredHashtags := preferred, skippedHashtags := skipped, preferredUsers := users,
                       preferredDuration := duration, updatedAt := now);
  }

  /** The like/comment/share loop of `learn_user_preferences` over the video's hashtags. */
  method LikeHashtags(preferred0: seq<string>, skipped0: seq<string>, hashtags: seq<string>)
    returns (preferred: seq<string>, skipped: seq<string>)
    ensures Tags(preferred, skipped) == LikeTags(Tags(preferred0, skipped0), hashtags)
  {
    preferred, skipped := preferred0, skipped0;
    var k := 0;
    while k < |hashtags|
      invariant 0 <= k <= |hashtags|
      invariant Tags(preferred, skipped) == LikeTags(Tags(preferred0, skipped0), hashtags[..k])
    {
      var hashtag := hashtags[k];
      assert hashtags[..k + 1][..k] == hashtags[..k];
      if hashtag !in preferred {
        preferred := preferred + [hashtag];
      }
      if hashtag in skipped {
        skipped := RemoveFirst(skipped, hashtag);
      }
      k := k + 1;
    }
    assert hashtags[..k] == hashtags;
  }

  /** The short-watch loop of `learn_user_preferences`. */
  method SkipHashtags(skipped0: seq<string>, hashtags: seq<string>) returns (skipped: seq<string>)
    ensures skipped == SkipTags(skipped0, hashtags)
  {
    skipped := skipped0;
    var k := 0;
    while k < |hashtags|
      invariant 0 <= k <= |hashtags|
      invariant skipped == SkipTags(skipped0, hashtags[..k])
    {
      var hashtag := hashtags[k];
      assert hashtags[..k + 1][..k] == hashtags[..k];
      if hashtag !in skipped {
        skipped := skipped + [hashtag];
      }
      k := k + 1;
    }
    assert hashtags[..k] == hashtags;
  }

  /** The field updates of `update_video_metrics` on one video, step by step. */
  method InteractedVideo(video: Video, kind: string, value: Option<real>, now: Timestamp) returns (updated: Video)
    requires WatchDurationKnown(video, kind, value)
    ensures updated == AfterInteraction(video, kind, value, now)
  {
    updated := video.(lastUpdated := now);
    if kind == "view" {
      updated := updated.(viewCount := video.viewCount + 1);
    } else if kind == "like" {
      updated := updated.(likeCount := video.likeCount + 1);
    } else if kind == "comment" {
      updated := updated.(commentCount := video.commentCount + 1);
    } else if kind == "share" {
      updated := updated.(shareCount := video.shareCount + 1);
    } else if kind == "watch_time" && Truthy(value) {
      if video.duration.value > 0.0 {
        var completionRate := Min(value.value / video.duration.value, 1.0);
        updated := updated.(completionRate := (video.completionRate + completionRate) / 2.0);
      }
    }
    if kind == "like" || kind == "comment" || kind == "share" {
      var totalEngagements := video.likeCount + video.commentCount + video.shareCount * 2;
      if video.viewCount > 0 {
        updated := updated.(engagementRate := totalEngagements as real / video.viewCount as real);
      }
    }
  }

  /** `competitions.find_one({"status": "active"})`. */
  function ActiveCompetition(competitions: seq<Competition>): (r: Option<Competition>)
    ensures r.Some? ==> r.value in competitions && r.value.status == CompetitionActive
    ensures r.None? ==> forall i :: 0 <= i < |competitions| ==> competitions[i].status != CompetitionActive
  {
    match FirstIndex(competitions, (c: Competition) => c.status == CompetitionActive)
    case None => None
    case Some(i) => Some(competitions[i])
  }

  /** The feed query: paid, active videos of round `id`, in stored order. */
  function RoundVideos(videos: seq<Video>, id: string): (r: seq<Video>)
    ensures forall v :: v in r <==> v in videos && InRound(v, id)
  {
    Filter(videos, (v: Video) => InRound(v, id))
  }

  /** The feed scores something: there is an active competition and it has an eligible video. */
  predicate FeedScores(competitions: seq<Competition>, videos: seq<Video>) {
    match ActiveCompetition(competitions)
    case None => false
    case Some(comp) => RoundVideos(videos, comp.id) != []
  }

  /**
   * Without an active competition, or with no eligible video in its round,
   * the feed is empty whatever the configuration, a zero half-life
   * included: nothing is scored, so nothing is divided.
   */
  lemma UnscoredFeedIsEmpty(competitions: seq<Competition>, videos: seq<Video>, users: seq<User>,
                            preferences: seq<UserPreference>, follows: seq<UserFollow>, userId: Option<string>,
                            c: AlgorithmConfig, limit: int, now: Timestamp, m: Numerics)
    requires !FeedScores(competitions, videos)
    ensures PersonalizedFeed(competitions, videos, users, preferences, follows, userId, c, limit, now, m) == []
  {
  }

  /**
   * The feed `get_personalized_feed` returns for the given store contents
   * and configuration: empty without an active competition; otherwise the
   * round's videos scored, personalised for a logged-in viewer, sorted by
   * descending score (stable) and filtered for diversity.
   */
  function PersonalizedFeed(competitions: seq<Competition>, videos: seq<Video>, users: seq<User>,
                            preferences: seq<UserPreference>, follows: seq<UserFollow>, userId: Option<string>,
                            c: AlgorithmConfig, limit: int, now: Timestamp, m: Numerics): seq<ScoredVideo>
    requires FeedScores(competitions, videos) ==> c.halfLifeDays != 0
  {
    match ActiveCompetition(competitions)
    case None => []
    case Some(comp) =>
      var loggedIn := userId.Some? && userId.value != "";
      var profile := if loggedIn then LookupPreference(preferences, userId.value) else None;
      var following := if loggedIn then FollowingIds(follows, userId.value) else [];
      var scored := ScoredFeed(RoundVideos(videos, comp.id), comp.id, LookupCompetition(competitions, comp.id), users,
                               profile, following, c, now, m);
      Select(SortDesc(ByScore, scored), c, limit, [])
  }

  /**
   * What the feed promises: it holds only eligible videos of the active
   * competition, in non-increasing score order, with no creator more than
   * `max_same_user` times, no hashtag on more than `max_same_hashtag`
   * entries, and at most `limit` entries (one when `limit` is below 1).
   */
  lemma PersonalizedFeedFacts(competitions: seq<Competition>, videos: seq<Video>, users: seq<User>,
                              preferences: seq<UserPreference>, follows: seq<UserFollow>, userId: Option<string>,
                              c: AlgorithmConfig, limit: int, now: Timestamp, m: Numerics)
    requires FeedScores(competitions, videos) ==> c.halfLifeDays != 0
    ensures var feed := PersonalizedFeed(competitions, videos, users, preferences, follows, userId, c, limit, now, m);
      && SortedDesc(ByScore, feed)
      && (forall u :: CreatorCount(feed, u) <= MaxInt(c.maxSameUser, 0))
      && (forall h :: VideosWithTag(feed, h) <= MaxInt(c.maxSameHashtag, 0))
      && |feed| <= MaxInt(limit, 1)
      && (feed != [] ==> ActiveCompetition(competitions).Some?)
      && (forall i :: 0 <= i < |feed| ==> feed[i].video in videos && InRound(feed[i].video, ActiveCompetition(competitions).value.id))
  {
    var feed := PersonalizedFeed(competitions, videos, users, preferences, follows, userId, c, limit, now, m);
    match ActiveCompetition(competitions)
    case None =>
    case Some(comp) =>
      var loggedIn := userId.Some? && userId.value != "";
      var profile := if loggedIn then LookupPreference(preferences, userId.value) else None;
      var following := if loggedIn then FollowingIds(follows, userId.value) else [];
      var round := RoundVideos(videos, comp.id);
      assert round == [] || c.halfLifeDays != 0;
      var scored := ScoredFeed(round, comp.id, LookupCompetition(competitions, comp.id), users, profile, following, c, now, m);
      RoundFeedFacts(scored, round, videos, comp.id, c, limit);
  }

  /** The sorting and filtering steps of the feed, applied to the scored entries of a round. */
  lemma RoundFeedFacts(scored: seq<ScoredVideo>, round: seq<Video>, videos: seq<Video>, id: string,
                       c: AlgorithmConfig, limit: int)
    requires |scored| == |round| && forall k :: 0 <= k < |round| ==> scored[k].video == round[k]
    requires round == RoundVideos(videos, id)
    ensures var feed := Select(SortDesc(ByScore, scored), c, limit, []);
      && SortedDesc(ByScore, feed)
      && (forall u :: CreatorCount(feed, u) <= MaxInt(c.maxSameUser, 0))
      && (forall h :: VideosWithTag(feed, h) <= MaxInt(c.maxSameHashtag, 0))
      && |feed| <= MaxInt(limit, 1)
      && (forall i :: 0 <= i < |feed| ==> feed[i].video in videos && InRound(feed[i].video, id))
  {
    var sorted := SortDesc(ByScore, scored);
    var feed := Select(sorted, c, limit, []);
    SortDescCorrect(ByScore, scored);
    SelectFacts(sorted, c, limit, []);
    assert feed[0..] == feed;
    SubsequenceSorted(ByScore, feed, sorted);
    SubsequenceMembers(feed, sorted);
    EntriesFromRound(feed, sorted, scored, round, videos, id);
  }

  /** Entries drawn from a reordering of the round's scored videos are round videos. */
  lemma EntriesFromRound(feed: seq<ScoredVideo>, sorted: seq<ScoredVideo>, scored: seq<ScoredVideo>,
                         round: seq<Video>, videos: seq<Video>, id: string)
    requires forall i :: 0 <= i < |feed| ==> feed[i] in sorted
    requires multiset(sorted) == multiset(scored)
    requires |scored| == |round| && forall k :: 0 <= k < |round| ==> scored[k].video == round[k]
    requires round == RoundVideos(videos, id)
    ensures forall i :: 0 <= i < |feed| ==> feed[i].video in videos && InRound(feed[i].video, id)
  {
    forall i | 0 <= i < |feed| ensures feed[i].video in videos && InRound(feed[i].video, id) {
      assert feed[i] in multiset(sorted);
      assert feed[i] in multiset(scored);
      var k :| 0 <= k < |scored| && scored[k] == feed[i];
      assert round[k] in round;
    }
  }

  /** `user_preferences.find_one({"user_id": id})`, as the record itself. */
  function LookupPreference(preferences: seq<UserPreference>, userId: string): (r: Option<UserPreference>)
    ensures r.Some? ==> r.value in preferences && r.value.userId == userId
    ensures r.None? <==> forall i :: 0 <= i < |preferences| ==> preferences[i].userId != userId
  {
    match FindPreference(preferences, userId)
    case None => None
    case Some(i) => Some(preferences[i])
  }

  /** Appending an active configuration to a store without one makes it the first active. */
  lemma FirstIndexAppendActive(configs: seq<AlgorithmConfig>, c: AlgorithmConfig)
    requires FirstActive(configs).None? && c.isActive
    ensures FirstActive(configs + [c]) == Some(c)
  {
    var s := configs + [c];
    assert forall j :: 0 <= j < |configs| ==> s[j] == configs[j];
    assert s[|configs|] == c;
  }
}

/**
 * The five sub-scores of `VideoRecommendationEngine` and the weighted
 * composite (backend/algorithm.py:30-169). Each sub-score is a closed form
 * with a cap at 100; the database reads they perform (the creator record,
 * the competition record) and the configuration are parameters, so every
 * score is a function of its inputs.
 */
module Scoring {
  import opened Base
  import opened Models

  /** Scaling by a non-negative factor keeps an order. */
  lemma ScaleMono(a: real, b: real, k: real)
    requires a <= b && k >= 0.0
    ensures a * k <= b * k
  {
  }

  lemma ProductNonNegative(a: real, k: real)
    requires a >= 0.0 && k >= 0.0
    ensures a * k >= 0.0
  {
  }

  lemma DivMono(a: real, b: real, d: real)
    requires a <= b && d > 0.0
    ensures a / d <= b / d
  {
  }

  /** A lawful log10 is non-negative from 1 on. */
  lemma LogNonNegative(m: Numerics, x: real)
    requires Lawful(m) && x >= 1.0
    ensures m.log10(x) >= 0.0
  {
    assert m.log10(1.0) <= m.log10(x);
  }

  // ---------------------------------------------------------------- view

  /** `calculate_view_score`: log-scaled views, 0 for an unseen video, capped at 100. */
  function ViewScore(v: Video, m: Numerics): (r: real)
    ensures v.viewCount == 0 ==> r == 0.0
    ensures r <= 100.0
  {
    if v.viewCount == 0 then 0.0 else Min(m.log10(v.viewCount as real + 1.0) * 20.0, 100.0)
  }

  lemma ViewScoreRange(v: Video, m: Numerics)
    requires Lawful(m)
    ensures 0.0 <= ViewScore(v, m) <= 100.0
  {
    LogNonNegative(m, v.viewCount as real + 1.0);
  }

  /** More views never lower the view score. */
  lemma ViewScoreMonotone(v: Video, w: Video, m: Numerics)
    requires Lawful(m) && v.viewCount <= w.viewCount
    ensures ViewScore(v, m) <= ViewScore(w, m)
  {
    if v.viewCount == 0 {
      ViewScoreRange(w, m);
    } else {
      assert m.log10(v.viewCount as real + 1.0) <= m.log10(w.viewCount as real + 1.0);
    }
  }

  // ---------------------------------------------------------- engagement

  /** Likes, comments and shares per view, a share counting twice. */
  function EngagementRatio(v: Video): (r: real)
    requires v.viewCount > 0
    ensures r >= 0.0
  {
    (v.likeCount + v.commentCount + 2 * v.shareCount) as real / v.viewCount as real
  }

  /** The log-scaled engagement before the completion bonus. */
  function EngagementBase(v: Video, m: Numerics): (r: real)
    requires v.viewCount > 0
    ensures r <= 100.0
  {
    var rate := EngagementRatio(v);
    if rate > 0.0 then Min(m.log10(rate * 100.0 + 1.0) * 25.0, 100.0) else 0.0
  }

  /**
   * `calculate_engagement_score`: 0 for an unseen video; otherwise the base,
   * times 1.2 when more than 70% of the video is watched, capped at 100.
   */
  function EngagementScore(v: Video, m: Numerics): (r: real)
    ensures v.viewCount == 0 ==> r == 0.0
    ensures r <= 100.0
  {
    if v.viewCount == 0 then 0.0
    else
      var base := EngagementBase(v, m);
      Min(if v.completionRate > 0.7 then base * 1.2 else base, 100.0)
  }

  lemma EngagementScoreRange(v: Video, m: Numerics)
    requires Lawful(m)
    ensures 0.0 <= EngagementScore(v, m) <= 100.0
  {
    if v.viewCount > 0 && EngagementRatio(v) > 0.0 {
      LogNonNegative(m, EngagementRatio(v) * 100.0 + 1.0);
    }
  }

  /** A share weighs exactly as much as two likes. */
  lemma SharesWeighDouble(v: Video, m: Numerics)
    ensures EngagementScore(v.(shareCount := v.shareCount + 1), m)
         == EngagementScore(v.(likeCount := v.likeCount + 2), m)
  {
    var a, b := v.(shareCount := v.shareCount + 1), v.(likeCount := v.likeCount + 2);
    assert a.likeCount + a.commentCount + 2 * a.shareCount == b.likeCount + b.commentCount + 2 * b.shareCount;
  }

  /**
   * The completion bonus needs strictly more than 70%: at exactly 0.7 the
   * score is that of a video nobody finished, and any rate above 0.7
   * scores at least as much.
   */
  lemma CompletionBonusStrict(v: Video, m: Numerics, c: real)
    requires Lawful(m) && c > 0.7
    ensures EngagementScore(v.(completionRate := 0.7), m) == EngagementScore(v.(completionRate := 0.0), m)
    ensures EngagementScore(v.(completionRate := 0.7), m) <= EngagementScore(v.(completionRate := c), m)
  {
    EngagementScoreRange(v.(completionRate := 0.7), m);
    if v.viewCount > 0 {
      assert EngagementBase(v.(completionRate := 0.7), m) == EngagementBase(v.(completionRate := c), m);
    }
  }

  // ------------------------------------------------------------- recency

  /** The age in days at time `now`; negative for an upload date in the future (no clamp). */
  function AgeDays(v: Video, now: Timestamp): real {
    (now - v.uploadDate) / SecondsPerDay
  }

  /**
   * `calculate_recency_score`: a half-life decay scaled by the recency
   * factor, capped at 100. A zero half-life divides by zero in the
   * original, so it is excluded.
   */
  function RecencyScore(v: Video, c: AlgorithmConfig, now: Timestamp, m: Numerics): (r: real)
    requires c.halfLifeDays != 0
    ensures r <= 100.0
  {
    Min(m.halfPow(AgeDays(v, now) / c.halfLifeDays as real) * c.recencyFactor * 100.0, 100.0)
  }

  lemma RecencyRange(v: Video, c: AlgorithmConfig, now: Timestamp, m: Numerics)
    requires Lawful(m) && c.halfLifeDays != 0 && c.recencyFactor >= 0.0
    ensures 0.0 <= RecencyScore(v, c, now, m) <= 100.0
  {
    var p := m.halfPow(AgeDays(v, now) / c.halfLifeDays as real);
    assert p > 0.0;
    ScaleMono(0.0, p, c.recencyFactor);
  }

  /** A video never becomes more recent: later evaluation times give no higher score. */
  lemma RecencyNonIncreasing(v: Video, c: AlgorithmConfig, now1: Timestamp, now2: Timestamp, m: Numerics)
    requires Lawful(m) && c.halfLifeDays > 0 && c.recencyFactor >= 0.0 && now1 <= now2
    ensures RecencyScore(v, c, now2, m) <= RecencyScore(v, c, now1, m)
  {
    var hl := c.halfLifeDays as real;
    AgeDaysMono(v, now1, now2);
    DivMono(AgeDays(v, now1), AgeDays(v, now2), hl);
    HalfPowAntitone(m, AgeDays(v, now1) / hl, AgeDays(v, now2) / hl);
    DecayMono(m.halfPow(AgeDays(v, now2) / hl), m.halfPow(AgeDays(v, now1) / hl), c.recencyFactor);
  }

  lemma AgeDaysMono(v: Video, now1: Timestamp, now2: Timestamp)
    requires now1 <= now2
    ensures AgeDays(v, now1) <= AgeDays(v, now2)
  {
    DivMono(now1 - v.uploadDate, now2 - v.uploadDate, SecondsPerDay);
  }

  lemma HalfPowAntitone(m: Numerics, x: real, y: real)
    requires Lawful(m) && x <= y
    ensures m.halfPow(y) <= m.halfPow(x)
  {
  }

  /** The capped, scaled decay is monotone in the decay value. */
  lemma DecayMono(p2: real, p1: real, factor: real)
    requires p2 <= p1 && factor >= 0.0
    ensures Min(p2 * factor * 100.0, 100.0) <= Min(p1 * factor * 100.0, 100.0)
  {
    var f := factor * 100.0;
    ScaleMono(p2, p1, f);
    assert p2 * factor * 100.0 == p2 * f;
    assert p1 * factor * 100.0 == p1 * f;
  }

  /** With the default configuration a video one half-life (7 days) old scores 15. */
  lemma RecencyOneHalfLife(v: Video, c: AlgorithmConfig, m: Numerics)
    requires Lawful(m) && c.halfLifeDays == 7 && c.recencyFactor == 0.3
    ensures RecencyScore(v, c, v.uploadDate + 7.0 * SecondsPerDay, m) == 15.0
  {
    assert AgeDays(v, v.uploadDate + 7.0 * SecondsPerDay) / 7.0 == 1.0;
  }

  /**
   * The age is not clamped at zero: a video dated in the future by a
   * positive half-life decays "backwards" and, with recency factor 1,
   * reaches the cap.
   */
  lemma RecencyFutureUpload(v: Video, c: AlgorithmConfig, now: Timestamp, m: Numerics)
    requires Lawful(m) && c.halfLifeDays > 0 && c.recencyFactor == 1.0 && now < v.uploadDate
    ensures RecencyScore(v, c, now, m) == 100.0
  {
    var x := AgeDays(v, now) / c.halfLifeDays as real;
    assert AgeDays(v, now) < 0.0;
    assert x < 0.0;
    assert m.halfPow(0.0) <= m.halfPow(x);
  }

  // ------------------------------------------------------------- quality

  /**
   * The duration bonus: 20 for 15 to 60 seconds, 10 for more than 60 up to
   * 120, nothing otherwise (a missing duration included).
   */
  function DurationBonus(d: Option<real>): (r: real)
    ensures r == 20.0 <==> d.Some? && 15.0 <= d.value <= 60.0
    ensures r == 10.0 <==> d.Some? && 60.0 < d.value <= 120.0
    ensures r == 0.0 <==> !(d.Some? && 15.0 <= d.value <= 120.0)
  {
    if Truthy(d) then
      if 15.0 <= d.value <= 60.0 then 20.0
      else if 60.0 < d.value <= 120.0 then 10.0
      else 0.0
    else 0.0
  }

  /** `calculate_quality_score`: completion (up to 50), replay (up to 30), the duration bonus, capped at 100. */
  function QualityScore(v: Video): (r: real)
    ensures r <= 100.0
  {
    Min(v.completionRate * 50.0 + v.replayRate * 30.0 + DurationBonus(v.duration), 100.0)
  }

  /** For rates in [0, 1] the points add up to at most 100, so the cap never binds. */
  lemma QualityCapInactive(v: Video)
    requires WellFormedVideo(v)
    ensures QualityScore(v) == v.completionRate * 50.0 + v.replayRate * 30.0 + DurationBonus(v.duration)
    ensures 0.0 <= QualityScore(v)
  {
    ScaleMono(v.completionRate, 1.0, 50.0);
    ScaleMono(v.replayRate, 1.0, 30.0);
    ScaleMono(0.0, v.completionRate, 50.0);
    ScaleMono(0.0, v.replayRate, 30.0);
  }

  // ------------------------------------------------------------- creator

  function FollowerBoost(followers: int, m: Numerics): (r: real)
    ensures followers <= 0 ==> r == 0.0
    ensures r <= 20.0
  {
    if followers > 0 then Min(m.log10(followers as real + 1.0) * 5.0, 20.0) else 0.0
  }

  /** 15 points when the creator's likes exceed 5% of their views. */
  function AudienceBonus(likes: int, views: int): (r: real)
    ensures r == 15.0 <==> views > 0 && likes as real > 0.05 * views as real
    ensures r == 0.0 <==> !(views > 0 && likes as real > 0.05 * views as real)
  {
    if views > 0 && likes as real / views as real > 0.05 then 15.0 else 0.0
  }

  /**
   * `calculate_user_score`, given the result of looking the creator up:
   * 50 for an unknown creator; otherwise 50 plus the verified, follower and
   * audience bonuses, capped at 100.
   */
  function UserScore(creator: Option<User>, m: Numerics): (r: real)
    ensures creator.None? ==> r == 50.0
    ensures r <= 100.0
  {
    match creator
    case None => 50.0
    case Some(u) =>
      Min(50.0 + (if u.isVerified then 15.0 else 0.0)
               + FollowerBoost(u.followerCount, m)
               + AudienceBonus(u.totalLikes, u.totalViews), 100.0)
  }

  lemma UserScoreRange(creator: Option<User>, m: Numerics)
    requires Lawful(m)
    ensures 50.0 <= UserScore(creator, m) <= 100.0
  {
    if creator.Some? && creator.value.followerCount > 0 {
      LogNonNegative(m, creator.value.followerCount as real + 1.0);
    }
  }

  /** A freshly registered creator scores exactly like an unknown one. */
  lemma NewUserScoresAsUnknown(id: string, username: string, displayName: string, now: Timestamp, m: Numerics)
    ensures UserScore(Some(NewUser(id, username, displayName, now)), m) == UserScore(None, m)
  {
  }

  /** Verification never lowers a creator's score. */
  lemma VerificationNeverLowers(u: User, m: Numerics)
    ensures UserScore(Some(u.(isVerified := false)), m) <= UserScore(Some(u.(isVerified := true)), m)
  {
  }

  // ----------------------------------------------------------- composite

  /** The five signal weights of a competition. */
  datatype Weights = Weights(view: real, like: real, comment: real, share: real, completion: real)

  /** The weights used when there is no competition record. */
  const DefaultWeights := Weights(DefaultViewWeight, DefaultLikeWeight, DefaultCommentWeight,
                                  DefaultShareWeight, DefaultCompletionWeight)

  /** `x` is what `get` returns for a field `stored` with fallback `fallback`. */
  predicate Picked(stored: Option<real>, fallback: real, x: real) {
    (stored.Some? ==> x == stored.value) && (stored.None? ==> x == fallback)
  }

  /** `competition.get(name, default)` for each weight; all defaults when the record is missing. */
  function CompetitionWeights(comp: Option<Competition>): (w: Weights)
    ensures comp.None? ==> w == DefaultWeights
    ensures comp.Some? ==>
      && Picked(comp.value.viewWeight, DefaultViewWeight, w.view)
      && Picked(comp.value.likeWeight, DefaultLikeWeight, w.like)
      && Picked(comp.value.commentWeight, DefaultCommentWeight, w.comment)
      && Picked(comp.value.shareWeight, DefaultShareWeight, w.share)
      && Picked(comp.value.completionWeight, DefaultCompletionWeight, w.completion)
  {
    match comp
    case None => DefaultWeights
    case Some(c) =>
      Weights(c.viewWeight.GetOr(DefaultViewWeight), c.likeWeight.GetOr(DefaultLikeWeight),
              c.commentWeight.GetOr(DefaultCommentWeight), c.shareWeight.GetOr(DefaultShareWeight),
              c.completionWeight.GetOr(DefaultCompletionWeight))
  }

  predicate NonNegativeWeights(w: Weights) {
    w.view >= 0.0 && w.like >= 0.0 && w.comment >= 0.0 && w.share >= 0.0 && w.completion >= 0.0
  }

  /** The uncapped weighted total: the three social weights act on the engagement score together. */
  function WeightedTotal(w: Weights, view: real, engagement: real, quality: real, recency: real, user: real): real {
    view * w.view + engagement * (w.like + w.comment + w.share) + quality * w.completion
      + recency * 0.2 + user * 0.1
  }

  /**
   * `calculate_composite_score`, given the competition and creator records
   * the original looks up: the five sub-scores and their weighted total,
   * capped at 100. Building the record touches nothing else.
   */
  function CompositeScore(v: Video, competitionId: string, comp: Option<Competition>, creator: Option<User>,
                          c: AlgorithmConfig, now: Timestamp, m: Numerics): (s: AlgorithmScore)
    requires c.halfLifeDays != 0
    ensures s.videoId == v.id && s.competitionId == competitionId
    ensures s.viewScore == ViewScore(v, m) && s.engagementScore == EngagementScore(v, m)
    ensures s.recencyScore == RecencyScore(v, c, now, m) && s.qualityScore == QualityScore(v)
    ensures s.userScore == UserScore(creator, m)
    ensures s.totalScore <= 100.0
    ensures s.rankPosition == 0 && s.algorithmVersion == "1.0"
  {
    var view, engagement := ViewScore(v, m), EngagementScore(v, m);
    var recency, quality, user := RecencyScore(v, c, now, m), QualityScore(v), UserScore(creator, m);
    var total := WeightedTotal(CompetitionWeights(comp), view, engagement, quality, recency, user);
    AlgorithmScore(v.id, competitionId, view, engagement, recency, quality, user, Min(total, 100.0), 0, "1.0")
  }

  /** The weighted total is at least the creator tier when every part is non-negative. */
  lemma WeightedTotalAtLeastCreatorTier(w: Weights, view: real, engagement: real, quality: real, recency: real, user: real)
    requires NonNegativeWeights(w)
    requires view >= 0.0 && engagement >= 0.0 && quality >= 0.0 && recency >= 0.0
    ensures WeightedTotal(w, view, engagement, quality, recency, user) >= user * 0.1
  {
    var social := w.like + w.comment + w.share;
    ProductNonNegative(view, w.view);
    ProductNonNegative(engagement, social);
    ProductNonNegative(quality, w.completion);
    ProductNonNegative(recency, 0.2);
    var a, b, q, r := view * w.view, engagement * social, quality * w.completion, recency * 0.2;
    assert WeightedTotal(w, view, engagement, quality, recency, user) == a + b + q + r + user * 0.1;
  }

  /**
   * With non-negative weights, a lawful numeric library, well-formed rates
   * and a non-negative recency factor, the total lies between 5 (the
   * creator tier alone: 50 * 0.1) and 100.
   */
  lemma CompositeRange(v: Video, competitionId: string, comp: Option<Competition>, creator: Option<User>,
                       c: AlgorithmConfig, now: Timestamp, m: Numerics)
    requires Lawful(m) && c.halfLifeDays != 0 && c.recencyFactor >= 0.0 && WellFormedVideo(v)
    requires NonNegativeWeights(CompetitionWeights(comp))
    ensures 5.0 <= CompositeScore(v, competitionId, comp, creator, c, now, m).totalScore <= 100.0
  {
    ViewScoreRange(v, m);
    EngagementScoreRange(v, m);
    RecencyRange(v, c, now, m);
    QualityCapInactive(v);
    UserScoreRange(creator, m);
    WeightedTotalAtLeastCreatorTier(CompetitionWeights(comp), ViewScore(v, m), EngagementScore(v, m),
                                    QualityScore(v), RecencyScore(v, c, now, m), UserScore(creator, m));
  }

  /** Two weightings with the same view and completion weights and the same social sum give the same total. */
  lemma WeightedTotalPooled(wa: Weights, wb: Weights, view: real, engagement: real, quality: real, recency: real, user: real)
    requires wa.view == wb.view && wa.completion == wb.completion
    requires wa.like + wa.comment + wa.share == wb.like + wb.comment + wb.share
    ensures WeightedTotal(wa, view, engagement, quality, recency, user) == WeightedTotal(wb, view, engagement, quality, recency, user)
  {
  }

  /** Only the sum of the like, comment and share weights matters, not how it is split. */
  lemma SocialWeightsPooled(v: Video, competitionId: string, a: Competition, b: Competition, creator: Option<User>,
                            c: AlgorithmConfig, now: Timestamp, m: Numerics)
    requires c.halfLifeDays != 0
    requires CompetitionWeights(Some(a)).view == CompetitionWeights(Some(b)).view
    requires CompetitionWeights(Some(a)).completion == CompetitionWeights(Some(b)).completion
    requires var wa, wb := CompetitionWeights(Some(a)), CompetitionWeights(Some(b));
      wa.like + wa.comment + wa.share == wb.like + wb.comment + wb.share
    ensures CompositeScore(v, competitionId, Some(a), creator, c, now, m).totalScore
         == CompositeScore(v, competitionId, Some(b), creator, c, now, m).totalScore
  {
    WeightedTotalPooled(CompetitionWeights(Some(a)), CompetitionWeights(Some(b)), ViewScore(v, m), EngagementScore(v, m),
                        QualityScore(v), RecencyScore(v, c, now, m), UserScore(creator, m));
  }

  /** A competition created with the default weights scores like a missing competition record. */
  lemma NewCompetitionWeighsAsDefault(id: string, title: string, s: Timestamp, e: Timestamp, createdBy: string,
                                      created: Timestamp)
    ensures CompetitionWeights(Some(NewCompetition(id, title, s, e, createdBy, created))) == CompetitionWeights(None)
  {
  }

  /** A freshly uploaded video is well formed and has no view, engagement or quality score. */
  lemma NewVideoUnseen(id: string, title: string, userId: string, filename: string, filePath: string,
                       fileSize: int, round: string, now: Timestamp, m: Numerics)
    ensures var v := NewVideo(id, title, userId, filename, filePath, fileSize, round, now);
      && WellFormedVideo(v) && v.hashtags == [] && v.duration.None?
      && ViewScore(v, m) == 0.0 && EngagementScore(v, m) == 0.0 && QualityScore(v) == 0.0
  {
  }

  /**
   * A new video, scored at its upload time under the default configuration
   * with no competition and no creator record, earns only the recency tier
   * (30 * 0.2) and the creator tier (50 * 0.1): 11.
   */
  lemma NewVideoScore(v: Video, competitionId: string, c: AlgorithmConfig, m: Numerics)
    requires Lawful(m)
    requires v == NewVideo(v.id, v.title, v.userId, v.filename, v.filePath, v.fileSize, v.competitionRound, v.uploadDate)
    requires c == DefaultConfig(c.id, c.name, c.version, c.createdAt)
    ensures CompositeScore(v, competitionId, None, None, c, v.uploadDate, m).totalScore == 11.0
  {
    assert AgeDays(v, v.uploadDate) == 0.0;
    assert RecencyScore(v, c, v.uploadDate, m) == 30.0;
  }
}

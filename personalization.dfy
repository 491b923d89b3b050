/**
 * The personalisation step of `get_personalized_feed`
 * (backend/algorithm.py:207-225): a viewer with a stored preference
 * profile gets the follow boost for followed creators, the hashtag boost
 * once for the first preferred hashtag, and a halving once for the first
 * skipped hashtag. Without a stored profile the composite score is used
 * as it is, followed creator or not.
 */
module Personalization {
  import opened Base
  import opened Models

  /** Does some element of `hs` occur in `list`? */
  predicate AnyIn(hs: seq<string>, list: seq<string>) {
    exists i :: 0 <= i < |hs| && hs[i] in list
  }

  /** The score a video gets in the viewer's feed, given the viewer's stored profile and followed ids. */
  function PersonalizedScore(total: real, v: Video, profile: Option<UserPreference>, following: seq<string>,
                             c: AlgorithmConfig): real
  {
    match profile
    case None => total
    case Some(p) =>
      var followed := if v.userId in following then total * c.followBoost else total;
      var liked := if AnyIn(v.hashtags, p.preferredHashtags) then followed * c.hashtagBoost else followed;
      if AnyIn(v.hashtags, p.skippedHashtags) then liked * 0.5 else liked
  }

  /** The loop of the original, scanning the hashtags and stopping at the first hit of each kind. */
  method Personalize(total: real, v: Video, profile: Option<UserPreference>, following: seq<string>,
                     c: AlgorithmConfig) returns (finalScore: real)
    ensures finalScore == PersonalizedScore(total, v, profile, following, c)
  {
    finalScore := total;
    if profile.Some? {
      var p := profile.value;
      if v.userId in following {
        finalScore := finalScore * c.followBoost;
      }
      ghost var followed := finalScore;
      var i := 0;
      while i < |v.hashtags|
        invariant 0 <= i <= |v.hashtags| && finalScore == followed
        invariant forall j :: 0 <= j < i ==> v.hashtags[j] !in p.preferredHashtags
      {
        if v.hashtags[i] in p.preferredHashtags {
          finalScore := finalScore * c.hashtagBoost;
          break;
        }
        i := i + 1;
      }
      assert finalScore == if AnyIn(v.hashtags, p.preferredHashtags) then followed * c.hashtagBoost else followed;
      ghost var liked := finalScore;
      i := 0;
      while i < |v.hashtags|
        invariant 0 <= i <= |v.hashtags| && finalScore == liked
        invariant forall j :: 0 <= j < i ==> v.hashtags[j] !in p.skippedHashtags
      {
        if v.hashtags[i] in p.skippedHashtags {
          finalScore := finalScore * 0.5;
          break;
        }
        i := i + 1;
      }
    }
  }

  /** Without a stored profile the score is the composite total, even for a followed creator. */
  lemma NoProfileNoChange(total: real, v: Video, following: seq<string>, c: AlgorithmConfig)
    ensures PersonalizedScore(total, v, None, following, c) == total
  {
  }

  /**
   * The hashtag boost does not compound: a video matching one preferred
   * hashtag scores the same after it gains a second preferred hashtag
   * (the penalty side unchanged).
   */
  lemma HashtagBoostOnce(total: real, v: Video, p: UserPreference, following: seq<string>, c: AlgorithmConfig, h: string)
    requires AnyIn(v.hashtags, p.preferredHashtags)
    requires h in p.preferredHashtags && h !in p.skippedHashtags
    ensures PersonalizedScore(total, v.(hashtags := v.hashtags + [h]), Some(p), following, c)
         == PersonalizedScore(total, v, Some(p), following, c)
  {
    var w := v.(hashtags := v.hashtags + [h]);
    assert AnyIn(w.hashtags, p.preferredHashtags) by {
      var i :| 0 <= i < |v.hashtags| && v.hashtags[i] in p.preferredHashtags;
      assert w.hashtags[i] == v.hashtags[i];
    }
    assert AnyIn(w.hashtags, p.skippedHashtags) == AnyIn(v.hashtags, p.skippedHashtags) by {
      if AnyIn(w.hashtags, p.skippedHashtags) {
        var i :| 0 <= i < |w.hashtags| && w.hashtags[i] in p.skippedHashtags;
        assert i < |v.hashtags| && v.hashtags[i] == w.hashtags[i];
      }
      if AnyIn(v.hashtags, p.skippedHashtags) {
        var i :| 0 <= i < |v.hashtags| && v.hashtags[i] in p.skippedHashtags;
        assert w.hashtags[i] == v.hashtags[i];
      }
    }
  }

  /**
   * All three adjustments combine: a followed creator's video carrying
   * both a preferred and a skipped hashtag scores total * follow boost *
   * hashtag boost / 2, however many hashtags match.
   */
  lemma AllAdjustmentsCombine(total: real, v: Video, p: UserPreference, following: seq<string>, c: AlgorithmConfig)
    requires v.userId in following
    requires exists i :: 0 <= i < |v.hashtags| && v.hashtags[i] in p.preferredHashtags
    requires exists j :: 0 <= j < |v.hashtags| && v.hashtags[j] in p.skippedHashtags
    ensures PersonalizedScore(total, v, Some(p), following, c) == total * c.followBoost * c.hashtagBoost * 0.5
  {
  }

  /**
   * A profile that neither prefers nor skips any of the video's hashtags,
   * for a creator not followed, leaves the score unchanged.
   */
  lemma UnrelatedProfileNoChange(total: real, v: Video, p: UserPreference, following: seq<string>, c: AlgorithmConfig)
    requires v.userId !in following
    requires forall i :: 0 <= i < |v.hashtags| ==> v.hashtags[i] !in p.preferredHashtags && v.hashtags[i] !in p.skippedHashtags
    ensures PersonalizedScore(total, v, Some(p), following, c) == total
  {
  }
}

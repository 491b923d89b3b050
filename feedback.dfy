/**
 * The two feedback updaters of the engine (backend/algorithm.py:277-374),
 * as functions of the stored record before the interaction:
 * `AfterInteraction` is the video that `update_video_metrics` writes back,
 * and `Learn` the profile that `learn_user_preferences` writes back. The
 * engine's methods (the Engine module) perform the lookups and the writes
 * and are proved to produce exactly these records.
 */
module Feedback {
  import opened Base
  import opened Models
  import Scoring

  // ------------------------------------------------------ video metrics

  predicate IsPositive(kind: string) {
    kind == "like" || kind == "comment" || kind == "share"
  }

  /**
   * A watch-time report with a truthy value compares the stored duration
   * with 0; a stored `None` there is a type error in the original, so a
   * known duration is required for it.
   */
  predicate WatchDurationKnown(v: Video, kind: string, value: Option<real>) {
    kind == "watch_time" && Truthy(value) ==> v.duration.Some?
  }

  /** The completion ratio of one watch, clamped at 1 (so the original's "replay" case never arises). */
  function WatchRatio(watched: real, duration: real): (r: real)
    requires duration > 0.0
    ensures r <= 1.0
  {
    Min(watched / duration, 1.0)
  }

  /**
   * The video after one interaction of kind `kind`: the matching counter
   * goes up by one, a watch averages its ratio into the completion rate,
   * a like, comment or share recomputes the engagement rate from the
   * counts as they were before this interaction, and the update time is
   * `now`.
   */
  function AfterInteraction(v: Video, kind: string, value: Option<real>, now: Timestamp): Video
    requires WatchDurationKnown(v, kind, value)
  {
    var counted :=
      if kind == "view" then v.(viewCount := v.viewCount + 1)
      else if kind == "like" then v.(likeCount := v.likeCount + 1)
      else if kind == "comment" then v.(commentCount := v.commentCount + 1)
      else if kind == "share" then v.(shareCount := v.shareCount + 1)
      else if kind == "watch_time" && Truthy(value) && v.duration.value > 0.0 then
        v.(completionRate := (v.completionRate + WatchRatio(value.value, v.duration.value)) / 2.0)
      else v;
    var rated :=
      if IsPositive(kind) && v.viewCount > 0 then counted.(engagementRate := Scoring.EngagementRatio(v))
      else counted;
    rated.(lastUpdated := now)
  }

  /** Each counting interaction raises its own counter by exactly one and no other counter. */
  lemma CountersMoveByOne(v: Video, kind: string, value: Option<real>, now: Timestamp)
    requires WatchDurationKnown(v, kind, value)
    ensures var r := AfterInteraction(v, kind, value, now);
      && r.viewCount == v.viewCount + (if kind == "view" then 1 else 0)
      && r.likeCount == v.likeCount + (if kind == "like" then 1 else 0)
      && r.commentCount == v.commentCount + (if kind == "comment" then 1 else 0)
      && r.shareCount == v.shareCount + (if kind == "share" then 1 else 0)
      && r.lastUpdated == now
  {
  }

  /** No interaction changes the replay rate, and only a watch changes the completion rate. */
  lemma ReplayRateNeverChanges(v: Video, kind: string, value: Option<real>, now: Timestamp)
    requires WatchDurationKnown(v, kind, value)
    ensures AfterInteraction(v, kind, value, now).replayRate == v.replayRate
    ensures kind != "watch_time" ==> AfterInteraction(v, kind, value, now).completionRate == v.completionRate
  {
  }

  /** A positive watch keeps the completion rate in [0, 1] and moves it halfway towards the watch ratio. */
  lemma CompletionStaysInRange(v: Video, watched: real, now: Timestamp)
    requires v.duration.Some? && v.duration.value > 0.0 && watched > 0.0
    requires 0.0 <= v.completionRate <= 1.0
    ensures var r := AfterInteraction(v, "watch_time", Some(watched), now);
      && 0.0 <= r.completionRate <= 1.0
      && r.completionRate == (v.completionRate + WatchRatio(watched, v.duration.value)) / 2.0
  {
    assert watched / v.duration.value > 0.0;
  }

  /** Watch reports that are falsy (missing, or 0) or for a video of duration 0 only touch the update time. */
  lemma EmptyWatchOnlyTouchesTime(v: Video, value: Option<real>, now: Timestamp)
    requires !Truthy(value) || (v.duration.Some? && v.duration.value <= 0.0)
    ensures AfterInteraction(v, "watch_time", value, now) == v.(lastUpdated := now)
  {
  }

  /**
   * The stored engagement rate lags one interaction behind: after a like
   * it is the ratio of the counts before the like, strictly below the
   * ratio of the counts the video now has.
   */
  lemma EngagementRateLags(v: Video, now: Timestamp)
    requires v.viewCount > 0
    ensures var r := AfterInteraction(v, "like", None, now);
      && r.engagementRate == Scoring.EngagementRatio(v)
      && r.engagementRate < Scoring.EngagementRatio(r)
  {
    var r := AfterInteraction(v, "like", None, now);
    var n := v.viewCount as real;
    var e := (v.likeCount + v.commentCount + 2 * v.shareCount) as real;
    assert (r.likeCount + r.commentCount + 2 * r.shareCount) as real == e + 1.0;
    assert e / n < (e + 1.0) / n;
  }

  /** A view does not refresh the engagement rate. */
  lemma ViewKeepsEngagementRate(v: Video, now: Timestamp)
    ensures AfterInteraction(v, "view", None, now).engagementRate == v.engagementRate
  {
  }

  /** An unknown interaction kind only touches the update time. */
  lemma UnknownKindOnlyTouchesTime(v: Video, kind: string, value: Option<real>, now: Timestamp)
    requires kind != "view" && kind != "like" && kind != "comment" && kind != "share" && kind != "watch_time"
    ensures AfterInteraction(v, kind, value, now) == v.(lastUpdated := now)
  {
  }

  // -------------------------------------------------- list primitives

  /** `if x not in s: s.append(x)`. */
  function AddMissing(s: seq<string>, x: string): seq<string> {
    if x in s then s else s + [x]
  }

  /** `s.remove(x)`: drop the first occurrence of `x` (the original only calls it when `x` is present). */
  function RemoveFirst(s: seq<string>, x: string): seq<string> {
    if s == [] then []
    else if s[0] == x then s[1..]
    else [s[0]] + RemoveFirst(s[1..], x)
  }

  lemma AddMissingFacts(s: seq<string>, x: string)
    ensures forall y :: y in AddMissing(s, x) <==> y in s || y == x
    ensures s <= AddMissing(s, x)
    ensures NoDuplicates(s) ==> NoDuplicates(AddMissing(s, x))
  {
  }

  /**
   * Removing the first occurrence leaves every other value's membership
   * alone and, in a list without duplicates, removes `x` entirely.
   */
  lemma {:induction false} RemoveFirstFacts(s: seq<string>, x: string)
    ensures forall y :: y != x ==> (y in RemoveFirst(s, x) <==> y in s)
    ensures forall y :: y in RemoveFirst(s, x) ==> y in s
    ensures NoDuplicates(s) ==> x !in RemoveFirst(s, x) && NoDuplicates(RemoveFirst(s, x))
  {
    if s != [] && s[0] != x {
      RemoveFirstFacts(s[1..], x);
      var r := RemoveFirst(s[1..], x);
      assert RemoveFirst(s, x) == [s[0]] + r;
      forall y ensures y in [s[0]] + r <==> y == s[0] || y in r { }
      assert s == [s[0]] + s[1..];
      if NoDuplicates(s) {
        assert NoDuplicates(s[1..]);
        assert s[0] !in s[1..];
        assert s[0] !in r;
        forall i, j | 0 <= i < j < |[s[0]] + r| ensures ([s[0]] + r)[i] != ([s[0]] + r)[j] {
          if i == 0 { assert ([s[0]] + r)[j] in r; }
          else { assert ([s[0]] + r)[i] == r[i - 1] && ([s[0]] + r)[j] == r[j - 1]; }
        }
      }
    } else if s != [] {
      assert s == [s[0]] + s[1..];
      if NoDuplicates(s) {
        assert s[0] !in s[1..];
        assert NoDuplicates(s[1..]);
      }
    }
  }

  // ------------------------------------------------- preference learning

  /** The two hashtag lists of a profile. */
  datatype Tags = Tags(preferred: seq<string>, skipped: seq<string>)

  /** One hashtag of a liked video: prefer it, and un-skip it if it was skipped. */
  function LikeOne(t: Tags, h: string): Tags {
    Tags(AddMissing(t.preferred, h), if h in t.skipped then RemoveFirst(t.skipped, h) else t.skipped)
  }

  /** The positive-interaction loop over the video's hashtags, in order. */
  function LikeTags(t: Tags, hs: seq<string>): Tags {
    if hs == [] then t else LikeOne(LikeTags(t, hs[..|hs| - 1]), hs[|hs| - 1])
  }

  /** The short-watch loop: every hashtag not yet skipped is appended to the skipped list. */
  function SkipTags(skipped: seq<string>, hs: seq<string>): seq<string> {
    if hs == [] then skipped else AddMissing(SkipTags(skipped, hs[..|hs| - 1]), hs[|hs| - 1])
  }

  /** A watch shorter than 30% of the video. */
  predicate ShortWatch(watched: real, duration: real)
    requires duration != 0.0
  {
    watched / duration < 0.3
  }

  /** The preferred duration after a long enough watch of a video of length `d`. */
  function LearnDuration(current: Option<real>, d: real): real {
    if Truthy(current) then (current.value + d) / 2.0 else d
  }

  /**
   * The profile that `learn_user_preferences` stores after an interaction
   * with video `v`, given the stored profile (or a new one).
   */
  function Learn(p: UserPreference, v: Video, kind: string, value: Option<real>, now: Timestamp): UserPreference {
    var q :=
      if IsPositive(kind) then
        var t := LikeTags(Tags(p.preferredHashtags, p.skippedHashtags), v.hashtags);
        p.(preferredHashtags := t.preferred, skippedHashtags := t.skipped,
           preferredUsers := AddMissing(p.preferredUsers, v.userId))
      else if kind == "watch_time" && Truthy(value) && Truthy(v.duration) then
        if ShortWatch(value.value, v.duration.value) then
          p.(skippedHashtags := SkipTags(p.skippedHashtags, v.hashtags))
        else
          p.(preferredDuration := Some(LearnDuration(p.preferredDuration, v.duration.value)))
      else p;
    q.(updatedAt := now)
  }

  /**
   * On duplicate-free lists, liking the hashtags `hs` makes every one of
   * them preferred and none of them skipped, only ever adds to the
   * preferred list (at its end) and only ever removes from the skipped
   * list, and keeps both lists duplicate-free.
   */
  lemma {:induction false} LikeTagsFacts(t: Tags, hs: seq<string>)
    requires NoDuplicates(t.preferred) && NoDuplicates(t.skipped)
    ensures var r := LikeTags(t, hs);
      && NoDuplicates(r.preferred) && NoDuplicates(r.skipped)
      && (forall i :: 0 <= i < |hs| ==> hs[i] in r.preferred && hs[i] !in r.skipped)
      && t.preferred <= r.preferred
      && (forall y :: y in r.preferred ==> y in t.preferred || y in hs)
      && (forall y :: y in r.skipped ==> y in t.skipped)
  {
    if hs != [] {
      var init, h := hs[..|hs| - 1], hs[|hs| - 1];
      LikeTagsFacts(t, init);
      var m := LikeTags(t, init);
      AddMissingFacts(m.preferred, h);
      RemoveFirstFacts(m.skipped, h);
      forall i | 0 <= i < |hs| ensures hs[i] in LikeTags(t, hs).preferred && hs[i] !in LikeTags(t, hs).skipped {
        if i < |hs| - 1 { assert hs[i] == init[i]; }
      }
      forall y | y in LikeTags(t, hs).preferred ensures y in t.preferred || y in hs {
        if y != h { assert y in m.preferred; if y !in t.preferred { var k :| 0 <= k < |init| && init[k] == y; assert hs[k] == y; } }
      }
    }
  }

  /** Marking hashtags skipped keeps the list duplicate-free, adds exactly them, at the end. */
  lemma {:induction false} SkipTagsFacts(skipped: seq<string>, hs: seq<string>)
    ensures var r := SkipTags(skipped, hs);
      && skipped <= r
      && (forall y :: y in r <==> y in skipped || y in hs)
      && (NoDuplicates(skipped) ==> NoDuplicates(r))
  {
    if hs != [] {
      var init, h := hs[..|hs| - 1], hs[|hs| - 1];
      SkipTagsFacts(skipped, init);
      AddMissingFacts(SkipTags(skipped, init), h);
      assert hs == init + [h];
      forall y ensures y in hs <==> y in init || y == h { }
    }
  }

  /**
   * After a like, comment or share on a clean profile, every hashtag of the
   * video is preferred and none is skipped, the creator is a preferred
   * user, the profile stays clean, and a profile in which no hashtag was
   * both preferred and skipped remains so.
   */
  lemma PositiveInteractionLearns(p: UserPreference, v: Video, kind: string, value: Option<real>, now: Timestamp)
    requires IsPositive(kind) && DuplicateFree(p)
    ensures var r := Learn(p, v, kind, value, now);
      && (forall i :: 0 <= i < |v.hashtags| ==> v.hashtags[i] in r.preferredHashtags && v.hashtags[i] !in r.skippedHashtags)
      && v.userId in r.preferredUsers
      && DuplicateFree(r)
      && (Exclusive(p) ==> Exclusive(r))
      && r.preferredDuration == p.preferredDuration && r.updatedAt == now
  {
    LikeTagsFacts(Tags(p.preferredHashtags, p.skippedHashtags), v.hashtags);
    AddMissingFacts(p.preferredUsers, v.userId);
    var r := Learn(p, v, kind, value, now);
    if Exclusive(p) {
      forall h | h in r.preferredHashtags ensures h !in r.skippedHashtags {
        if h !in v.hashtags { assert h in p.preferredHashtags; }
        else { var i :| 0 <= i < |v.hashtags| && v.hashtags[i] == h; }
      }
    }
  }

  /**
   * A short watch (below 30%) marks every hashtag of the video skipped
   * and leaves the preferred lists untouched: a hashtag can then be both
   * preferred and skipped.
   */
  lemma ShortWatchSkips(p: UserPreference, v: Video, watched: real, now: Timestamp)
    requires v.duration.Some? && v.duration.value != 0.0 && watched != 0.0
    requires ShortWatch(watched, v.duration.value)
    ensures var r := Learn(p, v, "watch_time", Some(watched), now);
      && (forall i :: 0 <= i < |v.hashtags| ==> v.hashtags[i] in r.skippedHashtags)
      && r.preferredHashtags == p.preferredHashtags && r.preferredUsers == p.preferredUsers
      && p.skippedHashtags <= r.skippedHashtags
      && (DuplicateFree(p) ==> DuplicateFree(r))
  {
    SkipTagsFacts(p.skippedHashtags, v.hashtags);
  }

  /** A concrete profile for which a short watch breaks "never both preferred and skipped". */
  lemma ShortWatchBreaksExclusive(p: UserPreference, v: Video, now: Timestamp)
    requires p.preferredHashtags == ["cat"] && p.skippedHashtags == []
    requires v.hashtags == ["cat"] && v.duration == Some(100.0)
    ensures Exclusive(p)
    ensures !Exclusive(Learn(p, v, "watch_time", Some(10.0), now))
  {
    SkipTagsFacts(p.skippedHashtags, v.hashtags);
    assert v.hashtags[0] == "cat";
    assert "cat" in Learn(p, v, "watch_time", Some(10.0), now).preferredHashtags;
  }

  /**
   * Why the profile must be duplicate-free: `remove` drops only the first
   * copy, so liking a video tagged "a" leaves "a" skipped when it was
   * skipped twice.
   */
  lemma DuplicateSkipSurvivesLike(p: UserPreference, v: Video, now: Timestamp)
    requires p.skippedHashtags == ["a", "a"] && v.hashtags == ["a"]
    ensures "a" in Learn(p, v, "like", None, now).skippedHashtags
  {
    var t := Tags(p.preferredHashtags, p.skippedHashtags);
    assert v.hashtags[..|v.hashtags| - 1] == [];
    assert LikeTags(t, v.hashtags) == LikeOne(t, "a");
    assert ["a", "a"][1..] == ["a"];
    assert LikeOne(t, "a").skipped == ["a"];
  }

  /**
   * A long enough watch sets the preferred duration to the video's when
   * none (or 0) was stored and otherwise averages the two, so it stays
   * within any interval holding both; the hashtag lists are untouched.
   */
  lemma LongWatchLearnsDuration(p: UserPreference, v: Video, watched: real, now: Timestamp, lo: real, hi: real)
    requires v.duration.Some? && v.duration.value != 0.0 && watched != 0.0
    requires !ShortWatch(watched, v.duration.value)
    ensures var r := Learn(p, v, "watch_time", Some(watched), now);
      && r.preferredHashtags == p.preferredHashtags && r.skippedHashtags == p.skippedHashtags
      && (!Truthy(p.preferredDuration) ==> r.preferredDuration == v.duration)
      && (Truthy(p.preferredDuration) ==> r.preferredDuration == Some((p.preferredDuration.value + v.duration.value) / 2.0))
      && (lo <= v.duration.value <= hi && (Truthy(p.preferredDuration) ==> lo <= p.preferredDuration.value <= hi)
          ==> lo <= r.preferredDuration.value <= hi)
  {
  }

  /** Views, falsy watch reports and unknown kinds change nothing but the update time. */
  lemma NeutralInteractionOnlyTouchesTime(p: UserPreference, v: Video, kind: string, value: Option<real>, now: Timestamp)
    requires !IsPositive(kind) && (kind != "watch_time" || !Truthy(value) || !Truthy(v.duration))
    ensures Learn(p, v, kind, value, now) == p.(updatedAt := now)
  {
  }

  /** Whatever the interaction, a duplicate-free profile stays duplicate-free. */
  lemma LearnKeepsDuplicateFree(p: UserPreference, v: Video, kind: string, value: Option<real>, now: Timestamp)
    requires DuplicateFree(p)
    ensures DuplicateFree(Learn(p, v, kind, value, now))
    ensures Learn(p, v, kind, value, now).userId == p.userId
  {
    if IsPositive(kind) {
      PositiveInteractionLearns(p, v, kind, value, now);
    } else if kind == "watch_time" && Truthy(value) && Truthy(v.duration) && ShortWatch(value.value, v.duration.value) {
      ShortWatchSkips(p, v, value.value, now);
    }
  }
}

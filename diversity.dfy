/**
 * The greedy diversity filter `apply_diversity_rules`
 * (backend/algorithm.py:241-275). Candidates are visited in score order; a
 * candidate is skipped when its creator already has `max_same_user`
 * entries in the feed or when any one of its hashtags has already been
 * counted `max_same_hashtag` times; an accepted candidate is appended and
 * counted, and the scan stops as soon as the feed holds `limit` entries
 * (the length test comes after the append).
 *
 * The two `defaultdict` counters are maps read through `Get`. Their
 * meaning is given by counting functions over the feed built so far:
 * `CreatorCount` for the per-creator counter and `TagOccurrences` for the
 * per-hashtag counter, which counts a hashtag once per occurrence, so a
 * video listing the same hashtag twice counts it twice.
 */
module Diversity {
  import opened Base
  import opened Models

  /** One feed entry: the video, its personalised score and its score record. */
  datatype ScoredVideo = ScoredVideo(video: Video, score: real, algorithmData: AlgorithmScore)

  /** How many entries of `feed` are by creator `u`. */
  function CreatorCount(feed: seq<ScoredVideo>, u: string): nat {
    if feed == [] then 0
    else CreatorCount(feed[..|feed| - 1], u) + (if feed[|feed| - 1].video.userId == u then 1 else 0)
  }

  /** How many times `h` occurs in `hs`. */
  function Occ(hs: seq<string>, h: string): nat {
    if hs == [] then 0 else Occ(hs[..|hs| - 1], h) + (if hs[|hs| - 1] == h then 1 else 0)
  }

  /** The per-hashtag counter's value for `h`: occurrences of `h` over all entries. */
  function TagOccurrences(feed: seq<ScoredVideo>, h: string): nat {
    if feed == [] then 0
    else TagOccurrences(feed[..|feed| - 1], h) + Occ(feed[|feed| - 1].video.hashtags, h)
  }

  /** How many entries of `feed` carry hashtag `h` at least once. */
  function VideosWithTag(feed: seq<ScoredVideo>, h: string): nat {
    if feed == [] then 0
    else VideosWithTag(feed[..|feed| - 1], h) + (if h in feed[|feed| - 1].video.hashtags then 1 else 0)
  }

  /** The two tests a candidate must pass against the feed built so far. */
  predicate Admissible(x: ScoredVideo, feed: seq<ScoredVideo>, c: AlgorithmConfig) {
    && CreatorCount(feed, x.video.userId) < c.maxSameUser
    && forall i :: 0 <= i < |x.video.hashtags| ==> TagOccurrences(feed, x.video.hashtags[i]) < c.maxSameHashtag
  }

  /** The feed the greedy scan builds from `items`, having already accepted `feed`. */
  function Select(items: seq<ScoredVideo>, c: AlgorithmConfig, limit: int, feed: seq<ScoredVideo>): seq<ScoredVideo>
    decreases |items|
  {
    if items == [] then feed
    else if Admissible(items[0], feed, c) then
      var feed' := feed + [items[0]];
      if |feed'| >= limit then feed' else Select(items[1..], c, limit, feed')
    else Select(items[1..], c, limit, feed)
  }

  // ------------------------------------------------------ counting facts

  lemma AppendCounts(feed: seq<ScoredVideo>, x: ScoredVideo)
    ensures forall u :: CreatorCount(feed + [x], u) == CreatorCount(feed, u) + (if x.video.userId == u then 1 else 0)
    ensures forall h :: TagOccurrences(feed + [x], h) == TagOccurrences(feed, h) + Occ(x.video.hashtags, h)
    ensures forall h :: VideosWithTag(feed + [x], h) == VideosWithTag(feed, h) + (if h in x.video.hashtags then 1 else 0)
  {
    assert (feed + [x])[..|feed|] == feed;
  }

  lemma OccAppend(hs: seq<string>, g: string)
    ensures forall h :: Occ(hs + [g], h) == Occ(hs, h) + (if g == h then 1 else 0)
  {
    assert (hs + [g])[..|hs|] == hs;
  }

  /** A hashtag that a video lists occurs in it at least once. */
  lemma {:induction false} OccPositive(hs: seq<string>, h: string)
    requires h in hs
    ensures Occ(hs, h) >= 1
  {
    if hs[|hs| - 1] != h {
      assert h in hs[..|hs| - 1];
      OccPositive(hs[..|hs| - 1], h);
    }
  }

  /** Counting videos never exceeds counting occurrences. */
  lemma {:induction false} VideosWithTagAtMostOccurrences(feed: seq<ScoredVideo>, h: string)
    ensures VideosWithTag(feed, h) <= TagOccurrences(feed, h)
  {
    if feed != [] {
      VideosWithTagAtMostOccurrences(feed[..|feed| - 1], h);
      if h in feed[|feed| - 1].video.hashtags {
        OccPositive(feed[|feed| - 1].video.hashtags, h);
      }
    }
  }

  // ------------------------------------------------------------- caps

  /** The caps the filter promises, on a feed. */
  ghost predicate Capped(feed: seq<ScoredVideo>, c: AlgorithmConfig) {
    && (forall u :: CreatorCount(feed, u) <= MaxInt(c.maxSameUser, 0))
    && (forall h :: VideosWithTag(feed, h) <= MaxInt(c.maxSameHashtag, 0))
  }

  /** Accepting an admissible candidate keeps both caps. */
  lemma {:induction false} AdmitKeepsCaps(feed: seq<ScoredVideo>, x: ScoredVideo, c: AlgorithmConfig)
    requires Capped(feed, c) && Admissible(x, feed, c)
    ensures Capped(feed + [x], c)
  {
    AppendCounts(feed, x);
    forall h ensures VideosWithTag(feed + [x], h) <= MaxInt(c.maxSameHashtag, 0) {
      if h in x.video.hashtags {
        var i :| 0 <= i < |x.video.hashtags| && x.video.hashtags[i] == h;
        VideosWithTagAtMostOccurrences(feed, h);
      }
    }
  }

  /**
   * What the scan returns extends the feed it started from by an
   * order-preserving subsequence of the candidates, keeps the caps and
   * stops at `limit` entries (at 1 when `limit` is below 1, because the
   * length test follows the append).
   */
  lemma {:induction false} SelectFacts(items: seq<ScoredVideo>, c: AlgorithmConfig, limit: int, feed: seq<ScoredVideo>)
    requires Capped(feed, c) && |feed| < MaxInt(limit, 1)
    ensures var r := Select(items, c, limit, feed);
      && |feed| <= |r| && r[..|feed|] == feed && Subsequence(r[|feed|..], items)
      && Capped(r, c)
      && |r| <= MaxInt(limit, 1)
    decreases |items|
  {
    if items != [] {
      var x := items[0];
      if Admissible(x, feed, c) {
        var feed' := feed + [x];
        AdmitKeepsCaps(feed, x, c);
        if |feed'| >= limit {
          assert feed'[|feed|..] == [x];
          assert Subsequence([x][1..], items[1..]);
        } else {
          SelectFacts(items[1..], c, limit, feed');
          var r := Select(items[1..], c, limit, feed');
          assert r[..|feed|] == r[..|feed'|][..|feed|] == feed' [..|feed|] == feed;
          var tail := r[|feed|..];
          assert tail[0] == r[..|feed'|][|feed|] == x == items[0];
          assert tail[1..] == r[|feed'|..];
        }
      } else {
        SelectFacts(items[1..], c, limit, feed);
      }
    }
  }

  /** A candidate with one hashtag already at its cap is passed over, whatever its other hashtags. */
  lemma HashtagAtCapRejects(items: seq<ScoredVideo>, c: AlgorithmConfig, limit: int, feed: seq<ScoredVideo>, i: nat)
    requires items != [] && i < |items[0].video.hashtags|
    requires TagOccurrences(feed, items[0].video.hashtags[i]) >= c.maxSameHashtag
    ensures Select(items, c, limit, feed) == Select(items[1..], c, limit, feed)
  {
  }

  /** A creator at the cap is passed over. */
  lemma CreatorAtCapRejects(items: seq<ScoredVideo>, c: AlgorithmConfig, limit: int, feed: seq<ScoredVideo>)
    requires items != [] && CreatorCount(feed, items[0].video.userId) >= c.maxSameUser
    ensures Select(items, c, limit, feed) == Select(items[1..], c, limit, feed)
  {
  }

  // ----------------------------------------------------------- the scan

  /** The hashtag test of the scan: is some hashtag's counter already at `cap`? */
  method HashtagAtCap(hashtagCount: map<string, int>, hashtags: seq<string>, cap: int) returns (skip: bool)
    ensures skip <==> exists j :: 0 <= j < |hashtags| && Get(hashtagCount, hashtags[j]) >= cap
  {
    skip := false;
    var k := 0;
    while k < |hashtags|
      invariant 0 <= k <= |hashtags|
      invariant forall j :: 0 <= j < k ==> Get(hashtagCount, hashtags[j]) < cap
    {
      if Get(hashtagCount, hashtags[k]) >= cap {
        skip := true;
        break;
      }
      k := k + 1;
    }
  }

  /** The counting loop of the scan: one more for every occurrence of every hashtag. */
  method CountHashtags(hashtagCount: map<string, int>, hashtags: seq<string>) returns (counted: map<string, int>)
    ensures forall h :: Get(counted, h) == Get(hashtagCount, h) + Occ(hashtags, h)
  {
    counted := hashtagCount;
    var k := 0;
    while k < |hashtags|
      invariant 0 <= k <= |hashtags|
      invariant forall h :: Get(counted, h) == Get(hashtagCount, h) + Occ(hashtags[..k], h)
    {
      OccAppend(hashtags[..k], hashtags[k]);
      assert hashtags[..k + 1] == hashtags[..k] + [hashtags[k]];
      counted := counted[hashtags[k] := Get(counted, hashtags[k]) + 1];
      k := k + 1;
    }
    assert hashtags[..k] == hashtags;
  }

  /**
   * `apply_diversity_rules`, with its two counters as maps. The result is
   * the greedy selection, and the two caps and the length bound hold of it.
   */
  method ApplyDiversityRules(scored: seq<ScoredVideo>, c: AlgorithmConfig, limit: int) returns (finalFeed: seq<ScoredVideo>)
    ensures finalFeed == Select(scored, c, limit, [])
    ensures Subsequence(finalFeed, scored)
    ensures forall u :: CreatorCount(finalFeed, u) <= MaxInt(c.maxSameUser, 0)
    ensures forall h :: VideosWithTag(finalFeed, h) <= MaxInt(c.maxSameHashtag, 0)
    ensures |finalFeed| <= MaxInt(limit, 1)
  {
    finalFeed := [];
    var userVideoCount: map<string, int> := map[];
    var hashtagCount: map<string, int> := map[];
    var n := 0;
    while n < |scored|
      invariant 0 <= n <= |scored|
      invariant Select(scored, c, limit, []) == Select(scored[n..], c, limit, finalFeed)
      invariant forall u :: Get(userVideoCount, u) == CreatorCount(finalFeed, u)
      invariant forall h :: Get(hashtagCount, h) == TagOccurrences(finalFeed, h)
    {
      var item := scored[n];
      var video := item.video;
      assert scored[n..][0] == item && scored[n..][1..] == scored[n + 1..];
      if Get(userVideoCount, video.userId) >= c.maxSameUser {
        n := n + 1;
        continue;
      }
      var skipForHashtag := HashtagAtCap(hashtagCount, video.hashtags, c.maxSameHashtag);
      if skipForHashtag {
        n := n + 1;
        continue;
      }
      assert Admissible(item, finalFeed, c);
      AppendCounts(finalFeed, item);
      finalFeed := finalFeed + [item];
      userVideoCount := userVideoCount[video.userId := Get(userVideoCount, video.userId) + 1];
      hashtagCount := CountHashtags(hashtagCount, video.hashtags);
      if |finalFeed| >= limit {
        break;
      }
      n := n + 1;
    }
    SelectFacts(scored, c, limit, []);
  }

  // ----------------------------------------------------------- scenario

  /** With a per-creator cap of 1, three untagged videos by one creator yield only the best one. */
  lemma OneCreatorCapOne(a: ScoredVideo, b: ScoredVideo, d: ScoredVideo, c: AlgorithmConfig)
    requires c.maxSameUser == 1
    requires a.video.hashtags == [] && b.video.hashtags == [] && d.video.hashtags == []
    requires a.video.userId == b.video.userId == d.video.userId
    ensures Select([a, b, d], c, 10, []) == [a]
  {
    assert [a, b, d][1..] == [b, d] && [b, d][1..] == [d] && [d][1..] == [];
    AppendCounts([], a);
    assert [] + [a] == [a];
    assert CreatorCount([a], a.video.userId) == 1;
    assert Select([d], c, 10, [a]) == [a];
    assert Select([b, d], c, 10, [a]) == [a];
  }
}

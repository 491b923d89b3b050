/**
 * The business rules behind the admin routes (backend/admin_routes.py):
 * document serialisation, ending a competition and ranking its winners,
 * bulk moderation of videos and users, manual credit adjustment, the
 * financial settings and the per-user statistics. Authentication of the
 * admin and the audit log are not modelled; every route is one atomic
 * step over the store.
 */
module Admin {
  import opened Base
  import opened Models
  import opened Store
  import opened Ledger
  import opened Sorting
  import opened Engine
  import Scoring

  // ---------------------------------------------------------------- serialize_doc

  /**
   * A value as the serialiser sees it: `None`, a scalar (number, string,
   * boolean, printed as text), a list, a dictionary, or an object with
   * attributes (anything with a `__dict__`). Dictionary keys are distinct.
   */
  datatype Doc = DNull | DAtom(text: string) | DList(items: seq<Doc>) | DDict(entries: seq<Entry>) | DObject(attrs: seq<Entry>)

  datatype Entry = Entry(key: string, value: Doc)

  /** The store's own identifier key, which the serialiser drops. */
  const IdKey: string := "_id"

  /**
   * `serialize_doc`: `None` stays `None`, a list is serialised element by
   * element, a dictionary loses its `_id` entry, and anything else (a
   * scalar, or an object handed over directly) is returned as it is.
   */
  function Serialize(d: Doc): (r: Doc)
    decreases d, 1
    ensures d.DList? ==> r.DList? && |r.items| == |d.items|
    ensures d.DDict? ==> r.DDict? && |r.entries| <= |d.entries|
  {
    match d
    case DNull => DNull
    case DList(items) => DList(SerializeItems(items))
    case DDict(entries) => DDict(SerializeEntries(entries))
    case _ => d
  }

  /** `[serialize_doc(item) for item in doc]`. */
  function SerializeItems(items: seq<Doc>): (r: seq<Doc>)
    decreases items, 0
    ensures |r| == |items|
    ensures forall i :: 0 <= i < |items| ==> r[i] == Serialize(items[i])
  {
    if items == [] then [] else [Serialize(items[0])] + SerializeItems(items[1..])
  }

  /** The dictionary loop: skip `_id`, serialise every other value. */
  function SerializeEntries(es: seq<Entry>): (r: seq<Entry>)
    decreases es, 0
    ensures |r| <= |es|
    ensures forall i :: 0 <= i < |r| ==> r[i].key != IdKey
  {
    if es == [] then []
    else
      (if es[0].key == IdKey then [] else [Entry(es[0].key, SerializeValue(es[0].value))]) + SerializeEntries(es[1..])
  }

  /**
   * One dictionary value: an object becomes the serialised dictionary of
   * its attributes, a list or dictionary is serialised, and anything else
   * (`None` included) is kept.
   */
  function SerializeValue(v: Doc): Doc
    decreases v, 2
  {
    match v
    case DObject(attrs) => DDict(SerializeEntries(attrs))
    case DList(_) => Serialize(v)
    case DDict(_) => Serialize(v)
    case _ => v
  }

  /** The first entry under `k`, as a dictionary read `d.get(k)` finds it. */
  function LookupKey(es: seq<Entry>, k: string): (r: Option<Doc>)
    ensures r.None? <==> forall i :: 0 <= i < |es| ==> es[i].key != k
  {
    if es == [] then None else if es[0].key == k then Some(es[0].value) else LookupKey(es[1..], k)
  }

  /**
   * What a serialised dictionary holds: nothing under `_id`, and under
   * every other key exactly the serialised value of the original, so no
   * other key is lost or invented.
   */
  lemma {:induction false} SerializeEntriesLookup(es: seq<Entry>, k: string)
    ensures LookupKey(SerializeEntries(es), k) == if k == IdKey then None else SerializedLookup(es, k)
  {
    if es != [] {
      SerializeEntriesLookup(es[1..], k);
      var r := SerializeEntries(es);
      if es[0].key == IdKey {
        assert r == SerializeEntries(es[1..]);
      } else {
        assert r[0] == Entry(es[0].key, SerializeValue(es[0].value));
        assert r[1..] == SerializeEntries(es[1..]);
        if es[0].key == k {
          assert LookupKey(r, k) == Some(SerializeValue(es[0].value));
        } else {
          assert LookupKey(r, k) == LookupKey(r[1..], k);
        }
      }
    }
  }

  /** The serialised value under `k` in the original entries, if there is one. */
  function SerializedLookup(es: seq<Entry>, k: string): Option<Doc> {
    match LookupKey(es, k)
    case None => None
    case Some(v) => Some(SerializeValue(v))
  }

  /** No dictionary reachable through lists and dictionaries has an `_id` key. */
  predicate NoIdKey(d: Doc)
    decreases d
  {
    match d
    case DList(items) => forall i :: 0 <= i < |items| ==> NoIdKey(items[i])
    case DDict(es) => forall i :: 0 <= i < |es| ==> es[i].key != IdKey && NoIdKey(es[i].value)
    case _ => true
  }

  /** `_id` is removed at every nesting level. */
  lemma {:induction false} SerializeRemovesId(d: Doc)
    ensures NoIdKey(Serialize(d))
    decreases d, 1
  {
    match d
    case DList(items) =>
      forall i | 0 <= i < |items| ensures NoIdKey(SerializeItems(items)[i]) {
        SerializeRemovesId(items[i]);
      }
    case DDict(es) => EntriesRemoveId(es);
    case _ =>
  }

  lemma {:induction false} EntriesRemoveId(es: seq<Entry>)
    ensures forall i :: 0 <= i < |SerializeEntries(es)| ==> NoIdKey(SerializeEntries(es)[i].value)
    decreases es, 0
  {
    if es != [] {
      EntriesRemoveId(es[1..]);
      if es[0].key != IdKey {
        ValueRemovesId(es[0].value);
        var r := SerializeEntries(es);
        assert r[0].value == SerializeValue(es[0].value);
        assert r[1..] == SerializeEntries(es[1..]);
        forall i | 0 <= i < |r| ensures NoIdKey(r[i].value) {
          if i > 0 { assert r[i] == r[1..][i - 1]; }
        }
      }
    }
  }

  lemma {:induction false} ValueRemovesId(v: Doc)
    ensures NoIdKey(SerializeValue(v))
    decreases v, 2
  {
    match v
    case DObject(attrs) => EntriesRemoveId(attrs);
    case DList(_) => SerializeRemovesId(v);
    case DDict(_) => SerializeRemovesId(v);
    case _ =>
  }

  /** Serialising an already serialised document changes nothing. */
  lemma {:induction false} SerializeIdempotent(d: Doc)
    ensures Serialize(Serialize(d)) == Serialize(d)
    decreases d, 1
  {
    match d
    case DList(items) => ItemsIdempotent(items);
    case DDict(es) => EntriesIdempotent(es);
    case _ =>
  }

  lemma {:induction false} ItemsIdempotent(items: seq<Doc>)
    ensures SerializeItems(SerializeItems(items)) == SerializeItems(items)
    decreases items, 0
  {
    if items != [] {
      SerializeIdempotent(items[0]);
      ItemsIdempotent(items[1..]);
      var r := SerializeItems(items);
      assert r[0] == Serialize(items[0]) && r[1..] == SerializeItems(items[1..]);
    }
  }

  lemma {:induction false} EntriesIdempotent(es: seq<Entry>)
    ensures SerializeEntries(SerializeEntries(es)) == SerializeEntries(es)
    decreases es, 0
  {
    if es != [] {
      EntriesIdempotent(es[1..]);
      if es[0].key == IdKey {
        assert SerializeEntries(es) == SerializeEntries(es[1..]);
      } else {
        ValueIdempotent(es[0].value);
        var r := SerializeEntries(es);
        assert r[0] == Entry(es[0].key, SerializeValue(es[0].value));
        assert r[1..] == SerializeEntries(es[1..]);
      }
    }
  }

  lemma {:induction false} ValueIdempotent(v: Doc)
    ensures SerializeValue(SerializeValue(v)) == SerializeValue(v)
    decreases v, 2
  {
    match v
    case DObject(attrs) => EntriesIdempotent(attrs);
    case DList(_) => SerializeIdempotent(v);
    case DDict(_) => SerializeIdempotent(v);
    case _ =>
  }

  // ---------------------------------------------------------------- end_competition

  /** One entry of `scored_videos`. */
  datatype Entrant = Entrant(videoId: string, userId: string, score: real, viewCount: nat)

  /** The sort key of the results. */
  function ByEntrantScore(e: Entrant): real {
    e.score
  }

  /** A video's entry: its composite total under configuration `c` (no personalisation). */
  function EntrantOf(v: Video, competitionId: string, comp: Option<Competition>, users: seq<User>,
                     c: AlgorithmConfig, now: Timestamp, m: Numerics): (e: Entrant)
    requires c.halfLifeDays != 0
    ensures e.videoId == v.id && e.userId == v.userId && e.viewCount == v.viewCount
  {
    Entrant(v.id, v.userId, Scoring.CompositeScore(v, competitionId, comp, LookupUser(users, v.userId), c, now, m).totalScore,
            v.viewCount)
  }

  /** The entries of all of the round's videos, in stored order. */
  function Entrants(videos: seq<Video>, competitionId: string, comp: Option<Competition>, users: seq<User>,
                    c: AlgorithmConfig, now: Timestamp, m: Numerics): (r: seq<Entrant>)
    requires videos == [] || c.halfLifeDays != 0
    ensures |r| == |videos|
  {
    seq(|videos|, i requires 0 <= i < |videos| => EntrantOf(videos[i], competitionId, comp, users, c, now, m))
  }

  /**
   * `winners` is the result list built from the sorted entries: the first
   * `winner_count` of them (a Python slice, so a negative count drops
   * entries from the end), ranked 1, 2, ... in order, a rank being special
   * exactly when it is at most `special_winner_count`.
   */
  predicate RankedFrom(winners: seq<Winner>, ranked: seq<Entrant>, winnerCount: int, specialCount: int) {
    && |winners| == |PyPrefix(ranked, winnerCount)|
    && forall i :: 0 <= i < |winners| ==>
         winners[i] == Winner(i + 1, ranked[i].videoId, ranked[i].userId, ranked[i].score, i + 1 <= specialCount)
  }

  /** The ranking loop of `end_competition` (`enumerate(scored_videos[:winner_count], 1)`). */
  method RankWinners(ranked: seq<Entrant>, winnerCount: int, specialCount: int) returns (winners: seq<Winner>)
    ensures RankedFrom(winners, ranked, winnerCount, specialCount)
  {
    var top := PyPrefix(ranked, winnerCount);
    winners := [];
    var i := 0;
    while i < |top|
      invariant 0 <= i <= |top| && |winners| == i
      invariant forall j :: 0 <= j < i ==>
        winners[j] == Winner(j + 1, ranked[j].videoId, ranked[j].userId, ranked[j].score, j + 1 <= specialCount)
    {
      var rank := i + 1;
      var isSpecial := rank <= specialCount;
      winners := winners + [Winner(rank, top[i].videoId, top[i].userId, top[i].score, isSpecial)];
      i := i + 1;
    }
  }

  /**
   * What the ranking promises on sorted entries: scores do not increase
   * down the list, no left-out entry outscores a winner, the special
   * winners are exactly the first `special_winner_count` ranks, and a
   * non-negative `winner_count` yields `min(winner_count, n)` winners.
   */
  lemma WinnersAreTop(winners: seq<Winner>, ranked: seq<Entrant>, winnerCount: int, specialCount: int)
    requires SortedDesc(ByEntrantScore, ranked)
    requires RankedFrom(winners, ranked, winnerCount, specialCount)
    ensures forall i, j :: 0 <= i < j < |winners| ==> winners[i].score >= winners[j].score
    ensures forall i, j :: 0 <= i < |winners| <= j < |ranked| ==> winners[i].score >= ranked[j].score
    ensures forall i :: 0 <= i < |winners| ==> (winners[i].isSpecialWinner <==> i < specialCount)
    ensures winnerCount >= 0 ==> |winners| == MinInt(winnerCount, |ranked|)
  {
    forall i, j | 0 <= i < |winners| <= j < |ranked| ensures winners[i].score >= ranked[j].score {
      assert ByEntrantScore(ranked[i]) >= ByEntrantScore(ranked[j]);
    }
  }

  /**
   * With a new competition's defaults (1000 winners, 10 special), the
   * winners are the top `min(1000, n)` entries and the special ones the
   * top `min(10, n)`.
   */
  lemma DefaultCompetitionWinners(winners: seq<Winner>, ranked: seq<Entrant>, id: string, title: string,
                                  s: Timestamp, e: Timestamp, creator: string, now: Timestamp)
    requires var c := NewCompetition(id, title, s, e, creator, now);
      RankedFrom(winners, ranked, c.winnerCount, c.specialWinnerCount)
    ensures |winners| == MinInt(1000, |ranked|)
    ensures forall i :: 0 <= i < |winners| ==> (winners[i].isSpecialWinner <==> i < 10)
    ensures |winners| >= MinInt(10, |ranked|)
  {
  }

  /** The response of `end_competition`. */
  datatype EndReport = EndReport(message: string, winners: seq<Winner>, totalWinners: nat)

  /**
   * The scoring loop of `end_competition` on a fresh engine: the first
   * call settles the configuration (storing the default when none is
   * active), and each video's entry is its composite total.
   */
  method ScoreEntrants(engine: RecommendationEngine, videos: seq<Video>, competitionId: string,
                       freshId: string, now: Timestamp) returns (entrants: seq<Entrant>)
    requires engine.currentConfig.None? && (videos != [] ==> engine.Usable())
    modifies engine`currentConfig, engine.db`configs
    ensures var c := ChosenConfig(old(engine.db.configs), freshId, now);
      && (videos != [] ==> c.halfLifeDays != 0)
      && entrants == Entrants(videos, competitionId, LookupCompetition(engine.db.competitions, competitionId),
                              engine.db.users, c, now, engine.math)
    ensures videos == [] ==> engine.db.configs == old(engine.db.configs)
    ensures videos != [] ==> engine.db.configs == ConfigsAfter(old(engine.db.configs), freshId, now)
  {
    ghost var c := ChosenConfig(engine.db.configs, freshId, now);
    ghost var configs := engine.db.configs;
    ghost var comp := LookupCompetition(engine.db.competitions, competitionId);
    entrants := [];
    var n := 0;
    while n < |videos|
      invariant 0 <= n <= |videos| && |entrants| == n
      invariant videos != [] ==> engine.Usable() && c.halfLifeDays != 0
      invariant n == 0 ==> engine.currentConfig.None? && engine.db.configs == configs
      invariant n > 0 ==> engine.currentConfig == Some(c) && engine.db.configs == ConfigsAfter(configs, freshId, now)
      invariant forall i :: 0 <= i < n ==>
        entrants[i] == EntrantOf(videos[i], competitionId, comp, engine.db.users, c, now, engine.math)
    {
      var video := videos[n];
      var score := engine.CalculateCompositeScore(video, competitionId, freshId, now);
      entrants := entrants + [Entrant(video.id, video.userId, score.totalScore, video.viewCount)];
      n := n + 1;
    }
  }

  /**
   * `end_competition`: an unknown id is rejected with 404. Otherwise the
   * round's paid, active videos are scored, sorted by descending total
   * (ties in stored order) and ranked; the competition is marked ended at
   * `now` with the full winner list, and the response carries the first
   * 20 winners and the full count.
   */
  method EndCompetition(db: Database, math: Numerics, competitionId: string, freshId: string, now: Timestamp)
    returns (r: Result<EndReport>)
    requires (FindCompetition(db.competitions, competitionId).Some? && RoundVideos(db.videos, competitionId) != []
              && FirstActive(db.configs).Some?) ==> FirstActive(db.configs).value.halfLifeDays != 0
    modifies db`competitions, db`configs
    ensures FindCompetition(old(db.competitions), competitionId).None? ==>
      r == Err(404, "Competition not found") && db.competitions == old(db.competitions) && db.configs == old(db.configs)
    ensures FindCompetition(old(db.competitions), competitionId).Some? ==>
      var i := FindCompetition(old(db.competitions), competitionId).value;
      var comp := old(db.competitions)[i];
      var c := ChosenConfig(old(db.configs), freshId, now);
      var round := RoundVideos(db.videos, competitionId);
      && (round != [] ==> c.halfLifeDays != 0)
      && |db.competitions| == |old(db.competitions)|
      && var ranked := SortDesc(ByEntrantScore, Entrants(round, competitionId, Some(comp), db.users, c, now, math));
         var winners := db.competitions[i].winners;
         && RankedFrom(winners, ranked, comp.winnerCount, comp.specialWinnerCount)
         && db.competitions == old(db.competitions)[i := comp.(status := CompetitionEnded, endDate := now, winners := winners)]
         && r == Ok(EndReport("Competition ended successfully", PyPrefix(winners, 20), |winners|))
         && db.configs == (if round == [] then old(db.configs) else ConfigsAfter(old(db.configs), freshId, now))
  {
    var found := FindCompetition(db.competitions, competitionId);
    if found.None? {
      return Err(404, "Competition not found");
    }
    var i := found.value;
    var comp := db.competitions[i];
    var engine := new RecommendationEngine(db, math);
    var round := RoundVideos(db.videos, competitionId);
    var entrants := ScoreEntrants(engine, round, competitionId, freshId, now);
    var ranked := SortDesc(ByEntrantScore, entrants);
    var winners := RankWinners(ranked, comp.winnerCount, comp.specialWinnerCount);
    db.competitions := db.competitions[i := comp.(status := CompetitionEnded, endDate := now, winners := winners)];
    r := Ok(EndReport("Competition ended successfully", PyPrefix(winners, 20), |winners|));
  }

  // ---------------------------------------------------------------- moderation

  /** The single field a video moderation action sets. */
  datatype VideoPatch = SetVideoStatus(status: VideoStatus) | SetFeatured(featured: bool)

  const InvalidAction: string := "Invalid moderation action"

  /** The action check and `update_data` of `moderate_videos`. */
  function VideoActionPatch(action: string): (r: Result<VideoPatch>)
    ensures r.Ok? <==> action in ["suspend", "approve", "feature", "remove_feature"]
    ensures r.Err? ==> r == Err(400, InvalidAction)
  {
    if action == "suspend" then Ok(SetVideoStatus(VideoSuspended))
    else if action == "approve" then Ok(SetVideoStatus(VideoActive))
    else if action == "feature" then Ok(SetFeatured(true))
    else if action == "remove_feature" then Ok(SetFeatured(false))
    else Err(400, InvalidAction)
  }

  function PatchVideo(v: Video, p: VideoPatch): Video {
    match p
    case SetVideoStatus(s) => v.(status := s)
    case SetFeatured(b) => v.(isFeatured := b)
  }

  /** Each accepted action changes exactly one field, to the value its name says. */
  lemma VideoActionEffect(action: string, v: Video)
    requires VideoActionPatch(action).Ok?
    ensures var w := PatchVideo(v, VideoActionPatch(action).value);
      && (action == "suspend" ==> w == v.(status := VideoSuspended))
      && (action == "approve" ==> w == v.(status := VideoActive))
      && (action == "feature" ==> w == v.(isFeatured := true))
      && (action == "remove_feature" ==> w == v.(isFeatured := false))
  {
  }

  /** `update_many({"id": {"$in": ids}}, {"$set": patch})` on the videos. */
  function ModeratedVideos(videos: seq<Video>, ids: seq<string>, p: VideoPatch): (r: seq<Video>)
    ensures |r| == |videos|
  {
    seq(|videos|, i requires 0 <= i < |videos| => if videos[i].id in ids then PatchVideo(videos[i], p) else videos[i])
  }

  /** The store's `modified_count`: matched videos the patch actually changes. */
  function ChangedVideos(videos: seq<Video>, ids: seq<string>, p: VideoPatch): (n: nat)
    ensures n <= |videos|
  {
    if videos == [] then 0
    else
      var v := videos[|videos| - 1];
      ChangedVideos(videos[..|videos| - 1], ids, p) + (if v.id in ids && PatchVideo(v, p) != v then 1 else 0)
  }

  /** Moderating the same videos again with the same action modifies nothing and counts zero. */
  lemma {:induction false} ModerateVideosAgain(videos: seq<Video>, ids: seq<string>, p: VideoPatch)
    ensures ModeratedVideos(ModeratedVideos(videos, ids, p), ids, p) == ModeratedVideos(videos, ids, p)
    ensures ChangedVideos(ModeratedVideos(videos, ids, p), ids, p) == 0
  {
    var w := ModeratedVideos(videos, ids, p);
    if videos != [] {
      var init := videos[..|videos| - 1];
      ModerateVideosAgain(init, ids, p);
      assert w[..|w| - 1] == ModeratedVideos(init, ids, p);
    }
  }

  /** A video outside `ids` is never counted. */
  lemma {:induction false} ChangedVideosMatched(videos: seq<Video>, ids: seq<string>, p: VideoPatch)
    requires forall i :: 0 <= i < |videos| ==> videos[i].id !in ids
    ensures ChangedVideos(videos, ids, p) == 0
  {
    if videos != [] {
      ChangedVideosMatched(videos[..|videos| - 1], ids, p);
    }
  }

  datatype ModerationReport = ModerationReport(message: string, action: string, affectedCount: nat)

  /** `moderate_videos`: reject an unknown action, else patch every listed video. */
  method ModerateVideos(db: Database, ids: seq<string>, action: string) returns (r: Result<ModerationReport>)
    modifies db`videos
    ensures VideoActionPatch(action).Err? ==> r == Err(400, InvalidAction) && db.videos == old(db.videos)
    ensures VideoActionPatch(action).Ok? ==>
      var p := VideoActionPatch(action).value;
      && db.videos == ModeratedVideos(old(db.videos), ids, p)
      && r == Ok(ModerationReport("Moderated " + NatToString(ChangedVideos(old(db.videos), ids, p)) + " videos", action,
                               ChangedVideos(old(db.videos), ids, p)))
  {
    var patch := VideoActionPatch(action);
    if patch.Err? {
      return Err(patch.code, patch.message);
    }
    var count := ChangedVideos(db.videos, ids, patch.value);
    db.videos := ModeratedVideos(db.videos, ids, patch.value);
    r := Ok(ModerationReport("Moderated " + NatToString(count) + " videos", action, count));
  }

  /** The single flag a user moderation action sets. */
  datatype UserPatch = SetActive(active: bool) | SetVerified(verified: bool)

  /** The action check and `update_data` of `moderate_users`. */
  function UserActionPatch(action: string): (r: Result<UserPatch>)
    ensures r.Ok? <==> action in ["suspend", "activate", "verify", "unverify"]
    ensures r.Err? ==> r == Err(400, InvalidAction)
  {
    if action == "suspend" then Ok(SetActive(false))
    else if action == "activate" then Ok(SetActive(true))
    else if action == "verify" then Ok(SetVerified(true))
    else if action == "unverify" then Ok(SetVerified(false))
    else Err(400, InvalidAction)
  }

  function PatchUser(u: User, p: UserPatch): User {
    match p
    case SetActive(b) => u.(isActive := b)
    case SetVerified(b) => u.(isVerified := b)
  }

  /** Each accepted action sets exactly one flag, to the value its name says. */
  lemma UserActionEffect(action: string, u: User)
    requires UserActionPatch(action).Ok?
    ensures var w := PatchUser(u, UserActionPatch(action).value);
      && (action == "suspend" ==> w == u.(isActive := false))
      && (action == "activate" ==> w == u.(isActive := true))
      && (action == "verify" ==> w == u.(isVerified := true))
      && (action == "unverify" ==> w == u.(isVerified := false))
  {
  }

  function ModeratedUsers(users: seq<User>, ids: seq<string>, p: UserPatch): (r: seq<User>)
    ensures |r| == |users|
  {
    seq(|users|, i requires 0 <= i < |users| => if users[i].id in ids then PatchUser(users[i], p) else users[i])
  }

  function ChangedUsers(users: seq<User>, ids: seq<string>, p: UserPatch): (n: nat)
    ensures n <= |users|
  {
    if users == [] then 0
    else
      var u := users[|users| - 1];
      ChangedUsers(users[..|users| - 1], ids, p) + (if u.id in ids && PatchUser(u, p) != u then 1 else 0)
  }

  /** Moderating the same users again with the same action modifies nothing and counts zero. */
  lemma {:induction false} ModerateUsersAgain(users: seq<User>, ids: seq<string>, p: UserPatch)
    ensures ModeratedUsers(ModeratedUsers(users, ids, p), ids, p) == ModeratedUsers(users, ids, p)
    ensures ChangedUsers(ModeratedUsers(users, ids, p), ids, p) == 0
  {
    var w := ModeratedUsers(users, ids, p);
    if users != [] {
      var init := users[..|users| - 1];
      ModerateUsersAgain(init, ids, p);
      assert w[..|w| - 1] == ModeratedUsers(init, ids, p);
    }
  }

  /**
   * `moderate_users`: reject an unknown action, else patch every listed
   * user. Ids and balances are untouched, so the ledger stays balanced.
   */
  method ModerateUsers(db: Database, ids: seq<string>, action: string) returns (r: Result<ModerationReport>)
    modifies db`users
    ensures UserActionPatch(action).Err? ==> r == Err(400, InvalidAction) && db.users == old(db.users)
    ensures UserActionPatch(action).Ok? ==>
      var p := UserActionPatch(action).value;
      && db.users == ModeratedUsers(old(db.users), ids, p)
      && r == Ok(ModerationReport("Moderated " + NatToString(ChangedUsers(old(db.users), ids, p)) + " users", action,
                               ChangedUsers(old(db.users), ids, p)))
    ensures Balanced(old(db.users), db.transactions) ==> Balanced(db.users, db.transactions)
    ensures UniqueUserIds(old(db.users)) ==> UniqueUserIds(db.users)
  {
    var patch := UserActionPatch(action);
    if patch.Err? {
      return Err(patch.code, patch.message);
    }
    var count := ChangedUsers(db.users, ids, patch.value);
    var users := ModeratedUsers(db.users, ids, patch.value);
    if Balanced(db.users, db.transactions) {
      LedgerUntouched(db.users, users, db.transactions);
    }
    db.users := users;
    r := Ok(ModerationReport("Moderated " + NatToString(count) + " users", action, count));
  }

  // ---------------------------------------------------------------- adjust_user_credits

  /**
   * The guards of `adjust_user_credits`, in their order: a zero amount,
   * then an unknown user, then a negative resulting balance. On success,
   * the index of the user's record.
   */
  function AdjustmentCheck(users: seq<User>, userId: string, amount: int): (r: Result<nat>)
    ensures amount == 0 ==> r == Err(400, "Amount cannot be zero")
    ensures amount != 0 && FindUser(users, userId).None? ==> r == Err(404, "User not found")
    ensures r.Ok? <==> amount != 0 && FindUser(users, userId).Some?
                       && users[FindUser(users, userId).value].credits + amount >= 0
    ensures r.Ok? ==> r.value == FindUser(users, userId).value
  {
    if amount == 0 then Err(400, "Amount cannot be zero")
    else
      match FindUser(users, userId)
      case None => Err(404, "User not found")
      case Some(i) =>
        if users[i].credits + amount < 0 then Err(400, "Cannot adjust credits. User has " + IntToString(users[i].credits)
                                  + " credits, adjustment would result in negative balance")
        else Ok(i)
  }

  datatype Adjustment = Adjustment(previousBalance: int, adjustment: int, newBalance: int)

  /** The ledger entry an admin adjustment records. */
  function AdjustmentRecord(id: string, userId: string, amount: int, reason: string, now: Timestamp): CreditTransaction {
    CreditTransaction(id, userId, amount, "admin_adjustment", "Admin adjustment: " + reason, None, None, Some("completed"), now)
  }

  /**
   * `adjust_user_credits`: when the guards pass, the user's balance moves
   * by exactly `amount` to a non-negative value, one matching transaction
   * is recorded, and the ledger stays balanced.
   */
  method AdjustUserCredits(db: Database, userId: string, amount: int, reason: string, txId: string, now: Timestamp)
    returns (r: Result<Adjustment>)
    modifies db`users, db`transactions
    ensures AdjustmentCheck(old(db.users), userId, amount).Err? ==>
      && r == Err(AdjustmentCheck(old(db.users), userId, amount).code, AdjustmentCheck(old(db.users), userId, amount).message)
      && db.users == old(db.users) && db.transactions == old(db.transactions)
    ensures AdjustmentCheck(old(db.users), userId, amount).Ok? ==>
      var i := AdjustmentCheck(old(db.users), userId, amount).value;
      var current := old(db.users)[i].credits;
      && r == Ok(Adjustment(current, amount, current + amount))
      && r.value.newBalance >= 0
      && db.users == old(db.users)[i := old(db.users)[i].(credits := current + amount)]
      && db.transactions == old(db.transactions) + [AdjustmentRecord(txId, userId, amount, reason, now)]
    ensures Balanced(old(db.users), old(db.transactions)) && UniqueUserIds(old(db.users)) ==>
      Balanced(db.users, db.transactions)
  {
    var check := AdjustmentCheck(db.users, userId, amount);
    if check.Err? {
      return Err(check.code, check.message);
    }
    var i := check.value;
    var current := db.users[i].credits;
    var t := AdjustmentRecord(txId, userId, amount, reason, now);
    if Balanced(db.users, db.transactions) && UniqueUserIds(db.users) {
      LedgerStep(db.users, db.transactions, i, t);
    }
    db.users := db.users[i := db.users[i].(credits := current + amount)];
    db.transactions := db.transactions + [t];
    r := Ok(Adjustment(current, amount, current + amount));
  }

  // ---------------------------------------------------------------- financial settings

  /** The prize pool and the admin fee share the revenue exactly. */
  predicate SettingsValid(s: FinancialSettings) {
    s.prizePoolPercentage + s.adminFeePercentage == 100.0
  }

  /** What `get_financial_settings` reports when nothing is stored. */
  const DefaultFinancialSettings: FinancialSettings := FinancialSettings(30.0, 70.0, 30.0, 100.0)

  /** `get_financial_settings`: the stored settings, else the defaults. */
  function CurrentFinancialSettings(stored: Option<SettingsRecord>): (r: FinancialSettings)
    ensures stored.Some? ==> r == stored.value.settings
    ensures stored.None? ==> SettingsValid(r) && r.videoUploadPrice == 30.0
  {
    match stored
    case None => DefaultFinancialSettings
    case Some(rec) => rec.settings
  }

  /** Nothing stored, or valid settings stored. */
  predicate StoredSettingsValid(stored: Option<SettingsRecord>) {
    stored.Some? ==> SettingsValid(stored.value.settings)
  }

  /** Whatever the store holds, as long as only valid settings were ever stored, the reported settings are valid. */
  lemma ReportedSettingsValid(stored: Option<SettingsRecord>)
    requires StoredSettingsValid(stored)
    ensures SettingsValid(CurrentFinancialSettings(stored))
  {
  }

  /**
   * `update_financial_settings`: rejected with 400 unless the two
   * percentages sum to 100; otherwise stored (upserted) with the time and
   * the admin, so stored settings stay valid.
   */
  method UpdateFinancialSettings(db: Database, settings: FinancialSettings, adminId: string, now: Timestamp)
    returns (r: Result<string>)
    modifies db`financialSettings
    ensures r.Ok? <==> SettingsValid(settings)
    ensures r.Err? ==> r == Err(400, "Prize pool percentage and admin fee percentage must sum to 100%")
                       && db.financialSettings == old(db.financialSettings)
    ensures r.Ok? ==> db.financialSettings == Some(SettingsRecord(settings, now, adminId))
    ensures StoredSettingsValid(old(db.financialSettings)) ==> StoredSettingsValid(db.financialSettings)
  {
    if settings.prizePoolPercentage + settings.adminFeePercentage != 100.0 {
      return Err(400, "Prize pool percentage and admin fee percentage must sum to 100%");
    }
    db.financialSettings := Some(SettingsRecord(settings, now, adminId));
    r := Ok("Financial settings updated successfully");
  }

  // ---------------------------------------------------------------- get_user_detail

  /** `sum(abs(t.amount) for t in txs if t.amount < 0)`. */
  function Spent(txs: seq<CreditTransaction>): (r: nat)
    ensures r == 0 <==> forall i :: 0 <= i < |txs| ==> txs[i].amount >= 0
  {
    if txs == [] then 0
    else
      var t := txs[|txs| - 1];
      Spent(txs[..|txs| - 1]) + (if t.amount < 0 then -t.amount else 0)
  }

  /** `sum(t.amount for t in txs if t.amount > 0)`. */
  function ToppedUp(txs: seq<CreditTransaction>): (r: nat)
    ensures r == 0 <==> forall i :: 0 <= i < |txs| ==> txs[i].amount <= 0
  {
    if txs == [] then 0
    else
      var t := txs[|txs| - 1];
      ToppedUp(txs[..|txs| - 1]) + (if t.amount > 0 then t.amount else 0)
  }

  /** The net of the amounts. */
  function Net(txs: seq<CreditTransaction>): int {
    if txs == [] then 0 else Net(txs[..|txs| - 1]) + txs[|txs| - 1].amount
  }

  /** Topped up minus spent is the net: every non-zero amount lands in exactly one of the two. */
  lemma {:induction false} SpentToppedUpNet(txs: seq<CreditTransaction>)
    ensures ToppedUp(txs) - Spent(txs) == Net(txs)
  {
    if txs != [] {
      SpentToppedUpNet(txs[..|txs| - 1]);
    }
  }

  /** A zero-amount transaction counts in neither total. */
  lemma ZeroAmountIgnored(txs: seq<CreditTransaction>, t: CreditTransaction)
    requires t.amount == 0
    ensures Spent(txs + [t]) == Spent(txs) && ToppedUp(txs + [t]) == ToppedUp(txs)
  {
    assert (txs + [t])[..|txs|] == txs;
  }

  lemma {:induction false} NetConcat(a: seq<CreditTransaction>, b: seq<CreditTransaction>)
    ensures Net(a + b) == Net(a) + Net(b)
  {
    if b == [] {
      assert a + b == a;
    } else {
      NetConcat(a, b[..|b| - 1]);
      assert (a + b)[..|a + b| - 1] == a + b[..|b| - 1];
    }
  }

  /** The net does not depend on the order of the transactions. */
  lemma {:induction false} NetPermutation(a: seq<CreditTransaction>, b: seq<CreditTransaction>)
    requires multiset(a) == multiset(b)
    ensures Net(a) == Net(b)
    decreases |a|
  {
    if a != [] {
      var init, x := a[..|a| - 1], a[|a| - 1];
      assert a == init + [x];
      assert x in multiset(b);
      var k :| 0 <= k < |b| && b[k] == x;
      var rest := b[..k] + b[k + 1..];
      NetRemove(b, k);
      assert multiset(init) == multiset(rest);
      NetPermutation(init, rest);
      NetConcat(init, [x]);
      assert [x][..0] == [];
    }
  }

  /** Taking out the `k`-th transaction takes its amount out of the net and the multiset. */
  lemma NetRemove(b: seq<CreditTransaction>, k: nat)
    requires k < |b|
    ensures multiset(b[..k] + b[k + 1..]) == multiset(b) - multiset{b[k]}
    ensures Net(b) == Net(b[..k] + b[k + 1..]) + b[k].amount
  {
    MultisetRemove(b, k);
    var front := b[..k + 1];
    assert front[..k] == b[..k] && front[k] == b[k];
    assert Net(front) == Net(b[..k]) + b[k].amount;
    assert b == front + b[k + 1..];
    NetConcat(front, b[k + 1..]);
    NetConcat(b[..k], b[k + 1..]);
  }

  lemma MultisetRemove<T>(b: seq<T>, k: nat)
    requires k < |b|
    ensures multiset(b[..k] + b[k + 1..]) == multiset(b) - multiset{b[k]}
  {
    assert b == b[..k] + [b[k]] + b[k + 1..];
  }

  /** `credit_transactions.find({"user_id": uid})`, in stored order. */
  function UserTransactions(txs: seq<CreditTransaction>, uid: string): (r: seq<CreditTransaction>)
    ensures forall i :: 0 <= i < |r| ==> r[i].userId == uid
  {
    if txs == [] then []
    else
      var t := txs[|txs| - 1];
      UserTransactions(txs[..|txs| - 1], uid) + (if t.userId == uid then [t] else [])
  }

  /** The net of a user's own transactions is what the ledger credits them. */
  lemma {:induction false} UserTransactionsNet(txs: seq<CreditTransaction>, uid: string)
    ensures Net(UserTransactions(txs, uid)) == Credited(txs, uid)
  {
    if txs != [] {
      var t := txs[|txs| - 1];
      UserTransactionsNet(txs[..|txs| - 1], uid);
      NetConcat(UserTransactions(txs[..|txs| - 1], uid), if t.userId == uid then [t] else []);
      assert [t][..0] == [];
    }
  }

  function ByCreatedAt(t: CreditTransaction): real {
    t.createdAt
  }

  /**
   * `.sort("created_at", -1).limit(50)`: the user's 50 most recent
   * transactions (all of them when there are fewer), newest first: each
   * stored row at most once, and none left out newer than one kept.
   */
  function RecentTransactions(txs: seq<CreditTransaction>, uid: string): (r: seq<CreditTransaction>)
    ensures |r| == MinInt(50, |UserTransactions(txs, uid)|)
    ensures forall i :: 0 <= i < |r| ==> r[i].userId == uid
    ensures multiset(r) <= multiset(UserTransactions(txs, uid))
    ensures forall i, j :: 0 <= i < j < |r| ==> r[i].createdAt >= r[j].createdAt
    ensures forall i, t :: 0 <= i < |r| && t in multiset(UserTransactions(txs, uid)) - multiset(r) ==>
      r[i].createdAt >= t.createdAt
  {
    var own := UserTransactions(txs, uid);
    var sorted := SortDesc(ByCreatedAt, own);
    var r := PyPrefix(sorted, 50);
    SortDescCorrect(ByCreatedAt, own);
    NewestFirst(own, sorted, uid, |r|);
    assert r == sorted[..|r|];
    r
  }

  /**
   * The first `k` rows of a user's transactions sorted newest first are
   * the user's, in time order, drawn from the stored ones, and no row
   * left out is newer than a kept one.
   */
  lemma NewestFirst(own: seq<CreditTransaction>, sorted: seq<CreditTransaction>, uid: string, k: nat)
    requires forall i :: 0 <= i < |own| ==> own[i].userId == uid
    requires multiset(sorted) == multiset(own) && SortedDesc(ByCreatedAt, sorted) && k <= |sorted|
    ensures var kept := sorted[..k];
      && (forall i :: 0 <= i < k ==> kept[i].userId == uid)
      && multiset(kept) <= multiset(own)
      && (forall i, j :: 0 <= i < j < k ==> kept[i].createdAt >= kept[j].createdAt)
      && (forall i, t :: 0 <= i < k && t in multiset(own) - multiset(kept) ==> kept[i].createdAt >= t.createdAt)
  {
    var kept, dropped := sorted[..k], sorted[k..];
    assert sorted == kept + dropped;
    assert multiset(own) - multiset(kept) == multiset(dropped);
    forall i | 0 <= i < k ensures kept[i].userId == uid {
      assert kept[i] in multiset(sorted);
    }
    forall i, j | 0 <= i < j < k ensures kept[i].createdAt >= kept[j].createdAt {
      assert ByCreatedAt(sorted[i]) >= ByCreatedAt(sorted[j]);
    }
    DroppedNotNewer(sorted, k);
  }

  /** In a newest-first list, no row after position `k` is newer than one before it. */
  lemma DroppedNotNewer(sorted: seq<CreditTransaction>, k: nat)
    requires SortedDesc(ByCreatedAt, sorted) && k <= |sorted|
    ensures forall i, t :: 0 <= i < k && t in multiset(sorted[k..]) ==> sorted[i].createdAt >= t.createdAt
  {
    forall i, t | 0 <= i < k && t in multiset(sorted[k..]) ensures sorted[i].createdAt >= t.createdAt {
      var dropped := sorted[k..];
      var m :| 0 <= m < |dropped| && dropped[m] == t;
      assert ByCreatedAt(sorted[i]) >= ByCreatedAt(sorted[k + m]);
    }
  }

  /** `sum(v.view_count for v in videos)` over the user's videos. */
  function TotalViews(videos: seq<Video>, uid: string): (r: nat)
    ensures forall i :: 0 <= i < |videos| && videos[i].userId == uid ==> videos[i].viewCount <= r
    ensures (forall i :: 0 <= i < |videos| ==> videos[i].userId != uid) ==> r == 0
  {
    if videos == [] then 0
    else
      var v := videos[|videos| - 1];
      TotalViews(videos[..|videos| - 1], uid) + (if v.userId == uid then v.viewCount else 0)
  }

  /** `sum(v.like_count for v in videos)` over the user's videos. */
  function TotalLikes(videos: seq<Video>, uid: string): (r: nat)
    ensures forall i :: 0 <= i < |videos| && videos[i].userId == uid ==> videos[i].likeCount <= r
    ensures (forall i :: 0 <= i < |videos| ==> videos[i].userId != uid) ==> r == 0
  {
    if videos == [] then 0
    else
      var v := videos[|videos| - 1];
      TotalLikes(videos[..|videos| - 1], uid) + (if v.userId == uid then v.likeCount else 0)
  }

  /** `len(videos)` of `videos.find({"user_id": uid})`. */
  function VideoCount(videos: seq<Video>, uid: string): (r: nat)
    ensures r <= |videos|
    ensures r == 0 <==> forall i :: 0 <= i < |videos| ==> videos[i].userId != uid
  {
    if videos == [] then 0
    else VideoCount(videos[..|videos| - 1], uid) + (if videos[|videos| - 1].userId == uid then 1 else 0)
  }

  datatype UserStats = UserStats(videoCount: nat, totalViews: nat, totalLikes: nat, totalSpentCredits: nat,
                                 totalToppedUpCredits: nat, currentCredits: int)

  /** The `stats` block of `get_user_detail`; an unknown user is rejected with 404. */
  function UserDetailStats(users: seq<User>, videos: seq<Video>, txs: seq<CreditTransaction>, uid: string): (r: Result<UserStats>)
    ensures r.Err? <==> FindUser(users, uid).None?
    ensures r.Err? ==> r == Err(404, "User not found")
    ensures r.Ok? ==> r.value.currentCredits == users[FindUser(users, uid).value].credits
  {
    match FindUser(users, uid)
    case None => Err(404, "User not found")
    case Some(i) =>
      var recent := RecentTransactions(txs, uid);
      Ok(UserStats(VideoCount(videos, uid), TotalViews(videos, uid), TotalLikes(videos, uid),
                   Spent(recent), ToppedUp(recent), users[i].credits))
  }

  /**
   * For a user with at most 50 transactions on a balanced ledger, topped
   * up minus spent is exactly the current balance the same page reports.
   */
  lemma {:induction false} StatsMatchBalance(users: seq<User>, videos: seq<Video>, txs: seq<CreditTransaction>, uid: string)
    requires Balanced(users, txs)
    requires FindUser(users, uid).Some?
    requires |UserTransactions(txs, uid)| <= 50
    ensures var r := UserDetailStats(users, videos, txs, uid);
      r.Ok? && r.value.totalToppedUpCredits - r.value.totalSpentCredits == r.value.currentCredits
  {
    var mine := UserTransactions(txs, uid);
    var sorted := SortDesc(ByCreatedAt, mine);
    SortDescCorrect(ByCreatedAt, mine);
    assert PyPrefix(sorted, 50) == sorted;
    SpentToppedUpNet(sorted);
    NetPermutation(sorted, mine);
    UserTransactionsNet(txs, uid);
  }
}

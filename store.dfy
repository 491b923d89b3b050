/**
 * The document store the services talk to, abstracted to one object whose
 * fields are its collections. A collection is a sequence in insertion
 * order: `find_one` returns the first document that matches, `insert_one`
 * appends, and `update_one` rewrites the first match.
 */
module Store {
  import opened Base
  import opened Models

  /** The `system_settings` document of type "financial" (see the Admin module). */
  datatype FinancialSettings = FinancialSettings(
    videoUploadPrice: real,
    prizePoolPercentage: real,
    adminFeePercentage: real,
    minPayoutAmount: real)

  datatype SettingsRecord = SettingsRecord(settings: FinancialSettings, updatedAt: Timestamp, updatedBy: string)

  class Database {
    var users: seq<User>
    var videos: seq<Video>
    var competitions: seq<Competition>
    var preferences: seq<UserPreference>
    var configs: seq<AlgorithmConfig>
    var follows: seq<UserFollow>
    var transactions: seq<CreditTransaction>
    var otps: seq<PhoneOtp>
    var financialSettings: Option<SettingsRecord>

    constructor ()
      ensures users == [] && videos == [] && competitions == [] && preferences == []
      ensures configs == [] && follows == [] && transactions == [] && otps == []
      ensures financialSettings == None
    {
      users, videos, competitions, preferences := [], [], [], [];
      configs, follows, transactions, otps := [], [], [], [];
      financialSettings := None;
    }
  }

  function FindUser(users: seq<User>, id: string): Option<nat> {
    FirstIndex(users, (u: User) => u.id == id)
  }

  /** `users.find_one({"id": id})`, as the record itself. */
  function LookupUser(users: seq<User>, id: string): Option<User> {
    match FindUser(users, id)
    case None => None
    case Some(i) => Some(users[i])
  }

  function FindVideo(videos: seq<Video>, id: string): Option<nat> {
    FirstIndex(videos, (v: Video) => v.id == id)
  }

  function FindCompetition(competitions: seq<Competition>, id: string): Option<nat> {
    FirstIndex(competitions, (c: Competition) => c.id == id)
  }

  function LookupCompetition(competitions: seq<Competition>, id: string): Option<Competition> {
    match FindCompetition(competitions, id)
    case None => None
    case Some(i) => Some(competitions[i])
  }

  function FindPreference(preferences: seq<UserPreference>, userId: string): Option<nat> {
    FirstIndex(preferences, (p: UserPreference) => p.userId == userId)
  }

  /** No two stored profiles belong to the same viewer. */
  predicate OnePerViewer(preferences: seq<UserPreference>) {
    forall i, j :: 0 <= i < j < |preferences| ==> preferences[i].userId != preferences[j].userId
  }

  /**
   * `replace_one({"user_id": ...}, p, upsert=True)`: afterwards the viewer's
   * profile is found and is `p`; other viewers' profiles stay where they
   * were; a new record is added only when the viewer had none; and one
   * profile per viewer stays so.
   */
  function UpsertPreference(preferences: seq<UserPreference>, p: UserPreference): (r: seq<UserPreference>)
    ensures FindPreference(r, p.userId).Some? && r[FindPreference(r, p.userId).value] == p
    ensures |r| == |preferences| + (if FindPreference(preferences, p.userId).None? then 1 else 0)
    ensures forall i :: 0 <= i < |preferences| && preferences[i].userId != p.userId ==> r[i] == preferences[i]
    ensures forall i :: 0 <= i < |r| ==> r[i] == p || (i < |preferences| && r[i] == preferences[i])
    ensures OnePerViewer(preferences) ==> OnePerViewer(r)
  {
    match FindPreference(preferences, p.userId)
    case None =>
      var r := preferences + [p];
      FindPreferenceAt(r, p.userId, |preferences|);
      r
    case Some(i) =>
      var r := preferences[i := p];
      FindPreferenceAt(r, p.userId, i);
      r
  }

  /** The viewer's first profile is at `k` when `k` is theirs and no earlier one is. */
  lemma FindPreferenceAt(preferences: seq<UserPreference>, userId: string, k: nat)
    requires k < |preferences| && preferences[k].userId == userId
    requires forall j :: 0 <= j < k ==> preferences[j].userId != userId
    ensures FindPreference(preferences, userId) == Some(k)
  {
  }

  predicate UniqueUserIds(users: seq<User>) {
    forall i, j :: 0 <= i < j < |users| ==> users[i].id != users[j].id
  }

  predicate UniqueUsernames(users: seq<User>) {
    forall i, j :: 0 <= i < j < |users| ==> users[i].username != users[j].username
  }

  /** Is `name` held by some stored user (`users.find_one({"username": name})` finds one)? */
  predicate UsernameTaken(users: seq<User>, name: string) {
    exists i :: 0 <= i < |users| && users[i].username == name
  }
}

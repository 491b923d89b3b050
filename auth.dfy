/**
 * Account and credit logic of `AuthManager` (backend/auth.py): username
 * generation, phone one-time passwords, profile updates and the credit
 * ledger operations. Tokens (JWT), Google sign-in and password hashing
 * are not modelled; the clock, fresh ids and the random code are inputs.
 */
module Auth {
  import opened Base
  import opened Models
  import opened Store
  import opened Ledger

  // ---------------------------------------------------------------- usernames

  /** `str.lower()` on one character, for ASCII letters. */
  function Lower(c: char): (r: char)
    ensures 'A' <= c <= 'Z' ==> 'a' <= r <= 'z'
    ensures !('A' <= c <= 'Z') ==> r == c
  {
    if 'A' <= c <= 'Z' then (c as int + 32) as char else c
  }

  /** `str.isalnum()` on one character, for ASCII. */
  predicate IsAlnum(c: char) {
    'a' <= c <= 'z' || 'A' <= c <= 'Z' || IsDigit(c)
  }

  /** `''.join(c for c in s.lower() if c.isalnum())`. */
  function KeepAlnumLower(s: string): (r: string)
    ensures |r| <= |s|
    ensures forall i :: 0 <= i < |r| ==> 'a' <= r[i] <= 'z' || IsDigit(r[i])
  {
    if s == [] then []
    else (if IsAlnum(Lower(s[0])) then [Lower(s[0])] else []) + KeepAlnumLower(s[1..])
  }

  /** The cleaned base of `generate_unique_username`: never empty, `"user"` when nothing survives. */
  function CleanBase(name: string): (r: string)
    ensures |r| > 0
    ensures KeepAlnumLower(name) == [] ==> r == "user"
  {
    var b := KeepAlnumLower(name);
    if b == [] then "user" else b
  }

  /** Text that is already lower-case letters and digits survives the cleaning unchanged. */
  lemma {:induction false} KeepClean(s: string)
    requires forall i :: 0 <= i < |s| ==> 'a' <= s[i] <= 'z' || IsDigit(s[i])
    ensures KeepAlnumLower(s) == s
  {
    if s != [] {
      KeepClean(s[1..]);
      assert [s[0]] + s[1..] == s;
    }
  }

  /** Cleaning is idempotent: a cleaned base is its own base. */
  lemma CleanBaseIdempotent(name: string)
    ensures CleanBase(CleanBase(name)) == CleanBase(name)
  {
    var b := KeepAlnumLower(name);
    if b == [] {
      KeepClean("user");
    } else {
      KeepClean(b);
    }
  }

  /** The `k`-th name tried: the base itself, then base + "1", base + "2", ... */
  function Candidate(base: string, k: nat): string {
    if k == 0 then base else base + NatToString(k)
  }

  /**
   * What `generate_unique_username` returns for `baseName`: the first
   * candidate of the cleaned base that no user holds.
   */
  ghost predicate FirstFreeName(users: seq<User>, baseName: string, username: string) {
    && !UsernameTaken(users, username)
    && exists k: nat :: (username == Candidate(CleanBase(baseName), k)
         && forall j :: 0 <= j < k ==> UsernameTaken(users, Candidate(CleanBase(baseName), j)))
  }

  /** The names tried are pairwise distinct. */
  lemma CandidateInjective(base: string, j: nat, k: nat)
    requires Candidate(base, j) == Candidate(base, k)
    ensures j == k
  {
    if j > 0 && k > 0 {
      assert NatToString(j) == Candidate(base, j)[|base|..];
      assert NatToString(k) == Candidate(base, k)[|base|..];
      NatToStringInjective(j, k);
    }
  }

  /** The first `k` candidates, as a set. */
  function Candidates(base: string, k: nat): (r: set<string>)
    ensures forall x :: x in r <==> exists j :: 0 <= j < k && x == Candidate(base, j)
  {
    if k == 0 then {} else Candidates(base, k - 1) + {Candidate(base, k - 1)}
  }

  lemma {:induction false} CandidatesCount(base: string, k: nat)
    ensures |Candidates(base, k)| == k
  {
    if k > 0 {
      CandidatesCount(base, k - 1);
      if Candidate(base, k - 1) in Candidates(base, k - 1) {
        var j :| 0 <= j < k - 1 && Candidate(base, k - 1) == Candidate(base, j);
        CandidateInjective(base, j, k - 1);
      }
    }
  }

  /** The usernames in use, as a set. */
  function Usernames(users: seq<User>): (r: set<string>)
    ensures |r| <= |users|
    ensures forall x :: x in r <==> UsernameTaken(users, x)
  {
    if users == [] then {}
    else
      var init := users[..|users| - 1];
      assert forall i :: 0 <= i < |init| ==> init[i] == users[i];
      Usernames(init) + {users[|users| - 1].username}
  }

  /** Pigeonhole: the store cannot hold more of the distinct candidates than it has users. */
  lemma TakenBound(users: seq<User>, base: string, k: nat)
    requires forall j :: 0 <= j < k ==> UsernameTaken(users, Candidate(base, j))
    ensures k <= |users|
  {
    CandidatesCount(base, k);
    var a, b := Candidates(base, k), Usernames(users);
    assert a <= b;
    assert b == a + (b - a);
  }

  // ---------------------------------------------------------------- phone numbers

  /** `s.replace(c, '')`. */
  function Strip(s: string, c: char): (r: string)
    ensures |r| <= |s|
  {
    if s == [] then [] else (if s[0] == c then [] else [s[0]]) + Strip(s[1..], c)
  }

  predicate IsSeparator(c: char) {
    c == '+' || c == '-' || c == ' '
  }

  /** The separators of a phone number left out, everything else kept in order. */
  function WithoutSeparators(s: string): (r: string)
    ensures forall i :: 0 <= i < |r| ==> !IsSeparator(r[i])
  {
    if s == [] then [] else (if IsSeparator(s[0]) then [] else [s[0]]) + WithoutSeparators(s[1..])
  }

  /** The cleaning `send_otp` applies before storing: remove every `+`, then `-`, then space. */
  function CleanPhone(phone: string): string {
    Strip(Strip(Strip(phone, '+'), '-'), ' ')
  }

  lemma {:induction false} StripConcat(a: string, b: string, c: char)
    ensures Strip(a + b, c) == Strip(a, c) + Strip(b, c)
  {
    if a == [] {
      assert a + b == b;
    } else {
      var ab := a + b;
      assert ab[0] == a[0];
      assert ab[1..] == a[1..] + b;
      var head := if a[0] == c then [] else [a[0]];
      assert Strip(ab, c) == head + Strip(a[1..] + b, c);
      assert Strip(a, c) == head + Strip(a[1..], c);
      StripConcat(a[1..], b, c);
      assert head + (Strip(a[1..], c) + Strip(b, c)) == (head + Strip(a[1..], c)) + Strip(b, c);
    }
  }

  lemma StripOne(x: char, c: char)
    ensures Strip([x], c) == if x == c then [] else [x]
  {
    assert [x][1..] == [];
  }

  lemma {:induction false} StripThree(s: string)
    ensures Strip(Strip(Strip(s, '+'), '-'), ' ') == WithoutSeparators(s)
  {
    if s != [] {
      var h, t := [s[0]], s[1..];
      assert s == h + t;
      StripThree(t);
      StripConcat(h, t, '+');
      StripOne(s[0], '+');
      StripConcat(Strip(h, '+'), Strip(t, '+'), '-');
      StripOne(s[0], '-');
      StripConcat(Strip(Strip(h, '+'), '-'), Strip(Strip(t, '+'), '-'), ' ');
      StripOne(s[0], ' ');
    }
  }

  /** The three replacements together remove exactly the separators, keeping the rest in order. */
  lemma CleanPhoneSeparators(phone: string)
    ensures CleanPhone(phone) == WithoutSeparators(phone)
    ensures forall i :: 0 <= i < |CleanPhone(phone)| ==> !IsSeparator(CleanPhone(phone)[i])
  {
    StripThree(phone);
  }

  lemma {:induction false} WithoutSeparatorsKeeps(s: string)
    requires forall i :: 0 <= i < |s| ==> !IsSeparator(s[i])
    ensures WithoutSeparators(s) == s
  {
    if s != [] {
      WithoutSeparatorsKeeps(s[1..]);
      assert [s[0]] + s[1..] == s;
    }
  }

  lemma {:induction false} WithoutSeparatorsShrinks(s: string)
    requires exists i :: 0 <= i < |s| && IsSeparator(s[i])
    ensures |WithoutSeparators(s)| < |s|
  {
    if !IsSeparator(s[0]) {
      var i :| 0 <= i < |s| && IsSeparator(s[i]);
      assert IsSeparator(s[1..][i - 1]);
      WithoutSeparatorsShrinks(s[1..]);
    } else {
      assert |WithoutSeparators(s[1..])| <= |s[1..]| by {
        WithoutSeparatorsBound(s[1..]);
      }
    }
  }

  lemma {:induction false} WithoutSeparatorsBound(s: string)
    ensures |WithoutSeparators(s)| <= |s|
  {
    if s != [] {
      WithoutSeparatorsBound(s[1..]);
    }
  }

  /** A phone number is left as it is exactly when it has no separator; cleaning twice is cleaning once. */
  lemma CleanPhoneFixpoint(phone: string)
    ensures CleanPhone(phone) == phone <==> forall i :: 0 <= i < |phone| ==> !IsSeparator(phone[i])
    ensures CleanPhone(CleanPhone(phone)) == CleanPhone(phone)
  {
    CleanPhoneSeparators(phone);
    CleanPhoneSeparators(CleanPhone(phone));
    WithoutSeparatorsKeeps(CleanPhone(phone));
    if forall i :: 0 <= i < |phone| ==> !IsSeparator(phone[i]) {
      WithoutSeparatorsKeeps(phone);
    } else {
      WithoutSeparatorsShrinks(phone);
    }
  }

  // ---------------------------------------------------------------- one-time passwords

  /** Five minutes, in seconds. */
  const OtpLifetime: real := 300.0

  /** What `generate_otp` produces: six decimal digits. */
  predicate IsOtpCode(code: string) {
    |code| == 6 && forall i :: 0 <= i < 6 ==> IsDigit(code[i])
  }

  /** The record `verify_otp` finds: the first unused, unexpired one with this phone and code. */
  function ValidOtp(otps: seq<PhoneOtp>, phone: string, code: string, now: Timestamp): (r: Option<nat>)
    ensures r.Some? ==> r.value < |otps| && otps[r.value].phone == phone && otps[r.value].otpCode == code
                        && !otps[r.value].isUsed && otps[r.value].expiresAt > now
    ensures r.None? <==> forall j :: 0 <= j < |otps| ==>
      !(otps[j].phone == phone && otps[j].otpCode == code && !otps[j].isUsed && otps[j].expiresAt > now)
  {
    FirstIndex(otps, (o: PhoneOtp) => o.phone == phone && o.otpCode == code && !o.isUsed && o.expiresAt > now)
  }

  /** `update_one({"id": record.id}, {"$set": {"is_used": True}})`: the first record with that id is marked used. */
  function Consume(otps: seq<PhoneOtp>, i: nat): (r: seq<PhoneOtp>)
    requires i < |otps|
    ensures |r| == |otps|
  {
    match FindOtpById(otps, otps[i].id)
    case Some(j) => otps[j := otps[j].(isUsed := true)]
    case None => otps
  }

  function FindOtpById(otps: seq<PhoneOtp>, id: string): Option<nat> {
    FirstIndex(otps, (o: PhoneOtp) => o.id == id)
  }

  /** `users.find_one({"phone": phone})`. */
  function FindByPhone(users: seq<User>, phone: string): Option<nat> {
    FirstIndex(users, (u: User) => u.phone == Some(phone))
  }

  predicate UniqueOtpIds(otps: seq<PhoneOtp>) {
    forall i, j :: 0 <= i < j < |otps| ==> otps[i].id != otps[j].id
  }

  /** With distinct record ids, consuming marks exactly the record found, and nothing else changes. */
  lemma ConsumeMarksFound(otps: seq<PhoneOtp>, i: nat)
    requires i < |otps| && UniqueOtpIds(otps)
    ensures Consume(otps, i) == otps[i := otps[i].(isUsed := true)]
  {
    var j := FindOtpById(otps, otps[i].id);
    assert j.Some?;
    var k := j.value;
    assert otps[k].id == otps[i].id;
  }

  /**
   * A consumed record can never verify again, for any phone, code or
   * time; and when it was the only record for its phone and code, that
   * pair no longer verifies at all.
   */
  lemma OtpSingleUse(otps: seq<PhoneOtp>, phone: string, code: string, now: Timestamp, i: nat)
    requires UniqueOtpIds(otps) && ValidOtp(otps, phone, code, now) == Some(i)
    ensures forall p, c, t :: ValidOtp(Consume(otps, i), p, c, t) != Some(i)
    ensures (forall j :: 0 <= j < |otps| && j != i ==> otps[j].phone != phone || otps[j].otpCode != code) ==>
      forall t :: ValidOtp(Consume(otps, i), phone, code, t) == None
  {
    ConsumeMarksFound(otps, i);
  }

  /**
   * The mismatch between `send_otp` and `login_with_phone`: the record is
   * stored under the cleaned number, so when the number as typed contains
   * a separator and no record was stored under the raw number, verifying
   * with the raw number fails.
   */
  lemma RawPhoneNeverVerifies(otps: seq<PhoneOtp>, phone: string, code: string, id: string, sentAt: Timestamp, now: Timestamp)
    requires exists i :: 0 <= i < |phone| && IsSeparator(phone[i])
    requires forall j :: 0 <= j < |otps| ==> otps[j].phone != phone
    ensures ValidOtp(otps + [PhoneOtp(id, CleanPhone(phone), code, sentAt + OtpLifetime, false, sentAt)], phone, code, now) == None
  {
    CleanPhoneFixpoint(phone);
    var s := otps + [PhoneOtp(id, CleanPhone(phone), code, sentAt + OtpLifetime, false, sentAt)];
    assert forall j :: 0 <= j < |otps| ==> s[j] == otps[j];
  }

  /** A number typed without separators does verify within five minutes, if no earlier record matches. */
  lemma CleanPhoneVerifies(otps: seq<PhoneOtp>, phone: string, code: string, id: string, sentAt: Timestamp, now: Timestamp)
    requires forall i :: 0 <= i < |phone| ==> !IsSeparator(phone[i])
    requires now < sentAt + OtpLifetime
    requires ValidOtp(otps, phone, code, now).None?
    ensures ValidOtp(otps + [PhoneOtp(id, CleanPhone(phone), code, sentAt + OtpLifetime, false, sentAt)], phone, code, now)
         == Some(|otps|)
  {
    CleanPhoneFixpoint(phone);
    var s := otps + [PhoneOtp(id, CleanPhone(phone), code, sentAt + OtpLifetime, false, sentAt)];
    assert forall j :: 0 <= j < |otps| ==> s[j] == otps[j];
    assert s[|otps|].phone == phone;
    var r := ValidOtp(s, phone, code, now);
    assert r.Some?;
    assert r.value >= |otps|;
  }

  /** The response of `send_otp`. */
  datatype OtpSent = OtpSent(message: string, phone: string, otp: string)

  /** The profile fields a user may change. */
  datatype ProfileUpdate = ProfileUpdate(username: Option<string>, displayName: Option<string>,
                                         bio: Option<string>, avatarUrl: Option<string>)

  function ApplyProfile(u: User, p: ProfileUpdate): (r: User)
    ensures r.id == u.id && r.credits == u.credits
  {
    u.(username := p.username.GetOr(u.username), displayName := p.displayName.GetOr(u.displayName),
       bio := if p.bio.Some? then p.bio else u.bio, avatarUrl := if p.avatarUrl.Some? then p.avatarUrl else u.avatarUrl)
  }

  /** `find_one({"username": name, "id": {"$ne": uid}})` finds someone. */
  predicate TakenByOther(users: seq<User>, name: string, uid: string) {
    exists i :: 0 <= i < |users| && users[i].username == name && users[i].id != uid
  }

  /** The Thai display name "user NNNN" a phone sign-up gets. */
  const PhoneDisplayPrefix: string := "\U{0E1C}\U{0E39}\U{0E49}\U{0E43}\U{0E0A}\U{0E49} "

  class AuthManager {
    const db: Database

    /** The store's account invariants: ids and usernames are unique and every balance matches its ledger. */
    ghost predicate Valid()
      reads db
    {
      UniqueUserIds(db.users) && UniqueUsernames(db.users) && Balanced(db.users, db.transactions)
    }

    /** An id no stored user or transaction uses yet. */
    ghost predicate Unused(id: string)
      reads db
    {
      (forall i :: 0 <= i < |db.users| ==> db.users[i].id != id)
      && (forall k :: 0 <= k < |db.transactions| ==> db.transactions[k].userId != id)
    }

    constructor (db: Database)
      ensures this.db == db
    {
      this.db := db;
    }

    /**
     * `generate_unique_username`: the cleaned base if it is free, else
     * base + k for the smallest k >= 1 that is free. The loop ends
     * because the candidates are distinct and the store finite.
     */
    method GenerateUniqueUsername(baseName: string) returns (username: string)
      ensures FirstFreeName(db.users, baseName, username)
    {
      var base := CleanBase(baseName);
      var counter: nat := 0;
      username := base;
      while UsernameTaken(db.users, username)
        invariant username == Candidate(base, counter)
        invariant forall j :: 0 <= j < counter ==> UsernameTaken(db.users, Candidate(base, j))
        invariant counter <= |db.users|
        decreases |db.users| - counter
      {
        TakenBound(db.users, base, counter + 1);
        counter := counter + 1;
        username := base + NatToString(counter);
      }
    }

    /** `send_otp`: store a record for the cleaned number, unused, expiring five minutes from now. */
    method SendOtp(phone: string, code: string, otpId: string, now: Timestamp) returns (sent: OtpSent)
      requires IsOtpCode(code)
      modifies db`otps
      ensures db.otps == old(db.otps) + [PhoneOtp(otpId, CleanPhone(phone), code, now + OtpLifetime, false, now)]
      ensures sent == OtpSent("OTP sent successfully", CleanPhone(phone), code)
    {
      var cleaned := Strip(Strip(Strip(phone, '+'), '-'), ' ');
      db.otps := db.otps + [PhoneOtp(otpId, cleaned, code, now + OtpLifetime, false, now)];
      sent := OtpSent("OTP sent successfully", cleaned, code);
    }

    /** `verify_otp`: succeed exactly when a valid record exists, and consume it. */
    method VerifyOtp(phone: string, code: string, now: Timestamp) returns (ok: bool)
      modifies db`otps
      ensures ok <==> ValidOtp(old(db.otps), phone, code, now).Some?
      ensures !ok ==> db.otps == old(db.otps)
      ensures ok ==> db.otps == Consume(old(db.otps), ValidOtp(old(db.otps), phone, code, now).value)
    {
      var found := ValidOtp(db.otps, phone, code, now);
      if found.None? {
        return false;
      }
      var target := FindOtpById(db.otps, db.otps[found.value].id);
      if target.Some? {
        var j := target.value;
        db.otps := db.otps[j := db.otps[j].(isUsed := true)];
      }
      ok := true;
    }

    /**
     * `login_with_phone`: the OTP is verified against the number as typed
     * (not cleaned). An existing user with that number is returned as
     * stored and its `last_active` moved to now; otherwise a user named
     * after the last four characters of the number is created with no
     * credits.
     */
    method LoginWithPhone(phone: string, code: string, newUserId: string, now: Timestamp) returns (r: Result<User>)
      modifies db`otps, db`users
      ensures ValidOtp(old(db.otps), phone, code, now).None? ==>
        r == Err(400, "Invalid or expired OTP") && db.users == old(db.users) && db.otps == old(db.otps)
      ensures ValidOtp(old(db.otps), phone, code, now).Some? ==>
        db.otps == Consume(old(db.otps), ValidOtp(old(db.otps), phone, code, now).value)
      ensures ValidOtp(old(db.otps), phone, code, now).Some? && FindByPhone(old(db.users), phone).Some? ==>
        var doc := old(db.users)[FindByPhone(old(db.users), phone).value];
        && r == Ok(doc)
        && FindUser(old(db.users), doc.id).Some?
        && var i := FindUser(old(db.users), doc.id).value;
           db.users == old(db.users)[i := old(db.users)[i].(lastActive := now)]
      ensures ValidOtp(old(db.otps), phone, code, now).Some? && FindByPhone(old(db.users), phone).None? ==>
        && r.Ok? && db.users == old(db.users) + [r.value]
        && r.value == NewUser(newUserId, r.value.username, PhoneDisplayPrefix + LastN(phone, 4), now).(phone := Some(phone))
        && r.value.credits == 0
        && FirstFreeName(old(db.users), "user" + LastN(phone, 4), r.value.username)
      ensures old(Valid()) && old(Unused(newUserId)) ==> Valid()
    {
      var ok := VerifyOtp(phone, code, now);
      if !ok {
        return Err(400, "Invalid or expired OTP");
      }
      var existing := FindByPhone(db.users, phone);
      if existing.Some? {
        var doc := db.users[existing.value];
        TouchUser(FindUser(db.users, doc.id).value, now);
        return Ok(doc);
      }
      var user := RegisterPhoneUser(phone, newUserId, now);
      r := Ok(user);
    }

    /** `update_one({"id": ...}, {"$set": {"last_active": now}})` on user `i`. */
    method TouchUser(i: nat, now: Timestamp)
      requires i < |db.users|
      modifies db`users
      ensures db.users == old(db.users)[i := old(db.users)[i].(lastActive := now)]
      ensures old(Valid()) ==> Valid()
    {
      var users := db.users[i := db.users[i].(lastActive := now)];
      if Valid() {
        LedgerUntouched(db.users, users, db.transactions);
        assert forall a :: 0 <= a < |users| ==> users[a].username == db.users[a].username && users[a].id == db.users[a].id;
      }
      db.users := users;
    }

    /** The sign-up branch of `login_with_phone`. */
    method RegisterPhoneUser(phone: string, newUserId: string, now: Timestamp) returns (user: User)
      modifies db`users
      ensures db.users == old(db.users) + [user]
      ensures user == NewUser(newUserId, user.username, PhoneDisplayPrefix + LastN(phone, 4), now).(phone := Some(phone))
      ensures user.credits == 0 && FirstFreeName(old(db.users), "user" + LastN(phone, 4), user.username)
      ensures old(Valid()) && old(Unused(newUserId)) ==> Valid()
    {
      var suffix := LastN(phone, 4);
      var username := GenerateUniqueUsername("user" + suffix);
      user := NewUser(newUserId, username, PhoneDisplayPrefix + suffix, now).(phone := Some(phone));
      var users := db.users + [user];
      if Valid() && Unused(newUserId) {
        LedgerNewAccount(db.users, db.transactions, user);
        assert forall a :: 0 <= a < |db.users| ==> users[a] == db.users[a];
      }
      db.users := users;
    }

    /**
     * `update_user_profile`: a username held by a different user is
     * rejected; otherwise the user's fields are set and the stored record
     * returned. A user that does not exist makes the final read fail.
     */
    method UpdateUserProfile(userId: string, update: ProfileUpdate) returns (r: Result<User>)
      modifies db`users
      ensures update.username.Some? && TakenByOther(old(db.users), update.username.value, userId) ==>
        r == Err(400, "Username already exists") && db.users == old(db.users)
      ensures !(update.username.Some? && TakenByOther(old(db.users), update.username.value, userId)) ==>
        match FindUser(old(db.users), userId)
        case None => r.Err? && db.users == old(db.users)
        case Some(i) =>
          && db.users == old(db.users)[i := ApplyProfile(old(db.users)[i], update)]
          && r == Ok(db.users[i])
      ensures old(Valid()) ==> Valid()
    {
      if update.username.Some? && TakenByOther(db.users, update.username.value, userId) {
        return Err(400, "Username already exists");
      }
      var found := FindUser(db.users, userId);
      if found.None? {
        return Err(500, "Internal Server Error");
      }
      var i := found.value;
      var users := db.users[i := ApplyProfile(db.users[i], update)];
      if Valid() {
        LedgerUntouched(db.users, users, db.transactions);
        forall a, b | 0 <= a < b < |users| ensures users[a].username != users[b].username {
          if a == i || b == i {
            var other := if a == i then b else a;
            assert db.users[other].id != userId by {
              if other < i { assert db.users[other].id != db.users[i].id; }
              else { assert db.users[i].id != db.users[other].id; }
            }
          }
        }
      }
      db.users := users;
      r := Ok(db.users[i]);
    }

    /**
     * `add_credits`: when the increment modifies a record (the user exists
     * and the amount is not zero) the balance moves by the amount, a
     * matching transaction is recorded and the new balance returned;
     * otherwise "User not found".
     */
    method AddCredits(userId: string, amount: int, transactionType: string, description: string,
                      paymentSessionId: Option<string>, txId: string, now: Timestamp) returns (r: Result<int>)
      modifies db`users, db`transactions
      ensures FindUser(old(db.users), userId).None? || amount == 0 ==>
        r == Err(404, "User not found") && db.users == old(db.users) && db.transactions == old(db.transactions)
      ensures FindUser(old(db.users), userId).Some? && amount != 0 ==>
        var i := FindUser(old(db.users), userId).value;
        && db.users == old(db.users)[i := old(db.users)[i].(credits := old(db.users)[i].credits + amount)]
        && db.transactions == old(db.transactions)
             + [CreditTransaction(txId, userId, amount, transactionType, description, paymentSessionId, None, None, now)]
        && r == Ok(old(db.users)[i].credits + amount)
      ensures old(Valid()) ==> Valid()
    {
      var found := FindUser(db.users, userId);
      if found.None? || amount == 0 {
        return Err(404, "User not found");
      }
      var i := found.value;
      var t := CreditTransaction(txId, userId, amount, transactionType, description, paymentSessionId, None, None, now);
      CreditStep(i, t);
      r := Ok(db.users[i].credits);
    }

    /**
     * `spend_credits`: an unknown user (404) or a balance below the amount
     * (400) is rejected; otherwise the balance drops by exactly the amount,
     * a transaction of minus the amount is recorded, and the old balance
     * minus the amount is returned.
     */
    method SpendCredits(userId: string, amount: int, description: string, videoId: Option<string>,
                        txId: string, now: Timestamp) returns (r: Result<int>)
      modifies db`users, db`transactions
      ensures FindUser(old(db.users), userId).None? ==>
        r == Err(404, "User not found") && db.users == old(db.users) && db.transactions == old(db.transactions)
      ensures FindUser(old(db.users), userId).Some? ==>
        var i := FindUser(old(db.users), userId).value;
        var balance := old(db.users)[i].credits;
        && (balance < amount ==>
              && r == Err(400, "Insufficient credits. You have " + IntToString(balance) + " credits, need " + IntToString(amount))
              && db.users == old(db.users) && db.transactions == old(db.transactions))
        && (balance >= amount ==>
              && db.users == old(db.users)[i := old(db.users)[i].(credits := balance - amount)]
              && db.transactions == old(db.transactions)
                   + [CreditTransaction(txId, userId, -amount, "spend", description, None, videoId, None, now)]
              && r == Ok(balance - amount) && r.value >= 0)
      ensures old(Valid()) ==> Valid()
    {
      var found := FindUser(db.users, userId);
      if found.None? {
        return Err(404, "User not found");
      }
      var i := found.value;
      var balance := db.users[i].credits;
      if balance < amount {
        return Err(400, "Insufficient credits. You have " + IntToString(balance) + " credits, need " + IntToString(amount));
      }
      var t := CreditTransaction(txId, userId, -amount, "spend", description, None, videoId, None, now);
      CreditStep(i, t);
      r := Ok(balance - amount);
    }

    /** `$inc` user `i`'s balance by `t.amount` and record `t`: the step both credit operations share. */
    method CreditStep(i: nat, t: CreditTransaction)
      requires i < |db.users| && t.userId == db.users[i].id
      modifies db`users, db`transactions
      ensures db.users == old(db.users)[i := old(db.users)[i].(credits := old(db.users)[i].credits + t.amount)]
      ensures db.transactions == old(db.transactions) + [t]
      ensures old(Valid()) ==> Valid()
    {
      var users := db.users[i := db.users[i].(credits := db.users[i].credits + t.amount)];
      if Valid() {
        LedgerStep(db.users, db.transactions, i, t);
        assert forall a, b :: 0 <= a < b < |users| ==> users[a].username == db.users[a].username && users[b].username == db.users[b].username;
      }
      db.users := users;
      db.transactions := db.transactions + [t];
    }
  }
}

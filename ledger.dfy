/**
 * The credit ledger. Every change to a user's balance is paired with a
 * transaction record of the same amount (backend/auth.py add_credits and
 * spend_credits, backend/admin_routes.py adjust_user_credits). The
 * invariant `Balanced` says that each balance equals the sum of that
 * user's recorded amounts; `LedgerStep` is what every credit operation
 * uses to keep it.
 */
module Ledger {
  import opened Base
  import opened Models
  import opened Store

  /** The net of the amounts recorded for `uid`, summed from the oldest record. */
  function Credited(txs: seq<CreditTransaction>, uid: string): int {
    if txs == [] then 0
    else
      var last := txs[|txs| - 1];
      Credited(txs[..|txs| - 1], uid) + (if last.userId == uid then last.amount else 0)
  }

  /** Every stored balance is exactly what its transactions add up to. */
  ghost predicate Balanced(users: seq<User>, txs: seq<CreditTransaction>) {
    forall i :: 0 <= i < |users| ==> users[i].credits == Credited(txs, users[i].id)
  }

  /** Recording one more transaction moves its own user's net by its amount and nobody else's. */
  lemma {:induction false} CreditedAppend(txs: seq<CreditTransaction>, t: CreditTransaction, uid: string)
    ensures Credited(txs + [t], uid) == Credited(txs, uid) + (if t.userId == uid then t.amount else 0)
  {
    assert (txs + [t])[..|txs|] == txs;
  }

  /** A user with no transaction on record has a net of zero. */
  lemma {:induction false} CreditedNone(txs: seq<CreditTransaction>, uid: string)
    requires forall k :: 0 <= k < |txs| ==> txs[k].userId != uid
    ensures Credited(txs, uid) == 0
  {
    if txs != [] {
      CreditedNone(txs[..|txs| - 1], uid);
    }
  }

  /**
   * Raising user `i`'s balance by `t.amount` while recording `t` for that
   * user keeps the store balanced (user ids being unique).
   */
  lemma {:induction false} LedgerStep(users: seq<User>, txs: seq<CreditTransaction>, i: nat, t: CreditTransaction)
    requires Balanced(users, txs) && UniqueUserIds(users)
    requires i < |users| && t.userId == users[i].id
    ensures Balanced(users[i := users[i].(credits := users[i].credits + t.amount)], txs + [t])
  {
    var users' := users[i := users[i].(credits := users[i].credits + t.amount)];
    forall j | 0 <= j < |users'|
      ensures users'[j].credits == Credited(txs + [t], users'[j].id)
    {
      CreditedAppend(txs, t, users[j].id);
      if j != i {
        assert users[j].id != users[i].id by {
          if j < i { assert users[j].id != users[i].id; } else { assert users[i].id != users[j].id; }
        }
      }
    }
  }

  /** Registering a user with no credits and no transactions on record keeps the store balanced. */
  lemma {:induction false} LedgerNewAccount(users: seq<User>, txs: seq<CreditTransaction>, u: User)
    requires Balanced(users, txs)
    requires u.credits == 0
    requires forall k :: 0 <= k < |txs| ==> txs[k].userId != u.id
    ensures Balanced(users + [u], txs)
  {
    CreditedNone(txs, u.id);
    var users' := users + [u];
    forall j | 0 <= j < |users'|
      ensures users'[j].credits == Credited(txs, users'[j].id)
    {
      if j < |users| { assert users'[j] == users[j]; }
    }
  }

  /** A change that leaves every id and balance in place keeps the store balanced. */
  lemma {:induction false} LedgerUntouched(users: seq<User>, users': seq<User>, txs: seq<CreditTransaction>)
    requires Balanced(users, txs)
    requires |users'| == |users|
    requires forall j :: 0 <= j < |users| ==> users'[j].id == users[j].id && users'[j].credits == users[j].credits
    ensures Balanced(users', txs)
  {
    forall j | 0 <= j < |users'|
      ensures users'[j].credits == Credited(txs, users'[j].id)
    {
      assert users'[j].id == users[j].id;
    }
  }
}

/**
 * The user-collection store of `services/api.ts`: the 'tikbook_all_users'
 * list, keyed by `id`, with upsert, list, patch and credit.
 */
module Api {
  import opened Wrappers
  import opened Records

  /** Some stored user has this id. */
  predicate HasId(users: seq<User>, id: string) {
    exists j :: 0 <= j < |users| && users[j].id == id
  }

  /** `findIndex(u => u.id === id)`: the position of the first user with the id. */
  function FindIndex(users: seq<User>, id: string): (r: Option<nat>)
    ensures r.Some? ==> r.value < |users| && users[r.value].id == id
    ensures r.Some? ==> forall j :: 0 <= j < r.value ==> users[j].id != id
    ensures r.None? <==> !HasId(users, id)
  {
    FindIndexFrom(users, id, 0)
  }

  /** The scan of `findIndex` from position `k` on. */
  function FindIndexFrom(users: seq<User>, id: string, k: nat): (r: Option<nat>)
    requires k <= |users|
    ensures r.Some? ==> k <= r.value < |users| && users[r.value].id == id
    ensures r.Some? ==> forall j :: k <= j < r.value ==> users[j].id != id
    ensures r.None? ==> forall j :: k <= j < |users| ==> users[j].id != id
    decreases |users| - k
  {
    if k == |users| then None
    else if users[k].id == id then Some(k)
    else FindIndexFrom(users, id, k + 1)
  }

  /** `find(u => u.id === id)`: the first user with the id. */
  function Find(users: seq<User>, id: string): (r: Option<User>)
    ensures r.Some? <==> HasId(users, id)
    ensures r.Some? ==> r.value == users[FindIndex(users, id).value] && r.value.id == id
  {
    match FindIndex(users, id)
    case Some(i) => Some(users[i])
    case None => None
  }

  /** The first-match position is determined by the first occurrence of the id. */
  lemma FindIndexAt(users: seq<User>, id: string, i: nat)
    requires i < |users| && users[i].id == id
    requires forall j :: 0 <= j < i ==> users[j].id != id
    ensures FindIndex(users, id) == Some(i)
  {
  }

  /**
   * `syncUserToAdminList` on the list: append when the id is new, otherwise
   * shallow-merge the incoming record into the first record with that id.
   */
  function Upsert(users: seq<User>, user: User): (r: seq<User>)
    ensures FindIndex(users, user.id).None? ==> r == users + [user]
    ensures FindIndex(users, user.id).None? ==> |r| == |users| + 1
    ensures FindIndex(users, user.id).Some? ==>
      var i := FindIndex(users, user.id).value;
      && |r| == |users|
      && r[i] == Merge(users[i], AsPatch(user))
      && forall j :: 0 <= j < |r| && j != i ==> r[j] == users[j]
  {
    match FindIndex(users, user.id)
    case None => users + [user]
    case Some(i) => users[i := Merge(users[i], AsPatch(user))]
  }

  /**
   * A lookup after an upsert finds the incoming record when the id was new,
   * otherwise the first prior record with the id merged with the incoming one.
   */
  lemma {:induction false} FindAfterUpsert(users: seq<User>, user: User)
    ensures Find(Upsert(users, user), user.id) ==
      match Find(users, user.id)
      case None => Some(user)
      case Some(prior) => Some(Merge(prior, AsPatch(user)))
  {
    var after := Upsert(users, user);
    match FindIndex(users, user.id)
    case None =>
      FindIndexAt(after, user.id, |users|);
    case Some(i) =>
      FindIndexAt(after, user.id, i);
  }

  /**
   * `syncUserToAdminList`: only the user collection slot is rewritten; it
   * grows by one exactly for a new id, keeps every record of another id in
   * place, and afterwards holds the synced id as `FindAfterUpsert` says.
   */
  function SyncUser(s: Store, user: User): (r: Store)
    ensures r == s.(allUsers := r.allUsers)
    ensures |r.allUsers| == |s.allUsers| + (if HasId(s.allUsers, user.id) then 0 else 1)
    ensures forall j :: 0 <= j < |s.allUsers| && s.allUsers[j].id != user.id ==> r.allUsers[j] == s.allUsers[j]
    ensures Find(r.allUsers, user.id) ==
      match Find(s.allUsers, user.id)
      case None => Some(user)
      case Some(prior) => Some(Merge(prior, AsPatch(user)))
  {
    FindAfterUpsert(s.allUsers, user);
    s.(allUsers := Upsert(s.allUsers, user))
  }

  /** `getAllUsers`: the stored collection, in stored order. */
  function GetAllUsers(s: Store): (r: seq<User>)
    ensures r == s.allUsers
  {
    s.allUsers
  }

  /** Syncing the same record twice leaves the collection as syncing it once. */
  lemma {:induction false} UpsertIdempotent(users: seq<User>, user: User)
    ensures Upsert(Upsert(users, user), user) == Upsert(users, user)
  {
    var once := Upsert(users, user);
    match FindIndex(users, user.id)
    case None =>
      FindIndexAt(once, user.id, |users|);
      MergeSelf(user);
      assert once[|users| := Merge(once[|users|], AsPatch(user))] == once;
    case Some(i) =>
      FindIndexAt(once, user.id, i);
      MergeIdempotent(users[i], AsPatch(user));
  }

  /** Listing the users after a sync: the synced id is present with the merged fields. */
  lemma ListAfterSync(s: Store, user: User)
    ensures Find(GetAllUsers(SyncUser(s, user)), user.id) ==
      match Find(s.allUsers, user.id)
      case None => Some(user)
      case Some(prior) => Some(Merge(prior, AsPatch(user)))
  {
  }

  /** `allUsers.map(u => u.id === id ? { ...u, ...p } : u)`. */
  function PatchAll(users: seq<User>, id: string, p: Patch): (r: seq<User>)
    ensures |r| == |users|
    ensures forall j :: 0 <= j < |users| && users[j].id != id ==> r[j] == users[j]
    ensures forall j :: 0 <= j < |users| && users[j].id == id ==> r[j] == Merge(users[j], p)
  {
    seq(|users|, j requires 0 <= j < |users| =>
      if users[j].id == id then Merge(users[j], p) else users[j])
  }

  /** Patching keeps every id in place, so a lookup after the patch finds the merged first match. */
  lemma FindAfterPatch(users: seq<User>, id: string, p: Patch)
    ensures FindIndex(PatchAll(users, id, p), id) == FindIndex(users, id)
    ensures Find(PatchAll(users, id, p), id) ==
      match Find(users, id)
      case None => None
      case Some(u) => Some(Merge(u, p))
  {
    var r := PatchAll(users, id, p);
    match FindIndex(users, id)
    case None =>
      assert !HasId(r, id) by {
        forall j | 0 <= j < |r| ensures r[j].id != id {
          assert r[j].id == users[j].id;
        }
      }
    case Some(i) =>
      assert forall j :: 0 <= j < i ==> r[j].id == users[j].id;
      FindIndexAt(r, id, i);
  }

  /** Patching an id no record has leaves the collection as it was. */
  lemma PatchUnknownIsIdentity(users: seq<User>, id: string, p: Patch)
    requires !HasId(users, id)
    ensures PatchAll(users, id, p) == users
  {
  }

  /**
   * `updateProfile`: patch every record with the id, rewrite the collection,
   * mirror the patched record into 'tikbook_user' only when that slot holds a
   * user with the same id, and return the first patched record (`undefined`
   * for an unknown id). Reading a slot that holds "undefined" throws.
   */
  function UpdateProfile(s: Store, userId: string, updates: Patch): (r: (Store, Outcome<Option<User>, Error>))
    ensures r.0.allUsers == PatchAll(s.allUsers, userId, updates)
    ensures r.0 == s.(allUsers := r.0.allUsers, userSlot := r.0.userSlot)
    ensures s.userSlot.Undefined? <==> r.1.Threw?
    ensures r.1.Returned? ==> r.1.value.Some? == HasId(s.allUsers, userId)
    ensures r.1.Returned? && r.1.value.Some? ==>
      r.1.value.value == Merge(Find(s.allUsers, userId).value, updates)
    ensures s.userSlot.Holds? && s.userSlot.user.id == userId ==> r.0.userSlot == SlotOf(r.1.value)
    ensures !(s.userSlot.Holds? && s.userSlot.user.id == userId) ==> r.0.userSlot == s.userSlot
  {
    var users' := PatchAll(s.allUsers, userId, updates);
    var s1 := s.(allUsers := users');
    FindAfterPatch(s.allUsers, userId, updates);
    var user := Find(users', userId);
    match s.userSlot
    case NoUser => (s1, Returned(user))
    case Undefined => (s1, Threw(MalformedJson))
    case Holds(current) =>
      if current.id == userId then (s1.(userSlot := SlotOf(user)), Returned(user))
      else (s1, Returned(user))
  }

  /** An update of an unknown id changes no record and returns no user, without raising. */
  lemma UpdateUnknownId(s: Store, userId: string, updates: Patch)
    requires !HasId(s.allUsers, userId) && !s.userSlot.Undefined?
    ensures UpdateProfile(s, userId, updates).0.allUsers == s.allUsers
    ensures UpdateProfile(s, userId, updates).1 == Returned(None)
  {
    PatchUnknownIsIdentity(s.allUsers, userId, updates);
  }

  /**
   * An unknown id that is also the session user's id turns the session slot
   * into "undefined": the mirror serialises the missing record.
   */
  lemma UpdateUnknownSessionId(s: Store, userId: string, updates: Patch)
    requires !HasId(s.allUsers, userId)
    requires s.userSlot.Holds? && s.userSlot.user.id == userId
    ensures UpdateProfile(s, userId, updates).0.userSlot == Undefined
  {
  }

  /** `user.coins || 0`. */
  function CoinsOrZero(u: User): int {
    if u.coins.Some? then u.coins.value else 0
  }

  /**
   * The collection after `chargeCoins`: every record with the id gets the
   * first match's coins (0 when missing) plus `amount`.
   */
  function Credit(users: seq<User>, userId: string, amount: int): seq<User>
    requires HasId(users, userId)
  {
    PatchAll(users, userId, CoinsPatch(CoinsOrZero(Find(users, userId).value) + amount))
  }

  /**
   * After a credit the first record with the id holds the old balance plus
   * `amount`, every record with the id has that balance and nothing else
   * changed, and every record with another id is untouched.
   */
  lemma CreditFacts(users: seq<User>, userId: string, amount: int)
    requires HasId(users, userId)
    ensures var r := Credit(users, userId, amount);
      && Find(r, userId).Some?
      && Find(r, userId).value.coins == Some(CoinsOrZero(Find(users, userId).value) + amount)
      && |r| == |users|
      && (forall j :: 0 <= j < |users| && users[j].id != userId ==> r[j] == users[j])
      && forall j :: 0 <= j < |users| && users[j].id == userId ==>
           r[j] == users[j].(coins := Some(CoinsOrZero(Find(users, userId).value) + amount))
  {
    CreditFinds(users, userId, amount);
    var n := CoinsOrZero(Find(users, userId).value) + amount;
    CreditSetsCoins(users, userId, amount, n);
  }

  /** Every record with the id gets the balance `n` and keeps its other properties. */
  lemma CreditSetsCoins(users: seq<User>, userId: string, amount: int, n: int)
    requires HasId(users, userId) && n == CoinsOrZero(Find(users, userId).value) + amount
    ensures forall j :: 0 <= j < |users| && users[j].id == userId ==>
      Credit(users, userId, amount)[j] == users[j].(coins := Some(n))
  {
    assert CoinsPatch(n) == CoinsPatch(CoinsOrZero(Find(users, userId).value) + amount);
    forall j | 0 <= j < |users| && users[j].id == userId
      ensures Credit(users, userId, amount)[j] == users[j].(coins := Some(n))
    {
      MergeCoins(users[j], n);
    }
  }

  /** A credit keeps the first-match position `i` and sets that record's balance. */
  lemma CreditAt(users: seq<User>, userId: string, amount: int, i: nat)
    requires FindIndex(users, userId) == Some(i)
    ensures HasId(users, userId)
    ensures FindIndex(Credit(users, userId, amount), userId) == Some(i)
    ensures Credit(users, userId, amount)[i].coins == Some(CoinsOrZero(users[i]) + amount)
  {
    assert HasId(users, userId);
    assert Find(users, userId) == Some(users[i]);
    var n := CoinsOrZero(users[i]) + amount;
    assert Credit(users, userId, amount)[i] == PatchAll(users, userId, CoinsPatch(n))[i];
    CoinsPatchAt(users, userId, n, i);
  }

  /** Setting the coins of every record with the id keeps the first match at `i` and sets its coins. */
  lemma CoinsPatchAt(users: seq<User>, userId: string, n: int, i: nat)
    requires FindIndex(users, userId) == Some(i)
    ensures FindIndex(PatchAll(users, userId, CoinsPatch(n)), userId) == Some(i)
    ensures PatchAll(users, userId, CoinsPatch(n))[i].coins == Some(n)
  {
    FindAfterPatch(users, userId, CoinsPatch(n));
    MergeCoins(users[i], n);
  }

  /** The balance half of `CreditFacts`, on its own. */
  lemma CreditFinds(users: seq<User>, userId: string, amount: int)
    requires HasId(users, userId)
    ensures Find(Credit(users, userId, amount), userId).Some?
    ensures Find(Credit(users, userId, amount), userId).value.coins ==
      Some(CoinsOrZero(Find(users, userId).value) + amount)
  {
    CreditAt(users, userId, amount, FindIndex(users, userId).value);
  }

  /**
   * `chargeCoins`: throws "User not found" with nothing written when the id is
   * absent; otherwise credits the records with that id through `updateProfile`
   * and returns the first of them. No floor is applied: a negative amount may
   * drive the balance below zero.
   */
  function ChargeCoins(s: Store, userId: string, amount: int): (r: (Store, Outcome<Option<User>, Error>))
    ensures !HasId(s.allUsers, userId) ==> r == (s, Threw(UserNotFound))
    ensures HasId(s.allUsers, userId) ==> r.0.allUsers == Credit(s.allUsers, userId, amount)
    ensures HasId(s.allUsers, userId) ==> r.0 == s.(allUsers := r.0.allUsers, userSlot := r.0.userSlot)
    ensures HasId(s.allUsers, userId) ==> (r.1.Threw? <==> s.userSlot.Undefined?)
    ensures r.1.Returned? ==> r.1.value == Find(r.0.allUsers, userId)
    ensures HasId(s.allUsers, userId) && s.userSlot.Holds? && s.userSlot.user.id == userId ==>
      r.0.userSlot == SlotOf(r.1.value)
    ensures !(HasId(s.allUsers, userId) && s.userSlot.Holds? && s.userSlot.user.id == userId) ==>
      r.0.userSlot == s.userSlot
  {
    if !HasId(s.allUsers, userId) then (s, Threw(UserNotFound))
    else
      var r := UpdateProfile(s, userId, CoinsPatch(CoinsOrZero(Find(s.allUsers, userId).value) + amount));
      ChargeOfKnownId(s, userId, amount, r);
      r
  }

  /** What `updateProfile` does for a known id, in the terms of `chargeCoins`. */
  lemma ChargeOfKnownId(s: Store, userId: string, amount: int, r: (Store, Outcome<Option<User>, Error>))
    requires HasId(s.allUsers, userId)
    requires r == UpdateProfile(s, userId, CoinsPatch(CoinsOrZero(Find(s.allUsers, userId).value) + amount))
    ensures r.0.allUsers == Credit(s.allUsers, userId, amount)
    ensures r.0 == s.(allUsers := r.0.allUsers, userSlot := r.0.userSlot)
    ensures r.1.Threw? <==> s.userSlot.Undefined?
    ensures r.1.Returned? ==> r.1.value == Find(r.0.allUsers, userId)
    ensures s.userSlot.Holds? && s.userSlot.user.id == userId ==> r.0.userSlot == SlotOf(r.1.value)
    ensures !(s.userSlot.Holds? && s.userSlot.user.id == userId) ==> r.0.userSlot == s.userSlot
  {
    FindAfterPatch(s.allUsers, userId, CoinsPatch(CoinsOrZero(Find(s.allUsers, userId).value) + amount));
  }

  /**
   * Charging `a` then `b` leaves the first record with the id holding the
   * original balance plus `a + b`, whether or not either call threw after
   * writing the collection.
   */
  lemma {:induction false} CreditTwice(users: seq<User>, userId: string, a: int, b: int)
    requires HasId(users, userId)
    ensures HasId(Credit(users, userId, a), userId)
    ensures Find(Credit(Credit(users, userId, a), userId, b), userId).value.coins ==
      Some(CoinsOrZero(Find(users, userId).value) + a + b)
  {
    var i := FindIndex(users, userId).value;
    CreditAt(users, userId, a, i);
    var once := Credit(users, userId, a);
    CreditAt(once, userId, b, i);
    var twice := Credit(once, userId, b);
    assert Find(users, userId) == Some(users[i]);
    assert CoinsOrZero(once[i]) == CoinsOrZero(users[i]) + a;
    assert Find(twice, userId) == Some(twice[i]);
    assert twice[i].coins == Some(CoinsOrZero(users[i]) + a + b);
  }

  /** `chargeCoins(id, a)` then `chargeCoins(id, b)` on the store. */
  lemma ChargeTwice(s: Store, userId: string, a: int, b: int)
    requires HasId(s.allUsers, userId)
    ensures var twice := ChargeCoins(ChargeCoins(s, userId, a).0, userId, b).0;
      Find(twice.allUsers, userId).Some? &&
      Find(twice.allUsers, userId).value.coins == Some(CoinsOrZero(Find(s.allUsers, userId).value) + a + b)
  {
    CreditTwice(s.allUsers, userId, a, b);
  }
}

/**
 * The activity feed (`pages/Activity.tsx`): on open it shows the stored
 * entries addressed to the session user, newest first; clearing removes
 * exactly those entries from storage.
 */
module ActivityFeed {
  import opened Wrappers
  import opened Records

  /**
   * The viewer's id as the page reads it: `JSON.parse(slot || '{}').id`.
   * An empty slot gives `{}`, whose id is undefined; a slot holding
   * "undefined" makes the parse throw.
   */
  function ViewerId(slot: SessionSlot): (r: Outcome<Option<string>, Error>)
    ensures r.Threw? <==> slot.Undefined?
    ensures r == Returned(None) <==> slot.NoUser?
    ensures slot.Holds? ==> r == Returned(Some(slot.user.id))
  {
    match slot
    case NoUser => Returned(None)
    case Holds(u) => Returned(Some(u.id))
    case Undefined => Threw(MalformedJson)
  }

  /** `act.userId === viewer`: an undefined viewer id matches no stored entry. */
  predicate AddressedTo(a: Activity, viewer: Option<string>) {
    viewer.Some? && a.userId == viewer.value
  }

  /** `filter(act => act.userId === currentUser.id)`. */
  function OwnedBy(s: seq<Activity>, viewer: Option<string>): (r: seq<Activity>)
    ensures forall a :: a in r ==> a in s && AddressedTo(a, viewer)
    ensures forall a :: a in s && AddressedTo(a, viewer) ==> a in r
    ensures |r| <= |s|
  {
    if s == [] then []
    else if AddressedTo(s[0], viewer) then [s[0]] + OwnedBy(s[1..], viewer)
    else OwnedBy(s[1..], viewer)
  }

  /** `filter(act => act.userId !== currentUser.id)`. */
  function NotOwnedBy(s: seq<Activity>, viewer: Option<string>): (r: seq<Activity>)
    ensures forall a :: a in r ==> a in s && !AddressedTo(a, viewer)
    ensures forall a :: a in s && !AddressedTo(a, viewer) ==> a in r
    ensures |r| <= |s|
  {
    if s == [] then []
    else if !AddressedTo(s[0], viewer) then [s[0]] + NotOwnedBy(s[1..], viewer)
    else NotOwnedBy(s[1..], viewer)
  }

  /**
   * The viewer's filter keeps the stored order: a filter of a concatenation
   * is the concatenation of the filters. With `FiltersOfSingleton` this pins
   * the filter down entirely.
   */
  lemma {:induction false} OwnedByOfConcat(s: seq<Activity>, t: seq<Activity>, viewer: Option<string>)
    ensures OwnedBy(s + t, viewer) == OwnedBy(s, viewer) + OwnedBy(t, viewer)
  {
    if s == [] {
      assert s + t == t;
    } else {
      var st := s + t;
      assert st[0] == s[0] && st[1..] == s[1..] + t;
      OwnedByOfConcat(s[1..], t, viewer);
    }
  }

  /** The complementary filter keeps the stored order in the same way. */
  lemma {:induction false} NotOwnedByOfConcat(s: seq<Activity>, t: seq<Activity>, viewer: Option<string>)
    ensures NotOwnedBy(s + t, viewer) == NotOwnedBy(s, viewer) + NotOwnedBy(t, viewer)
  {
    if s == [] {
      assert s + t == t;
    } else {
      var st := s + t;
      assert st[0] == s[0] && st[1..] == s[1..] + t;
      NotOwnedByOfConcat(s[1..], t, viewer);
    }
  }

  /** A one-entry list: the viewer's filter keeps the entry exactly when it is addressed to the viewer. */
  lemma FiltersOfSingleton(a: Activity, viewer: Option<string>)
    ensures OwnedBy([a], viewer) == (if AddressedTo(a, viewer) then [a] else [])
    ensures NotOwnedBy([a], viewer) == (if AddressedTo(a, viewer) then [] else [a])
  {
    assert [a][1..] == [];
  }

  /** The two filters split the stored entries: together they hold every entry exactly as often as before. */
  lemma {:induction false} FiltersPartition(s: seq<Activity>, viewer: Option<string>)
    ensures multiset(OwnedBy(s, viewer)) + multiset(NotOwnedBy(s, viewer)) == multiset(s)
  {
    if s != [] {
      FiltersPartition(s[1..], viewer);
      assert s == [s[0]] + s[1..];
      assert multiset(s) == multiset{s[0]} + multiset(s[1..]);
      if AddressedTo(s[0], viewer) {
        assert multiset(OwnedBy(s, viewer)) == multiset{s[0]} + multiset(OwnedBy(s[1..], viewer));
        assert NotOwnedBy(s, viewer) == NotOwnedBy(s[1..], viewer);
      } else {
        assert OwnedBy(s, viewer) == OwnedBy(s[1..], viewer);
        assert multiset(NotOwnedBy(s, viewer)) == multiset{s[0]} + multiset(NotOwnedBy(s[1..], viewer));
      }
    }
  }

  /** Newest first: no entry is older than one after it. */
  predicate NewestFirst(s: seq<Activity>) {
    forall i, j :: 0 <= i < j < |s| ==> s[i].timestamp >= s[j].timestamp
  }

  /** No entry is newer than `t`. */
  predicate NoneNewer(s: seq<Activity>, t: int) {
    forall k :: 0 <= k < |s| ==> s[k].timestamp <= t
  }

  /** Places `a` before the first entry that is not newer than it. */
  function Insert(a: Activity, s: seq<Activity>): (r: seq<Activity>)
    requires NewestFirst(s)
    ensures NewestFirst(r)
    ensures multiset(r) == multiset(s) + multiset{a}
    ensures forall t :: NoneNewer(s, t) && a.timestamp <= t ==> NoneNewer(r, t)
  {
    if s == [] || s[0].timestamp <= a.timestamp then
      InsertInFront(a, s);
      [a] + s
    else
      var rest := Insert(a, s[1..]);
      InsertBehind(a, s, rest);
      [s[0]] + rest
  }

  /** `a` in front of a list whose head is not newer than it. */
  lemma InsertInFront(a: Activity, s: seq<Activity>)
    requires NewestFirst(s) && (s == [] || s[0].timestamp <= a.timestamp)
    ensures NewestFirst([a] + s)
    ensures forall t :: NoneNewer(s, t) && a.timestamp <= t ==> NoneNewer([a] + s, t)
  {
    assert NoneNewer(s, a.timestamp);
    PrependNewest(a, s);
  }

  /** The head kept in front of `rest`, the insertion into the tail. */
  lemma InsertBehind(a: Activity, s: seq<Activity>, rest: seq<Activity>)
    requires NewestFirst(s) && s != [] && s[0].timestamp > a.timestamp
    requires NewestFirst(rest) && multiset(rest) == multiset(s[1..]) + multiset{a}
    requires forall t :: NoneNewer(s[1..], t) && a.timestamp <= t ==> NoneNewer(rest, t)
    ensures NewestFirst([s[0]] + rest)
    ensures multiset([s[0]] + rest) == multiset(s) + multiset{a}
    ensures forall t :: NoneNewer(s, t) && a.timestamp <= t ==> NoneNewer([s[0]] + rest, t)
  {
    assert s == [s[0]] + s[1..];
    assert NoneNewer(s[1..], s[0].timestamp);
    assert NoneNewer(rest, s[0].timestamp);
    PrependNewest(s[0], rest);
    forall t | NoneNewer(s, t) && a.timestamp <= t ensures NoneNewer([s[0]] + rest, t) {
      assert NoneNewer(s[1..], t);
      PrependNoneNewer(s[0], rest, t);
    }
  }

  /** Putting an entry no newer than `t` in front keeps every entry no newer than `t`. */
  lemma PrependNoneNewer(x: Activity, s: seq<Activity>, t: int)
    requires NoneNewer(s, t) && x.timestamp <= t
    ensures NoneNewer([x] + s, t)
  {
    var r := [x] + s;
    forall k | 0 <= k < |r| ensures r[k].timestamp <= t {
      if k > 0 { assert r[k] == s[k - 1]; }
    }
  }

  /** An entry no older than any of a newest-first list may go in front of it. */
  lemma PrependNewest(x: Activity, s: seq<Activity>)
    requires NewestFirst(s) && NoneNewer(s, x.timestamp)
    ensures NewestFirst([x] + s)
  {
    var r := [x] + s;
    forall i, j | 0 <= i < j < |r| ensures r[i].timestamp >= r[j].timestamp {
      if i > 0 {
        assert r[i] == s[i - 1] && r[j] == s[j - 1];
      } else {
        assert r[j] == s[j - 1];
      }
    }
  }

  /**
   * `sort((a, b) => time(b) - time(a))`: the entries reordered newest first.
   * Entries of equal time keep their stored order, as the engine's stable
   * sort does.
   */
  function SortNewestFirst(s: seq<Activity>): (r: seq<Activity>)
    ensures NewestFirst(r)
    ensures multiset(r) == multiset(s)
  {
    if s == [] then []
    else
      assert s == [s[0]] + s[1..];
      Insert(s[0], SortNewestFirst(s[1..]))
  }

  /**
   * The open effect: the entries addressed to the viewer, newest first; the
   * page shows nothing when the slot read throws.
   */
  function LoadActivities(s: Store): (r: Outcome<seq<Activity>, Error>)
    ensures r.Threw? <==> s.userSlot.Undefined?
    ensures r.Returned? ==> NewestFirst(r.value)
    ensures r.Returned? ==> forall a :: a in r.value ==> a in s.activities && AddressedTo(a, ViewerId(s.userSlot).value)
    ensures r.Returned? ==> forall a :: a in s.activities && AddressedTo(a, ViewerId(s.userSlot).value) ==> a in r.value
  {
    match ViewerId(s.userSlot)
    case Threw(e) => Threw(e)
    case Returned(viewer) =>
      var shown := SortNewestFirst(OwnedBy(s.activities, viewer));
      assert forall a :: a in shown <==> a in multiset(shown);
      Returned(shown)
  }

  /** The loaded list holds the viewer's entries exactly as many times as they are stored. */
  lemma LoadIsPermutation(s: Store)
    requires !s.userSlot.Undefined?
    ensures multiset(LoadActivities(s).value) == multiset(OwnedBy(s.activities, ViewerId(s.userSlot).value))
  {
  }

  /** The page's list state and the storage after `clearActivities`. */
  datatype Cleared = Cleared(store: Store, shown: seq<Activity>)

  /**
   * `clearActivities`: without confirmation nothing happens; with it the
   * stored entries addressed to the viewer are dropped, the others kept in
   * order, and the shown list emptied.
   */
  function ClearActivities(s: Store, shown: seq<Activity>, confirmed: bool): (r: Outcome<Cleared, Error>)
    ensures !confirmed ==> r == Returned(Cleared(s, shown))
    ensures confirmed ==> (r.Threw? <==> s.userSlot.Undefined?)
    ensures confirmed && r.Returned? ==>
      var viewer := ViewerId(s.userSlot).value;
      && r.value.shown == []
      && r.value.store == s.(activities := r.value.store.activities)
      && (forall a :: a in r.value.store.activities <==> a in s.activities && !AddressedTo(a, viewer))
      && r.value.store.activities == NotOwnedBy(s.activities, viewer)
  {
    if !confirmed then Returned(Cleared(s, shown))
    else
      match ViewerId(s.userSlot)
      case Threw(e) => Threw(e)
      case Returned(viewer) => Returned(Cleared(s.(activities := NotOwnedBy(s.activities, viewer)), []))
  }

  /** Nothing the filter keeps is addressed to the viewer, so the viewer's filter finds none of it. */
  lemma {:induction false} OwnedByNotOwned(s: seq<Activity>, viewer: Option<string>)
    ensures OwnedBy(NotOwnedBy(s, viewer), viewer) == []
  {
    if s != [] {
      OwnedByNotOwned(s[1..], viewer);
    }
  }

  /** Opening the page again after a confirmed clear shows an empty feed. */
  lemma ReloadAfterClear(s: Store, shown: seq<Activity>)
    requires !s.userSlot.Undefined?
    ensures ClearActivities(s, shown, true).Returned?
    ensures LoadActivities(ClearActivities(s, shown, true).value.store) == Returned([])
  {
    OwnedByNotOwned(s.activities, ViewerId(s.userSlot).value);
  }

  /** A clear keeps every other user's entries, each as often as before. */
  lemma ClearKeepsOthers(s: Store, shown: seq<Activity>)
    requires !s.userSlot.Undefined?
    ensures var viewer := ViewerId(s.userSlot).value;
      multiset(ClearActivities(s, shown, true).value.store.activities) + multiset(OwnedBy(s.activities, viewer))
        == multiset(s.activities)
  {
    FiltersPartition(s.activities, ViewerId(s.userSlot).value);
  }
}

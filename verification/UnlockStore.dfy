/**
 * The pending_unlocks table: one row for each unlock of an account, under a row id that is one more
 * than the highest in use when the row is inserted. An id is therefore used again once the highest
 * row is gone.
 */
module UnlockStore {
  import opened Extremes

  /** A user name; 0 stands for the empty one. */
  type Account = nat

  datatype Unlock = Unlock(account: Account, achievement: nat, hardcore: bool)

  datatype Row = Row(unlock: Unlock, hash: nat, unlockedAt: int, held: bool, attempts: nat)

  type Store = map<nat, Row>

  datatype Entry = Entry(id: nat, row: Row)

  const UINT32_MAX: nat := 0xffff_ffff

  /** What the table takes: hash 0 stands for a string that is not an MD5. */
  predicate Storable(unlock: Unlock, hash: nat, unlockedAt: int) {
    unlock.account != 0 && 0 < unlock.achievement <= UINT32_MAX && hash != 0 && unlockedAt > 0
  }

  /** What a listing takes back; anything else fails the whole of it. */
  predicate Listable(entry: Entry) {
    && entry.id > 0 && Storable(entry.row.unlock, entry.row.hash, entry.row.unlockedAt)
    && entry.row.attempts <= UINT32_MAX
  }

  /** UNIQUE(account, achievement_id, hardcore). */
  ghost predicate Unique(store: Store) {
    forall i, j :: i in store && j in store && store[i].unlock == store[j].unlock ==> i == j
  }

  ghost predicate Has(store: Store, unlock: Unlock) {
    exists id :: id in store && store[id].unlock == unlock
  }

  /** The row id SQLite gives the next insert: INTEGER PRIMARY KEY without AUTOINCREMENT. */
  ghost function NextId(store: Store): (id: nat)
    ensures id !in store && id > 0
  {
    Highest(store.Keys) + 1
  }

  ghost function IdOf(store: Store, unlock: Unlock): nat
    requires Has(store, unlock)
  {
    var id :| id in store && store[id].unlock == unlock;
    id
  }

  /** INSERT ... ON CONFLICT DO UPDATE ... RETURNING id. */
  ghost function Upserted(store: Store, unlock: Unlock, hash: nat, unlockedAt: int): (Store, nat) {
    if Has(store, unlock) then
      var id := IdOf(store, unlock);
      var row := store[id];
      (store[id := row.(hash := hash, unlockedAt := if unlockedAt < row.unlockedAt then unlockedAt else row.unlockedAt)], id)
    else
      (store[NextId(store) := Row(unlock, hash, unlockedAt, false, 0)], NextId(store))
  }

  function Marked(store: Store, id: nat, held: bool): Store {
    if id in store then store[id := store[id].(held := held, attempts := store[id].attempts + 1)] else store
  }

  // ---- the listing of one account ----

  /** ORDER BY unlocked_at, id. */
  predicate Before(store: Store, i: nat, j: nat)
    requires i in store && j in store
  {
    store[i].unlockedAt < store[j].unlockedAt || (store[i].unlockedAt == store[j].unlockedAt && i <= j)
  }

  predicate IsEarliest(store: Store, ids: set<nat>, id: nat)
    requires ids <= store.Keys
  {
    id in ids && forall i :: i in ids ==> Before(store, id, i)
  }

  ghost function Earliest(store: Store, ids: set<nat>): (id: nat)
    requires ids != {} && ids <= store.Keys
    ensures IsEarliest(store, ids, id)
  {
    var i :| i in ids;
    if ids == {i} then i
    else
      assert ids == {i} + (ids - {i});
      var rest := Earliest(store, ids - {i});
      assert forall j :: j in ids ==> j == i || j in ids - {i};
      if Before(store, i, rest) then i else rest
  }

  ghost function Sorted(store: Store, ids: set<nat>): (entries: seq<Entry>)
    requires ids <= store.Keys
    ensures |entries| == |ids|
    ensures forall k :: 0 <= k < |entries| ==> entries[k].id in ids && entries[k].row == store[entries[k].id]
  {
    if ids == {} then []
    else
      var first := Earliest(store, ids);
      [Entry(first, store[first])] + Sorted(store, ids - {first})
  }

  function IdsOf(store: Store, account: Account): set<nat> {
    set id | id in store && store[id].unlock.account == account
  }

  ghost function Listing(store: Store, account: Account): seq<Entry> {
    Sorted(store, IdsOf(store, account))
  }

  predicate CanList(store: Store, account: Account) {
    account != 0 && forall id :: id in IdsOf(store, account) && id in store ==> Listable(Entry(id, store[id]))
  }

  /** The listing fails exactly when some row in it is not what the table takes. */
  lemma ListingIsListable(store: Store, account: Account)
    requires account != 0
    ensures CanList(store, account) <==>
      forall k :: 0 <= k < |Listing(store, account)| ==> Listable(Listing(store, account)[k])
  {
    var entries := Listing(store, account);
    forall id | id in IdsOf(store, account)
      ensures exists k :: 0 <= k < |entries| && entries[k] == Entry(id, store[id])
    {
      SortedListsAll(store, IdsOf(store, account), id);
    }
  }

  lemma EmptyListing(store: Store, account: Account)
    requires Listing(store, account) == []
    ensures forall id :: id in store ==> store[id].unlock.account != account
  {
    forall id | id in store
      ensures store[id].unlock.account != account
    {
      assert id !in IdsOf(store, account);
    }
  }

  /** Rows come by the time of their unlock, those of one time by their id, and none comes twice. */
  lemma {:induction false} SortedOrders(store: Store, ids: set<nat>, i: nat, j: nat)
    requires ids <= store.Keys && i < j < |Sorted(store, ids)|
    ensures var a, b := Sorted(store, ids)[i], Sorted(store, ids)[j];
      a.row.unlockedAt < b.row.unlockedAt || (a.row.unlockedAt == b.row.unlockedAt && a.id < b.id)
  {
    var first := Earliest(store, ids);
    var rest := Sorted(store, ids - {first});
    assert Sorted(store, ids) == [Entry(first, store[first])] + rest;
    assert rest[j - 1].id in ids - {first};
    if i > 0 {
      SortedOrders(store, ids - {first}, i - 1, j - 1);
    }
  }

  lemma {:induction false} SortedListsAll(store: Store, ids: set<nat>, id: nat)
    requires ids <= store.Keys && id in ids
    ensures Entry(id, store[id]) in Sorted(store, ids)
  {
    var first := Earliest(store, ids);
    if id != first {
      SortedListsAll(store, ids - {first}, id);
    }
  }

  /** The table's constraints survive an upsert, which leaves every other row alone. */
  lemma UpsertKeeps(store: Store, unlock: Unlock, hash: nat, unlockedAt: int)
    requires Unique(store)
    ensures var (after, id) := Upserted(store, unlock, hash, unlockedAt);
      && Unique(after) && id in after && after[id].unlock == unlock
      && after.Keys == store.Keys + {id}
      && (forall i :: i in store ==> after[i].unlock == store[i].unlock)
      && (id in store <==> Has(store, unlock))
      && (id !in store ==> id == NextId(store))
  {
  }

  lemma EarliestIsUnique(store: Store, ids: set<nat>, i: nat, j: nat)
    requires ids <= store.Keys && IsEarliest(store, ids, i) && IsEarliest(store, ids, j)
    ensures i == j
  {
    assert Before(store, i, j) && Before(store, j, i);
  }
}

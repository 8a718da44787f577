/**
 * What synchronization is for: over a store without held rows, one confirming response to each request empties the
 * account's rows in listing order; and nothing is sent where it should not be.
 */
module OutboxDrains {
  import opened UnlockStore
  import opened Outbox
  import opened OutboxProofs
  import opened OutboxConfirmed
  import opened OutboxReuse

  /** One confirming response to each request in turn. */
  function Confirmations(next: nat, entries: seq<Entry>): seq<Action> {
    seq(|entries|, k requires 0 <= k < |entries| => Answering(next + k, entries[k].row.unlock.achievement))
  }

  function Ids(entries: seq<Entry>): set<nat> {
    set k | 0 <= k < |entries| :: entries[k].id
  }

  ghost predicate NoneHeld(store: Store, account: Account) {
    forall id :: id in store && store[id].unlock.account == account ==> !store[id].held
  }

  lemma NoneHeldListed(store: Store, account: Account)
    ensures NoneHeld(store, account) <==> !AnyHeld(Listing(store, account))
  {
    var entries := Listing(store, account);
    if id :| id in store && store[id].unlock.account == account && store[id].held {
      SortedListsAll(store, IdsOf(store, account), id);
      var k :| 0 <= k < |entries| && entries[k] == Entry(id, store[id]);
      assert entries[k].row.held;
    }
    if k :| 0 <= k < |entries| && entries[k].row.held {
      assert entries[k].id in IdsOf(store, account);
    }
  }

  // ---- the first request ----

  /** What a synchronization cancels first: nothing of it is left but the store. */
  lemma Quieting(s: State)
    ensures var quiet := InvalidateSync(CancelAwards(s));
      && quiet.awards == map[] && quiet.syncs == map[] && quiet.captured == [] && quiet.offset == 0
      && quiet.store == s.store && quiet.account == s.account && quiet.login == s.login && quiet.loading == s.loading
      && quiet.bridge.next == s.bridge.next && quiet.bridge.generation == s.bridge.generation
  {
    hide CancelAwards, InvalidateSync;
    CancelAwardsFrame(s);
    QuietSync(CancelAwards(s));
    InvalidatedBridge(CancelAwards(s));
  }

  lemma InvalidatedBridge(s: State)
    ensures InvalidateSync(s).bridge.next == s.bridge.next && InvalidateSync(s).bridge.generation == s.bridge.generation
    ensures InvalidateSync(s).loading == s.loading
  {
  }

  /** The conditions under which a synchronization lists the account's rows and may send them. */
  ghost predicate CanSync(s: State, recovery: bool, luck: Luck) {
    s.login == LoggedIn && !recovery && luck.lists && CanList(s.store, s.account)
  }

  /**
   * A synchronization sends a request exactly when it can list rows, there is one, none is held, and the request can be
   * built; the request is for the first row. With no row it has succeeded; in every other case it fails and sends
   * nothing. The store is left alone.
   */
  lemma SyncSendsExactly(s: State, recovery: bool, luck: Luck)
    ensures var entries, after := Listing(s.store, s.account), Acted(s, SyncBegins(recovery, luck));
      && after.store == s.store && after.account == s.account && after.login == s.login && after.awards == map[]
      && (if CanSync(s, recovery, luck) && NoneHeld(s.store, s.account) && entries == [] then
            after.phase == SyncSucceeded && after.syncs == map[] && after.bridge.next == s.bridge.next
          else if CanSync(s, recovery, luck) && NoneHeld(s.store, s.account) && luck.hasUser && luck.builds then
            && after.phase == SyncPending && after.bridge.next == s.bridge.next + 1
            && after.captured == entries && after.offset == 0
            && after.syncs == map[s.bridge.next := Sync(entries[0].id, entries[0].row.unlock, after.syncGeneration)]
          else
            after.phase == SyncFailed && after.syncs == map[] && after.bridge.next == s.bridge.next)
  {
    hide CancelAwards, InvalidateSync, Listing, AnyHeld, CanList, NoneHeld;
    Quieting(s);
    NoneHeldListed(s.store, s.account);
    var quiet := InvalidateSync(CancelAwards(s));
    var entries := Listing(s.store, s.account);
    if entries != [] { ListedAccount(s.store, s.account, 0); }
    NothingListedHeld(entries);
  }

  lemma NothingListedHeld(entries: seq<Entry>)
    ensures entries == [] ==> !AnyHeld(entries)
  {
  }

  lemma ListedAccount(store: Store, account: Account, k: nat)
    requires k < |Listing(store, account)|
    ensures Listing(store, account)[k].row.unlock.account == account
    ensures Listing(store, account)[k].id in store && Listing(store, account)[k].row == store[Listing(store, account)[k].id]
  {
    assert Listing(store, account)[k].id in IdsOf(store, account);
  }

  // ---- the responses ----

  /** The first k rows are gone, and the next is asked for; or all are, and the synchronization has succeeded. */
  ghost predicate DrainedTo(s: State, after: State, k: nat) {
    var entries := Listing(s.store, s.account);
    && k <= |entries| && after.store == s.store - Ids(entries[..k])
    && after.awards == map[] && after.account == s.account && after.login == LoggedIn && after.loading == s.loading
    && (if k == |entries| then
          after.phase == SyncSucceeded && after.remaining == 0 && after.syncs == map[]
        else
          && after.phase == SyncPending && after.captured == entries && after.offset == k
          && after.bridge.next == s.bridge.next + k + 1
          && after.syncs == map[s.bridge.next + k := Sync(entries[k].id, entries[k].row.unlock, after.syncGeneration)])
  }

  lemma NextConfirmed(s: State, now: State, k: nat)
    requires Sound(now) && DrainedTo(s, now, k) && k < |Listing(s.store, s.account)|
    requires CanList(s.store, s.account)
    ensures var entry := Listing(s.store, s.account)[k];
      DrainedTo(s, Acted(now, Answering(s.bridge.next + k, entry.row.unlock.achievement)), k + 1)
  {
    hide Sound, Acted, CanList, Listing, StartNext, Ids;
    var entries := Listing(s.store, s.account);
    var id := s.bridge.next + k;
    ListedAccount(s.store, s.account, k);
    ListsSomebody(s.store, s.account);
    ConfirmedSync(now, id);
    var next := Advanced(now, id);
    assert next.syncs == now.syncs - {id};
    assert next.syncs.Keys == {};
    OneMoreGone(s.store, entries, k);
    if k + 1 < |entries| {
      ListedAccount(s.store, s.account, k + 1);
      SendsNext(next);
    } else {
      assert entries[..|entries|] == entries;
      AllGone(s.store, s.account);
      LastAnswered(next);
    }
  }

  lemma ListsSomebody(store: Store, account: Account)
    requires CanList(store, account)
    ensures account != 0
  {
  }

  lemma OneMoreGone(store: Store, entries: seq<Entry>, k: nat)
    requires k < |entries|
    ensures store - Ids(entries[..k]) - {entries[k].id} == store - Ids(entries[..k + 1])
  {
    forall i ensures i in Ids(entries[..k + 1]) <==> i in Ids(entries[..k]) || i == entries[k].id {
      assert forall j :: 0 <= j < k ==> entries[..k + 1][j] == entries[..k][j];
      if i in Ids(entries[..k]) {
        var j :| 0 <= j < k && entries[..k][j].id == i;
        assert entries[..k + 1][j].id == i;
      }
      if i == entries[k].id { assert entries[..k + 1][k].id == i; }
    }
  }

  lemma AllGone(store: Store, account: Account)
    ensures Ids(Listing(store, account)) == IdsOf(store, account)
    ensures IdsOf(store - Ids(Listing(store, account)), account) == {}
  {
    var entries := Listing(store, account);
    forall id | id in IdsOf(store, account) ensures id in Ids(entries) {
      SortedListsAll(store, IdsOf(store, account), id);
      var k :| 0 <= k < |entries| && entries[k] == Entry(id, store[id]);
      assert entries[k].id == id;
    }
  }

  lemma SendsNext(s: State)
    requires s.offset < |s.captured| && s.captured[s.offset].row.unlock.account == s.account && s.syncs == map[]
    ensures var after := StartNext(s, ALL_WELL);
      && after == s.(bridge := after.bridge, syncs := after.syncs)
      && after.bridge.next == s.bridge.next + 1
      && after.syncs == map[s.bridge.next := NextSync(s)]
  {
  }

  lemma LastAnswered(s: State)
    requires s.offset >= |s.captured| && IdsOf(s.store, s.account) == {} && s.account != 0
    ensures StartNext(s, ALL_WELL) == s.(remaining := 0, phase := SyncSucceeded)
  {
    assert Listing(s.store, s.account) == [];
    assert CanList(s.store, s.account);
  }

  lemma {:induction false} RanOneMore(s: State, actions: seq<Action>, a: Action)
    ensures Ran(s, actions + [a]) == Acted(Ran(s, actions), a)
    decreases |actions|
  {
    hide Acted;
    if actions == [] {
      assert [a][0] == a && [a][1..] == [];
      assert Ran(Acted(s, a), []) == Acted(s, a);
      assert actions + [a] == [a];
    } else {
      assert (actions + [a])[0] == actions[0] && (actions + [a])[1..] == actions[1..] + [a];
      RanOneMore(Acted(s, actions[0]), actions[1..], a);
    }
  }

  lemma {:induction false} DrainsTo(s: State, k: nat)
    requires Sound(s) && CanSync(s, false, ALL_WELL) && NoneHeld(s.store, s.account)
    requires k <= |Listing(s.store, s.account)|
    ensures var entries := Listing(s.store, s.account);
      var begun := Acted(s, SyncBegins(false, ALL_WELL));
      && Sound(Ran(begun, Confirmations(s.bridge.next, entries[..k])))
      && DrainedTo(s, Ran(begun, Confirmations(s.bridge.next, entries[..k])), k)
  {
    hide Sound, Acted, Listing, NoneHeld, CanList;
    var entries := Listing(s.store, s.account);
    var begun := Acted(s, SyncBegins(false, ALL_WELL));
    if k == 0 {
      ActedSound(s, SyncBegins(false, ALL_WELL));
      SyncSendsExactly(s, false, ALL_WELL);
      BegunFrame(s);
      assert Confirmations(s.bridge.next, entries[..0]) == [];
      assert s.store - Ids(entries[..0]) == s.store;
    } else {
      DrainsTo(s, k - 1);
      var a := Answering(s.bridge.next + (k - 1), entries[k - 1].row.unlock.achievement);
      assert Confirmations(s.bridge.next, entries[..k]) == Confirmations(s.bridge.next, entries[..k - 1]) + [a];
      var now := Ran(begun, Confirmations(s.bridge.next, entries[..k - 1]));
      RanOneMore(begun, Confirmations(s.bridge.next, entries[..k - 1]), a);
      NextConfirmed(s, now, k - 1);
      ActedSound(now, a);
    }
  }

  lemma BegunFrame(s: State)
    ensures var after := Acted(s, SyncBegins(false, ALL_WELL));
      after.loading == s.loading && (Listing(s.store, s.account) == [] && CanSync(s, false, ALL_WELL) ==> after.remaining == 0)
  {
    hide CancelAwards, InvalidateSync, Listing, AnyHeld, CanList;
    Quieting(s);
  }

  /**
   * From a logged-in state with a working store and no held row of the account, a synchronization and one confirming
   * response to each request empty the account's rows: after k responses exactly the first k rows of the listing are
   * gone, and after as many as there were rows it has succeeded, nothing is under way, and a load may start.
   */
  lemma SyncDrains(s: State, k: nat)
    requires Sound(s) && CanSync(s, false, ALL_WELL) && NoneHeld(s.store, s.account)
    requires k <= |Listing(s.store, s.account)|
    ensures var entries := Listing(s.store, s.account);
      var after := Ran(Acted(s, SyncBegins(false, ALL_WELL)), Confirmations(s.bridge.next, entries[..k]));
      && after.store == s.store - Ids(entries[..k])
      && (after.phase == SyncSucceeded <==> k == |entries|)
      && (k == |entries| ==>
            && (forall id :: id in after.store <==> id in s.store && s.store[id].unlock.account != s.account)
            && after.syncs == map[] && after.awards == map[] && after.remaining == 0
            && (!s.loading ==> MayLoad(after)))
  {
    hide Sound, Acted, Listing, NoneHeld, CanList, Ids, Ran, Confirmations;
    var entries := Listing(s.store, s.account);
    DrainsTo(s, k);
    AllGone(s.store, s.account);
    assert entries[..|entries|] == entries;
  }
}

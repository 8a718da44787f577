/**
 * The outbox as the program has it: the unlock table, the HTTP bridge and the service are objects whose
 * maps the methods update in place. Each method is proved against the step of Outbox that it implements.
 */
module OutboxService {
  import opened Extremes
  import opened UnlockStore
  import opened Outbox
  import opened OutboxProofs

  lemma SortedStep(store: Store, ids: set<nat>, first: nat)
    requires ids != {} && ids <= store.Keys && first == Earliest(store, ids)
    ensures Sorted(store, ids) == [Entry(first, store[first])] + Sorted(store, ids - {first})
  {
  }

  lemma Regrouped(entries: seq<Entry>, entry: Entry, rest: seq<Entry>)
    ensures entries + ([entry] + rest) == (entries + [entry]) + rest
  {
  }

  class UnlockTable {
    var rows: Store

    constructor ()
      ensures rows == map[]
    {
      rows := map[];
    }

    /** An invalid record is refused and changes nothing. */
    method EnqueuePendingUnlock(unlock: Unlock, hash: nat, unlockedAt: int) returns (ok: bool, id: nat)
      requires Unique(rows)
      modifies this
      ensures ok <==> Storable(unlock, hash, unlockedAt)
      ensures if ok then (rows, id) == Upserted(old(rows), unlock, hash, unlockedAt) else rows == old(rows)
    {
      if unlock.account == 0 || unlock.achievement == 0 || unlock.achievement > UINT32_MAX || hash == 0 || unlockedAt <= 0 {
        return false, 0;
      }
      var todo := rows.Keys;
      var top := 0;
      while todo != {}
        invariant todo <= rows.Keys && rows == old(rows)
        invariant forall i :: i in rows ==> i in todo || (i <= top && rows[i].unlock != unlock)
        invariant top == 0 || top in rows
        decreases |todo|
      {
        var i :| i in todo;
        if rows[i].unlock == unlock {
          var row := rows[i];
          rows := rows[i := row.(
            hash := hash, unlockedAt := if unlockedAt < row.unlockedAt then unlockedAt else row.unlockedAt)];
          return true, i;
        }
        if i > top {
          top := i;
        }
        todo := todo - {i};
      }
      assert !Has(rows, unlock) && NextId(rows) == top + 1;
      rows := rows[top + 1 := Row(unlock, hash, unlockedAt, false, 0)];
      return true, top + 1;
    }

    /** The first of these rows by unlock time and id. */
    method FirstOf(ids: set<nat>) returns (id: nat)
      requires ids != {} && ids <= rows.Keys
      ensures id == Earliest(rows, ids)
    {
      var todo := ids;
      id :| id in todo;
      while todo != {}
        invariant id in ids && todo <= ids
        invariant forall i :: i in ids ==> i in todo || Before(rows, id, i)
        decreases |todo|
      {
        var i :| i in todo;
        if !Before(rows, id, i) {
          id := i;
        }
        todo := todo - {i};
      }
      EarliestIsUnique(rows, ids, id, Earliest(rows, ids));
    }

    /** The rows of an account in order; one invalid row fails the whole listing. */
    method ListPendingUnlocks(account: Account) returns (ok: bool, entries: seq<Entry>)
      ensures ok <==> CanList(rows, account)
      ensures entries == if ok then Listing(rows, account) else []
    {
      hide Earliest, Listable;
      if account == 0 {
        return false, [];
      }
      ListingIsListable(rows, account);
      var todo := IdsOf(rows, account);
      entries := [];
      while todo != {}
        invariant todo <= rows.Keys
        invariant Listing(rows, account) == entries + Sorted(rows, todo)
        invariant forall k :: 0 <= k < |entries| ==> Listable(entries[k])
        decreases |todo|
      {
        var id := FirstOf(todo);
        var entry := Entry(id, rows[id]);
        SortedStep(rows, todo, id);
        Regrouped(entries, entry, Sorted(rows, todo - {id}));
        if !Listable(entry) {
          assert Listing(rows, account)[|entries|] == entry;
          return false, [];
        }
        entries := entries + [entry];
        todo := todo - {id};
      }
      return true, entries;
    }

    method MarkPendingUnlockAttempt(id: nat, held: bool)
      modifies this
      ensures rows == Marked(old(rows), id, held)
    {
      if id in rows {
        rows := rows[id := rows[id].(held := held, attempts := rows[id].attempts + 1)];
      }
    }

    method RemovePendingUnlock(id: nat)
      modifies this
      ensures rows == old(rows) - {id}
    {
      rows := rows - {id};
    }

    method RemovePendingUnlocksForAccount(account: Account)
      modifies this
      ensures rows == old(rows) - IdsOf(old(rows), account)
    {
      rows := rows - IdsOf(rows, account);
    }
  }

  class HttpBridge {
    var pending: map<nat, PendingCall>
    var next: nat
    var generation: nat

    constructor ()
      ensures V() == Bridge(map[], 1, 0)
    {
      pending, next, generation := map[], 1, 0;
    }

    function V(): Bridge
      reads this
    {
      Bridge(pending, next, generation)
    }

    method BeginServerCall(call: Call) returns (id: nat)
      modifies this
      ensures id == old(next) && V() == Sent(old(V()), call)
    {
      id := next;
      next := next + 1;
      pending := pending[id := PendingCall(call, generation)];
    }

    method Abandon(id: nat) returns (found: bool)
      modifies this
      ensures found == (id in old(pending)) && V() == Taken(old(V()), id)
    {
      if id !in pending {
        assert pending - {id} == pending;
        return false;
      }
      pending := pending - {id};
      return true;
    }

    method AdvanceGeneration()
      modifies this`generation
      ensures generation == old(generation) + 1
    {
      generation := generation + 1;
    }

    method AbortAllWithoutCallbacks()
      modifies this`pending
      ensures pending == map[]
    {
      pending := map[];
    }
  }

  class RaService {
    const table: UnlockTable
    const bridge: HttpBridge
    var login: Login
    var account: Account
    var loading: bool
    var awards: map<nat, Award>
    var boards: map<nat, Board>
    var retries: map<Ticket, Board>
    var syncs: map<nat, Sync>
    var syncGeneration: nat
    var phase: Phase
    var remaining: nat
    var captured: seq<Entry>
    var offset: nat
    var issued: nat
    ghost var done: seq<Ticket>

    constructor ()
      ensures S() == Fresh(map[]) && fresh(table) && fresh(bridge)
    {
      table := new UnlockTable();
      bridge := new HttpBridge();
      login, account, loading := LoggedOut, 0, false;
      awards, boards, retries, syncs := map[], map[], map[], map[];
      syncGeneration, phase, remaining, captured, offset := 0, SyncIdle, 0, [], 0;
      issued, done := 0, [];
    }

    /** The whole state as one value. */
    ghost function S(): State
      reads this, table, bridge
    {
      State(login, account, loading, table.rows, bridge.V(), awards, boards, retries, syncs, syncGeneration, phase,
            remaining, captured, offset, issued, done)
    }

    // ---- cancellation ----

    method CancelPendingAwardRequests()
      modifies this, bridge
      ensures S() == CancelAwards(old(S()))
    {
      hide EndAward;
      var hadPending := awards != map[];
      while awards != map[]
        invariant EndAwards(S()) == EndAwards(old(S()))
        invariant login == old(login)
        decreases |awards|
      {
        var id := FindLowest(awards.Keys);
        CancelAward(id);
      }
      if hadPending && login == LoggedIn {
        phase, remaining := SyncIdle, 0;
      }
    }

    method CancelAward(id: nat)
      requires id in awards
      modifies this, bridge
      ensures S() == EndAward(old(S()), id)
      ensures login == old(login) && |awards| < |old(awards)|
    {
      var award := awards[id];
      awards := awards - {id};
      var _ := bridge.Abandon(id);
      done := done + [award.ticket];
    }

    method CancelPendingLeaderboardRequests()
      modifies this, bridge
      ensures S() == CancelBoards(old(S()))
    {
      hide EndBoard, EndRetry;
      while boards != map[]
        invariant EndBoards(S()) == EndBoards(old(S()))
        decreases |boards|
      {
        var id := FindLowest(boards.Keys);
        CancelBoard(id);
      }
      while retries != map[]
        invariant EndRetries(S()) == EndRetries(EndBoards(old(S())))
        decreases |retries|
      {
        var ticket := FindLowest(retries.Keys);
        CancelRetry(ticket);
      }
    }

    method CancelBoard(id: nat)
      requires id in boards
      modifies this, bridge
      ensures S() == EndBoard(old(S()), id) && |boards| < |old(boards)|
    {
      var board := boards[id];
      boards := boards - {id};
      var _ := bridge.Abandon(id);
      done := done + [board.ticket];
    }

    method CancelRetry(ticket: Ticket)
      requires ticket in retries
      modifies this
      ensures S() == EndRetry(old(S()), ticket) && |retries| < |old(retries)|
    {
      var board := retries[ticket];
      retries := retries - {ticket};
      done := done + [board.ticket];
    }

    method CancelPendingUnlockSyncRequests()
      modifies this, bridge
      ensures S() == EndSyncs(old(S()))
    {
      while syncs != map[]
        invariant EndSyncs(S()) == EndSyncs(old(S()))
        decreases |syncs|
      {
        ghost var before := S();
        var id := FindLowest(syncs.Keys);
        syncs := syncs - {id};
        var _ := bridge.Abandon(id);
        assert S() == EndSync(before, id);
      }
    }

    method InvalidatePendingUnlockSync()
      modifies this, bridge
      ensures S() == InvalidateSync(old(S()))
    {
      CancelPendingUnlockSyncRequests();
      syncGeneration := syncGeneration + 1;
      phase, remaining := SyncIdle, 0;
      captured := [];
      offset := 0;
    }

    // ---- submissions ----

    method InterceptAwardRequest(intake: Intake, stores: bool)
      requires Unique(table.rows)
      modifies this, table, bridge
      ensures S() == SubmitAward(old(S()), intake, stores)
    {
      if intake.Unusable? || !stores {
        RefuseSubmission();
        return;
      }
      var unlock := Unlock(account, intake.achievement, intake.hardcore);
      var ok, record := table.EnqueuePendingUnlock(unlock, intake.hash, intake.unlockedAt);
      if !ok {
        RefuseSubmission();
        return;
      }
      var award := Award(record, unlock, bridge.generation, issued);
      var id := bridge.BeginServerCall(AwardCall(award));
      awards := awards[id := award];
      issued := issued + 1;
    }

    method RefuseSubmission()
      modifies this
      ensures S() == Refuse(old(S()))
    {
      done := done + [issued];
      issued := issued + 1;
    }

    method StartPendingLeaderboardRequest(board: Board)
      modifies this, bridge
      ensures S() == StartBoard(old(S()), board)
    {
      var id := bridge.BeginServerCall(BoardCall(board));
      boards := boards[id := board];
    }

    method InterceptLeaderboardSubmission(usable: bool)
      modifies this, bridge
      ensures S() == SubmitBoard(old(S()), usable)
    {
      var ticket := issued;
      issued := issued + 1;
      if !usable || account == 0 {
        done := done + [ticket];
        return;
      }
      StartPendingLeaderboardRequest(Board(account, bridge.generation, ticket, 0, 0));
    }

    method ProcessPendingLeaderboardRetries(now: nat)
      modifies this, bridge
      ensures S() == RetryBoards(old(S()), now)
    {
      var due := set ticket | ticket in retries && retries[ticket].retryAt <= now;
      while due != {}
        invariant due == Due(S(), now)
        invariant RetryBoards(S(), now) == RetryBoards(old(S()), now)
        decreases |retries|
      {
        ghost var before := S();
        var ticket := FindLowest(due);
        var board := retries[ticket];
        retries := retries - {ticket};
        StartPendingLeaderboardRequest(board);
        assert S() == Unpark(before, ticket);
        due := set t | t in retries && retries[t].retryAt <= now;
      }
    }

    // ---- synchronization ----

    method StartNextPendingUnlock(luck: Luck)
      modifies this, bridge
      ensures S() == StartNext(old(S()), luck)
    {
      if offset >= |captured| {
        phase, remaining := SyncIdle, 0;
        var ok, entries := table.ListPendingUnlocks(account);
        if !luck.lists || !ok {
          phase := SyncFailed;
          return;
        }
        remaining := |entries|;
        var held := FindHeld(entries);
        if held {
          phase := SyncFailed;
          return;
        }
        if entries == [] {
          phase := SyncSucceeded;
        }
        return;
      }
      var entry := captured[offset];
      if !luck.hasUser || entry.row.unlock.account != account || !luck.builds {
        phase := SyncFailed;
        return;
      }
      var sync := Sync(entry.id, entry.row.unlock, syncGeneration);
      var id := bridge.BeginServerCall(SyncCall(sync));
      syncs := syncs[id := sync];
    }

    static method FindHeld(entries: seq<Entry>) returns (held: bool)
      ensures held <==> AnyHeld(entries)
    {
      var index := 0;
      while index < |entries|
        invariant 0 <= index <= |entries|
        invariant forall k :: 0 <= k < index ==> !entries[k].row.held
      {
        if entries[index].row.held {
          return true;
        }
        index := index + 1;
      }
      return false;
    }

    method BeginPendingUnlockSync(recovery: bool, luck: Luck)
      modifies this, bridge
      ensures S() == BeginSync(old(S()), recovery, luck)
    {
      hide CancelAwards, InvalidateSync, StartNext, Listing, AnyHeld;
      CancelPendingAwardRequests();
      CancelAwardsKeepsLogin(old(S()));
      InvalidatePendingUnlockSync();
      InvalidateKeepsLogin(CancelAwards(old(S())));
      if login != LoggedIn || recovery {
        phase := SyncFailed;
        return;
      }
      var ok, entries := table.ListPendingUnlocks(account);
      if !luck.lists || !ok {
        phase := SyncFailed;
        return;
      }
      captured := entries;
      remaining := |captured|;
      if captured == [] {
        phase := SyncSucceeded;
        return;
      }
      var held := FindHeld(captured);
      if held {
        phase := SyncFailed;
        return;
      }
      phase := SyncPending;
      StartNextPendingUnlock(luck);
    }

    // ---- answers ----

    /** The context's entry has just been taken out of the bridge. */
    method PendingAwardCallback(id: nat, r: Response, luck: Luck)
      requires id in awards && id !in bridge.pending
      modifies this, table
      ensures S() == AwardAnswered(old(S()), id, r, luck)
    {
      hide Confirms, RetryableAward, Marked;
      var award := awards[id];
      if award.generation == bridge.generation && award.unlock.account == account {
        if Confirms(r, award.unlock.achievement) {
          if luck.removes {
            table.RemovePendingUnlock(award.record);
          }
        } else {
          KeepAward(award.record, !RetryableAward(r), luck);
        }
      }
      CompleteAward(id);
    }

    method KeepAward(record: nat, held: bool, luck: Luck)
      modifies this, table
      ensures var marked := if luck.marks then Attempted(old(S()), record, held) else old(S());
        S() == if held then marked.(phase := SyncFailed) else Idle(marked)
    {
      if luck.marks {
        table.MarkPendingUnlockAttempt(record, held);
      }
      if held {
        phase := SyncFailed;
      } else {
        phase, remaining := SyncIdle, 0;
      }
    }

    /** The context leaves the map and its rcheevos callback is invoked. */
    method CompleteAward(id: nat)
      requires id in awards && id !in bridge.pending
      modifies this
      ensures S() == EndAward(old(S()), id)
    {
      var award := awards[id];
      awards := awards - {id};
      assert bridge.pending - {id} == bridge.pending;
      done := done + [award.ticket];
    }

    method PendingLeaderboardCallback(id: nat, r: Response, now: nat)
      requires id in boards && id !in bridge.pending
      modifies this, bridge
      ensures S() == BoardAnswered(old(S()), id, r, now)
    {
      var board := boards[id];
      boards := boards - {id};
      assert bridge.pending - {id} == bridge.pending;
      if board.generation != bridge.generation || board.account != account || !RetryableBoard(r) {
        done := done + [board.ticket];
        return;
      }
      board := board.(retries := board.retries + 1);
      var delay := RetryDelay(board.retries);
      if delay == 0 {
        StartPendingLeaderboardRequest(board);
      } else {
        retries := retries[board.ticket := board.(retryAt := now + delay)];
      }
    }

    method PendingSyncCallback(id: nat, r: Response, luck: Luck)
      requires id in syncs && id !in bridge.pending
      modifies this, table, bridge
      ensures S() == SyncAnswered(old(S()), id, r, luck)
    {
      hide StartNext, Confirms, SyncHeld, Attempted;
      var sync := syncs[id];
      syncs := syncs - {id};
      assert bridge.pending - {id} == bridge.pending;
      if sync.generation != syncGeneration || sync.unlock.account != account {
        return;
      }
      if Confirms(r, sync.unlock.achievement) && luck.removes {
        ConfirmSync(sync.record, r, luck);
        return;
      }
      KeepUnconfirmed(sync.record, SyncHeld(r, sync.unlock.achievement), luck);
    }

    method ConfirmSync(record: nat, r: Response, luck: Luck)
      modifies this, table, bridge
      ensures var left := |old(captured)| - (old(offset) + 1);
        S() == StartNext(Removed(old(S()), record).(
          offset := old(offset) + 1, remaining := if left > 0 then left else 0), luck)
    {
      hide StartNext;
      table.RemovePendingUnlock(record);
      offset := offset + 1;
      remaining := if |captured| > offset then |captured| - offset else 0;
      StartNextPendingUnlock(luck);
    }

    method KeepUnconfirmed(record: nat, held: bool, luck: Luck)
      modifies this, table
      ensures S() == if luck.marks && !held then Idle(Attempted(old(S()), record, held))
        else (if luck.marks then Attempted(old(S()), record, held) else old(S())).(phase := SyncFailed)
    {
      if luck.marks {
        table.MarkPendingUnlockAttempt(record, held);
      }
      if luck.marks && !held {
        phase, remaining := SyncIdle, 0;
      } else {
        phase := SyncFailed;
      }
    }

    /** One completed response of DrainCompleted. */
    method Deliver(id: nat, r: Response, now: nat, luck: Luck)
      requires Tracked(S())
      modifies this, table, bridge
      ensures S() == Answered(old(S()), id, r, now, luck)
    {
      hide AwardAnswered, BoardAnswered, SyncAnswered;
      if id !in bridge.pending {
        return;
      }
      var entry := bridge.pending[id];
      ghost var before := S();
      var _ := bridge.Abandon(id);
      if entry.generation != bridge.generation {
        return;
      }
      match entry.call {
        case AwardCall(_) =>
          AwardAnsweredTaken(before, id, r, luck);
          PendingAwardCallback(id, r, luck);
        case BoardCall(_) =>
          BoardAnsweredTaken(before, id, r, now);
          PendingLeaderboardCallback(id, r, now);
        case SyncCall(_) =>
          SyncAnsweredTaken(before, id, r, luck);
          PendingSyncCallback(id, r, luck);
        case OtherCall =>
      }
    }

    // ---- the session ----

    method CancelSubmissionRequests()
      modifies this, bridge
      ensures S() == CancelSubmissions(old(S()))
    {
      CancelPendingAwardRequests();
      CancelPendingLeaderboardRequests();
    }

    method BeginLoadGameByHash(ready: bool, validHash: bool) returns (started: bool)
      modifies this, bridge
      ensures S() == BeginLoad(old(S()), ready, validHash)
      ensures started == (ready && validHash && MayLoad(old(S())))
    {
      hide CancelSubmissions;
      if !ready || login != LoggedIn || phase != SyncSucceeded || remaining != 0 || syncs != map[] || awards != map[] {
        return false;
      }
      if !validHash || loading {
        return false;
      }
      CancelSubmissionRequests();
      bridge.AdvanceGeneration();
      loading := true;
      return true;
    }

    method HandleLoadGameCallback(ok: bool)
      modifies this, bridge
      ensures S() == LoadEnds(old(S()), ok)
    {
      hide CancelSubmissions;
      if !loading {
        return;
      }
      if !ok {
        CancelSubmissionRequests();
      }
      loading := false;
    }

    method UnloadGame()
      modifies this, bridge
      ensures S() == Outbox.UnloadGame(old(S()))
    {
      hide CancelSubmissions;
      CancelSubmissionRequests();
      loading := false;
    }

    method AbortLoginInProgress()
      modifies this, bridge
      ensures S() == AbortLogin(old(S()))
    {
      hide InvalidateSync;
      InvalidateKeepsLogin(old(S()));
      InvalidatePendingUnlockSync();
      if login == LoginPending {
        login, account := LoggedOut, 0;
      }
    }

    method BeginLogin(user: Account, hasCredentials: bool) returns (started: bool)
      modifies this, bridge
      ensures S() == Outbox.BeginLogin(old(S()), user, hasCredentials)
      ensures started == (old(login) != LoggedIn && hasCredentials)
    {
      hide AbortLogin;
      if login == LoggedIn {
        return false;
      }
      AbortLoginInProgress();
      if !hasCredentials {
        login, account := LoggedOut, 0;
        return false;
      }
      login, account := LoginPending, user;
      return true;
    }

    method HandleLoginCallback(ok: bool, user: Account, recovery: bool, luck: Luck)
      modifies this, bridge
      ensures S() == LoginEnds(old(S()), ok, user, recovery, luck)
    {
      hide BeginSync;
      if login != LoginPending {
        return;
      }
      if !ok {
        login := LoginFailed;
        return;
      }
      login, account := LoggedIn, user;
      BeginPendingUnlockSync(recovery, luck);
    }

    method Logout(deletePending: bool, deletesCredentials: bool, cleanup: Cleanup) returns (out: bool)
      modifies this, table, bridge
      ensures S() == Outbox.Logout(old(S()), deletePending, deletesCredentials, cleanup)
      ensures out == (login == LoggedOut)
    {
      hide InvalidateSync, CancelSubmissions, AbortLogin, Outbox.UnloadGame;
      InvalidatePendingUnlockSync();
      CancelSubmissionRequests();
      AbortLoginInProgress();
      UnloadGame();
      if !deletesCredentials {
        login := LoginFailed;
        return false;
      }
      if deletePending {
        var deleted := DeletePendingUnlocks(cleanup);
        if !deleted {
          login := LoginFailed;
          return false;
        }
      }
      login, account := LoggedOut, 0;
      return true;
    }

    /** The rows go first; the recovery is confirmed after them, and may fail when they are gone. */
    method DeletePendingUnlocks(cleanup: Cleanup) returns (confirmed: bool)
      modifies table
      ensures confirmed == (account != 0 && cleanup.RecoveryConfirmed?)
      ensures S() == if account == 0 || cleanup.NothingDeleted? then old(S()) else RemovedAll(old(S()), account)
    {
      if account == 0 || cleanup.NothingDeleted? {
        return false;
      }
      table.RemovePendingUnlocksForAccount(account);
      return cleanup.RecoveryConfirmed?;
    }

    method Shutdown()
      modifies this, bridge
      ensures S() == Outbox.Shutdown(old(S()))
    {
      hide InvalidateSync, CancelSubmissions, AbortLogin;
      InvalidatePendingUnlockSync();
      CancelSubmissionRequests();
      AbortLoginInProgress();
      bridge.AbortAllWithoutCallbacks();
    }
  }

  lemma CancelAwardsKeepsLogin(s: State)
    ensures CancelAwards(s).login == s.login && CancelAwards(s).account == s.account
  {
  }

  lemma InvalidateKeepsLogin(s: State)
    ensures InvalidateSync(s).login == s.login && InvalidateSync(s).account == s.account
    ensures InvalidateSync(s).offset == 0
  {
  }

  /** Taking the bridge entry first, as DrainCompleted does, changes nothing that a callback reads. */
  lemma AwardAnsweredTaken(s: State, id: nat, r: Response, luck: Luck)
    requires id in s.awards
    ensures AwardAnswered(s.(bridge := Taken(s.bridge, id)), id, r, luck) == AwardAnswered(s, id, r, luck)
  {
    hide Confirms, RetryableAward, EndAward, Removed, Attempted;
    var award := s.awards[id];
    var taken := s.(bridge := Taken(s.bridge, id));
    EndAwardTaken(s, id);
    RemovedThenTaken(s, id, award.record);
    EndAwardTaken(Removed(s, award.record), id);
    var held := !RetryableAward(r);
    AttemptedThenTaken(s, id, award.record, held);
    var marked := if luck.marks then Attempted(s, award.record, held) else s;
    EndAwardTaken(marked.(phase := SyncFailed), id);
    EndAwardTaken(Idle(marked), id);
  }

  lemma EndAwardTaken(s: State, id: nat)
    requires id in s.awards
    ensures EndAward(s.(bridge := Taken(s.bridge, id)), id) == EndAward(s, id)
  {
    assert s.bridge.pending - {id} - {id} == s.bridge.pending - {id};
  }

  lemma RemovedThenTaken(s: State, id: nat, record: nat)
    ensures Removed(s.(bridge := Taken(s.bridge, id)), record) ==
      Removed(s, record).(bridge := Taken(s.bridge, id))
    ensures Removed(s, record).bridge == s.bridge && Removed(s, record).awards == s.awards
  {
  }

  lemma AttemptedThenTaken(s: State, id: nat, record: nat, held: bool)
    ensures Attempted(s.(bridge := Taken(s.bridge, id)), record, held) ==
      Attempted(s, record, held).(bridge := Taken(s.bridge, id))
    ensures Attempted(s, record, held).bridge == s.bridge && Attempted(s, record, held).awards == s.awards
  {
  }

  lemma BoardAnsweredTaken(s: State, id: nat, r: Response, now: nat)
    requires id in s.boards
    ensures BoardAnswered(s.(bridge := Taken(s.bridge, id)), id, r, now) == BoardAnswered(s, id, r, now)
  {
    hide RetryDelay, RetryableBoard;
    assert s.bridge.pending - {id} - {id} == s.bridge.pending - {id};
  }

  lemma SyncAnsweredTaken(s: State, id: nat, r: Response, luck: Luck)
    requires id in s.syncs
    ensures SyncAnswered(s.(bridge := Taken(s.bridge, id)), id, r, luck) == SyncAnswered(s, id, r, luck)
  {
    hide Confirms, SyncHeld, StartNext, EndSync, Marked;
    EndSyncTaken(s, id);
  }

  lemma EndSyncTaken(s: State, id: nat)
    ensures EndSync(s.(bridge := Taken(s.bridge, id)), id) == EndSync(s, id)
  {
    assert s.bridge.pending - {id} - {id} == s.bridge.pending - {id};
  }
}

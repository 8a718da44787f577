/**
 * The load gate: a game load starts only when the account has nothing left in the store. The invariant is
 * that a succeeded synchronization leaves every stored unlock of the account with a live award request.
 */
module OutboxGate {
  import opened Extremes
  import opened UnlockStore
  import opened Outbox
  import opened OutboxProofs

  /** A live award request owns this row. */
  ghost predicate Owned(s: State, id: nat) {
    id in s.store && exists q :: q in s.awards && s.awards[q].record == id && s.awards[q].unlock == s.store[id].unlock
  }

  ghost predicate Covered(s: State) {
    s.phase == SyncSucceeded ==>
      && s.login == LoggedIn && s.syncs == map[]
      && forall id :: id in s.store && s.store[id].unlock.account == s.account ==> Owned(s, id)
  }

  /** Synchronization is stop and wait, and only while logged in. */
  predicate OneAtATime(s: State) {
    && (s.syncs != map[] ==> s.login == LoggedIn)
    && (forall i, j :: i in s.syncs && j in s.syncs ==> i == j)
  }

  ghost predicate Gated(s: State) {
    Covered(s) && OneAtATime(s) && Unique(s.store)
  }

  /** The hypothesis: removing a confirmed row does not fail. */
  predicate StoreWorks(a: Action) {
    a.ResponseArrives? ==> a.luck.removes
  }

  predicate EmptyFor(s: State) {
    forall id :: id in s.store ==> s.store[id].unlock.account != s.account
  }

  lemma UnmovedGated(s: State, after: State)
    requires Gated(s) && after.store == s.store && after.awards == s.awards && after.syncs == s.syncs
    requires after.login == s.login && after.account == s.account && after.phase == s.phase
    ensures Gated(after)
  {
    assert forall id :: Owned(after, id) <==> Owned(s, id);
  }

  lemma SubmitAwardGated(s: State, intake: Intake, stores: bool)
    requires Gated(s) && Bridged(s)
    ensures Gated(SubmitAward(s, intake, stores))
  {
    hide Gated, Bridged, Upserted;
    UnmovedGated(s, Refuse(s));
    if intake.Usable? {
      EnqueueGated(s, UnlockOf(s, intake), intake);
    }
  }

  lemma EnqueueGated(s: State, unlock: Unlock, intake: Intake)
    requires Gated(s) && Bridged(s) && intake.Usable?
    ensures var (store, record) := Upserted(s.store, unlock, intake.hash, intake.unlockedAt);
      var award := Award(record, unlock, s.bridge.generation, s.issued);
      Gated(s.(store := store, issued := s.issued + 1,
        bridge := Sent(s.bridge, AwardCall(award)), awards := s.awards[s.bridge.next := award]))
  {
    hide Bridged, Upserted, Unique, Covered;
    var (store, record) := Upserted(s.store, unlock, intake.hash, intake.unlockedAt);
    var award := Award(record, unlock, s.bridge.generation, s.issued);
    var after := s.(store := store, issued := s.issued + 1,
      bridge := Sent(s.bridge, AwardCall(award)), awards := s.awards[s.bridge.next := award]);
    UpsertKeeps(s.store, unlock, intake.hash, intake.unlockedAt);
    NextIsFree(s);
    EnqueuedCovers(s, after, record, unlock);
  }

  lemma NextIsFree(s: State)
    requires Bridged(s)
    ensures s.bridge.next !in s.awards
  {
  }

  lemma EnqueuedCovers(s: State, after: State, record: nat, unlock: Unlock)
    requires Covered(s) && after.phase == s.phase && after.login == s.login && after.syncs == s.syncs
    requires after.account == s.account && after.store.Keys == s.store.Keys + {record}
    requires after.store[record].unlock == unlock
    requires forall i :: i in s.store ==> after.store[i].unlock == s.store[i].unlock
    requires s.bridge.next !in s.awards && s.bridge.next in after.awards
    requires after.awards[s.bridge.next].record == record && after.awards[s.bridge.next].unlock == unlock
    requires forall q :: q in s.awards ==> q in after.awards && after.awards[q] == s.awards[q]
    ensures Covered(after)
  {
    if s.phase == SyncSucceeded {
      forall id | id in after.store && after.store[id].unlock.account == after.account
        ensures Owned(after, id)
      {
        if id != record {
          assert Owned(s, id);
          var q :| q in s.awards && s.awards[q].record == id && s.awards[q].unlock == s.store[id].unlock;
          assert q in after.awards;
        }
      }
    }
  }

  lemma CancelSubmissionsGated(s: State)
    requires Gated(s)
    ensures Gated(CancelSubmissions(s))
  {
    hide CancelSubmissions;
    CancelledFrame(s);
    var after := CancelSubmissions(s);
    if after.phase == SyncSucceeded {
      assert s.awards == map[] && after.awards == map[];
      assert forall id :: Owned(after, id) <==> Owned(s, id);
    }
  }

  /** Succeeded is declared only over an empty listing. */
  lemma StartNextGated(s: State, luck: Luck)
    requires s.phase != SyncSucceeded && s.login == LoggedIn && s.syncs == map[] && Unique(s.store)
    ensures Gated(StartNext(s, luck))
  {
    hide Listing, AnyHeld;
    if Listing(s.store, s.account) == [] {
      EmptyListing(s.store, s.account);
    }
  }

  lemma BeginSyncGated(s: State, recovery: bool, luck: Luck)
    requires Unique(s.store)
    ensures Gated(BeginSync(s, recovery, luck))
  {
    hide CancelAwards, StartNext, Listing, AnyHeld, EndSyncs;
    CancelAwardsFrame(s);
    InvalidatedFrame(CancelAwards(s));
    var quiet := InvalidateSync(CancelAwards(s));
    var entries := Listing(quiet.store, quiet.account);
    if entries == [] {
      EmptyListing(quiet.store, quiet.account);
    }
    if s.login == LoggedIn {
      StartNextGated(quiet.(captured := entries, remaining := |entries|, phase := SyncPending), luck);
    }
  }

  lemma InvalidatedFrame(s: State)
    ensures var after := InvalidateSync(s);
      && after.syncs == map[] && after.login == s.login && after.store == s.store && after.account == s.account
      && after.awards == s.awards && after.phase == SyncIdle
  {
  }

  /** An award that ends uncovers only its own row, and only while it names that row. */
  lemma EndAwardGated(s: State, id: nat)
    requires Gated(s) && id in s.awards
    requires s.awards[id].unlock.account != s.account || s.awards[id].record !in s.store || s.phase != SyncSucceeded
    ensures Gated(EndAward(s, id))
  {
    var after := EndAward(s, id);
    if s.phase == SyncSucceeded {
      forall i | i in after.store && after.store[i].unlock.account == after.account
        ensures Owned(after, i)
      {
        assert Owned(s, i);
        var q :| q in s.awards && s.awards[q].record == i && s.awards[q].unlock == s.store[i].unlock;
        assert q != id && q in after.awards;
      }
    }
  }

  lemma RemovedGated(s: State, id: nat)
    requires Gated(s)
    ensures Gated(Removed(s, id))
  {
    var after := Removed(s, id);
    forall i | i in after.store && Owned(s, i)
      ensures Owned(after, i)
    {
      var q :| q in s.awards && s.awards[q].record == i && s.awards[q].unlock == s.store[i].unlock;
      assert q in after.awards;
    }
  }

  lemma AwardAnsweredGated(s: State, id: nat, r: Response, luck: Luck)
    requires Gated(s) && Bridged(s) && id in s.awards && luck.removes
    ensures Gated(AwardAnswered(s, id, r, luck))
  {
    hide Confirms, RetryableAward, Bridged, Gated, EndAward, Marked;
    var award := s.awards[id];
    AwardIsCurrent(s, id);
    if award.unlock.account != s.account {
      EndAwardGated(s, id);
    } else if Confirms(r, award.unlock.achievement) {
      RemovedGated(s, award.record);
      RemovedIsGone(s, award.record);
      EndAwardGated(Removed(s, award.record), id);
    } else {
      var held := !RetryableAward(r);
      var marked := if luck.marks then Attempted(s, award.record, held) else s;
      var before := if held then marked.(phase := SyncFailed) else Idle(marked);
      MarkedGated(s, award.record, held, before);
      EndAwardGated(before, id);
    }
  }

  lemma RemovedIsGone(s: State, id: nat)
    ensures id !in Removed(s, id).store
  {
  }

  lemma MarkedGated(s: State, id: nat, held: bool, after: State)
    requires Gated(s) && after.phase != SyncSucceeded && after.syncs == s.syncs && after.login == s.login
    requires after.store == s.store || after.store == Attempted(s, id, held).store
    ensures Gated(after)
  {
    AttemptedUnique(s, id, held);
  }

  lemma AwardIsCurrent(s: State, id: nat)
    requires Bridged(s) && id in s.awards
    ensures s.awards[id].generation == s.bridge.generation
  {
  }

  lemma SyncAnsweredGated(s: State, id: nat, r: Response, luck: Luck)
    requires Gated(s) && id in s.syncs
    ensures Gated(SyncAnswered(s, id, r, luck))
  {
    hide Confirms, SyncHeld, StartNext, Unique;
    var sync := s.syncs[id];
    var taken := EndSync(s, id);
    assert taken.syncs == map[] && s.phase != SyncSucceeded;
    RemovedUnique(taken, sync.record);
    AttemptedUnique(taken, sync.record, SyncHeld(r, sync.unlock.achievement));
    var left := |s.captured| - (s.offset + 1);
    StartNextGated(Removed(taken, sync.record).(
      offset := s.offset + 1, remaining := if left > 0 then left else 0), luck);
  }

  lemma RemovedUnique(s: State, id: nat)
    requires Unique(s.store)
    ensures Unique(Removed(s, id).store)
  {
  }

  lemma AttemptedUnique(s: State, id: nat, held: bool)
    requires Unique(s.store)
    ensures Unique(Attempted(s, id, held).store)
  {
  }

  lemma AnsweredGated(s: State, id: nat, r: Response, now: nat, luck: Luck)
    requires Gated(s) && Sound(s) && luck.removes
    ensures Gated(Answered(s, id, r, now, luck))
  {
    hide Gated, Bridged, Ticketed, AwardAnswered, BoardAnswered, SyncAnswered;
    if id in s.bridge.pending {
      if id in s.awards { AwardAnsweredGated(s, id, r, luck); }
      if id in s.boards {
        BoardAnsweredFrame(s, id, r, now);
        UnmovedGated(s, BoardAnswered(s, id, r, now));
      }
      if id in s.syncs { SyncAnsweredGated(s, id, r, luck); }
      UnmovedGated(s, s.(bridge := Taken(s.bridge, id)));
    }
  }

  lemma {:induction false} RetryBoardsGated(s: State, now: nat)
    requires Gated(s)
    ensures Gated(RetryBoards(s, now))
    decreases |s.retries|
  {
    hide Gated;
    if Due(s, now) != {} {
      var next := Unpark(s, Lowest(Due(s, now)));
      UnmovedGated(s, next);
      RetryBoardsGated(next, now);
    }
  }

  lemma LeavingGated(s: State, a: Action)
    requires Gated(s)
    requires a.LoadBegins? || a.LoadFinishes? || a.GameUnloads?
    ensures Gated(Acted(s, a))
  {
    hide Gated, CancelSubmissions;
    CancelSubmissionsGated(s);
    var quiet := CancelSubmissions(s);
    UnmovedGated(quiet, quiet.(loading := false));
    UnmovedGated(s, s.(loading := false));
    UnmovedGated(quiet, quiet.(bridge := quiet.bridge.(generation := quiet.bridge.generation + 1), loading := true));
  }

  lemma AbortedFrame(s: State)
    ensures var after := AbortLogin(s);
      after.syncs == map[] && after.phase == SyncIdle && after.store == s.store
  {
  }

  lemma LoginGated(s: State, a: Action)
    requires Gated(s)
    requires a.LoginBegins? || a.LoginFinishes? || a.ShutsDown?
    ensures Gated(Acted(s, a))
  {
    hide CancelSubmissions, InvalidateSync, AbortLogin, BeginSync, Unique;
    AbortedFrame(s);
    match a
    case LoginBegins(_, _) =>
    case LoginFinishes(ok, account, recovery, luck) =>
      BeginSyncGated(s.(login := LoggedIn, account := account), recovery, luck);
    case ShutsDown =>
      InvalidatedFrame(s);
      CancelledFrame(InvalidateSync(s));
      AbortedFrame(CancelSubmissions(InvalidateSync(s)));
  }

  lemma LogoutGated(s: State, deletePending: bool, deletesCredentials: bool, cleanup: Cleanup)
    requires Gated(s)
    ensures Gated(Logout(s, deletePending, deletesCredentials, cleanup))
  {
    hide CancelSubmissions, InvalidateSync, AbortLogin;
    InvalidatedFrame(s);
    CancelledFrame(InvalidateSync(s));
    var a := AbortLogin(CancelSubmissions(InvalidateSync(s)));
    AbortedFrame(CancelSubmissions(InvalidateSync(s)));
    CancelledFrame(a);
    assert UnloadGame(a).phase == SyncIdle && UnloadGame(a).syncs == map[];
  }

  lemma ActedGated(s: State, a: Action)
    requires Gated(s) && Sound(s) && StoreWorks(a)
    ensures Gated(Acted(s, a))
  {
    hide Gated, Ticketed, Bridged, SubmitAward, SubmitBoard, Answered, RetryBoards, BeginSync, BeginLoad, LoadEnds,
      UnloadGame, BeginLogin, LoginEnds, Logout, Shutdown;
    match a
    case AwardSubmitted(intake, stores) =>
      GatedUnique(s);
      SubmitAwardGated(s, intake, stores);
    case BoardSubmitted(usable) => SubmitBoardGated(s, usable);
    case OtherRequested => UnmovedGated(s, s.(bridge := Sent(s.bridge, OtherCall)));
    case ResponseArrives(id, response, now, luck) => AnsweredGated(s, id, response, now, luck);
    case RetryTick(now) => RetryBoardsGated(s, now);
    case SyncBegins(recovery, luck) =>
      GatedUnique(s);
      BeginSyncGated(s, recovery, luck);
    case UserLogsOut(deletePending, deletesCredentials, cleanup) =>
      LogoutGated(s, deletePending, deletesCredentials, cleanup);
    case LoadBegins(_, _) => LeavingGated(s, a);
    case LoadFinishes(_) => LeavingGated(s, a);
    case GameUnloads => LeavingGated(s, a);
    case _ => LoginGated(s, a);
  }

  lemma GatedUnique(s: State)
    requires Gated(s)
    ensures Unique(s.store)
  {
  }

  lemma SubmitBoardGated(s: State, usable: bool)
    requires Gated(s)
    ensures Gated(SubmitBoard(s, usable))
  {
    UnmovedGated(s, SubmitBoard(s, usable));
  }

  lemma {:induction false} RunsAreGated(s: State, actions: seq<Action>)
    requires Gated(s) && Sound(s) && forall k :: 0 <= k < |actions| ==> StoreWorks(actions[k])
    ensures Gated(Ran(s, actions))
    decreases |actions|
  {
    hide Gated, Sound, StoreWorks;
    if actions != [] {
      ActedSound(s, actions[0]);
      ActedGated(s, actions[0]);
      RunsAreGated(Acted(s, actions[0]), actions[1..]);
    }
  }

  /** A load that may start has nothing of the account left to send. */
  lemma OpenGateIsEmpty(s: State)
    requires Gated(s) && MayLoad(s)
    ensures EmptyFor(s)
  {
    forall id | id in s.store
      ensures s.store[id].unlock.account != s.account
    {
      assert !Owned(s, id);
    }
  }

  /** In every run whose confirmed rows are removed, a load starts only over an empty outbox. */
  lemma LoadsStartEmpty(store: Store, actions: seq<Action>, ready: bool, validHash: bool)
    requires Unique(store) && forall k :: 0 <= k < |actions| ==> StoreWorks(actions[k])
    ensures var s := Ran(Fresh(store), actions);
      !s.loading && BeginLoad(s, ready, validHash).loading ==> EmptyFor(s) && EmptyFor(BeginLoad(s, ready, validHash))
  {
    hide Ran, Sound, CancelSubmissions, EmptyFor;
    FreshIsSound(store);
    assert Gated(Fresh(store));
    RunsAreGated(Fresh(store), actions);
    var s := Ran(Fresh(store), actions);
    if MayLoad(s) {
      OpenGateIsEmpty(s);
      CancelledFrame(s);
      EmptyReads(s, BeginLoad(s, ready, validHash));
    }
  }

  lemma EmptyReads(s: State, after: State)
    requires EmptyFor(s) && after.store == s.store && after.account == s.account
    ensures EmptyFor(after)
  {
  }

  /**
   * The hypothesis is needed. When the store fails to remove a confirmed row, the gate stays open and the next
   * load starts over that row, exactly when the confirmed award was the last one under way.
   */
  lemma GateOpensOverStoredExactly(s: State, id: nat, r: Response, luck: Luck)
    requires Gated(s) && Sound(s) && s.phase == SyncSucceeded && s.remaining == 0 && !s.loading
    requires id in s.awards && !luck.removes
    requires var award := s.awards[id];
      && award.unlock.account == s.account && award.record in s.store
      && s.store[award.record].unlock == award.unlock && Confirms(r, award.unlock.achievement)
    ensures var after := AwardAnswered(s, id, r, luck);
      && !EmptyFor(after) && (BeginLoad(after, true, true).loading <==> s.awards.Keys == {id})
  {
    hide Ticketed, Confirms, Bridged, CancelSubmissions;
    var award := s.awards[id];
    AwardIsCurrent(s, id);
    var after := AwardAnswered(s, id, r, luck);
    assert after == EndAward(s, id) && after.store[award.record].unlock.account == after.account;
    if s.awards.Keys == {id} {
      assert after.awards.Keys == {};
    } else {
      var q :| q in s.awards && q != id;
      assert q in after.awards;
    }
  }

  /** Exactly when a failed removal of a confirmed row keeps the gate's invariant. */
  lemma FailedRemovalExactly(s: State, id: nat, r: Response, luck: Luck)
    requires Gated(s) && Sound(s) && s.phase == SyncSucceeded && id in s.awards && !luck.removes
    requires var award := s.awards[id];
      && award.unlock.account == s.account && award.record in s.store
      && s.store[award.record].unlock == award.unlock && Confirms(r, award.unlock.achievement)
    ensures Covered(AwardAnswered(s, id, r, luck)) <==>
      exists q :: q in s.awards && q != id && s.awards[q].record == s.awards[id].record
        && s.awards[q].unlock == s.awards[id].unlock
  {
    hide Ticketed, Confirms, Bridged;
    var award := s.awards[id];
    AwardIsCurrent(s, id);
    var after := AwardAnswered(s, id, r, luck);
    assert after == EndAward(s, id);
    if q :| q in s.awards && q != id && s.awards[q].record == award.record && s.awards[q].unlock == award.unlock {
      assert q in after.awards && Owned(after, award.record);
      forall i | i in after.store && after.store[i].unlock.account == after.account
        ensures Owned(after, i)
      {
        assert Owned(s, i);
        var p :| p in s.awards && s.awards[p].record == i && s.awards[p].unlock == s.store[i].unlock;
        assert p != id ==> p in after.awards;
      }
    } else {
      assert !Owned(after, award.record);
    }
  }
}

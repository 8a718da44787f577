/**
 * Why an unlock leaves the store: only when the request for it is answered by a response that confirms it, or
 * by the user's own delete. That holds exactly as long as no insert is given a row id that a request still
 * under way holds.
 */
module OutboxConfirmed {
  import opened Extremes
  import opened UnlockStore
  import opened Outbox
  import opened OutboxProofs

  // ---- what a good departure is ----

  /** The request of this id is for this unlock. */
  predicate IsFor(s: State, id: nat, unlock: Unlock) {
    (id in s.awards && s.awards[id].unlock == unlock) || (id in s.syncs && s.syncs[id].unlock == unlock)
  }

  /** The step is the confirmation of this very unlock, or the user's delete of the account it is of. */
  predicate Justified(s: State, a: Action, unlock: Unlock) {
    || (a.ResponseArrives? && IsFor(s, a.id, unlock) && Confirms(a.response, unlock.achievement))
    || (a.UserLogsOut? && a.deletePending && a.deletesCredentials && unlock.account == s.account)
  }

  ghost predicate LosesNow(s: State, a: Action) {
    exists unlock :: Has(s.store, unlock) && !Has(Acted(s, a).store, unlock) && !Justified(s, a, unlock)
  }

  /** Some step of the run takes an unlock out of the store without a good reason. */
  ghost predicate Loses(s: State, actions: seq<Action>)
    decreases |actions|
  {
    actions != [] && (LosesNow(s, actions[0]) || Loses(Acted(s, actions[0]), actions[1..]))
  }

  // ---- what keeps every departure good ----

  /** What a request or a captured row holds about a row id is still true of the row, if the row is there. */
  predicate Agrees(store: Store, id: nat, unlock: Unlock) {
    id in store ==> store[id].unlock == unlock
  }

  /** The captured rows still to be sent. */
  ghost predicate Ahead(s: State) {
    forall k :: s.offset <= k < |s.captured| ==> Agrees(s.store, s.captured[k].id, s.captured[k].row.unlock)
  }

  ghost predicate Faithful(s: State) {
    && (forall q :: q in s.awards ==> Agrees(s.store, s.awards[q].record, s.awards[q].unlock))
    && (forall q :: q in s.syncs ==> Agrees(s.store, s.syncs[q].record, s.syncs[q].unlock))
    && (s.syncs != map[] ==> Ahead(s))
  }

  ghost predicate AwardHolds(s: State, id: nat, unlock: Unlock) {
    exists q :: q in s.awards && s.awards[q].record == id && s.awards[q].unlock != unlock
  }

  ghost predicate SyncHolds(s: State, id: nat, unlock: Unlock) {
    exists q :: q in s.syncs && s.syncs[q].record == id && s.syncs[q].unlock != unlock
  }

  ghost predicate CapturedHolds(s: State, id: nat, unlock: Unlock) {
    s.syncs != map[] &&
    exists k :: s.offset <= k < |s.captured| && s.captured[k].id == id && s.captured[k].row.unlock != unlock
  }

  /** A request under way, or a row that a synchronization under way is still to send, has this id for another unlock. */
  ghost predicate HeldByAnother(s: State, id: nat, unlock: Unlock) {
    AwardHolds(s, id, unlock) || SyncHolds(s, id, unlock) || CapturedHolds(s, id, unlock)
  }

  /** An enqueue that updates a row in place, or inserts one under an id that nothing under way still holds. */
  ghost predicate SafeEnqueue(s: State, unlock: Unlock) {
    Has(s.store, unlock) || !HeldByAnother(s, NextId(s.store), unlock)
  }

  ghost predicate Kept(s: State) {
    Unique(s.store) && Faithful(s)
  }

  // ---- steps that only let go ----

  /** Rows go or change without changing their unlock; requests and captured rows go. */
  ghost predicate Shrinks(s: State, after: State) {
    && (forall id :: id in after.store ==> id in s.store && after.store[id].unlock == s.store[id].unlock)
    && (forall q :: q in after.awards ==> q in s.awards && after.awards[q] == s.awards[q])
    && (forall q :: q in after.syncs ==> q in s.syncs && after.syncs[q] == s.syncs[q])
    && (after.captured == [] || (after.captured == s.captured && after.offset >= s.offset))
  }

  lemma ShrinkKept(s: State, after: State)
    requires Kept(s) && Shrinks(s, after)
    ensures Kept(after)
  {
    assert s.syncs == map[] ==> after.syncs == map[];
  }

  lemma ShrinkAhead(s: State, after: State)
    requires Ahead(s) && Shrinks(s, after)
    ensures Ahead(after)
  {
  }

  lemma CancelledShrinks(s: State)
    ensures Shrinks(s, CancelSubmissions(s)) && Shrinks(s, CancelAwards(s)) && Shrinks(s, InvalidateSync(s))
  {
    hide CancelSubmissions, CancelAwards;
    CancelledFrame(s);
    CancelAwardsFrame(s);
  }

  // ---- the enqueue ----

  lemma SafeEnqueueFaithful(s: State, unlock: Unlock, store: Store, record: nat, award: Award)
    requires Faithful(s) && s.bridge.next !in s.awards && award.record == record && award.unlock == unlock
    requires store.Keys == s.store.Keys + {record} && store[record].unlock == unlock
    requires forall i :: i in s.store ==> store[i].unlock == s.store[i].unlock
    requires record in s.store || !HeldByAnother(s, record, unlock)
    ensures Faithful(s.(store := store, awards := s.awards[s.bridge.next := award]))
  {
  }

  lemma UnsafeEnqueueUnfaithful(s: State, unlock: Unlock, store: Store, record: nat, award: Award)
    requires s.bridge.next !in s.awards && record in store && store[record].unlock == unlock
    requires HeldByAnother(s, record, unlock)
    ensures !Faithful(s.(store := store, awards := s.awards[s.bridge.next := award]))
  {
    var after := s.(store := store, awards := s.awards[s.bridge.next := award]);
    if q :| q in s.awards && s.awards[q].record == record && s.awards[q].unlock != unlock {
      assert q in after.awards && !Agrees(after.store, after.awards[q].record, after.awards[q].unlock);
    }
  }

  lemma FaithfulReads(s: State, after: State)
    requires after.store == s.store && after.awards == s.awards && after.syncs == s.syncs
    requires after.captured == s.captured && after.offset == s.offset
    ensures Faithful(after) <==> Faithful(s)
  {
  }

  /** An enqueue keeps what every request under way holds true, exactly when it is safe. */
  lemma EnqueueFaithfulExactly(s: State, intake: Intake)
    requires Faithful(s) && Unique(s.store) && Bridged(s) && Accepts(s, intake)
    ensures Faithful(SubmitAward(s, intake, true)) <==>
      SafeEnqueue(s, UnlockOf(s, intake))
  {
    hide Upserted, Faithful, HeldByAnother;
    var unlock := UnlockOf(s, intake);
    var (store, record) := Upserted(s.store, unlock, intake.hash, intake.unlockedAt);
    UpsertKeeps(s.store, unlock, intake.hash, intake.unlockedAt);
    var award := Award(record, unlock, s.bridge.generation, s.issued);
    FaithfulReads(s.(store := store, awards := s.awards[s.bridge.next := award]), SubmitAward(s, intake, true));
    if SafeEnqueue(s, unlock) {
      SafeEnqueueFaithful(s, unlock, store, record, award);
    } else {
      UnsafeEnqueueUnfaithful(s, unlock, store, record, award);
    }
  }

  lemma SubmitAwardKept(s: State, intake: Intake, stores: bool)
    requires Kept(s) && Bridged(s)
    requires Accepts(s, intake) ==> SafeEnqueue(s, UnlockOf(s, intake))
    ensures Kept(SubmitAward(s, intake, stores))
  {
    hide Upserted, Faithful, SafeEnqueue, Bridged;
    var after := SubmitAward(s, intake, stores);
    if !Accepts(s, intake) || !stores {
      FaithfulReads(s, after);
    } else {
      EnqueueFaithfulExactly(s, intake);
      UpsertKeeps(s.store, UnlockOf(s, intake), intake.hash, intake.unlockedAt);
    }
  }

  // ---- cancellation, synchronization and answers ----

  lemma StartNextShape(s: State, luck: Luck)
    ensures var after := StartNext(s, luck);
      && after == s.(bridge := after.bridge, syncs := after.syncs, phase := after.phase, remaining := after.remaining)
      && (|| after.syncs == s.syncs
          || (s.offset < |s.captured| && after.syncs == s.syncs[s.bridge.next := NextSync(s)]))
  {
    hide Listing, AnyHeld, Lists, Sent;
  }

  /** The request for the captured row at the offset. */
  function NextSync(s: State): Sync
    requires s.offset < |s.captured|
  {
    Sync(s.captured[s.offset].id, s.captured[s.offset].row.unlock, s.syncGeneration)
  }

  /** The next request is for the captured row at the offset, so it holds what the row holds. */
  lemma StartNextKept(s: State, luck: Luck)
    requires Kept(s) && Ahead(s)
    ensures Kept(StartNext(s, luck))
  {
    hide Unique, StartNext;
    StartNextShape(s, luck);
  }

  lemma ListedAhead(s: State)
    requires s.offset == 0 && s.captured == Listing(s.store, s.account)
    ensures Ahead(s)
  {
  }

  lemma BeginSyncKept(s: State, recovery: bool, luck: Luck)
    requires Kept(s)
    ensures Kept(BeginSync(s, recovery, luck))
  {
    hide CancelAwards, InvalidateSync, StartNext, Listing, AnyHeld, Lists, Kept;
    CancelledShrinks(s);
    CancelledShrinks(CancelAwards(s));
    ShrinkKept(s, CancelAwards(s));
    var quiet := InvalidateSync(CancelAwards(s));
    ShrinkKept(CancelAwards(s), quiet);
    QuietSync(CancelAwards(s));
    var entries := Listing(quiet.store, quiet.account);
    NoSyncKept(quiet, quiet.(phase := SyncFailed));
    var listed := quiet.(captured := entries, remaining := |entries|);
    NoSyncKept(quiet, listed.(phase := SyncSucceeded));
    NoSyncKept(quiet, listed.(phase := SyncFailed));
    NoSyncKept(quiet, listed.(phase := SyncPending));
    ListedAhead(listed.(phase := SyncPending));
    StartNextKept(listed.(phase := SyncPending), luck);
  }

  lemma QuietSync(s: State)
    ensures InvalidateSync(s).offset == 0 && InvalidateSync(s).captured == [] && InvalidateSync(s).syncs == map[]
    ensures InvalidateSync(s).store == s.store && InvalidateSync(s).awards == s.awards
    ensures InvalidateSync(s).login == s.login && InvalidateSync(s).account == s.account
  {
  }

  /** Without a synchronization under way the captured rows do not matter. */
  lemma NoSyncKept(s: State, after: State)
    requires Kept(s) && s.syncs == map[] && after.syncs == map[] && after.store == s.store && after.awards == s.awards
    ensures Kept(after)
  {
  }

  lemma AwardAnsweredShape(s: State, id: nat, r: Response, luck: Luck)
    requires id in s.awards
    ensures var award, after := s.awards[id], AwardAnswered(s, id, r, luck);
      && after.awards == s.awards - {id} && after.syncs == s.syncs && after.captured == s.captured
      && after.offset == s.offset && after.syncGeneration == s.syncGeneration
      && after.login == s.login && after.account == s.account
      && (|| after.store == s.store
          || (Confirms(r, award.unlock.achievement) && after.store == s.store - {award.record})
          || after.store == Marked(s.store, award.record, !RetryableAward(r)))
  {
    hide Confirms, RetryableAward, Marked, EndAward;
    var record := s.awards[id].record;
    EndAwardFrame(s, id);
    EndAwardFrame(Removed(s, record), id);
    var held := !RetryableAward(r);
    var marked := if luck.marks then Attempted(s, record, held) else s;
    EndAwardFrame(marked.(phase := SyncFailed), id);
    EndAwardFrame(Idle(marked), id);
  }

  lemma EndAwardFrame(s: State, id: nat)
    requires id in s.awards
    ensures var after := EndAward(s, id);
      after == s.(awards := s.awards - {id}, bridge := after.bridge, done := after.done)
  {
  }

  lemma MarkedRows(store: Store, id: nat, held: bool)
    ensures Marked(store, id, held).Keys == store.Keys
    ensures forall i :: i in store ==> Marked(store, id, held)[i].unlock == store[i].unlock
  {
  }

  lemma AwardAnsweredKept(s: State, id: nat, r: Response, luck: Luck)
    requires Kept(s) && id in s.awards
    ensures Kept(AwardAnswered(s, id, r, luck))
  {
    hide AwardAnswered, Confirms, RetryableAward, Marked, Kept;
    AwardAnsweredShape(s, id, r, luck);
    MarkedRows(s.store, s.awards[id].record, !RetryableAward(r));
    ShrinkKept(s, AwardAnswered(s, id, r, luck));
  }

  /** The state in which the next captured row is sent. */
  function Advanced(s: State, id: nat): State
    requires id in s.syncs
  {
    var left := |s.captured| - (s.offset + 1);
    Removed(EndSync(s, id), s.syncs[id].record).(offset := s.offset + 1, remaining := if left > 0 then left else 0)
  }

  lemma SyncAnsweredShape(s: State, id: nat, r: Response, luck: Luck)
    requires id in s.syncs
    ensures var sync, after := s.syncs[id], SyncAnswered(s, id, r, luck);
      || (Confirms(r, sync.unlock.achievement) && after == StartNext(Advanced(s, id), luck))
      || (&& after.awards == s.awards && after.syncs == s.syncs - {id} && after.captured == s.captured
          && after.offset == s.offset && after.login == s.login && after.account == s.account
          && (after.store == s.store || after.store == Marked(s.store, sync.record, SyncHeld(r, sync.unlock.achievement))))
  {
    hide Confirms, SyncHeld, Marked, StartNext;
  }

  lemma SyncAnsweredKept(s: State, id: nat, r: Response, luck: Luck)
    requires Kept(s) && id in s.syncs
    ensures Kept(SyncAnswered(s, id, r, luck))
  {
    hide SyncAnswered, Confirms, SyncHeld, Marked, StartNext, Kept, Ahead;
    SyncAnsweredShape(s, id, r, luck);
    SyncingAhead(s, id);
    ShrinkKept(s, Advanced(s, id));
    ShrinkAhead(s, Advanced(s, id));
    StartNextKept(Advanced(s, id), luck);
    MarkedRows(s.store, s.syncs[id].record, SyncHeld(r, s.syncs[id].unlock.achievement));
    if Shrinks(s, SyncAnswered(s, id, r, luck)) {
      ShrinkKept(s, SyncAnswered(s, id, r, luck));
    }
  }

  lemma SyncingAhead(s: State, id: nat)
    requires Kept(s) && id in s.syncs
    ensures Ahead(s)
  {
  }

  lemma {:induction false} RetryBoardsFrame(s: State, now: nat)
    ensures var after := RetryBoards(s, now);
      after == s.(boards := after.boards, retries := after.retries, bridge := after.bridge)
    decreases |s.retries|
  {
    if Due(s, now) != {} {
      RetryBoardsFrame(Unpark(s, Lowest(Due(s, now))), now);
    }
  }

  lemma AnsweredKept(s: State, id: nat, r: Response, now: nat, luck: Luck)
    requires Kept(s)
    ensures Kept(Answered(s, id, r, now, luck))
  {
    hide Kept, AwardAnswered, BoardAnswered, SyncAnswered;
    if id in s.bridge.pending {
      if id in s.awards { AwardAnsweredKept(s, id, r, luck); }
      if id in s.boards {
        BoardAnsweredFrame(s, id, r, now);
        ShrinkKept(s, BoardAnswered(s, id, r, now));
      }
      if id in s.syncs { SyncAnsweredKept(s, id, r, luck); }
      ShrinkKept(s, s.(bridge := Taken(s.bridge, id)));
    }
  }

  // ---- the session ----

  /** The session's own steps leave the store alone, and requests only end; a login then begins a synchronization. */
  lemma AbortLoginShrinks(s: State)
    ensures Shrinks(s, AbortLogin(s)) && AbortLogin(s).store == s.store && AbortLogin(s).syncs == map[]
    ensures AbortLogin(s).awards == s.awards && (AbortLogin(s).account == s.account || AbortLogin(s).account == 0)
  {
    hide InvalidateSync;
    CancelledShrinks(s);
    QuietSync(s);
  }

  /** What a logout and a shutdown do first. */
  ghost function Quieted(s: State): State {
    AbortLogin(CancelSubmissions(InvalidateSync(s)))
  }

  lemma QuietedShape(s: State)
    ensures var quiet := Quieted(s);
      && quiet.awards == map[] && quiet.syncs == map[] && quiet.store == s.store
      && (quiet.account == s.account || quiet.account == 0)
  {
    hide CancelSubmissions, InvalidateSync, AbortLogin;
    QuietSync(s);
    CancelledFrame(InvalidateSync(s));
    AbortLoginShrinks(CancelSubmissions(InvalidateSync(s)));
  }

  lemma LogoutShape(s: State, deletePending: bool, deletesCredentials: bool, cleanup: Cleanup)
    ensures var after := Logout(s, deletePending, deletesCredentials, cleanup);
      && after.awards == map[] && after.syncs == map[]
      && (after.store == s.store || (deletePending && deletesCredentials && after.store == s.store - IdsOf(s.store, s.account)))
  {
    hide CancelSubmissions, Quieted;
    QuietedShape(s);
    assert Quieted(s) == AbortLogin(CancelSubmissions(InvalidateSync(s))) by { QuietedIs(s); }
    CancelledFrame(Quieted(s));
  }

  lemma QuietedIs(s: State)
    ensures Quieted(s) == AbortLogin(CancelSubmissions(InvalidateSync(s)))
  {
  }

  lemma NothingHeldKept(s: State)
    requires s.awards == map[] && s.syncs == map[] && Unique(s.store)
    ensures Kept(s)
  {
  }

  predicate OfSession(a: Action) {
    a.LoadBegins? || a.LoadFinishes? || a.GameUnloads? || a.LoginBegins? || a.ShutsDown?
  }

  lemma SessionShrinks(s: State, a: Action)
    requires OfSession(a)
    ensures Shrinks(s, Acted(s, a)) && Acted(s, a).store == s.store
  {
    hide CancelSubmissions, AbortLogin, Shutdown, Shrinks;
    match a
    case LoginBegins(_, _) => LoginBeginsShrinks(s, a);
    case ShutsDown => ShutdownShrinks(s);
    case _ => LoadShrinks(s, a);
  }

  predicate SameSync(s: State, after: State) {
    && after.syncs == s.syncs && after.captured == s.captured && after.offset == s.offset
    && after.syncGeneration == s.syncGeneration && after.login == s.login && after.account == s.account
  }

  lemma LoadShape(s: State, a: Action)
    requires a.LoadBegins? || a.LoadFinishes? || a.GameUnloads?
    ensures var after := Acted(s, a);
      && SameSync(s, after) && after.store == s.store && (after.awards == map[] || after.awards == s.awards)
  {
    hide CancelSubmissions, MayLoad;
    CancelledFrame(s);
    match a
    case LoadBegins(_, _) =>
    case LoadFinishes(_) =>
    case GameUnloads =>
  }

  lemma LoadShrinks(s: State, a: Action)
    requires a.LoadBegins? || a.LoadFinishes? || a.GameUnloads?
    ensures Shrinks(s, Acted(s, a)) && Acted(s, a).store == s.store
  {
    hide Acted;
    LoadShape(s, a);
  }

  lemma LoginBeginsShrinks(s: State, a: Action)
    requires a.LoginBegins?
    ensures Shrinks(s, Acted(s, a)) && Acted(s, a).store == s.store
  {
    hide AbortLogin;
    AbortLoginShrinks(s);
  }

  lemma ShutdownShrinks(s: State)
    ensures Shrinks(s, Shutdown(s)) && Shutdown(s).store == s.store
  {
    hide Quieted, CancelSubmissions, AbortLogin, InvalidateSync;
    QuietedIs(s);
    QuietedShape(s);
    QuietedShrinks(s);
  }

  lemma QuietedShrinks(s: State)
    ensures Shrinks(s, Quieted(s))
  {
    hide CancelSubmissions, InvalidateSync, AbortLogin;
    CancelledShrinks(s);
    CancelledShrinks(InvalidateSync(s));
    AbortLoginShrinks(CancelSubmissions(InvalidateSync(s)));
    ShrinksTwice(s, InvalidateSync(s), CancelSubmissions(InvalidateSync(s)));
    ShrinksTwice(s, CancelSubmissions(InvalidateSync(s)), Quieted(s));
  }

  lemma ShrinksTwice(s: State, middle: State, after: State)
    requires Shrinks(s, middle) && Shrinks(middle, after)
    ensures Shrinks(s, after)
  {
  }

  lemma LoginEndsKept(s: State, ok: bool, account: Account, recovery: bool, luck: Luck)
    requires Kept(s)
    ensures Kept(LoginEnds(s, ok, account, recovery, luck))
  {
    hide Kept, BeginSync;
    ShrinkKept(s, s.(login := LoginFailed));
    ShrinkKept(s, s.(login := LoggedIn, account := account));
    BeginSyncKept(s.(login := LoggedIn, account := account), recovery, luck);
  }

  lemma LogoutKept(s: State, deletePending: bool, deletesCredentials: bool, cleanup: Cleanup)
    requires Kept(s)
    ensures Kept(Logout(s, deletePending, deletesCredentials, cleanup))
  {
    hide Logout, Faithful;
    LogoutShape(s, deletePending, deletesCredentials, cleanup);
    NothingHeldKept(Logout(s, deletePending, deletesCredentials, cleanup));
  }

  // ---- every run ----

  /** Every award the run enqueues is safe to enqueue where the run enqueues it. */
  ghost predicate SafeAction(s: State, a: Action) {
    a.AwardSubmitted? && Accepts(s, a.intake) ==> SafeEnqueue(s, UnlockOf(s, a.intake))
  }

  ghost predicate SafeRun(s: State, actions: seq<Action>)
    decreases |actions|
  {
    actions == [] || (SafeAction(s, actions[0]) && SafeRun(Acted(s, actions[0]), actions[1..]))
  }

  lemma ActedKept(s: State, a: Action)
    requires Kept(s) && Bridged(s) && SafeAction(s, a)
    ensures Kept(Acted(s, a))
  {
    hide Kept, Bridged, SubmitAward, Answered, RetryBoards, BeginSync, BeginLoad, LoadEnds,
      UnloadGame, BeginLogin, LoginEnds, Logout, Shutdown, SafeEnqueue, Accepts;
    match a
    case AwardSubmitted(intake, stores) => SubmitAwardKept(s, intake, stores);
    case BoardSubmitted(usable) => ShrinkKept(s, Acted(s, a));
    case OtherRequested => ShrinkKept(s, Acted(s, a));
    case ResponseArrives(id, response, now, luck) => AnsweredKept(s, id, response, now, luck);
    case RetryTick(now) =>
      RetryBoardsFrame(s, now);
      ShrinkKept(s, Acted(s, a));
    case SyncBegins(recovery, luck) => BeginSyncKept(s, recovery, luck);
    case LoginFinishes(ok, account, recovery, luck) => LoginEndsKept(s, ok, account, recovery, luck);
    case UserLogsOut(deletePending, deletesCredentials, cleanup) =>
      LogoutKept(s, deletePending, deletesCredentials, cleanup);
    case _ =>
      SessionShrinks(s, a);
      ShrinkKept(s, Acted(s, a));
  }

  // ---- every departure ----

  lemma RemovedHas(store: Store, id: nat, unlock: Unlock)
    requires Has(store, unlock) && !Has(store - {id}, unlock)
    ensures id in store && store[id].unlock == unlock
  {
    var i :| i in store && store[i].unlock == unlock;
    assert i != id ==> i in store - {id};
  }

  lemma MarkedHas(store: Store, id: nat, held: bool, unlock: Unlock)
    requires Has(store, unlock)
    ensures Has(Marked(store, id, held), unlock)
  {
    var i :| i in store && store[i].unlock == unlock;
    assert i in Marked(store, id, held);
  }

  /** A removal on a confirmation is of the row of the unlock confirmed, because the request is still true of it. */
  lemma AwardDeparture(s: State, id: nat, r: Response, luck: Luck, unlock: Unlock)
    requires Kept(s) && id in s.awards
    requires Has(s.store, unlock) && !Has(AwardAnswered(s, id, r, luck).store, unlock)
    ensures s.awards[id].unlock == unlock && Confirms(r, unlock.achievement)
  {
    hide AwardAnswered, Confirms, RetryableAward, Marked, Has, Unique;
    AwardAnsweredShape(s, id, r, luck);
    MarkedHas(s.store, s.awards[id].record, !RetryableAward(r), unlock);
    RemovedHas(s.store, s.awards[id].record, unlock);
    assert Agrees(s.store, s.awards[id].record, s.awards[id].unlock);
  }

  lemma SyncDeparture(s: State, id: nat, r: Response, luck: Luck, unlock: Unlock)
    requires Kept(s) && id in s.syncs
    requires Has(s.store, unlock) && !Has(SyncAnswered(s, id, r, luck).store, unlock)
    ensures s.syncs[id].unlock == unlock && Confirms(r, unlock.achievement)
  {
    hide SyncAnswered, Confirms, SyncHeld, Marked, StartNext, Has, Unique, Ahead;
    SyncAnsweredShape(s, id, r, luck);
    StartNextShape(Advanced(s, id), luck);
    MarkedHas(s.store, s.syncs[id].record, SyncHeld(r, s.syncs[id].unlock.achievement), unlock);
    RemovedHas(s.store, s.syncs[id].record, unlock);
    assert Agrees(s.store, s.syncs[id].record, s.syncs[id].unlock);
  }

  lemma AnsweredDeparture(s: State, id: nat, r: Response, now: nat, luck: Luck, unlock: Unlock)
    requires Kept(s) && Has(s.store, unlock) && !Has(Answered(s, id, r, now, luck).store, unlock)
    ensures IsFor(s, id, unlock) && Confirms(r, unlock.achievement)
  {
    hide Kept, AwardAnswered, BoardAnswered, SyncAnswered, Has, Confirms;
    if id in s.boards { BoardAnsweredFrame(s, id, r, now); }
    if id in s.awards && Answered(s, id, r, now, luck) == AwardAnswered(s, id, r, luck) {
      AwardDeparture(s, id, r, luck, unlock);
    } else if id in s.syncs && Answered(s, id, r, now, luck) == SyncAnswered(s, id, r, luck) {
      SyncDeparture(s, id, r, luck, unlock);
    }
  }

  lemma SubmitKeepsRows(s: State, intake: Intake, stores: bool, unlock: Unlock)
    requires Has(s.store, unlock) && Unique(s.store)
    ensures Has(SubmitAward(s, intake, stores).store, unlock)
  {
    hide Upserted, Unique;
    if Accepts(s, intake) && stores {
      UpsertKeeps(s.store, UnlockOf(s, intake), intake.hash, intake.unlockedAt);
      var i :| i in s.store && s.store[i].unlock == unlock;
      assert i in SubmitAward(s, intake, stores).store;
    }
  }

  lemma BeginSyncStore(s: State, recovery: bool, luck: Luck)
    ensures BeginSync(s, recovery, luck).store == s.store
  {
    hide CancelAwards, InvalidateSync, StartNext, Listing, AnyHeld, Lists;
    CancelAwardsFrame(s);
    QuietSync(CancelAwards(s));
    var quiet := InvalidateSync(CancelAwards(s));
    var entries := Listing(quiet.store, quiet.account);
    StartNextShape(quiet.(captured := entries, remaining := |entries|, phase := SyncPending), luck);
  }

  lemma LogoutDeparture(s: State, deletePending: bool, deletesCredentials: bool, cleanup: Cleanup, unlock: Unlock)
    requires Has(s.store, unlock) && !Has(Logout(s, deletePending, deletesCredentials, cleanup).store, unlock)
    ensures deletePending && deletesCredentials && unlock.account == s.account
  {
    hide Logout;
    LogoutShape(s, deletePending, deletesCredentials, cleanup);
    var i :| i in s.store && s.store[i].unlock == unlock;
    assert i !in Logout(s, deletePending, deletesCredentials, cleanup).store;
    assert i in IdsOf(s.store, s.account);
  }

  lemma StepDeparture(s: State, a: Action, unlock: Unlock)
    requires Kept(s) && Has(s.store, unlock) && !Has(Acted(s, a).store, unlock)
    ensures Justified(s, a, unlock)
  {
    hide Kept, Has, SubmitAward, Answered, RetryBoards, BeginSync, BeginLoad, LoadEnds,
      UnloadGame, BeginLogin, Logout, Shutdown, Confirms, IsFor;
    match a
    case AwardSubmitted(intake, stores) =>
      KeptUnique(s);
      SubmitKeepsRows(s, intake, stores, unlock);
    case BoardSubmitted(usable) =>
    case OtherRequested =>
    case ResponseArrives(id, response, now, luck) => AnsweredDeparture(s, id, response, now, luck, unlock);
    case RetryTick(now) => RetryBoardsFrame(s, now);
    case SyncBegins(recovery, luck) => BeginSyncStore(s, recovery, luck);
    case LoginFinishes(ok, account, recovery, luck) =>
      BeginSyncStore(s.(login := LoggedIn, account := account), recovery, luck);
    case UserLogsOut(deletePending, deletesCredentials, cleanup) =>
      LogoutDeparture(s, deletePending, deletesCredentials, cleanup, unlock);
    case _ => SessionShrinks(s, a);
  }

  lemma KeptUnique(s: State)
    requires Kept(s)
    ensures Unique(s.store)
  {
  }

  lemma StepLosesNothing(s: State, a: Action)
    requires Kept(s)
    ensures !LosesNow(s, a)
  {
    hide Kept, Has, Acted, Justified;
    forall unlock | Has(s.store, unlock) && !Has(Acted(s, a).store, unlock)
      ensures Justified(s, a, unlock)
    {
      StepDeparture(s, a, unlock);
    }
  }

  lemma {:induction false} RunLosesNothing(s: State, actions: seq<Action>)
    requires Kept(s) && Sound(s) && SafeRun(s, actions)
    ensures !Loses(s, actions) && Kept(Ran(s, actions))
    decreases |actions|
  {
    hide Kept, Bridged, Ticketed, LosesNow, SafeAction;
    if actions != [] {
      StepLosesNothing(s, actions[0]);
      ActedSound(s, actions[0]);
      ActedKept(s, actions[0]);
      RunLosesNothing(Acted(s, actions[0]), actions[1..]);
    }
  }

  /**
   * Whenever an unlock leaves the store, the step is a response to a request for this very unlock and the
   * response confirms it, or the user deletes it: in every run that never gives an insert a row id that
   * something under way holds for another unlock.
   */
  lemma UnlocksLeaveOnlyConfirmed(store: Store, actions: seq<Action>)
    requires Unique(store) && SafeRun(Fresh(store), actions)
    ensures !Loses(Fresh(store), actions)
  {
    hide SafeRun, Loses, Ran, Kept;
    FreshIsSound(store);
    NothingHeldKept(Fresh(store));
    RunLosesNothing(Fresh(store), actions);
  }
}

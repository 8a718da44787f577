/**
 * Row ids that are used again. An insert can lose a later unlock exactly when its row id is still held for
 * another one; and that never comes about while every submission is of an unlock not stored already.
 */
module OutboxReuse {
  import opened UnlockStore
  import opened Outbox
  import opened OutboxProofs
  import opened OutboxConfirmed
  import OutboxGate

  // ---- what every run keeps of the requests and the captured rows ----

  /** The captured rows are rows of the account, and none is captured twice. */
  ghost predicate Captures(s: State) {
    && (forall k :: 0 <= k < |s.captured| ==> s.captured[k].row.unlock.account == s.account)
    && (forall i, j :: 0 <= i < j < |s.captured| ==> s.captured[i].id != s.captured[j].id)
  }

  /** The synchronization request under way is for the captured row at the offset. */
  ghost predicate InStep(s: State) {
    && s.offset < |s.captured| && Captures(s)
    && (forall q :: q in s.syncs ==>
      s.syncs[q] == Sync(s.captured[s.offset].id, s.captured[s.offset].row.unlock, s.syncGeneration))
  }

  /** While logged in, every award is of the account. */
  ghost predicate Homed(s: State) {
    s.login == LoggedIn ==> forall q :: q in s.awards ==> s.awards[q].unlock.account == s.account
  }

  ghost predicate Orderly(s: State) {
    Homed(s) && OutboxGate.OneAtATime(s) && (s.syncs != map[] ==> InStep(s))
  }

  ghost predicate FewerAwards(s: State, after: State) {
    forall q :: q in after.awards ==> q in s.awards && after.awards[q] == s.awards[q]
  }

  lemma LessOrderly(s: State, after: State)
    requires Orderly(s) && FewerAwards(s, after)
    requires after.syncs == map[] || SameSync(s, after)
    requires after.login == LoggedIn ==> after.awards == map[] || (s.login == LoggedIn && after.account == s.account)
    ensures Orderly(after)
  {
  }

  lemma StartNextOrderly(s: State, luck: Luck)
    requires Homed(s) && s.syncs == map[] && s.login == LoggedIn && Captures(s)
    ensures Orderly(StartNext(s, luck))
  {
    hide StartNext;
    StartNextShape(s, luck);
  }

  lemma ListingCaptures(s: State)
    requires s.captured == Listing(s.store, s.account)
    ensures Captures(s)
  {
    forall i, j | 0 <= i < j < |s.captured|
      ensures s.captured[i].id != s.captured[j].id
    {
      SortedOrders(s.store, IdsOf(s.store, s.account), i, j);
    }
  }

  lemma BeginSyncOrderly(s: State, recovery: bool, luck: Luck)
    ensures Orderly(BeginSync(s, recovery, luck)) && BeginSync(s, recovery, luck).awards == map[]
  {
    hide CancelAwards, InvalidateSync, StartNext, Listing, AnyHeld, Lists, Captures, InStep;
    CancelAwardsFrame(s);
    QuietSync(CancelAwards(s));
    var quiet := InvalidateSync(CancelAwards(s));
    var entries := Listing(quiet.store, quiet.account);
    var listed := quiet.(captured := entries, remaining := |entries|, phase := SyncPending);
    ListingCaptures(listed);
    StartNextShape(listed, luck);
    if s.login == LoggedIn { StartNextOrderly(listed, luck); }
  }

  lemma AwardAnsweredOrderly(s: State, id: nat, r: Response, luck: Luck)
    requires Orderly(s) && id in s.awards
    ensures Orderly(AwardAnswered(s, id, r, luck))
  {
    hide AwardAnswered, Orderly, Confirms, RetryableAward, Marked;
    AwardAnsweredShape(s, id, r, luck);
    LessOrderly(s, AwardAnswered(s, id, r, luck));
  }

  lemma SyncAnsweredOrderly(s: State, id: nat, r: Response, luck: Luck)
    requires Orderly(s) && id in s.syncs
    ensures Orderly(SyncAnswered(s, id, r, luck))
  {
    hide SyncAnswered, StartNext, Confirms, SyncHeld, Marked, Captures;
    SyncAnsweredShape(s, id, r, luck);
    LastSyncEnds(s, id);
    CapturesReads(s, Advanced(s, id));
    StartNextOrderly(Advanced(s, id), luck);
  }

  lemma LastSyncEnds(s: State, id: nat)
    requires OutboxGate.OneAtATime(s) && id in s.syncs
    ensures Advanced(s, id).syncs == map[] && s.syncs - {id} == map[]
  {
    assert Advanced(s, id).syncs == s.syncs - {id};
    assert (s.syncs - {id}).Keys == {};
  }

  lemma CapturesReads(s: State, after: State)
    requires Captures(s) && after.captured == s.captured && after.account == s.account
    ensures Captures(after)
  {
  }

  lemma AnsweredOrderly(s: State, id: nat, r: Response, now: nat, luck: Luck)
    requires Orderly(s)
    ensures Orderly(Answered(s, id, r, now, luck))
  {
    hide Orderly, AwardAnswered, BoardAnswered, SyncAnswered;
    if id in s.bridge.pending {
      if id in s.awards { AwardAnsweredOrderly(s, id, r, luck); }
      if id in s.boards {
        BoardAnsweredFrame(s, id, r, now);
        SameOrderly(s, BoardAnswered(s, id, r, now));
      }
      if id in s.syncs { SyncAnsweredOrderly(s, id, r, luck); }
      SameOrderly(s, s.(bridge := Taken(s.bridge, id)));
    }
  }

  lemma SameOrderly(s: State, after: State)
    requires Orderly(s) && after.awards == s.awards && SameSync(s, after)
    ensures Orderly(after)
  {
    hide InStep;
    LessOrderly(s, after);
  }

  lemma SubmitAwardOrderly(s: State, intake: Intake, stores: bool)
    requires Orderly(s)
    ensures Orderly(SubmitAward(s, intake, stores))
  {
    hide Upserted;
  }

  lemma SessionOrderly(s: State, a: Action)
    requires Orderly(s) && OfSession(a)
    ensures Orderly(Acted(s, a))
  {
    hide Orderly, Acted;
    SessionShape(s, a);
    LessOrderly(s, Acted(s, a));
  }

  lemma SessionShape(s: State, a: Action)
    requires OfSession(a)
    ensures var after := Acted(s, a);
      && FewerAwards(s, after) && (after.syncs == map[] || SameSync(s, after))
      && (after.login == LoggedIn ==> after.awards == map[] || (s.login == LoggedIn && after.account == s.account))
  {
    hide CancelSubmissions, AbortLogin, BeginLoad, LoadEnds, UnloadGame, Shutdown;
    match a
    case LoginBegins(_, _) => AbortLoginShrinks(s);
    case ShutsDown => ShutdownQuiet(s);
    case _ => LoadShape(s, a);
  }

  lemma ShutdownQuiet(s: State)
    ensures Shutdown(s).awards == map[] && Shutdown(s).syncs == map[]
  {
    hide Quieted, CancelSubmissions, AbortLogin, InvalidateSync;
    QuietedIs(s);
    QuietedShape(s);
  }

  lemma LoginEndsOrderly(s: State, ok: bool, account: Account, recovery: bool, luck: Luck)
    requires Orderly(s)
    ensures Orderly(LoginEnds(s, ok, account, recovery, luck))
  {
    hide BeginSync, InStep;
    BeginSyncOrderly(s.(login := LoggedIn, account := account), recovery, luck);
  }

  lemma LogoutOrderly(s: State, deletePending: bool, deletesCredentials: bool, cleanup: Cleanup)
    ensures Orderly(Logout(s, deletePending, deletesCredentials, cleanup))
  {
    hide Logout;
    LogoutShape(s, deletePending, deletesCredentials, cleanup);
  }

  lemma ActedOrderly(s: State, a: Action)
    requires Orderly(s)
    ensures Orderly(Acted(s, a))
  {
    hide Orderly, SubmitAward, Answered, RetryBoards, BeginSync, BeginLoad, LoadEnds, UnloadGame, BeginLogin, LoginEnds,
      Logout, Shutdown;
    match a
    case AwardSubmitted(intake, stores) => SubmitAwardOrderly(s, intake, stores);
    case BoardSubmitted(_) => SameOrderly(s, Acted(s, a));
    case OtherRequested => SameOrderly(s, Acted(s, a));
    case ResponseArrives(id, response, now, luck) => AnsweredOrderly(s, id, response, now, luck);
    case RetryTick(now) =>
      RetryBoardsFrame(s, now);
      SameOrderly(s, Acted(s, a));
    case SyncBegins(recovery, luck) => BeginSyncOrderly(s, recovery, luck);
    case LoginFinishes(ok, account, recovery, luck) => LoginEndsOrderly(s, ok, account, recovery, luck);
    case UserLogsOut(deletePending, deletesCredentials, cleanup) =>
      LogoutOrderly(s, deletePending, deletesCredentials, cleanup);
    case _ => SessionOrderly(s, a);
  }

  lemma {:induction false} RunsAreOrderly(s: State, actions: seq<Action>)
    requires Orderly(s)
    ensures Orderly(Ran(s, actions))
    decreases |actions|
  {
    hide Orderly;
    if actions != [] {
      ActedOrderly(s, actions[0]);
      RunsAreOrderly(Acted(s, actions[0]), actions[1..]);
    }
  }

  // ---- a held row id has a continuation that loses its new unlock ----

  /** A response that confirms this achievement and no other. */
  function Confirming(achievement: nat): Response {
    Response(200, true, true, true, NoMessage, achievement)
  }

  const ALL_WELL := Luck(true, true, true, true, true)

  function Answering(id: nat, achievement: nat): Action {
    ResponseArrives(id, Confirming(achievement), 0, ALL_WELL)
  }

  predicate NoSubmission(actions: seq<Action>) {
    forall k :: 0 <= k < |actions| ==> !actions[k].AwardSubmitted?
  }

  /** The row of this id is of this unlock. */
  predicate RowIs(s: State, id: nat, unlock: Unlock) {
    id in s.store && s.store[id].unlock == unlock
  }

  lemma RemovalLoses(s: State, a: Action, id: nat, unlock: Unlock)
    requires Unique(s.store) && RowIs(s, id, unlock)
    requires Acted(s, a).store == s.store - {id} && !Justified(s, a, unlock)
    ensures Loses(s, [a])
  {
    hide Acted, Justified;
    assert !Has(s.store - {id}, unlock);
    assert LosesNow(s, a);
  }

  lemma ConfirmedAward(s: State, id: nat)
    requires Sound(s) && id in s.awards && s.awards[id].unlock.account == s.account
    ensures var after := Acted(s, Answering(id, s.awards[id].unlock.achievement));
      after == EndAward(Removed(s, s.awards[id].record), id)
  {
    hide Ticketed, EndAward;
    AwardIsLive(s, id);
  }

  lemma AwardIsLive(s: State, id: nat)
    requires Bridged(s) && id in s.awards
    ensures id in s.bridge.pending && s.bridge.pending[id] == PendingCall(AwardCall(s.awards[id]), s.bridge.generation)
    ensures s.awards[id].generation == s.bridge.generation && id !in s.syncs
  {
  }

  lemma SyncIsLive(s: State, id: nat)
    requires Bridged(s) && id in s.syncs
    ensures id in s.bridge.pending && s.bridge.pending[id] == PendingCall(SyncCall(s.syncs[id]), s.bridge.generation)
    ensures s.syncs[id].generation == s.syncGeneration && id !in s.awards
  {
  }

  lemma HomeHolderLoses(s: State, q: nat, unlock: Unlock)
    requires Sound(s) && Unique(s.store) && q in s.awards && s.awards[q].unlock.account == s.account
    requires RowIs(s, s.awards[q].record, unlock) && s.awards[q].unlock != unlock
    ensures Loses(s, [Answering(q, s.awards[q].unlock.achievement)])
  {
    hide Ticketed, Acted, Bridged, Confirms;
    ConfirmedAward(s, q);
    AwardIsLive(s, q);
    RemovalLoses(s, Answering(q, s.awards[q].unlock.achievement), s.awards[q].record, unlock);
  }

  lemma LosesLater(s: State, a: Action, rest: seq<Action>)
    requires Loses(Acted(s, a), rest)
    ensures Loses(s, [a] + rest)
  {
    hide Acted, LosesNow;
    assert ([a] + rest)[1..] == rest;
  }

  /** A live award that holds another unlock's row id: its own confirmation takes the other unlock. */
  lemma AwardHolderLoses(s: State, q: nat, unlock: Unlock) returns (actions: seq<Action>)
    requires Sound(s) && Unique(s.store) && Orderly(s) && q in s.awards
    requires RowIs(s, s.awards[q].record, unlock) && s.awards[q].unlock != unlock
    ensures NoSubmission(actions) && Loses(s, actions)
  {
    hide Sound, Unique, Acted, Loses, InStep;
    var answer := Answering(q, s.awards[q].unlock.achievement);
    if s.awards[q].unlock.account == s.account {
      HomeHolderLoses(s, q, unlock);
      return [answer];
    }
    var login := LoginBegins(s.awards[q].unlock.account, true);
    ActedSound(s, login);
    LoginKeepsAwards(s, s.awards[q].unlock.account);
    HomeHolderLoses(Acted(s, login), q, unlock);
    LosesLater(s, login, [answer]);
    return [login] + [answer];
  }

  lemma LoginKeepsAwards(s: State, account: Account)
    requires s.login != LoggedIn
    ensures var after := Acted(s, LoginBegins(account, true));
      after.awards == s.awards && after.store == s.store && after.account == account
  {
    hide AbortLogin;
    AbortLoginShrinks(s);
  }

  lemma ConfirmedSync(s: State, id: nat)
    requires Sound(s) && id in s.syncs && s.syncs[id].unlock.account == s.account
    ensures Acted(s, Answering(id, s.syncs[id].unlock.achievement)) == StartNext(Advanced(s, id), ALL_WELL)
  {
    hide Ticketed, StartNext, Advanced, EndSync, Bridged;
    SyncIsLive(s, id);
    ConfirmedAdvances(s, id, Confirming(s.syncs[id].unlock.achievement));
  }

  lemma ConfirmedAdvances(s: State, id: nat, r: Response)
    requires id in s.syncs && s.syncs[id].generation == s.syncGeneration && s.syncs[id].unlock.account == s.account
    requires Confirms(r, s.syncs[id].unlock.achievement)
    ensures SyncAnswered(s, id, r, ALL_WELL) == StartNext(Advanced(s, id), ALL_WELL)
  {
    hide StartNext, Confirms;
  }

  lemma SyncHolderLoses(s: State, q: nat, unlock: Unlock)
    requires Sound(s) && Unique(s.store) && Orderly(s) && q in s.syncs
    requires RowIs(s, s.syncs[q].record, unlock) && s.syncs[q].unlock != unlock
    ensures Loses(s, [Answering(q, s.syncs[q].unlock.achievement)])
  {
    hide Ticketed, Acted, Bridged, Confirms, StartNext, Unique;
    ConfirmedSync(s, q);
    StartNextShape(Advanced(s, q), ALL_WELL);
    SyncIsLive(s, q);
    RemovalLoses(s, Answering(q, s.syncs[q].unlock.achievement), s.syncs[q].record, unlock);
  }

  /** A confirmed synchronization request is followed by the one for the next captured row. */
  lemma NextIsSent(s: State, q: nat)
    requires Sound(s) && Orderly(s) && q in s.syncs && s.offset + 1 < |s.captured|
    ensures var after := Acted(s, Answering(q, s.syncs[q].unlock.achievement));
      && after.syncs != map[] && after.offset == s.offset + 1 && after.captured == s.captured
      && after.store == s.store - {s.captured[s.offset].id}
  {
    hide Sound, Acted, StartNext;
    ConfirmedSync(s, q);
    Sends(Advanced(s, q));
    StartNextShape(Advanced(s, q), ALL_WELL);
  }

  lemma Sends(s: State)
    requires s.offset < |s.captured| && s.captured[s.offset].row.unlock.account == s.account
    ensures StartNext(s, ALL_WELL).syncs != map[]
  {
    var sync := Sync(s.captured[s.offset].id, s.captured[s.offset].row.unlock, s.syncGeneration);
    assert s.bridge.next in s.syncs[s.bridge.next := sync];
  }

  /** A captured row still to be sent: confirming every request up to its own reaches the deletion. */
  lemma {:induction false} CapturedHolderLoses(s: State, k: nat, unlock: Unlock) returns (actions: seq<Action>)
    requires Sound(s) && Unique(s.store) && Orderly(s) && s.syncs != map[] && s.offset <= k < |s.captured|
    requires RowIs(s, s.captured[k].id, unlock) && s.captured[k].row.unlock != unlock
    ensures NoSubmission(actions) && Loses(s, actions)
    decreases k - s.offset
  {
    hide Sound, Acted, Loses;
    var q :| q in s.syncs;
    var answer := Answering(q, s.syncs[q].unlock.achievement);
    if k == s.offset {
      SyncHolderLoses(s, q, unlock);
      return [answer];
    }
    ActedSound(s, answer);
    ActedOrderly(s, answer);
    NextIsSent(s, q);
    var rest := CapturedHolderLoses(Acted(s, answer), k, unlock);
    LosesLater(s, answer, rest);
    return [answer] + rest;
  }

  // ---- exactly when an enqueue can lose an unlock ----

  lemma {:induction false} NoSubmissionIsSafe(s: State, actions: seq<Action>)
    requires NoSubmission(actions)
    ensures SafeRun(s, actions)
    decreases |actions|
  {
    if actions != [] {
      NoSubmissionIsSafe(Acted(s, actions[0]), actions[1..]);
    }
  }

  lemma SafeEnqueueLosesNothing(s: State, intake: Intake, actions: seq<Action>)
    requires Sound(s) && Kept(s) && Accepts(s, intake) && SafeEnqueue(s, UnlockOf(s, intake)) && NoSubmission(actions)
    ensures !Loses(SubmitAward(s, intake, true), actions)
  {
    hide Bridged, Ticketed, Kept, Storable, SafeEnqueue, NoSubmission, SafeRun, Loses, SubmitAward;
    SubmitAwardKept(s, intake, true);
    SubmitAwardSound(s, intake, true);
    NoSubmissionIsSafe(SubmitAward(s, intake, true), actions);
    RunLosesNothing(SubmitAward(s, intake, true), actions);
  }

  /** What an insert leaves: the new row, and everything under way as it was beside the new award. */
  lemma InsertShape(s: State, intake: Intake)
    requires Bridged(s) && Unique(s.store) && Accepts(s, intake) && !Has(s.store, UnlockOf(s, intake))
    ensures var after := SubmitAward(s, intake, true);
      && Unique(after.store) && RowIs(after, NextId(s.store), UnlockOf(s, intake)) && SameSync(s, after)
      && forall q :: q in s.awards ==> q in after.awards && after.awards[q] == s.awards[q]
  {
    hide Has, Unique;
    UpsertKeeps(s.store, UnlockOf(s, intake), intake.hash, intake.unlockedAt);
  }

  lemma UnsafeEnqueueLoses(s: State, intake: Intake) returns (actions: seq<Action>)
    requires Sound(s) && Kept(s) && Orderly(s) && Accepts(s, intake) && !SafeEnqueue(s, UnlockOf(s, intake))
    ensures NoSubmission(actions) && Loses(SubmitAward(s, intake, true), actions)
  {
    hide Bridged, Ticketed, Faithful, Unique, Orderly, Storable, NoSubmission, Loses, SubmitAward;
    var after, id, unlock := SubmitAward(s, intake, true), NextId(s.store), UnlockOf(s, intake);
    InsertShape(s, intake);
    SubmitAwardSound(s, intake, true);
    SubmitAwardOrderly(s, intake, true);
    if q :| q in s.awards && s.awards[q].record == id && s.awards[q].unlock != unlock {
      actions := AwardHolderLoses(after, q, unlock);
    } else if q :| q in s.syncs && s.syncs[q].record == id && s.syncs[q].unlock != unlock {
      SyncHolderLoses(after, q, unlock);
      actions := [Answering(q, s.syncs[q].unlock.achievement)];
      AnsweringOnly(q, s.syncs[q].unlock.achievement);
    } else {
      assert CapturedHolds(s, id, unlock);
      var k :| s.offset <= k < |s.captured| && s.captured[k].id == id && s.captured[k].row.unlock != unlock;
      actions := CapturedHolderLoses(after, k, unlock);
    }
  }

  lemma AnsweringOnly(q: nat, achievement: nat)
    ensures NoSubmission([Answering(q, achievement)])
  {
  }

  /**
   * After an enqueue some run without further submissions deletes an unlock that no request confirmed,
   * exactly when the enqueue gives its unlock a row id held for another one by a live award, a live
   * synchronization request, or a captured row that the synchronization under way is still to send.
   */
  lemma EnqueueLosesExactly(s: State, intake: Intake)
    requires Sound(s) && Kept(s) && Orderly(s) && Accepts(s, intake)
    ensures (exists actions :: NoSubmission(actions) && Loses(SubmitAward(s, intake, true), actions)) <==>
      !SafeEnqueue(s, UnlockOf(s, intake))
  {
    hide Sound, Kept, Orderly, Storable, NoSubmission, Loses, SubmitAward, SafeEnqueue;
    if SafeEnqueue(s, UnlockOf(s, intake)) {
      forall actions | NoSubmission(actions)
        ensures !Loses(SubmitAward(s, intake, true), actions)
      {
        SafeEnqueueLosesNothing(s, intake, actions);
      }
    } else {
      var actions := UnsafeEnqueueLoses(s, intake);
    }
  }

  lemma FreshIsOrderly(store: Store)
    ensures Orderly(Fresh(store))
  {
  }

  /** The states of EnqueueLosesExactly are those of every run that was safe so far. */
  lemma SafeRunsReach(store: Store, actions: seq<Action>)
    requires Unique(store) && SafeRun(Fresh(store), actions)
    ensures var s := Ran(Fresh(store), actions); Sound(s) && Kept(s) && Orderly(s)
  {
    hide Sound, Kept, Orderly, SafeRun, Loses, Ran;
    FreshIsSound(store);
    NothingHeldKept(Fresh(store));
    FreshIsOrderly(store);
    RunLosesNothing(Fresh(store), actions);
    RunsAreSound(Fresh(store), actions);
    RunsAreOrderly(Fresh(store), actions);
  }

  // ---- submissions of unlocks that are not stored are safe ----

  ghost predicate AwardsBacked(s: State) {
    && (forall q :: q in s.awards ==> s.awards[q].record in s.store)
    && (forall p, q :: p in s.awards && q in s.awards && s.awards[p].record == s.awards[q].record ==> p == q)
  }

  ghost predicate CapturedBacked(s: State) {
    forall k :: s.offset <= k < |s.captured| ==>
      s.captured[k].id in s.store && forall q :: q in s.awards ==> s.awards[q].record != s.captured[k].id
  }

  /** Everything under way is for a row still in the store, and no row has two of them. */
  ghost predicate Backed(s: State) {
    AwardsBacked(s) && (s.syncs != map[] ==> CapturedBacked(s))
  }

  lemma BackedIdsAreFree(s: State, unlock: Unlock)
    requires Backed(s) && Orderly(s)
    ensures SafeEnqueue(s, unlock)
  {
  }

  lemma LessBacked(s: State, after: State)
    requires Backed(s) && FewerAwards(s, after) && after.store.Keys == s.store.Keys
    requires after.syncs == map[] || SameSync(s, after)
    ensures Backed(after)
  {
  }

  lemma SubmitAwardBacked(s: State, intake: Intake, stores: bool)
    requires Backed(s) && Bridged(s) && Unique(s.store)
    requires Accepts(s, intake) ==> !Has(s.store, UnlockOf(s, intake))
    ensures Backed(SubmitAward(s, intake, stores))
  {
    hide Has, Unique, Bridged, Storable;
    if Accepts(s, intake) && stores {
      UpsertKeeps(s.store, UnlockOf(s, intake), intake.hash, intake.unlockedAt);
      OutboxGate.NextIsFree(s);
      InsertBacked(s, SubmitAward(s, intake, true), NextId(s.store));
    } else {
      LessBacked(s, Refuse(s));
    }
  }

  lemma InsertBacked(s: State, after: State, id: nat)
    requires Backed(s) && id !in s.store && after.store.Keys == s.store.Keys + {id} && SameSync(s, after)
    requires s.bridge.next !in s.awards && after.awards.Keys == s.awards.Keys + {s.bridge.next}
    requires after.awards[s.bridge.next].record == id
    requires forall q :: q in s.awards ==> after.awards[q] == s.awards[q]
    ensures Backed(after)
  {
  }

  lemma AwardAnsweredBacked(s: State, id: nat, r: Response, luck: Luck)
    requires Backed(s) && id in s.awards
    ensures Backed(AwardAnswered(s, id, r, luck))
  {
    hide AwardAnswered, Confirms, RetryableAward, Marked;
    AwardAnsweredShape(s, id, r, luck);
    MarkedRows(s.store, s.awards[id].record, !RetryableAward(r));
  }

  lemma SyncAnsweredBacked(s: State, id: nat, r: Response, luck: Luck)
    requires Backed(s) && Orderly(s) && id in s.syncs
    ensures Backed(SyncAnswered(s, id, r, luck))
  {
    hide SyncAnswered, StartNext, Confirms, SyncHeld, Marked, CapturedBacked;
    SyncAnsweredShape(s, id, r, luck);
    MarkedRows(s.store, s.syncs[id].record, SyncHeld(r, s.syncs[id].unlock.achievement));
    AdvancedBacked(s, id);
    StartNextBacked(Advanced(s, id), luck);
  }

  lemma AdvancedBacked(s: State, id: nat)
    requires Backed(s) && Orderly(s) && id in s.syncs
    ensures AwardsBacked(Advanced(s, id)) && CapturedBacked(Advanced(s, id))
  {
    assert s.syncs[id].record == s.captured[s.offset].id;
  }

  lemma StartNextBacked(s: State, luck: Luck)
    requires AwardsBacked(s) && CapturedBacked(s)
    ensures Backed(StartNext(s, luck))
  {
    hide StartNext;
    StartNextShape(s, luck);
  }

  lemma BeginSyncBacked(s: State, recovery: bool, luck: Luck)
    ensures Backed(BeginSync(s, recovery, luck))
  {
    hide CancelAwards, InvalidateSync, StartNext, Listing, AnyHeld, Lists;
    BeginSyncOrderly(s, recovery, luck);
    CancelAwardsFrame(s);
    QuietSync(CancelAwards(s));
    var quiet := InvalidateSync(CancelAwards(s));
    var entries := Listing(quiet.store, quiet.account);
    var listed := quiet.(captured := entries, remaining := |entries|, phase := SyncPending);
    ListingBacked(listed);
    StartNextBacked(listed, luck);
  }

  lemma ListingBacked(s: State)
    requires s.awards == map[] && s.captured == Listing(s.store, s.account)
    ensures CapturedBacked(s)
  {
  }

  lemma AnsweredBacked(s: State, id: nat, r: Response, now: nat, luck: Luck)
    requires Backed(s) && Orderly(s)
    ensures Backed(Answered(s, id, r, now, luck))
  {
    hide Orderly, Backed, AwardAnswered, BoardAnswered, SyncAnswered;
    if id in s.bridge.pending {
      if id in s.awards { AwardAnsweredBacked(s, id, r, luck); }
      if id in s.boards {
        BoardAnsweredFrame(s, id, r, now);
        LessBacked(s, BoardAnswered(s, id, r, now));
      }
      if id in s.syncs { SyncAnsweredBacked(s, id, r, luck); }
      LessBacked(s, s.(bridge := Taken(s.bridge, id)));
    }
  }

  lemma NothingHeldBacked(s: State)
    requires s.awards == map[] && s.syncs == map[]
    ensures Backed(s)
  {
  }

  lemma LoginEndsBacked(s: State, ok: bool, account: Account, recovery: bool, luck: Luck)
    requires Backed(s) && Orderly(s)
    ensures Backed(LoginEnds(s, ok, account, recovery, luck))
  {
    hide BeginSync, InStep, Backed;
    BeginSyncBacked(s.(login := LoggedIn, account := account), recovery, luck);
    if s.login == LoginPending { LessBacked(s, s.(login := LoginFailed)); }
  }

  /** The submission is of an unlock that the store does not hold yet. */
  ghost predicate FirstAction(s: State, a: Action) {
    a.AwardSubmitted? && Accepts(s, a.intake) ==> !Has(s.store, UnlockOf(s, a.intake))
  }

  ghost predicate FirstRun(s: State, actions: seq<Action>)
    decreases |actions|
  {
    actions == [] || (FirstAction(s, actions[0]) && FirstRun(Acted(s, actions[0]), actions[1..]))
  }

  lemma ActedBacked(s: State, a: Action)
    requires Backed(s) && Orderly(s) && Bridged(s) && Unique(s.store) && FirstAction(s, a)
    ensures Backed(Acted(s, a))
  {
    hide Orderly, Backed, Bridged, SubmitAward, Answered, RetryBoards, BeginSync, BeginLoad, LoadEnds,
      UnloadGame, BeginLogin, LoginEnds, Logout, Shutdown, Unique, Has, Storable;
    match a
    case AwardSubmitted(intake, stores) => SubmitAwardBacked(s, intake, stores);
    case BoardSubmitted(_) => LessBacked(s, Acted(s, a));
    case OtherRequested => LessBacked(s, Acted(s, a));
    case ResponseArrives(id, response, now, luck) => AnsweredBacked(s, id, response, now, luck);
    case RetryTick(now) =>
      RetryBoardsFrame(s, now);
      LessBacked(s, Acted(s, a));
    case SyncBegins(recovery, luck) => BeginSyncBacked(s, recovery, luck);
    case LoginFinishes(ok, account, recovery, luck) => LoginEndsBacked(s, ok, account, recovery, luck);
    case UserLogsOut(deletePending, deletesCredentials, cleanup) =>
      LogoutShape(s, deletePending, deletesCredentials, cleanup);
      NothingHeldBacked(Acted(s, a));
    case _ => SessionBacked(s, a);
  }

  lemma SessionBacked(s: State, a: Action)
    requires Backed(s) && OfSession(a)
    ensures Backed(Acted(s, a))
  {
    hide Backed, Acted;
    SessionShape(s, a);
    SessionShrinks(s, a);
    LessBacked(s, Acted(s, a));
  }

  lemma {:induction false} FirstRunIsSafe(s: State, actions: seq<Action>)
    requires Backed(s) && Orderly(s) && Sound(s) && Kept(s) && FirstRun(s, actions)
    ensures SafeRun(s, actions)
    decreases |actions|
  {
    hide Backed, Orderly, Bridged, Ticketed, Kept, SafeEnqueue, Has, Storable;
    if actions != [] {
      var a := actions[0];
      KeptUnique(s);
      if a.AwardSubmitted? && Accepts(s, a.intake) { BackedIdsAreFree(s, UnlockOf(s, a.intake)); }
      ActedBacked(s, a);
      ActedOrderly(s, a);
      ActedSound(s, a);
      ActedKept(s, a);
      FirstRunIsSafe(Acted(s, a), actions[1..]);
    }
  }

  /** A run that submits no unlock while the store still holds it loses none. */
  lemma FirstSubmissionsLoseNothing(store: Store, actions: seq<Action>)
    requires Unique(store) && FirstRun(Fresh(store), actions)
    ensures !Loses(Fresh(store), actions)
  {
    hide Loses, SafeRun, FirstRun, Kept, Sound, Orderly;
    FreshIsSound(store);
    FreshIsOrderly(store);
    NothingHeldKept(Fresh(store));
    NothingHeldBacked(Fresh(store));
    FirstRunIsSafe(Fresh(store), actions);
    UnlocksLeaveOnlyConfirmed(store, actions);
  }

  // ---- a run that loses an unlock ----

  function Enqueueing(achievement: nat): Action {
    AwardSubmitted(Usable(achievement, false, 1, 1), true)
  }

  /** The store holds this unlock alone, under row id 1; or nothing. */
  predicate HoldsOnly(store: Store, unlock: Unlock) {
    store.Keys == {1} && store[1].unlock == unlock
  }

  lemma EnqueueAlone(s: State, achievement: nat)
    requires s.account != 0 && 0 < achievement <= UINT32_MAX
    requires s.store == map[] || HoldsOnly(s.store, Unlock(s.account, achievement, false))
    ensures var unlock, after := Unlock(s.account, achievement, false), Acted(s, Enqueueing(achievement));
      && HoldsOnly(after.store, unlock) && after.account == s.account && after.bridge.next == s.bridge.next + 1
      && after.awards == s.awards[s.bridge.next := Award(1, unlock, s.bridge.generation, s.issued)]
      && after.bridge.generation == s.bridge.generation
  {
    var unlock := Unlock(s.account, achievement, false);
    if s.store == map[] {
      assert s.store.Keys == {};
      assert !Has(s.store, unlock) && NextId(s.store) == 1;
    } else {
      assert Has(s.store, unlock) by { assert 1 in s.store; }
      assert IdOf(s.store, unlock) in s.store.Keys;
    }
  }

  lemma ConfirmAlone(s: State, id: nat)
    requires Sound(s) && id in s.awards && s.awards[id].record == 1 && s.awards[id].unlock.account == s.account
    requires HoldsOnly(s.store, s.awards[id].unlock)
    ensures var after := Acted(s, Answering(id, s.awards[id].unlock.achievement));
      && after.store == map[] && after.awards == s.awards - {id} && after.account == s.account
      && after.bridge.next == s.bridge.next && after.bridge.generation == s.bridge.generation
  {
    hide Sound, Acted;
    ConfirmedAward(s, id);
    assert (s.store - {1}).Keys == {};
  }

  /** The run of ReusedIdLosesAnUnlock. */
  function ReusingRun(next: nat): seq<Action> {
    [Enqueueing(5)] + ([Enqueueing(5)] + ([Answering(next, 5)] + ([Enqueueing(6)] + [Answering(next + 1, 5)])))
  }

  /**
   * A run outside the hypothesis: one achievement enqueued twice under one row id, the first copy confirmed,
   * another achievement enqueued under the freed id, and the second copy's confirmation deletes it.
   */
  lemma ReusedIdLosesAnUnlock(s: State)
    requires Sound(s) && s.store == map[] && s.account != 0
    ensures Loses(s, ReusingRun(s.bridge.next))
  {
    hide Acted, Sound, Loses;
    var n := s.bridge.next;
    EnqueueAlone(s, 5);
    var a := Acted(s, Enqueueing(5));
    ActedSound(s, Enqueueing(5));
    EnqueueAlone(a, 5);
    var b := Acted(a, Enqueueing(5));
    ActedSound(a, Enqueueing(5));
    ConfirmAlone(b, n);
    var c := Acted(b, Answering(n, 5));
    ActedSound(b, Answering(n, 5));
    EnqueueAlone(c, 6);
    var d := Acted(c, Enqueueing(6));
    ActedSound(c, Enqueueing(6));
    HomeHolderLoses(d, n + 1, Unlock(s.account, 6, false));
    LosesLater(c, Enqueueing(6), [Answering(n + 1, 5)]);
    LosesLater(b, Answering(n, 5), [Enqueueing(6)] + [Answering(n + 1, 5)]);
    LosesLater(a, Enqueueing(5), [Answering(n, 5)] + ([Enqueueing(6)] + [Answering(n + 1, 5)]));
    LosesLater(s, Enqueueing(5), [Enqueueing(5)] + ([Answering(n, 5)] + ([Enqueueing(6)] + [Answering(n + 1, 5)])));
  }
}

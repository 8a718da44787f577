/**
 * What each answer does: which responses confirm, which are tried again and which need the user, and what becomes of
 * the row, the request and the callback.
 */
module OutboxAnswers {
  import opened Extremes
  import opened UnlockStore
  import opened Outbox
  import opened OutboxProofs
  import opened OutboxConfirmed
  import opened OutboxReuse

  // ---- kinds of responses ----

  const CLIENT_ERROR := -1

  /** rcheevos's own rule for what to submit again, from the HTTP status and whether there is a body. */
  predicate ShouldRetry(status: int, hasBody: bool) {
    if status == 502 || status == 503 || status == 504 then true
    else if status == 429 then true
    else if 521 <= status <= 525 then true
    else if status == -2 then true
    else if status == CLIENT_ERROR then false
    else !hasBody
  }

  /** The service retries what rcheevos would retry, and beyond that a leaderboard entry that got no body at all. */
  lemma RetriesAsRcheevosDoes(r: Response)
    ensures r.hasBody ==> (RetryableStatus(r) <==> ShouldRetry(r.status, true))
    ensures RetryableBoard(r) <==> ShouldRetry(r.status, r.hasBody) || (r.status == CLIENT_ERROR && !r.hasBody)
  {
  }

  datatype Kind = Confirmed | Kept | Held

  function AwardKind(r: Response, achievement: nat): Kind {
    if Confirms(r, achievement) then Confirmed else if RetryableAward(r) then Kept else Held
  }

  function SyncKind(r: Response, achievement: nat): Kind {
    if Confirms(r, achievement) then Confirmed else if SyncHeld(r, achievement) then Held else Kept
  }

  /** A response confirms one achievement only, unless it says that the user has it already. */
  lemma ConfirmsOne(r: Response, a: nat, b: nat)
    ensures Confirms(r, a) && Confirms(r, b) ==> a == b || r.message.AlreadyHas?
    ensures Confirms(r, a) ==> 200 <= r.status <= 299 && r.ok && r.succeeded
    ensures 200 <= r.status <= 299 && r.ok && r.succeeded && r.message.AlreadyHas? ==> Confirms(r, a)
    ensures 200 <= r.status <= 299 && r.ok && r.succeeded ==> Confirms(r, r.awarded)
  {
  }

  /** An unreadable answer without a message, or one that rcheevos would retry, keeps an unconfirmed award. */
  lemma KeptExactly(r: Response, achievement: nat)
    requires r.hasBody && !Confirms(r, achievement)
    ensures AwardKind(r, achievement) == Kept <==> ShouldRetry(r.status, true) || (!r.ok && r.message == NoMessage)
  {
    RetriesAsRcheevosDoes(r);
  }

  /**
   * The two callbacks judge an answer alike, but for two kinds: a readable success that does not confirm, under a
   * status to retry, is held by synchronization only; a readable refusal without a message, under a status not to
   * retry, is held by the award only.
   */
  lemma KindsDifferExactly(r: Response, achievement: nat)
    ensures AwardKind(r, achievement) != SyncKind(r, achievement) <==>
      && !Confirms(r, achievement) && r.ok
      && (if r.succeeded then RetryableStatus(r) else r.message == NoMessage && !RetryableStatus(r))
    ensures AwardKind(r, achievement) == Confirmed <==> SyncKind(r, achievement) == Confirmed
    ensures AwardKind(r, achievement) != SyncKind(r, achievement) ==>
      (SyncKind(r, achievement) == Held <==> r.succeeded)
  {
  }

  /** Some answers of the server. */
  lemma SomeKinds()
    ensures AwardKind(Response(200, true, true, true, NoMessage, 5), 5) == Confirmed
    ensures AwardKind(Response(200, true, true, true, AlreadyHas, 0), 5) == Confirmed
    ensures AwardKind(Response(200, true, true, true, NoMessage, 6), 5) == Held
    ensures AwardKind(Response(403, true, false, false, OtherMessage, 0), 5) == Held
    ensures AwardKind(Response(503, true, false, false, OtherMessage, 0), 5) == Kept
    ensures AwardKind(Response(-2, false, false, false, NoMessage, 0), 5) == Kept
    ensures AwardKind(Response(500, true, false, false, NoMessage, 0), 5) == Kept
    ensures SyncKind(Response(403, true, false, false, OtherMessage, 0), 5) == Held
    ensures SyncKind(Response(503, true, false, false, OtherMessage, 0), 5) == Kept
  {
  }

  // ---- an award answered ----

  /** Every other row is as it was. */
  ghost predicate OtherRows(s: State, after: State, id: nat) {
    && after.store.Keys - {id} == s.store.Keys - {id}
    && forall i :: i in s.store && i != id ==> i in after.store && after.store[i] == s.store[i]
  }

  function Answer(id: nat, r: Response, luck: Luck): Action {
    ResponseArrives(id, r, 0, luck)
  }

  /**
   * An award of the session that is answered has its callback invoked and is gone. Confirmed, its row goes; kept, the
   * row counts one attempt and waits; held, it needs the user and synchronization fails. No other row changes.
   */
  lemma AwardAnsweredExactly(s: State, id: nat, r: Response, luck: Luck)
    requires Sound(s) && id in s.awards && s.awards[id].unlock.account == s.account
    requires s.awards[id].record in s.store && luck.removes && luck.marks
    ensures var award, after := s.awards[id], Acted(s, Answer(id, r, luck));
      && after.awards == s.awards - {id} && after.done == s.done + [award.ticket] && id !in after.bridge.pending
      && after.syncs == s.syncs && after.boards == s.boards && after.retries == s.retries && OtherRows(s, after, award.record)
      && match AwardKind(r, award.unlock.achievement)
         case Confirmed => award.record !in after.store && after.phase == s.phase && after.remaining == s.remaining
         case Kept => after.phase == SyncIdle && after.remaining == 0 && RowMarked(s, after, award.record, false)
         case Held => after.phase == SyncFailed && RowMarked(s, after, award.record, true)
  {
    hide Sound, Acted, Confirms, RetryableAward;
    AwardIsEnded(s, id, r, luck);
  }

  /** The row has one attempt more, and needs the user or not. */
  predicate RowMarked(s: State, after: State, id: nat, held: bool)
    requires id in s.store
  {
    id in after.store && after.store[id] == s.store[id].(held := held, attempts := s.store[id].attempts + 1)
  }

  lemma AwardIsEnded(s: State, id: nat, r: Response, luck: Luck)
    requires Sound(s) && id in s.awards && s.awards[id].unlock.account == s.account
    requires s.awards[id].record in s.store && luck.removes && luck.marks
    ensures var award := s.awards[id];
      var row := s.store[award.record];
      Acted(s, Answer(id, r, luck)) == EndAward(
        match AwardKind(r, award.unlock.achievement)
        case Confirmed => s.(store := s.store - {award.record})
        case Kept => s.(store := s.store[award.record := row.(held := false, attempts := row.attempts + 1)],
          phase := SyncIdle, remaining := 0)
        case Held => s.(store := s.store[award.record := row.(held := true, attempts := row.attempts + 1)],
          phase := SyncFailed), id)
  {
    hide Ticketed, Confirms, RetryableAward, Bridged, EndAward;
    AwardIsLive(s, id);
    AwardIsAnswered(s, id, r, luck);
  }

  lemma AwardIsAnswered(s: State, id: nat, r: Response, luck: Luck)
    requires id in s.awards && s.awards[id].unlock.account == s.account
    requires s.awards[id].generation == s.bridge.generation
    requires s.awards[id].record in s.store && luck.removes && luck.marks
    ensures var award := s.awards[id];
      var row := s.store[award.record];
      AwardAnswered(s, id, r, luck) == EndAward(
        match AwardKind(r, award.unlock.achievement)
        case Confirmed => s.(store := s.store - {award.record})
        case Kept => s.(store := s.store[award.record := row.(held := false, attempts := row.attempts + 1)],
          phase := SyncIdle, remaining := 0)
        case Held => s.(store := s.store[award.record := row.(held := true, attempts := row.attempts + 1)],
          phase := SyncFailed), id)
  {
    hide Confirms, RetryableAward, EndAward;
  }

  /** An award of another account is only called back. */
  lemma ForeignAwardExactly(s: State, id: nat, r: Response, luck: Luck)
    requires Sound(s) && id in s.awards && s.awards[id].unlock.account != s.account
    ensures var after := Acted(s, Answer(id, r, luck));
      && after.store == s.store && after.awards == s.awards - {id} && after.done == s.done + [s.awards[id].ticket]
      && after.phase == s.phase
  {
    hide Ticketed, Confirms, RetryableAward, Bridged;
    AwardIsLive(s, id);
  }

  // ---- a synchronization request answered ----

  /** An answer that does not confirm stops the batch: nothing more is sent, and a held row fails it. */
  lemma SyncStopsExactly(s: State, id: nat, r: Response, luck: Luck)
    requires Sound(s) && id in s.syncs && s.syncs[id].unlock.account == s.account
    requires s.syncs[id].record in s.store && luck.marks
    requires SyncKind(r, s.syncs[id].unlock.achievement) != Confirmed
    ensures var sync, after := s.syncs[id], Acted(s, Answer(id, r, luck));
      && after.syncs == s.syncs - {id} && after.bridge.next == s.bridge.next && id !in after.bridge.pending
      && after.awards == s.awards && after.done == s.done && OtherRows(s, after, sync.record)
      && sync.record in after.store
      && (var row := s.store[sync.record];
          if SyncKind(r, sync.unlock.achievement) == Held then
            after.phase == SyncFailed && after.store[sync.record] == row.(held := true, attempts := row.attempts + 1)
          else
            && after.phase == SyncIdle && after.remaining == 0
            && after.store[sync.record] == row.(held := false, attempts := row.attempts + 1))
  {
    hide Ticketed, Confirms, SyncHeld, Bridged, StartNext;
    SyncIsLive(s, id);
  }

  // ---- submissions ----

  /**
   * An accepted submission is stored, and then a request of its own is live with its callback owed; any other is
   * called back at once and leaves nothing.
   */
  lemma AwardSubmittedExactly(s: State, intake: Intake, stores: bool)
    requires Sound(s) && Unique(s.store)
    ensures var after := Acted(s, AwardSubmitted(intake, stores));
      && after.issued == s.issued + 1 && after.boards == s.boards && after.syncs == s.syncs && after.phase == s.phase
      && (if Accepts(s, intake) && stores then
            && after.done == s.done && after.bridge.next == s.bridge.next + 1
            && after.awards.Keys == s.awards.Keys + {s.bridge.next}
            && (var award := after.awards[s.bridge.next];
                && award.unlock == UnlockOf(s, intake) && award.ticket == s.issued
                && award.record in after.store && after.store[award.record].unlock == award.unlock
                && (award.record in s.store <==> Has(s.store, award.unlock))
                && OtherRows(s, after, award.record))
          else
            after.done == s.done + [s.issued] && after.store == s.store && after.awards == s.awards && after.bridge == s.bridge)
  {
    hide Ticketed, Bridged, Storable, Unique, Has;
    if Accepts(s, intake) && stores {
      UpsertKeeps(s.store, UnlockOf(s, intake), intake.hash, intake.unlockedAt);
      UpsertsOneRow(s.store, UnlockOf(s, intake), intake.hash, intake.unlockedAt);
    }
  }

  lemma UpsertsOneRow(store: Store, unlock: Unlock, hash: nat, unlockedAt: int)
    requires Unique(store)
    ensures var (after, id) := Upserted(store, unlock, hash, unlockedAt);
      && id in after && after.Keys == store.Keys + {id} && (forall i :: i in store && i != id ==> after[i] == store[i])
      && after[id].hash == hash
      && (if id in store then
            && after[id].held == store[id].held && after[id].attempts == store[id].attempts
            && after[id].unlockedAt <= store[id].unlockedAt && after[id].unlockedAt <= unlockedAt
            && (after[id].unlockedAt == store[id].unlockedAt || after[id].unlockedAt == unlockedAt)
          else !after[id].held && after[id].attempts == 0 && after[id].unlockedAt == unlockedAt)
  {
  }

  /** A row of a store: what the table takes needs an account, an achievement of 32 bits, a hash and a time. */
  lemma RefusedRecords(unlock: Unlock, hash: nat, unlockedAt: int)
    ensures unlock.account == 0 || unlock.achievement == 0 || unlock.achievement >= 0x1_0000_0000 || hash == 0 || unlockedAt <= 0
      <==> !Storable(unlock, hash, unlockedAt)
  {
  }

  /** A usable leaderboard submission of a known account is sent as a first attempt. */
  lemma BoardIsSent(s: State)
    requires s.account != 0
    ensures var after := Acted(s, BoardSubmitted(true));
      && after.issued == s.issued + 1 && after.store == s.store && after.awards == s.awards && after.retries == s.retries
      && after.done == s.done && after.bridge.next == s.bridge.next + 1
      && after.boards == s.boards[s.bridge.next := Board(s.account, s.bridge.generation, s.issued, 0, 0)]
  {
  }

  /** Any other is called back at once. */
  lemma BoardIsRefused(s: State, usable: bool)
    requires !usable || s.account == 0
    ensures var after := Acted(s, BoardSubmitted(usable));
      after == s.(issued := s.issued + 1, done := s.done + [s.issued])
  {
  }

  // ---- leaderboard entries ----

  /**
   * A leaderboard entry of the session that is answered is called back unless the answer is to be retried. The first
   * retry is sent at once, every later one is parked until its delay has passed, and each is counted.
   */
  lemma BoardAnsweredExactly(s: State, id: nat, r: Response, now: nat, luck: Luck)
    requires Sound(s) && id in s.boards && s.boards[id].account == s.account
    ensures var board, after := s.boards[id], Acted(s, ResponseArrives(id, r, now, luck));
      var again := board.(retries := board.retries + 1);
      if !RetryableBoard(r) then after == EndBoard(s, id)
      else if board.retries == 0 then after == StartBoard(TakenBoard(s, id), again)
      else after == Park(TakenBoard(s, id), again.(retryAt := now + RetryDelay(again.retries)))
  {
    hide Ticketed, RetryableBoard, Bridged, RetryDelay, EndBoard, StartBoard, TakenBoard, Park, BoardAnswered;
    BoardIsLive(s, id);
    BoardIsAnswered(s, id, r, now);
  }

  lemma BoardIsAnswered(s: State, id: nat, r: Response, now: nat)
    requires id in s.boards && s.boards[id].account == s.account && s.boards[id].generation == s.bridge.generation
    ensures var board, after := s.boards[id], BoardAnswered(s, id, r, now);
      var again := board.(retries := board.retries + 1);
      if !RetryableBoard(r) then after == EndBoard(s, id)
      else if board.retries == 0 then after == StartBoard(TakenBoard(s, id), again)
      else after == Park(TakenBoard(s, id), again.(retryAt := now + RetryDelay(again.retries)))
  {
    hide RetryableBoard, RetryDelay, EndBoard, StartBoard;
    RetryDelaysGrow(s.boards[id].retries + 1, s.boards[id].retries + 1);
  }

  /** The three outcomes: called back and gone, sent again under the next id, or parked under its ticket. */
  lemma BoardOutcomes(s: State, id: nat, board: Board)
    requires Bridged(s) && id in s.boards
    ensures var ended := EndBoard(s, id);
      ended.done == s.done + [s.boards[id].ticket] && ended.boards == s.boards - {id} && ended.retries == s.retries
      && id !in ended.bridge.pending && ended.bridge.next == s.bridge.next && ended.store == s.store
    ensures var sent := StartBoard(TakenBoard(s, id), board);
      sent.done == s.done && sent.boards == (s.boards - {id})[s.bridge.next := board] && sent.retries == s.retries
      && id !in sent.bridge.pending && sent.bridge.next == s.bridge.next + 1 && sent.store == s.store
    ensures var parked := Park(TakenBoard(s, id), board);
      parked.done == s.done && parked.boards == s.boards - {id} && parked.retries == s.retries[board.ticket := board]
      && id !in parked.bridge.pending && parked.bridge.next == s.bridge.next && parked.store == s.store
  {
    hide AwardsLive, SyncsLive, Tracked;
  }

  lemma BoardIsLive(s: State, id: nat)
    requires Bridged(s) && id in s.boards
    ensures id in s.bridge.pending && s.bridge.pending[id] == PendingCall(BoardCall(s.boards[id]), s.bridge.generation)
    ensures s.boards[id].generation == s.bridge.generation && id < s.bridge.next
  {
    hide Tracked;
  }

  /** Each delay after the first two is double the one before, from one second up to a minute and four seconds. */
  lemma DelaysDouble(n: nat)
    ensures RetryDelay(2) == 1000 && RetryDelay(8) == 64000
    ensures 2 <= n < 8 ==> RetryDelay(n + 1) == 2 * RetryDelay(n)
    ensures n > 8 ==> RetryDelay(n) == 120000
  {
    assert Power(6) == 64;
    if 2 <= n < 8 { assert Power(n - 1) == 2 * Power(n - 2); }
  }

  // ---- due retries ----

  /** Parked entries whose time has not come stay parked as they are. */
  ghost predicate OnlyDueGone(s: State, after: State, now: nat) {
    forall t :: t in after.retries <==> t in s.retries && now < s.retries[t].retryAt
  }

  ghost predicate IsLive(s: State, board: Board) {
    exists id :: id in s.boards && s.boards[id] == board
  }

  lemma UnparkOne(s: State, ticket: Ticket)
    requires Bridged(s) && ticket in s.retries
    ensures var after := Unpark(s, ticket);
      && after.retries == s.retries - {ticket} && IsLive(after, s.retries[ticket])
      && (forall id :: id in s.boards ==> id in after.boards && after.boards[id] == s.boards[id])
      && after.bridge.next == s.bridge.next + 1 && after.done == s.done && after.store == s.store
  {
    var next := s.bridge.next;
    NextIsNoBoard(s);
    assert Unpark(s, ticket).boards[next] == s.retries[ticket];
  }

  lemma NextIsNoBoard(s: State)
    requires Bridged(s)
    ensures s.bridge.next !in s.boards
  {
    hide Tracked;
  }

  lemma {:induction false} DueAreSent(s: State, now: nat)
    requires Sound(s)
    ensures var after := RetryBoards(s, now);
      && OnlyDueGone(s, after, now) && (forall t :: t in after.retries ==> after.retries[t] == s.retries[t])
      && (forall id :: id in s.boards ==> id in after.boards && after.boards[id] == s.boards[id])
      && (forall t :: t in s.retries && s.retries[t].retryAt <= now ==> IsLive(after, s.retries[t]))
      && after.bridge.next == s.bridge.next + |Due(s, now)| && after.done == s.done && after.store == s.store
    decreases |s.retries|
  {
    hide Bridged, Ticketed, IsLive;
    if Due(s, now) != {} {
      var ticket := Lowest(Due(s, now));
      var next := Unpark(s, ticket);
      UnparkOne(s, ticket);
      UnparkSound(s, ticket);
      DueShrinks(s, next, ticket, now);
      DueAreSent(next, now);
      forall board | IsLive(next, board) ensures IsLive(RetryBoards(next, now), board) {
        StaysLive(next, RetryBoards(next, now), board);
      }
      assert RetryBoards(s, now) == RetryBoards(next, now);
      forall t | t in s.retries && s.retries[t].retryAt <= now
        ensures IsLive(RetryBoards(s, now), s.retries[t])
      {
        assert t != ticket ==> t in next.retries && next.retries[t] == s.retries[t];
      }
    } else {
      forall t | t in s.retries ensures now < s.retries[t].retryAt {
        assert t !in Due(s, now);
      }
    }
  }

  lemma StaysLive(s: State, after: State, board: Board)
    requires IsLive(s, board) && forall id :: id in s.boards ==> id in after.boards && after.boards[id] == s.boards[id]
    ensures IsLive(after, board)
  {
  }

  lemma DueShrinks(s: State, next: State, ticket: Ticket, now: nat)
    requires ticket in Due(s, now) && next.retries == s.retries - {ticket}
    ensures Due(next, now) == Due(s, now) - {ticket}
  {
  }

  /** A tick sends every parked entry whose time has come, once, and leaves the others parked. */
  lemma RetryTickExactly(s: State, now: nat)
    requires Sound(s)
    ensures var after := Acted(s, RetryTick(now));
      && OnlyDueGone(s, after, now) && (forall t :: t in after.retries ==> after.retries[t] == s.retries[t])
      && (forall id :: id in s.boards ==> id in after.boards && after.boards[id] == s.boards[id])
      && (forall t :: t in s.retries && s.retries[t].retryAt <= now ==> IsLive(after, s.retries[t]))
      && after.bridge.next == s.bridge.next + |Due(s, now)| && after.done == s.done && after.store == s.store
  {
    hide Sound, IsLive;
    DueAreSent(s, now);
  }

  // ---- the session ----

  /** A load that succeeds leaves every request alone; one that fails calls them all back, but for synchronization. */
  lemma LoadFinishesExactly(s: State, ok: bool)
    requires s.loading
    ensures var after := Acted(s, LoadFinishes(ok));
      && !after.loading && after.store == s.store && after.syncs == s.syncs && after.login == s.login
      && (if ok then after.awards == s.awards && after.boards == s.boards && after.retries == s.retries && after.done == s.done
          else after.awards == map[] && after.boards == map[] && after.retries == map[])
  {
    hide CancelSubmissions;
    CancelledFrame(s);
  }

  /**
   * A load starts exactly when the user is logged in, the outbox was found empty, nothing of it is under way, and no
   * load is. It outdates every response still to come, and ends the leaderboard submissions.
   */
  lemma LoadBeginsExactly(s: State, ready: bool, validHash: bool)
    ensures var after := Acted(s, LoadBegins(ready, validHash));
      if ready && validHash && s.login == LoggedIn && s.phase == SyncSucceeded && s.remaining == 0
        && s.syncs == map[] && s.awards == map[] && !s.loading
      then after.loading && after.bridge.generation == s.bridge.generation + 1
        && after.boards == map[] && after.retries == map[] && after.store == s.store && after.login == s.login
      else after == s
  {
    hide CancelSubmissions;
    CancelledFrame(s);
  }

  /** Nothing but a logout ends a login; a new attempt replaces a pending one. */
  lemma LoginBeginsExactly(s: State, account: Account, hasCredentials: bool)
    ensures var after := Acted(s, LoginBegins(account, hasCredentials));
      if s.login == LoggedIn then after == s
      else
        && after.store == s.store && after.awards == s.awards && after.syncs == map[] && after.phase == SyncIdle
        && (if hasCredentials then after.login == LoginPending && after.account == account
            else after.login == LoggedOut && after.account == 0)
  {
    hide AbortLogin;
    AbortLoginShrinks(s);
    AbortIdles(s);
  }

  lemma AbortIdles(s: State)
    ensures AbortLogin(s).phase == SyncIdle
    ensures AbortLogin(s).login == (if s.login == LoginPending then LoggedOut else s.login)
    ensures AbortLogin(s).account == (if s.login == LoginPending then 0 else s.account)
  {
  }

  /** A login that succeeds takes its account and begins the synchronization; one that fails begins nothing. */
  lemma LoginFinishesExactly(s: State, ok: bool, account: Account, recovery: bool, luck: Luck)
    ensures var after := Acted(s, LoginFinishes(ok, account, recovery, luck));
      if s.login != LoginPending then after == s
      else if ok then
        after == Acted(s.(login := LoggedIn, account := account), SyncBegins(recovery, luck)) && after.login == LoggedIn
        && after.account == account && after.store == s.store
      else after == s.(login := LoginFailed)
  {
    hide BeginSync;
    BeginSyncStore(s.(login := LoggedIn, account := account), recovery, luck);
    SyncKeepsLogin(s.(login := LoggedIn, account := account), recovery, luck);
  }

  lemma SyncKeepsLogin(s: State, recovery: bool, luck: Luck)
    ensures BeginSync(s, recovery, luck).login == s.login && BeginSync(s, recovery, luck).account == s.account
  {
    hide CancelAwards, InvalidateSync, StartNext, Listing, AnyHeld, Lists;
    CancelAwardsFrame(s);
    QuietSync(CancelAwards(s));
    var quiet := InvalidateSync(CancelAwards(s));
    var entries := Listing(quiet.store, quiet.account);
    StartNextShape(quiet.(captured := entries, remaining := |entries|, phase := SyncPending), luck);
  }

  /**
   * A logout ends everything under way first. The account's rows go exactly when the user asked for it, the credentials
   * could be deleted and the rows too; the user is logged out exactly when all that was asked for was done.
   */
  lemma LogoutExactly(s: State, deletePending: bool, deletesCredentials: bool, cleanup: Cleanup)
    requires s.account != 0 && s.login != LoginPending
    ensures var after := Acted(s, UserLogsOut(deletePending, deletesCredentials, cleanup));
      && after.awards == map[] && after.boards == map[] && after.retries == map[] && after.syncs == map[] && !after.loading
      && after.store == (if deletesCredentials && deletePending && !cleanup.NothingDeleted?
                         then s.store - IdsOf(s.store, s.account) else s.store)
      && (after.login == LoggedOut <==> deletesCredentials && (deletePending ==> cleanup.RecoveryConfirmed?))
      && (after.login != LoggedOut ==> after.login == LoginFailed && after.account == s.account)
      && (after.login == LoggedOut ==> after.account == 0)
  {
    hide CancelSubmissions, InvalidateSync, AbortLogin;
    QuietSync(s);
    CancelledFrame(InvalidateSync(s));
    var quiet := CancelSubmissions(InvalidateSync(s));
    AbortLoginShrinks(quiet);
    AbortIdles(quiet);
    CancelledFrame(AbortLogin(quiet));
  }

  /** After a shutdown the bridge has no entry, so no late response can reach anything. */
  lemma ShutdownDeafens(s: State, id: nat, r: Response, now: nat, luck: Luck)
    ensures var after := Acted(s, ShutsDown);
      after.bridge.pending == map[] && Acted(after, ResponseArrives(id, r, now, luck)) == after
  {
    hide CancelSubmissions, InvalidateSync, AbortLogin;
  }

  /** A new attempt or the end of the session outdates whatever a synchronization under way still expects. */
  lemma SyncGenerationsAdvance(s: State, recovery: bool, luck: Luck)
    ensures Acted(s, SyncBegins(recovery, luck)).syncGeneration == s.syncGeneration + 1
  {
    hide CancelAwards, StartNext, Listing, AnyHeld, Lists, EndSyncs;
    CancelAwardsFrame(s);
    var quiet := InvalidateSync(CancelAwards(s));
    var entries := Listing(quiet.store, quiet.account);
    StartNextShape(quiet.(captured := entries, remaining := |entries|, phase := SyncPending), luck);
  }
}

/**
 * The durable unlock outbox: award and leaderboard submissions, the HTTP bridge that carries them, the
 * stop-and-wait synchronization of stored unlocks, and everything that cancels them, as steps of a state.
 * The server may answer any request, in any order, any number of times.
 */
module Outbox {
  import opened Extremes
  import opened UnlockStore

  /** The callback of one submission of rcheevos. */
  type Ticket = nat

  datatype Login = LoggedOut | LoginPending | LoggedIn | LoginFailed

  datatype Phase = SyncIdle | SyncPending | SyncSucceeded | SyncFailed

  // ---- what a response says ----

  datatype Message = NoMessage | AlreadyHas | OtherMessage

  /** status is the HTTP status; ok, succeeded, message and awarded are what rcheevos reads from the body. */
  datatype Response = Response(status: int, hasBody: bool, ok: bool, succeeded: bool, message: Message, awarded: nat)

  const RETRYABLE_CLIENT_ERROR := -2

  predicate RetryableStatus(r: Response) {
    r.status in {429, 502, 503, 504, 521, 522, 523, 524, 525, RETRYABLE_CLIENT_ERROR}
  }

  /** A 2xx success that names this achievement, or says the user already has it. */
  predicate Confirms(r: Response, achievement: nat) {
    200 <= r.status < 300 && r.ok && r.succeeded && (r.message.AlreadyHas? || r.awarded == achievement)
  }

  predicate RetryableAward(r: Response) {
    RetryableStatus(r) || (r.message.NoMessage? && !r.ok)
  }

  /** Whether an unconfirmed answer to a synchronization request needs the user. */
  predicate SyncHeld(r: Response, achievement: nat) {
    if r.ok && r.succeeded && !Confirms(r, achievement) then true
    else !r.message.NoMessage? && !RetryableStatus(r)
  }

  predicate RetryableBoard(r: Response) {
    RetryableStatus(r) || !r.hasBody
  }

  /** LeaderboardRetryDelayMillis. */
  function RetryDelay(retries: nat): nat {
    if retries <= 1 then 0 else 1000 * (if retries > 8 then 120 else Power(retries - 2))
  }

  function Power(n: nat): nat {
    if n == 0 then 1 else 2 * Power(n - 1)
  }

  // ---- requests under way ----

  datatype Award = Award(record: nat, unlock: Unlock, generation: nat, ticket: Ticket)

  datatype Board = Board(account: Account, generation: nat, ticket: Ticket, retries: nat, retryAt: nat)

  datatype Sync = Sync(record: nat, unlock: Unlock, generation: nat)

  datatype Call = AwardCall(award: Award) | BoardCall(board: Board) | SyncCall(sync: Sync) | OtherCall

  datatype PendingCall = PendingCall(call: Call, generation: nat)

  datatype Bridge = Bridge(pending: map<nat, PendingCall>, next: nat, generation: nat)

  /**
   * issued and done record the run: the submissions made, and the callbacks invoked in order.
   */
  datatype State = State(
    login: Login, account: Account, loading: bool, store: Store, bridge: Bridge,
    awards: map<nat, Award>, boards: map<nat, Board>, retries: map<Ticket, Board>,
    syncs: map<nat, Sync>, syncGeneration: nat, phase: Phase, remaining: nat, captured: seq<Entry>, offset: nat,
    issued: nat, done: seq<Ticket>)

  /** The outcomes of store calls and of the request builder, chosen freely for each step. */
  datatype Luck = Luck(lists: bool, removes: bool, marks: bool, hasUser: bool, builds: bool)

  // ---- the bridge ----

  function Sent(b: Bridge, call: Call): Bridge {
    b.(pending := b.pending[b.next := PendingCall(call, b.generation)], next := b.next + 1)
  }

  /** A response takes its entry away; so does Abandon. */
  function Taken(b: Bridge, id: nat): Bridge {
    b.(pending := b.pending - {id})
  }

  // ---- the store ----

  function Removed(s: State, id: nat): State {
    s.(store := s.store - {id})
  }

  function RemovedAll(s: State, account: Account): State {
    s.(store := s.store - IdsOf(s.store, account))
  }

  function Attempted(s: State, id: nat, held: bool): State {
    s.(store := Marked(s.store, id, held))
  }

  // ---- the end of a request ----

  function EndAward(s: State, id: nat): State
    requires id in s.awards
  {
    s.(awards := s.awards - {id}, bridge := Taken(s.bridge, id), done := s.done + [s.awards[id].ticket])
  }

  function EndBoard(s: State, id: nat): State
    requires id in s.boards
  {
    s.(boards := s.boards - {id}, bridge := Taken(s.bridge, id), done := s.done + [s.boards[id].ticket])
  }

  function EndRetry(s: State, ticket: Ticket): State
    requires ticket in s.retries
  {
    s.(retries := s.retries - {ticket}, done := s.done + [s.retries[ticket].ticket])
  }

  function EndSync(s: State, id: nat): State {
    s.(syncs := s.syncs - {id}, bridge := Taken(s.bridge, id))
  }

  function Idle(s: State): State {
    s.(phase := SyncIdle, remaining := 0)
  }

  // ---- cancellation ----

  ghost function EndAwards(s: State): (after: State)
    ensures after == s.(awards := map[], bridge := s.bridge.(pending := after.bridge.pending), done := after.done)
    decreases |s.awards|
  {
    if s.awards == map[] then s else EndAwards(EndAward(s, Lowest(s.awards.Keys)))
  }

  ghost function EndBoards(s: State): (after: State)
    ensures after == s.(boards := map[], bridge := s.bridge.(pending := after.bridge.pending), done := after.done)
    decreases |s.boards|
  {
    if s.boards == map[] then s else EndBoards(EndBoard(s, Lowest(s.boards.Keys)))
  }

  ghost function EndRetries(s: State): (after: State)
    ensures after == s.(retries := map[], done := after.done)
    decreases |s.retries|
  {
    if s.retries == map[] then s else EndRetries(EndRetry(s, Lowest(s.retries.Keys)))
  }

  ghost function EndSyncs(s: State): (after: State)
    ensures after == s.(syncs := map[], bridge := s.bridge.(pending := after.bridge.pending))
    decreases |s.syncs|
  {
    if s.syncs == map[] then s else EndSyncs(EndSync(s, Lowest(s.syncs.Keys)))
  }

  ghost function CancelAwards(s: State): State {
    if s.awards != map[] && s.login == LoggedIn then Idle(EndAwards(s)) else EndAwards(s)
  }

  ghost function CancelBoards(s: State): State {
    EndRetries(EndBoards(s))
  }

  ghost function CancelSubmissions(s: State): State {
    CancelBoards(CancelAwards(s))
  }

  ghost function InvalidateSync(s: State): State {
    Idle(EndSyncs(s)).(syncGeneration := s.syncGeneration + 1, captured := [], offset := 0)
  }

  // ---- submissions ----

  datatype Intake = Unusable | Usable(achievement: nat, hardcore: bool, hash: nat, unlockedAt: int)

  function Refuse(s: State): State {
    s.(issued := s.issued + 1, done := s.done + [s.issued])
  }

  function UnlockOf(s: State, intake: Intake): Unlock
    requires intake.Usable?
  {
    Unlock(s.account, intake.achievement, intake.hardcore)
  }

  /** What the interception and the table take; the rest is refused. */
  predicate Accepts(s: State, intake: Intake) {
    intake.Usable? && Storable(UnlockOf(s, intake), intake.hash, intake.unlockedAt)
  }

  ghost function SubmitAward(s: State, intake: Intake, stores: bool): State {
    if !Accepts(s, intake) || !stores then Refuse(s)
    else
      var unlock := UnlockOf(s, intake);
      var (store, record) := Upserted(s.store, unlock, intake.hash, intake.unlockedAt);
      var award := Award(record, unlock, s.bridge.generation, s.issued);
      s.(store := store, issued := s.issued + 1,
         bridge := Sent(s.bridge, AwardCall(award)), awards := s.awards[s.bridge.next := award])
  }

  function StartBoard(s: State, board: Board): State {
    s.(bridge := Sent(s.bridge, BoardCall(board)), boards := s.boards[s.bridge.next := board])
  }

  function SubmitBoard(s: State, usable: bool): State {
    if !usable || s.account == 0 then Refuse(s)
    else StartBoard(s.(issued := s.issued + 1), Board(s.account, s.bridge.generation, s.issued, 0, 0))
  }

  function Unpark(s: State, ticket: Ticket): State
    requires ticket in s.retries
  {
    StartBoard(s.(retries := s.retries - {ticket}), s.retries[ticket])
  }

  function Due(s: State, now: nat): set<Ticket> {
    set ticket | ticket in s.retries && s.retries[ticket].retryAt <= now
  }

  ghost function RetryBoards(s: State, now: nat): (after: State)
    ensures Due(after, now) == {}
    decreases |s.retries|
  {
    if Due(s, now) == {} then s else RetryBoards(Unpark(s, Lowest(Due(s, now))), now)
  }

  // ---- synchronization ----

  predicate AnyHeld(entries: seq<Entry>) {
    exists k :: 0 <= k < |entries| && entries[k].row.held
  }

  /** Whether the account's rows can be listed now. */
  predicate Lists(s: State, luck: Luck) {
    luck.lists && CanList(s.store, s.account)
  }

  /** StartNextPendingUnlock. */
  ghost function StartNext(s: State, luck: Luck): State {
    if s.offset >= |s.captured| then
      if !Lists(s, luck) then s.(phase := SyncFailed, remaining := 0)
      else
        var entries := Listing(s.store, s.account);
        s.(remaining := |entries|,
           phase := if AnyHeld(entries) then SyncFailed else if entries == [] then SyncSucceeded else SyncIdle)
    else
      var entry := s.captured[s.offset];
      if !luck.hasUser || entry.row.unlock.account != s.account || !luck.builds then s.(phase := SyncFailed)
      else
        var sync := Sync(entry.id, entry.row.unlock, s.syncGeneration);
        s.(bridge := Sent(s.bridge, SyncCall(sync)), syncs := s.syncs[s.bridge.next := sync])
  }

  /** BeginPendingUnlockSync. */
  ghost function BeginSync(s: State, recovery: bool, luck: Luck): State {
    var quiet := InvalidateSync(CancelAwards(s));
    if s.login != LoggedIn || recovery || !Lists(quiet, luck) then quiet.(phase := SyncFailed)
    else
      var entries := Listing(quiet.store, quiet.account);
      var listed := quiet.(captured := entries, remaining := |entries|);
      if entries == [] then listed.(phase := SyncSucceeded)
      else if AnyHeld(entries) then listed.(phase := SyncFailed)
      else StartNext(listed.(phase := SyncPending), luck)
  }

  // ---- answers ----

  /** PendingAwardCallback. */
  function AwardAnswered(s: State, id: nat, r: Response, luck: Luck): State
    requires id in s.awards
  {
    var award := s.awards[id];
    if award.generation != s.bridge.generation || award.unlock.account != s.account then EndAward(s, id)
    else if Confirms(r, award.unlock.achievement) then
      EndAward(if luck.removes then Removed(s, award.record) else s, id)
    else
      var held := !RetryableAward(r);
      var marked := if luck.marks then Attempted(s, award.record, held) else s;
      EndAward(if held then marked.(phase := SyncFailed) else Idle(marked), id)
  }

  /** PendingLeaderboardCallback. */
  function BoardAnswered(s: State, id: nat, r: Response, now: nat): State
    requires id in s.boards
  {
    var board := s.boards[id];
    if board.generation != s.bridge.generation || board.account != s.account || !RetryableBoard(r) then
      EndBoard(s, id)
    else
      var taken := s.(boards := s.boards - {id}, bridge := Taken(s.bridge, id));
      var again := board.(retries := board.retries + 1);
      if RetryDelay(again.retries) == 0 then StartBoard(taken, again)
      else taken.(retries := taken.retries[board.ticket := again.(retryAt := now + RetryDelay(again.retries))])
  }

  /** PendingSyncCallback. */
  ghost function SyncAnswered(s: State, id: nat, r: Response, luck: Luck): State
    requires id in s.syncs
  {
    var sync := s.syncs[id];
    var taken := EndSync(s, id);
    if sync.generation != s.syncGeneration || sync.unlock.account != s.account then taken
    else if Confirms(r, sync.unlock.achievement) && luck.removes then
      var left := |s.captured| - (s.offset + 1);
      StartNext(Removed(taken, sync.record).(
        offset := s.offset + 1, remaining := if left > 0 then left else 0), luck)
    else
      var held := SyncHeld(r, sync.unlock.achievement);
      if luck.marks && !held then Idle(Attempted(taken, sync.record, held))
      else (if luck.marks then Attempted(taken, sync.record, held) else taken).(phase := SyncFailed)
  }

  /** One response of DrainCompleted: unknown ids are ignored, and entries of an old generation dropped. */
  ghost function Answered(s: State, id: nat, r: Response, now: nat, luck: Luck): State {
    if id !in s.bridge.pending then s
    else
      var entry := s.bridge.pending[id];
      if entry.generation != s.bridge.generation then s.(bridge := Taken(s.bridge, id))
      else match entry.call
        case AwardCall(_) => if id in s.awards then AwardAnswered(s, id, r, luck) else s
        case BoardCall(_) => if id in s.boards then BoardAnswered(s, id, r, now) else s
        case SyncCall(_) => if id in s.syncs then SyncAnswered(s, id, r, luck) else s
        case OtherCall => s.(bridge := Taken(s.bridge, id))
  }

  // ---- the session around it ----

  predicate MayLoad(s: State) {
    && s.login == LoggedIn && s.phase == SyncSucceeded && s.remaining == 0
    && s.syncs == map[] && s.awards == map[] && !s.loading
  }

  /** BeginLoadGameByHash. */
  ghost function BeginLoad(s: State, ready: bool, validHash: bool): State {
    if !ready || !validHash || !MayLoad(s) then s
    else
      var quiet := CancelSubmissions(s);
      quiet.(bridge := quiet.bridge.(generation := quiet.bridge.generation + 1), loading := true)
  }

  /** The end of a load; a failed one disables the game session. */
  ghost function LoadEnds(s: State, ok: bool): State {
    if !s.loading then s
    else if ok then s.(loading := false)
    else CancelSubmissions(s).(loading := false)
  }

  ghost function UnloadGame(s: State): State {
    CancelSubmissions(s).(loading := false)
  }

  ghost function AbortLogin(s: State): State {
    var quiet := InvalidateSync(s);
    if s.login == LoginPending then quiet.(login := LoggedOut, account := 0) else quiet
  }

  ghost function BeginLogin(s: State, account: Account, hasCredentials: bool): State {
    if s.login == LoggedIn then s
    else if !hasCredentials then AbortLogin(s).(login := LoggedOut, account := 0)
    else AbortLogin(s).(login := LoginPending, account := account)
  }

  ghost function LoginEnds(s: State, ok: bool, account: Account, recovery: bool, luck: Luck): State {
    if s.login != LoginPending then s
    else if !ok then s.(login := LoginFailed)
    else BeginSync(s.(login := LoggedIn, account := account), recovery, luck)
  }

  /** cleanup says how far the deletion of the rows gets: they are deleted before the recovery is confirmed. */
  datatype Cleanup = NothingDeleted | RowsDeleted | RecoveryConfirmed

  ghost function Logout(s: State, deletePending: bool, deletesCredentials: bool, cleanup: Cleanup): State {
    var quiet := UnloadGame(AbortLogin(CancelSubmissions(InvalidateSync(s))));
    if !deletesCredentials then quiet.(login := LoginFailed)
    else if !deletePending then quiet.(login := LoggedOut, account := 0)
    else if quiet.account == 0 || cleanup.NothingDeleted? then quiet.(login := LoginFailed)
    else if cleanup.RowsDeleted? then RemovedAll(quiet, quiet.account).(login := LoginFailed)
    else RemovedAll(quiet, quiet.account).(login := LoggedOut, account := 0)
  }

  ghost function Shutdown(s: State): State {
    var quiet := AbortLogin(CancelSubmissions(InvalidateSync(s)));
    quiet.(bridge := quiet.bridge.(pending := map[]))
  }

  // ---- runs ----

  datatype Action =
    | AwardSubmitted(intake: Intake, stores: bool)
    | BoardSubmitted(usable: bool)
    | OtherRequested
    | ResponseArrives(id: nat, response: Response, now: nat, luck: Luck)
    | RetryTick(now: nat)
    | SyncBegins(recovery: bool, luck: Luck)
    | LoadBegins(ready: bool, validHash: bool)
    | LoadFinishes(ok: bool)
    | GameUnloads
    | LoginBegins(account: Account, hasCredentials: bool)
    | LoginFinishes(ok: bool, account: Account, recovery: bool, luck: Luck)
    | UserLogsOut(deletePending: bool, deletesCredentials: bool, cleanup: Cleanup)
    | ShutsDown

  ghost function Acted(s: State, a: Action): State {
    match a
    case AwardSubmitted(intake, stores) => SubmitAward(s, intake, stores)
    case BoardSubmitted(usable) => SubmitBoard(s, usable)
    case OtherRequested => s.(bridge := Sent(s.bridge, OtherCall))
    case ResponseArrives(id, response, now, luck) => Answered(s, id, response, now, luck)
    case RetryTick(now) => RetryBoards(s, now)
    case SyncBegins(recovery, luck) => BeginSync(s, recovery, luck)
    case LoadBegins(ready, validHash) => BeginLoad(s, ready, validHash)
    case LoadFinishes(ok) => LoadEnds(s, ok)
    case GameUnloads => UnloadGame(s)
    case LoginBegins(account, hasCredentials) => BeginLogin(s, account, hasCredentials)
    case LoginFinishes(ok, account, recovery, luck) => LoginEnds(s, ok, account, recovery, luck)
    case UserLogsOut(deletePending, deletesCredentials, cleanup) =>
      Logout(s, deletePending, deletesCredentials, cleanup)
    case ShutsDown => Shutdown(s)
  }

  ghost function Ran(s: State, actions: seq<Action>): State
    decreases |actions|
  {
    if actions == [] then s else Ran(Acted(s, actions[0]), actions[1..])
  }

  /** A service just made, over whatever an earlier session left in the store. */
  function Fresh(store: Store): State {
    State(LoggedOut, 0, false, store, Bridge(map[], 1, 0), map[], map[], map[], map[], 0, SyncIdle, 0, [], 0,
          0, [])
  }
}

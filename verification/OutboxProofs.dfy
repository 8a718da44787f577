/** What every run of the outbox keeps, whatever is submitted, answered or cancelled and in whatever order. */
module OutboxProofs {
  import opened Extremes
  import opened UnlockStore
  import opened Outbox

  // ---- every tracked request has a live entry in the bridge, and the other way round ----

  ghost predicate Bridged(s: State) {
    && (forall id :: id in s.bridge.pending ==> id < s.bridge.next)
    && AwardsLive(s) && BoardsLive(s) && SyncsLive(s) && Tracked(s)
    && (forall t :: t in s.retries ==> s.retries[t].generation == s.bridge.generation)
  }

  ghost predicate AwardsLive(s: State) {
    forall id :: id in s.awards ==>
      && s.awards[id].generation == s.bridge.generation && id in s.bridge.pending
      && s.bridge.pending[id] == PendingCall(AwardCall(s.awards[id]), s.bridge.generation)
  }

  ghost predicate BoardsLive(s: State) {
    forall id :: id in s.boards ==>
      && s.boards[id].generation == s.bridge.generation && id in s.bridge.pending
      && s.bridge.pending[id] == PendingCall(BoardCall(s.boards[id]), s.bridge.generation)
  }

  ghost predicate SyncsLive(s: State) {
    forall id :: id in s.syncs ==>
      && s.syncs[id].generation == s.syncGeneration && id in s.bridge.pending
      && s.bridge.pending[id] == PendingCall(SyncCall(s.syncs[id]), s.bridge.generation)
  }

  ghost predicate Tracked(s: State) {
    && (forall id :: id in s.bridge.pending && s.bridge.pending[id].call.AwardCall? ==> id in s.awards)
    && (forall id :: id in s.bridge.pending && s.bridge.pending[id].call.BoardCall? ==> id in s.boards)
    && (forall id :: id in s.bridge.pending && s.bridge.pending[id].call.SyncCall? ==> id in s.syncs)
  }

  /** Taking one entry out of the bridge together with the request that it carries, if it is tracked. */
  predicate TakesOut(s: State, after: State, id: nat) {
    && after.bridge == Taken(s.bridge, id) && after.retries == s.retries && after.syncGeneration == s.syncGeneration
    && after.awards == s.awards - {id} && after.boards == s.boards - {id} && after.syncs == s.syncs - {id}
  }

  lemma TakenOutLive(s: State, after: State, id: nat)
    requires Bridged(s) && TakesOut(s, after, id)
    ensures AwardsLive(after) && BoardsLive(after) && SyncsLive(after)
  {
    hide Tracked;
  }

  lemma TakenOutTracked(s: State, after: State, id: nat)
    requires Tracked(s) && TakesOut(s, after, id)
    ensures Tracked(after)
  {
  }

  lemma TakenOutBridged(s: State, after: State, id: nat)
    requires Bridged(s) && TakesOut(s, after, id)
    ensures Bridged(after)
  {
    hide Tracked, AwardsLive, BoardsLive, SyncsLive;
    TakenOutLive(s, after, id);
    TakenOutTracked(s, after, id);
  }

  /** One request id is in at most one of the maps. */
  lemma OneMapEach(s: State, id: nat)
    requires Bridged(s)
    ensures id in s.awards ==> id !in s.boards && id !in s.syncs
    ensures id in s.boards ==> id !in s.awards && id !in s.syncs
    ensures id in s.syncs ==> id !in s.awards && id !in s.boards
  {
    hide Tracked;
  }

  lemma NotThere<T>(m: map<nat, T>, id: nat)
    requires id !in m
    ensures m - {id} == m
  {
  }

  // ---- every submission's callback is owed by one request, or was invoked once ----

  ghost predicate AwardOwes(s: State, t: Ticket) {
    exists id :: id in s.awards && s.awards[id].ticket == t
  }

  ghost predicate BoardOwes(s: State, t: Ticket) {
    exists id :: id in s.boards && s.boards[id].ticket == t
  }

  ghost predicate Owed(s: State, t: Ticket) {
    AwardOwes(s, t) || BoardOwes(s, t) || t in s.retries
  }

  ghost predicate Distinct(s: State) {
    && (forall i, j :: i in s.awards && j in s.awards && s.awards[i].ticket == s.awards[j].ticket ==> i == j)
    && (forall i, j :: i in s.boards && j in s.boards && s.boards[i].ticket == s.boards[j].ticket ==> i == j)
    && (forall t :: t in s.retries ==> s.retries[t].ticket == t)
    && (forall i, j :: i in s.awards && j in s.boards ==> s.awards[i].ticket != s.boards[j].ticket)
    && (forall i :: i in s.awards ==> s.awards[i].ticket !in s.retries)
    && (forall i :: i in s.boards ==> s.boards[i].ticket !in s.retries)
  }

  ghost predicate NoneTwice(done: seq<Ticket>) {
    forall i, j :: 0 <= i < j < |done| ==> done[i] != done[j]
  }

  /** A ticket is either owed or done, never both, and done at most once. */
  ghost predicate Ticketed(s: State) {
    && Distinct(s) && NoneTwice(s.done)
    && (forall t: Ticket :: t in s.done ==> t < s.issued && !Owed(s, t))
    && (forall t: Ticket :: Owed(s, t) ==> t < s.issued)
    && (forall t: Ticket :: t < s.issued ==> t in s.done || Owed(s, t))
  }

  ghost predicate Sound(s: State) {
    Bridged(s) && Ticketed(s)
  }

  // How the book of tickets changes: one is done, none moves out, or a new one comes.

  lemma TicketDone(s: State, after: State, ticket: Ticket)
    requires Ticketed(s) && Distinct(after) && Owed(s, ticket)
    requires after.issued == s.issued && after.done == s.done + [ticket]
    requires forall t: Ticket :: Owed(after, t) <==> Owed(s, t) && t != ticket
    ensures Ticketed(after)
  {
    hide Owed, Distinct;
    assert ticket !in s.done;
    forall t: Ticket | t < after.issued
      ensures t in after.done || Owed(after, t)
    {
      if t == ticket { assert after.done[|s.done|] == t; }
    }
  }

  lemma TicketsMoved(s: State, after: State)
    requires Ticketed(s) && Distinct(after)
    requires after.issued == s.issued && after.done == s.done
    requires forall t: Ticket :: Owed(after, t) <==> Owed(s, t)
    ensures Ticketed(after)
  {
    hide Owed, Distinct;
  }

  lemma TicketIssued(s: State, after: State)
    requires Ticketed(s) && Distinct(after)
    requires after.issued == s.issued + 1 && after.done == s.done
    requires forall t: Ticket :: Owed(after, t) <==> Owed(s, t) || t == s.issued
    ensures Ticketed(after)
  {
    hide Owed, Distinct;
  }

  lemma TicketRefused(s: State)
    requires Ticketed(s)
    ensures Ticketed(Refuse(s))
  {
    var after := Refuse(s);
    forall t: Ticket ensures Owed(after, t) <==> Owed(s, t) {
      assert AwardOwes(after, t) <==> AwardOwes(s, t);
      assert BoardOwes(after, t) <==> BoardOwes(s, t);
    }
    RefusedBook(s, after);
  }

  lemma RefusedBook(s: State, after: State)
    requires Ticketed(s) && Distinct(after)
    requires after.issued == s.issued + 1 && after.done == s.done + [s.issued]
    requires forall t: Ticket :: Owed(after, t) <==> Owed(s, t)
    ensures Ticketed(after)
  {
    hide Owed, Distinct;
    assert s.issued !in s.done && !Owed(s, s.issued);
    forall t: Ticket | t < after.issued
      ensures t in after.done || Owed(after, t)
    {
      if t == s.issued { assert after.done[|s.done|] == t; }
    }
  }

  // ---- what each small step keeps ----

  lemma EndedAwardOwes(s: State, id: nat, t: Ticket)
    requires Distinct(s) && id in s.awards
    ensures Owed(EndAward(s, id), t) <==> Owed(s, t) && t != s.awards[id].ticket
  {
    var after := EndAward(s, id);
    if AwardOwes(s, t) && t != s.awards[id].ticket {
      var i :| i in s.awards && s.awards[i].ticket == t;
      assert i in after.awards;
    }
  }

  lemma EndAwardBridged(s: State, id: nat)
    requires Bridged(s) && id in s.awards
    ensures Bridged(EndAward(s, id))
  {
    hide Bridged;
    OneMapEach(s, id);
    NotThere(s.boards, id);
    NotThere(s.syncs, id);
    TakenOutBridged(s, EndAward(s, id), id);
  }

  lemma EndAwardDistinct(s: State, id: nat)
    requires Distinct(s) && id in s.awards
    ensures Distinct(EndAward(s, id)) && Owed(s, s.awards[id].ticket)
  {
    assert AwardOwes(s, s.awards[id].ticket);
  }

  lemma EndAwardSound(s: State, id: nat)
    requires Sound(s) && id in s.awards
    ensures Sound(EndAward(s, id))
  {
    hide Bridged, Distinct, Owed, Ticketed;
    TicketedDistinct(s);
    EndAwardBridged(s, id);
    EndAwardDistinct(s, id);
    forall t: Ticket ensures Owed(EndAward(s, id), t) <==> Owed(s, t) && t != s.awards[id].ticket {
      EndedAwardOwes(s, id, t);
    }
    TicketDone(s, EndAward(s, id), s.awards[id].ticket);
  }

  lemma EndedBoardOwes(s: State, id: nat, t: Ticket)
    requires Distinct(s) && id in s.boards
    ensures Owed(EndBoard(s, id), t) <==> Owed(s, t) && t != s.boards[id].ticket
  {
    var after := EndBoard(s, id);
    if BoardOwes(s, t) && t != s.boards[id].ticket {
      var i :| i in s.boards && s.boards[i].ticket == t;
      assert i in after.boards;
    }
  }

  lemma EndBoardBridged(s: State, id: nat)
    requires Bridged(s) && id in s.boards
    ensures Bridged(EndBoard(s, id))
  {
    hide Bridged;
    OneMapEach(s, id);
    NotThere(s.awards, id);
    NotThere(s.syncs, id);
    TakenOutBridged(s, EndBoard(s, id), id);
  }

  lemma EndBoardDistinct(s: State, id: nat)
    requires Distinct(s) && id in s.boards
    ensures Distinct(EndBoard(s, id)) && Owed(s, s.boards[id].ticket)
  {
    assert BoardOwes(s, s.boards[id].ticket);
  }

  lemma EndBoardSound(s: State, id: nat)
    requires Sound(s) && id in s.boards
    ensures Sound(EndBoard(s, id))
  {
    hide Bridged, Distinct, Owed, Ticketed;
    TicketedDistinct(s);
    EndBoardBridged(s, id);
    EndBoardDistinct(s, id);
    forall t: Ticket ensures Owed(EndBoard(s, id), t) <==> Owed(s, t) && t != s.boards[id].ticket {
      EndedBoardOwes(s, id, t);
    }
    TicketDone(s, EndBoard(s, id), s.boards[id].ticket);
  }

  lemma EndRetrySound(s: State, ticket: Ticket)
    requires Sound(s) && ticket in s.retries
    ensures Sound(EndRetry(s, ticket))
  {
    var after := EndRetry(s, ticket);
    assert Bridged(after) && Distinct(after);
    forall t: Ticket ensures Owed(after, t) <==> Owed(s, t) && t != ticket {
      assert AwardOwes(after, t) <==> AwardOwes(s, t);
      assert BoardOwes(after, t) <==> BoardOwes(s, t);
      NotBoth(s, ticket);
    }
    TicketDone(s, after, ticket);
  }

  lemma NotBoth(s: State, ticket: Ticket)
    requires Distinct(s) && ticket in s.retries
    ensures !AwardOwes(s, ticket) && !BoardOwes(s, ticket)
  {
  }

  /** Steps that touch neither the submissions nor their tickets. */
  predicate SameBook(s: State, after: State) {
    && after.awards == s.awards && after.boards == s.boards && after.retries == s.retries
    && after.issued == s.issued && after.done == s.done
  }

  lemma SameBookTicketed(s: State, after: State)
    requires Ticketed(s) && SameBook(s, after)
    ensures Ticketed(after)
  {
    forall t: Ticket ensures Owed(after, t) <==> Owed(s, t) {
      assert AwardOwes(after, t) <==> AwardOwes(s, t);
      assert BoardOwes(after, t) <==> BoardOwes(s, t);
    }
    TicketsMoved(s, after);
  }

  lemma EndSyncSound(s: State, id: nat)
    requires Sound(s) && id in s.syncs
    ensures Sound(EndSync(s, id))
  {
    hide Bridged, Ticketed;
    OneMapEach(s, id);
    NotThere(s.awards, id);
    NotThere(s.boards, id);
    TakenOutBridged(s, EndSync(s, id), id);
    SameBookTicketed(s, EndSync(s, id));
  }

  lemma StartBoardOwes(s: State, board: Board, t: Ticket)
    requires Bridged(s)
    ensures Owed(StartBoard(s, board), t) <==> Owed(s, t) || t == board.ticket
  {
    var after := StartBoard(s, board);
    assert s.bridge.next !in s.boards;
    assert AwardOwes(after, t) <==> AwardOwes(s, t);
    if t == board.ticket { assert after.boards[s.bridge.next].ticket == t; }
    if BoardOwes(s, t) {
      var i :| i in s.boards && s.boards[i].ticket == t;
      assert i in after.boards;
    }
  }

  lemma StartBoardBridged(s: State, board: Board)
    requires Bridged(s) && board.generation == s.bridge.generation
    ensures Bridged(StartBoard(s, board))
  {
  }

  lemma StartBoardDistinct(s: State, board: Board)
    requires Bridged(s) && Distinct(s) && !Owed(s, board.ticket)
    ensures Distinct(StartBoard(s, board))
  {
    assert s.bridge.next !in s.boards && s.bridge.next !in s.awards;
    assert !AwardOwes(s, board.ticket) && !BoardOwes(s, board.ticket);
  }

  lemma NewAwardSound(s: State, award: Award, store: Store)
    requires Sound(s) && award.generation == s.bridge.generation && award.ticket == s.issued
    ensures Sound(s.(store := store, issued := s.issued + 1,
      bridge := Sent(s.bridge, AwardCall(award)), awards := s.awards[s.bridge.next := award]))
  {
    var after := s.(store := store, issued := s.issued + 1,
      bridge := Sent(s.bridge, AwardCall(award)), awards := s.awards[s.bridge.next := award]);
    assert s.bridge.next !in s.boards && s.bridge.next !in s.awards;
    assert Bridged(after);
    assert !Owed(s, s.issued);
    NewAwardBook(s, award, after);
  }

  lemma NewAwardBook(s: State, award: Award, after: State)
    requires Ticketed(s) && award.ticket == s.issued && s.bridge.next !in s.awards
    requires after.awards == s.awards[s.bridge.next := award] && after.boards == s.boards && after.retries == s.retries
    requires after.issued == s.issued + 1 && after.done == s.done
    ensures Ticketed(after)
  {
    assert !AwardOwes(s, s.issued) && !BoardOwes(s, s.issued) && s.issued !in s.retries by {
      assert !Owed(s, s.issued);
    }
    assert Distinct(after);
    forall t: Ticket ensures Owed(after, t) <==> Owed(s, t) || t == s.issued {
      assert BoardOwes(after, t) <==> BoardOwes(s, t);
      NewAwardOwes(s, award, after, t);
    }
    TicketIssued(s, after);
  }

  lemma NewAwardOwes(s: State, award: Award, after: State, t: Ticket)
    requires s.bridge.next !in s.awards && after.awards == s.awards[s.bridge.next := award]
    ensures AwardOwes(after, t) <==> AwardOwes(s, t) || t == award.ticket
  {
    if t == award.ticket { assert after.awards[s.bridge.next].ticket == t; }
    if AwardOwes(s, t) {
      var i :| i in s.awards && s.awards[i].ticket == t;
      assert i in after.awards && after.awards[i].ticket == t;
    }
  }

  lemma RefuseSound(s: State)
    requires Sound(s)
    ensures Sound(Refuse(s))
  {
    TicketRefused(s);
  }

  lemma NewBoardSound(s: State, board: Board)
    requires Sound(s) && board.generation == s.bridge.generation && board.ticket == s.issued
    ensures Sound(StartBoard(s.(issued := s.issued + 1), board))
  {
    hide Distinct, Bridged, Ticketed;
    var next := s.(issued := s.issued + 1);
    var after := StartBoard(next, board);
    IssuedOnly(s, next);
    assert !Owed(next, board.ticket) by { NotYetOwed(s); assert Owed(next, s.issued) <==> Owed(s, s.issued); }
    StartBoardBridged(next, board);
    StartBoardDistinct(next, board);
    forall t: Ticket ensures Owed(after, t) <==> Owed(s, t) || t == s.issued {
      StartBoardOwes(next, board, t);
    }
    assert Distinct(s) && Ticketed(s);
    TicketIssued(s, after);
  }

  lemma NotYetOwed(s: State)
    requires Ticketed(s)
    ensures !Owed(s, s.issued)
  {
  }

  lemma IssuedOnly(s: State, next: State)
    requires Sound(s) && next == s.(issued := s.issued + 1)
    ensures Bridged(next) && Distinct(next) && Distinct(s)
    ensures forall t: Ticket :: Owed(next, t) <==> Owed(s, t)
  {
    forall t: Ticket ensures Owed(next, t) <==> Owed(s, t) {
      assert AwardOwes(next, t) <==> AwardOwes(s, t);
      assert BoardOwes(next, t) <==> BoardOwes(s, t);
    }
  }

  /** A leaderboard entry taken out, on its way to another place. */
  function TakenBoard(s: State, id: nat): State {
    s.(boards := s.boards - {id}, bridge := Taken(s.bridge, id))
  }

  lemma TakenBoardHole(s: State, id: nat)
    requires Sound(s) && id in s.boards
    ensures Bridged(TakenBoard(s, id)) && Distinct(TakenBoard(s, id))
    ensures !Owed(TakenBoard(s, id), s.boards[id].ticket)
    ensures forall t: Ticket :: Owed(TakenBoard(s, id), t) <==> Owed(s, t) && t != s.boards[id].ticket
  {
    hide Bridged, Distinct, Owed, Ticketed;
    TicketedDistinct(s);
    TakenBoardBridged(s, id);
    forall t: Ticket ensures Owed(TakenBoard(s, id), t) <==> Owed(s, t) && t != s.boards[id].ticket {
      EndedBoardOwes(s, id, t);
      SameOwed(EndBoard(s, id), TakenBoard(s, id), t);
    }
  }

  lemma TakenBoardBridged(s: State, id: nat)
    requires Bridged(s) && Distinct(s) && id in s.boards
    ensures Bridged(TakenBoard(s, id)) && Distinct(TakenBoard(s, id))
  {
    hide Bridged;
    OneMapEach(s, id);
    NotThere(s.awards, id);
    NotThere(s.syncs, id);
    TakenOutBridged(s, TakenBoard(s, id), id);
  }

  lemma SameOwed(s: State, after: State, t: Ticket)
    requires after.awards == s.awards && after.boards == s.boards && after.retries == s.retries
    ensures Owed(after, t) <==> Owed(s, t)
  {
    assert AwardOwes(after, t) <==> AwardOwes(s, t);
    assert BoardOwes(after, t) <==> BoardOwes(s, t);
  }

  lemma RestartSound(s: State, id: nat, board: Board)
    requires Sound(s) && id in s.boards
    requires board.ticket == s.boards[id].ticket && board.generation == s.bridge.generation
    ensures Sound(StartBoard(TakenBoard(s, id), board))
  {
    hide Distinct, Bridged, Ticketed, Owed;
    var hole := TakenBoard(s, id);
    TakenBoardHole(s, id);
    BoardIsOwed(s, id);
    StartBoardBridged(hole, board);
    StartBoardDistinct(hole, board);
    forall t: Ticket ensures Owed(StartBoard(hole, board), t) <==> Owed(s, t) {
      StartBoardOwes(hole, board, t);
    }
    TicketsMoved(s, StartBoard(hole, board));
  }

  lemma BoardIsOwed(s: State, id: nat)
    requires id in s.boards
    ensures Owed(s, s.boards[id].ticket)
  {
    assert BoardOwes(s, s.boards[id].ticket);
  }

  function Park(s: State, board: Board): State {
    s.(retries := s.retries[board.ticket := board])
  }

  lemma ParkSound(s: State, id: nat, board: Board)
    requires Sound(s) && id in s.boards
    requires board.ticket == s.boards[id].ticket && board.generation == s.bridge.generation
    ensures Sound(Park(TakenBoard(s, id), board))
  {
    hide Ticketed, Bridged, Distinct, Owed;
    var hole := TakenBoard(s, id);
    TakenBoardHole(s, id);
    BoardIsOwed(s, id);
    ParkBridged(hole, board);
    ParkDistinct(hole, board);
    forall t: Ticket ensures Owed(Park(hole, board), t) <==> Owed(s, t) {
      ParkOwes(hole, board, t);
    }
    TicketsMoved(s, Park(hole, board));
  }

  lemma ParkBridged(s: State, board: Board)
    requires Bridged(s) && board.generation == s.bridge.generation
    ensures Bridged(Park(s, board))
  {
  }

  lemma ParkDistinct(s: State, board: Board)
    requires Distinct(s) && !Owed(s, board.ticket)
    ensures Distinct(Park(s, board))
  {
    assert !AwardOwes(s, board.ticket) && !BoardOwes(s, board.ticket);
  }

  lemma ParkOwes(s: State, board: Board, t: Ticket)
    ensures Owed(Park(s, board), t) <==> Owed(s, t) || t == board.ticket
  {
    assert AwardOwes(Park(s, board), t) <==> AwardOwes(s, t);
    assert BoardOwes(Park(s, board), t) <==> BoardOwes(s, t);
  }

  lemma TicketedDistinct(s: State)
    requires Ticketed(s)
    ensures Distinct(s)
  {
  }

  lemma UnparkSound(s: State, ticket: Ticket)
    requires Sound(s) && ticket in s.retries
    ensures Sound(Unpark(s, ticket))
  {
    hide Ticketed, Distinct, Bridged, Owed;
    TicketedDistinct(s);
    UnparkHole(s, ticket);
    UnparkMoves(s, s.(retries := s.retries - {ticket}), s.retries[ticket]);
  }

  lemma UnparkHole(s: State, ticket: Ticket)
    requires Bridged(s) && Distinct(s) && ticket in s.retries
    ensures var hole := s.(retries := s.retries - {ticket});
      && Bridged(hole) && Distinct(hole) && Owed(s, ticket)
      && s.retries[ticket].ticket == ticket && s.retries[ticket].generation == s.bridge.generation
      && forall t: Ticket :: Owed(hole, t) <==> Owed(s, t) && t != ticket
  {
    var hole := s.(retries := s.retries - {ticket});
    NotBoth(s, ticket);
    forall t: Ticket ensures Owed(hole, t) <==> Owed(s, t) && t != ticket {
      assert AwardOwes(hole, t) <==> AwardOwes(s, t);
      assert BoardOwes(hole, t) <==> BoardOwes(s, t);
    }
  }

  lemma UnparkMoves(s: State, hole: State, board: Board)
    requires Ticketed(s) && Bridged(hole) && Distinct(hole) && board.generation == hole.bridge.generation
    requires hole.issued == s.issued && hole.done == s.done && Owed(s, board.ticket)
    requires forall t: Ticket :: Owed(hole, t) <==> Owed(s, t) && t != board.ticket
    ensures Sound(StartBoard(hole, board))
  {
    hide Ticketed, Distinct, Bridged, Owed;
    StartBoardBridged(hole, board);
    StartBoardDistinct(hole, board);
    forall t: Ticket ensures Owed(StartBoard(hole, board), t) <==> Owed(s, t) {
      StartBoardOwes(hole, board, t);
    }
    TicketsMoved(s, StartBoard(hole, board));
  }

  // ---- cancellation, retries and synchronization ----

  lemma {:induction false} EndAwardsSound(s: State)
    requires Sound(s)
    ensures Sound(EndAwards(s))
    decreases |s.awards|
  {
    hide Sound;
    if s.awards != map[] {
      EndAwardSound(s, Lowest(s.awards.Keys));
      EndAwardsSound(EndAward(s, Lowest(s.awards.Keys)));
    }
  }

  lemma {:induction false} EndBoardsSound(s: State)
    requires Sound(s)
    ensures Sound(EndBoards(s))
    decreases |s.boards|
  {
    hide Sound;
    if s.boards != map[] {
      EndBoardSound(s, Lowest(s.boards.Keys));
      EndBoardsSound(EndBoard(s, Lowest(s.boards.Keys)));
    }
  }

  lemma {:induction false} EndRetriesSound(s: State)
    requires Sound(s)
    ensures Sound(EndRetries(s))
    decreases |s.retries|
  {
    hide Sound;
    if s.retries != map[] {
      EndRetrySound(s, Lowest(s.retries.Keys));
      EndRetriesSound(EndRetry(s, Lowest(s.retries.Keys)));
    }
  }

  lemma {:induction false} EndSyncsSound(s: State)
    requires Sound(s)
    ensures Sound(EndSyncs(s))
    decreases |s.syncs|
  {
    hide Sound;
    if s.syncs != map[] {
      EndSyncSound(s, Lowest(s.syncs.Keys));
      EndSyncsSound(EndSync(s, Lowest(s.syncs.Keys)));
    }
  }

  lemma {:induction false} RetryBoardsSound(s: State, now: nat)
    requires Sound(s)
    ensures Sound(RetryBoards(s, now))
    decreases |s.retries|
  {
    hide Sound;
    if Due(s, now) != {} {
      UnparkSound(s, Lowest(Due(s, now)));
      RetryBoardsSound(Unpark(s, Lowest(Due(s, now))), now);
    }
  }

  /** Steps outside the requests: the store, the session and the progress of synchronization. */
  predicate SameRequests(s: State, after: State) {
    SameBook(s, after) && after.bridge == s.bridge && after.syncs == s.syncs && after.syncGeneration == s.syncGeneration
  }

  lemma SameRequestsSound(s: State, after: State)
    requires Sound(s) && SameRequests(s, after)
    ensures Sound(after)
  {
    assert Bridged(after);
    SameBookTicketed(s, after);
  }

  lemma CancelAwardsSound(s: State)
    requires Sound(s)
    ensures Sound(CancelAwards(s))
  {
    hide Sound, EndAwards;
    EndAwardsSound(s);
    SameRequestsSound(EndAwards(s), Idle(EndAwards(s)));
  }

  lemma CancelSubmissionsSound(s: State)
    requires Sound(s)
    ensures Sound(CancelSubmissions(s))
  {
    hide Sound, EndAwards, EndBoards, EndRetries, CancelAwards;
    CancelAwardsSound(s);
    EndBoardsSound(CancelAwards(s));
    EndRetriesSound(EndBoards(CancelAwards(s)));
  }

  lemma InvalidateSyncSound(s: State)
    requires Sound(s)
    ensures Sound(InvalidateSync(s))
  {
    hide Ticketed, EndSyncs;
    EndSyncsSound(s);
    SameBookTicketed(EndSyncs(s), InvalidateSync(s));
  }

  lemma StartNextSound(s: State, luck: Luck)
    requires Sound(s)
    ensures Sound(StartNext(s, luck))
  {
    hide Sound, Listing, AnyHeld, Lists;
    if s.offset < |s.captured| {
      var entry := s.captured[s.offset];
      SendSyncSound(s, Sync(entry.id, entry.row.unlock, s.syncGeneration));
      SameRequestsSound(s, s.(phase := SyncFailed));
    } else {
      SameRequestsSound(s, StartNext(s, luck));
    }
  }

  lemma SendSyncSound(s: State, sync: Sync)
    requires Sound(s) && sync.generation == s.syncGeneration
    ensures Sound(s.(bridge := Sent(s.bridge, SyncCall(sync)), syncs := s.syncs[s.bridge.next := sync]))
  {
    hide Bridged, Ticketed;
    SendSyncBridged(s, sync);
    SameBookTicketed(s, s.(bridge := Sent(s.bridge, SyncCall(sync)), syncs := s.syncs[s.bridge.next := sync]));
  }

  lemma SendSyncBridged(s: State, sync: Sync)
    requires Bridged(s) && sync.generation == s.syncGeneration
    ensures Bridged(s.(bridge := Sent(s.bridge, SyncCall(sync)), syncs := s.syncs[s.bridge.next := sync]))
  {
    var after := s.(bridge := Sent(s.bridge, SyncCall(sync)), syncs := s.syncs[s.bridge.next := sync]);
    assert AwardsLive(after) && BoardsLive(after) && SyncsLive(after) by { hide Tracked; }
    assert Tracked(after) by { hide AwardsLive, BoardsLive, SyncsLive; }
  }

  lemma BeginSyncSound(s: State, recovery: bool, luck: Luck)
    requires Sound(s)
    ensures Sound(BeginSync(s, recovery, luck))
  {
    hide Sound, CancelAwards, InvalidateSync, StartNext, Listing, AnyHeld;
    CancelAwardsSound(s);
    InvalidateSyncSound(CancelAwards(s));
    var quiet := InvalidateSync(CancelAwards(s));
    var entries := Listing(quiet.store, quiet.account);
    var listed := quiet.(captured := entries, remaining := |entries|);
    SameRequestsSound(quiet, quiet.(phase := SyncFailed));
    SameRequestsSound(quiet, listed.(phase := SyncSucceeded));
    SameRequestsSound(quiet, listed.(phase := SyncFailed));
    SameRequestsSound(quiet, listed.(phase := SyncPending));
    StartNextSound(listed.(phase := SyncPending), luck);
  }

  // ---- answers ----

  lemma AwardAnsweredSound(s: State, id: nat, r: Response, luck: Luck)
    requires Sound(s) && id in s.awards
    ensures Sound(AwardAnswered(s, id, r, luck))
  {
    hide Sound, EndAward, Confirms, RetryableAward;
    var award := s.awards[id];
    var held := !RetryableAward(r);
    var marked := if luck.marks then Attempted(s, award.record, held) else s;
    var before := if held then marked.(phase := SyncFailed) else Idle(marked);
    SameRequestsSound(s, Removed(s, award.record));
    SameRequestsSound(s, before);
    EndAwardSound(s, id);
    EndAwardSound(Removed(s, award.record), id);
    EndAwardSound(before, id);
  }

  lemma BoardIsCurrent(s: State, id: nat)
    requires Bridged(s) && id in s.boards
    ensures s.boards[id].generation == s.bridge.generation
  {
  }

  lemma BoardAnsweredFrame(s: State, id: nat, r: Response, now: nat)
    requires id in s.boards
    ensures var after := BoardAnswered(s, id, r, now);
      after == s.(boards := after.boards, retries := after.retries, bridge := after.bridge, done := after.done)
  {
    hide RetryDelay, RetryableBoard, Sent, Taken;
  }

  lemma BoardAnsweredSound(s: State, id: nat, r: Response, now: nat)
    requires Sound(s) && id in s.boards
    ensures Sound(BoardAnswered(s, id, r, now))
  {
    hide Ticketed, Bridged, EndBoard, StartBoard, RetryDelay, RetryableBoard;
    BoardIsCurrent(s, id);
    var board := s.boards[id];
    var again := board.(retries := board.retries + 1);
    EndBoardSound(s, id);
    RestartSound(s, id, again);
    ParkSound(s, id, again.(retryAt := now + RetryDelay(again.retries)));
  }

  lemma SyncAnsweredSound(s: State, id: nat, r: Response, luck: Luck)
    requires Sound(s) && id in s.syncs
    ensures Sound(SyncAnswered(s, id, r, luck))
  {
    hide Sound, EndSync, Confirms, SyncHeld, StartNext;
    var sync := s.syncs[id];
    var taken := EndSync(s, id);
    EndSyncSound(s, id);
    var left := |s.captured| - (s.offset + 1);
    var next := Removed(taken, sync.record).(
      offset := s.offset + 1, remaining := if left > 0 then left else 0);
    SameRequestsSound(taken, next);
    StartNextSound(next, luck);
    var held := SyncHeld(r, sync.unlock.achievement);
    var marked := if luck.marks then Attempted(taken, sync.record, held) else taken;
    SameRequestsSound(taken, Idle(marked));
    SameRequestsSound(taken, marked.(phase := SyncFailed));
  }

  lemma TakenSound(s: State, id: nat)
    requires Sound(s) && id in s.bridge.pending && s.bridge.pending[id].call.OtherCall?
    ensures Sound(s.(bridge := Taken(s.bridge, id)))
  {
    hide Ticketed, Bridged;
    var after := s.(bridge := Taken(s.bridge, id));
    OtherIsUntracked(s, id);
    NotThere(s.awards, id);
    NotThere(s.boards, id);
    NotThere(s.syncs, id);
    TakenOutBridged(s, after, id);
    SameBookTicketed(s, after);
  }

  lemma OtherIsUntracked(s: State, id: nat)
    requires Bridged(s) && id in s.bridge.pending && s.bridge.pending[id].call.OtherCall?
    ensures id !in s.awards && id !in s.boards && id !in s.syncs
  {
    hide Tracked;
  }

  /** A response is for a request that is tracked, or for none of ours. */
  lemma EntryIsTracked(s: State, id: nat)
    requires Sound(s) && id in s.bridge.pending
    ensures !s.bridge.pending[id].call.OtherCall? ==> s.bridge.pending[id].generation == s.bridge.generation
    ensures match s.bridge.pending[id].call
      case AwardCall(award) => id in s.awards && s.awards[id] == award
      case BoardCall(board) => id in s.boards && s.boards[id] == board
      case SyncCall(sync) => id in s.syncs && s.syncs[id] == sync
      case OtherCall => id !in s.awards && id !in s.boards && id !in s.syncs
  {
    hide Ticketed;
  }

  lemma AnsweredSound(s: State, id: nat, r: Response, now: nat, luck: Luck)
    requires Sound(s)
    ensures Sound(Answered(s, id, r, now, luck))
  {
    hide Sound, AwardAnswered, BoardAnswered, SyncAnswered;
    if id in s.bridge.pending {
      EntryIsTracked(s, id);
      match s.bridge.pending[id].call
      case AwardCall(_) => AwardAnsweredSound(s, id, r, luck);
      case BoardCall(_) => BoardAnsweredSound(s, id, r, now);
      case SyncCall(_) => SyncAnsweredSound(s, id, r, luck);
      case OtherCall => TakenSound(s, id);
    }
  }

  // ---- submissions and the session ----

  lemma SubmitAwardSound(s: State, intake: Intake, stores: bool)
    requires Sound(s)
    ensures Sound(SubmitAward(s, intake, stores))
  {
    hide Sound, Refuse, Upserted;
    RefuseSound(s);
    if intake.Usable? {
      var unlock := UnlockOf(s, intake);
      var (store, record) := Upserted(s.store, unlock, intake.hash, intake.unlockedAt);
      NewAwardSound(s, Award(record, unlock, s.bridge.generation, s.issued), store);
    }
  }

  lemma SubmitBoardSound(s: State, usable: bool)
    requires Sound(s)
    ensures Sound(SubmitBoard(s, usable))
  {
    hide Sound, Refuse, StartBoard;
    RefuseSound(s);
    NewBoardSound(s, Board(s.account, s.bridge.generation, s.issued, 0, 0));
  }

  lemma OtherRequestSound(s: State)
    requires Sound(s)
    ensures Sound(s.(bridge := Sent(s.bridge, OtherCall)))
  {
    hide Ticketed, Bridged;
    OtherRequestBridged(s);
    SameBookTicketed(s, s.(bridge := Sent(s.bridge, OtherCall)));
  }

  lemma OtherRequestBridged(s: State)
    requires Bridged(s)
    ensures Bridged(s.(bridge := Sent(s.bridge, OtherCall)))
  {
    var after := s.(bridge := Sent(s.bridge, OtherCall));
    assert AwardsLive(after) && BoardsLive(after) && SyncsLive(after) by { hide Tracked; }
    assert Tracked(after) by { hide AwardsLive, BoardsLive, SyncsLive; }
  }

  predicate NothingTracked(s: State) {
    s.awards == map[] && s.boards == map[] && s.retries == map[] && s.syncs == map[]
  }

  lemma CancelledFrame(s: State)
    ensures var after := CancelSubmissions(s);
      && after.awards == map[] && after.boards == map[] && after.retries == map[]
      && after == s.(awards := map[], boards := map[], retries := map[], done := after.done,
                     bridge := s.bridge.(pending := after.bridge.pending),
                     phase := after.phase, remaining := after.remaining)
      && ((after.phase == s.phase && after.remaining == s.remaining)
          || (s.awards != map[] && s.login == LoggedIn && after.phase == SyncIdle && after.remaining == 0))
      && (s.awards != map[] && s.login == LoggedIn ==> after.phase == SyncIdle)
  {
    CancelAwardsFrame(s);
  }

  lemma CancelAwardsFrame(s: State)
    ensures var after := CancelAwards(s);
      && after == s.(awards := map[], done := after.done, bridge := s.bridge.(pending := after.bridge.pending),
                     phase := after.phase, remaining := after.remaining)
      && ((after.phase == s.phase && after.remaining == s.remaining)
          || (s.awards != map[] && s.login == LoggedIn && after.phase == SyncIdle && after.remaining == 0))
      && (s.awards != map[] && s.login == LoggedIn ==> after.phase == SyncIdle)
  {
    hide EndAwards;
  }

  /** Advancing the generation strands nobody when nothing is tracked. */
  lemma AdvanceSound(s: State)
    requires Sound(s) && NothingTracked(s)
    ensures Sound(s.(bridge := s.bridge.(generation := s.bridge.generation + 1)))
    ensures Sound(s.(bridge := s.bridge.(pending := map[])))
  {
    hide Bridged, Ticketed;
    AdvanceBridged(s, s.bridge.(generation := s.bridge.generation + 1));
    AdvanceBridged(s, s.bridge.(pending := map[]));
    SameBookTicketed(s, s.(bridge := s.bridge.(generation := s.bridge.generation + 1)));
    SameBookTicketed(s, s.(bridge := s.bridge.(pending := map[])));
  }

  lemma AdvanceBridged(s: State, bridge: Bridge)
    requires Bridged(s) && NothingTracked(s) && bridge.next == s.bridge.next
    requires bridge.pending == s.bridge.pending || bridge.pending == map[]
    ensures Bridged(s.(bridge := bridge))
  {
  }

  lemma BeginLoadSound(s: State, ready: bool, validHash: bool)
    requires Sound(s)
    ensures Sound(BeginLoad(s, ready, validHash))
  {
    hide Sound, CancelSubmissions;
    if ready && validHash && MayLoad(s) {
      var quiet := CancelSubmissions(s);
      CancelSubmissionsSound(s);
      CancelledFrame(s);
      AdvanceSound(quiet);
      var advanced := quiet.(bridge := quiet.bridge.(generation := quiet.bridge.generation + 1));
      SameRequestsSound(advanced, advanced.(loading := true));
    }
  }

  lemma UnloadSound(s: State)
    requires Sound(s)
    ensures Sound(UnloadGame(s))
  {
    hide Sound, CancelSubmissions;
    CancelSubmissionsSound(s);
    SameRequestsSound(CancelSubmissions(s), UnloadGame(s));
  }

  lemma LoadEndsSound(s: State, ok: bool)
    requires Sound(s)
    ensures Sound(LoadEnds(s, ok))
  {
    hide Sound, CancelSubmissions;
    UnloadSound(s);
    SameRequestsSound(s, s.(loading := false));
  }

  lemma AbortLoginSound(s: State)
    requires Sound(s)
    ensures Sound(AbortLogin(s))
  {
    hide Sound, InvalidateSync;
    InvalidateSyncSound(s);
    SameRequestsSound(InvalidateSync(s), InvalidateSync(s).(login := LoggedOut, account := 0));
  }

  lemma BeginLoginSound(s: State, account: Account, hasCredentials: bool)
    requires Sound(s)
    ensures Sound(BeginLogin(s, account, hasCredentials))
  {
    hide Sound, AbortLogin;
    AbortLoginSound(s);
    SameRequestsSound(AbortLogin(s), AbortLogin(s).(login := LoggedOut, account := 0));
    SameRequestsSound(AbortLogin(s), AbortLogin(s).(login := LoginPending, account := account));
  }

  lemma LoginEndsSound(s: State, ok: bool, account: Account, recovery: bool, luck: Luck)
    requires Sound(s)
    ensures Sound(LoginEnds(s, ok, account, recovery, luck))
  {
    hide Sound, BeginSync;
    SameRequestsSound(s, s.(login := LoginFailed));
    SameRequestsSound(s, s.(login := LoggedIn, account := account));
    BeginSyncSound(s.(login := LoggedIn, account := account), recovery, luck);
  }

  lemma LogoutSound(s: State, deletePending: bool, deletesCredentials: bool, cleanup: Cleanup)
    requires Sound(s)
    ensures Sound(Logout(s, deletePending, deletesCredentials, cleanup))
  {
    hide Sound, InvalidateSync, CancelSubmissions, AbortLogin, UnloadGame;
    InvalidateSyncSound(s);
    CancelSubmissionsSound(InvalidateSync(s));
    AbortLoginSound(CancelSubmissions(InvalidateSync(s)));
    UnloadSound(AbortLogin(CancelSubmissions(InvalidateSync(s))));
    var quiet := UnloadGame(AbortLogin(CancelSubmissions(InvalidateSync(s))));
    SameRequestsSound(quiet, Logout(s, deletePending, deletesCredentials, cleanup));
  }

  /** When a service has invalidated its synchronization and cancelled its submissions, nothing is tracked. */
  lemma QuietTracksNothing(s: State)
    ensures NothingTracked(AbortLogin(CancelSubmissions(InvalidateSync(s))))
  {
    hide CancelSubmissions;
    CancelledFrame(InvalidateSync(s));
  }

  lemma ShutdownSound(s: State)
    requires Sound(s)
    ensures Sound(Shutdown(s)) && NothingTracked(Shutdown(s))
  {
    hide Sound, InvalidateSync, CancelSubmissions, AbortLogin;
    InvalidateSyncSound(s);
    CancelSubmissionsSound(InvalidateSync(s));
    AbortLoginSound(CancelSubmissions(InvalidateSync(s)));
    QuietTracksNothing(s);
    AdvanceSound(AbortLogin(CancelSubmissions(InvalidateSync(s))));
  }

  // ---- every run is sound ----

  lemma ActedSound(s: State, a: Action)
    requires Sound(s)
    ensures Sound(Acted(s, a))
  {
    hide Sound, SubmitAward, SubmitBoard, Answered, RetryBoards, BeginSync, BeginLoad, LoadEnds, UnloadGame,
      BeginLogin, LoginEnds, Logout, Shutdown;
    match a
    case AwardSubmitted(intake, stores) => SubmitAwardSound(s, intake, stores);
    case BoardSubmitted(usable) => SubmitBoardSound(s, usable);
    case OtherRequested => OtherRequestSound(s);
    case ResponseArrives(id, response, now, luck) => AnsweredSound(s, id, response, now, luck);
    case RetryTick(now) => RetryBoardsSound(s, now);
    case SyncBegins(recovery, luck) => BeginSyncSound(s, recovery, luck);
    case LoadBegins(ready, validHash) => BeginLoadSound(s, ready, validHash);
    case LoadFinishes(ok) => LoadEndsSound(s, ok);
    case GameUnloads => UnloadSound(s);
    case LoginBegins(account, hasCredentials) => BeginLoginSound(s, account, hasCredentials);
    case LoginFinishes(ok, account, recovery, luck) => LoginEndsSound(s, ok, account, recovery, luck);
    case UserLogsOut(deletePending, deletesCredentials, cleanup) =>
      LogoutSound(s, deletePending, deletesCredentials, cleanup);
    case ShutsDown => ShutdownSound(s);
  }

  /**
   * In every run each submission's callback is owed by exactly one live request of the current
   * generation, or parked for a retry, or was invoked exactly once.
   */
  lemma {:induction false} RunsAreSound(s: State, actions: seq<Action>)
    requires Sound(s)
    ensures Sound(Ran(s, actions))
    decreases |actions|
  {
    hide Sound;
    if actions != [] {
      ActedSound(s, actions[0]);
      RunsAreSound(Acted(s, actions[0]), actions[1..]);
    }
  }

  lemma FreshIsSound(store: Store)
    ensures Sound(Fresh(store))
  {
  }

  /** After a shutdown every callback of the run was invoked, and none twice. */
  lemma ShutdownSettlesEverything(store: Store, actions: seq<Action>)
    ensures var s := Shutdown(Ran(Fresh(store), actions));
      && NoneTwice(s.done)
      && forall t: Ticket :: t < s.issued <==> t in s.done
  {
    hide Shutdown, Ran, Fresh, Bridged;
    FreshIsSound(store);
    RunsAreSound(Fresh(store), actions);
    ShutdownSound(Ran(Fresh(store), actions));
    var s := Shutdown(Ran(Fresh(store), actions));
    forall t: Ticket ensures !Owed(s, t) {
      assert !AwardOwes(s, t) && !BoardOwes(s, t);
    }
  }

  // ---- ids of requests are never used again ----

  /** Entries only go, or come under ids not given out before. */
  ghost predicate Ages(b: Bridge, after: Bridge) {
    b.next <= after.next && forall id :: id in after.pending ==> id in b.pending || b.next <= id
  }

  lemma AgesTwice(b: Bridge, middle: Bridge, after: Bridge)
    requires Ages(b, middle) && Ages(middle, after)
    ensures Ages(b, after)
  {
  }

  lemma {:induction false} EndAwardsAges(s: State)
    ensures Ages(s.bridge, EndAwards(s).bridge)
    decreases |s.awards|
  {
    if s.awards != map[] { EndAwardsAges(EndAward(s, Lowest(s.awards.Keys))); }
  }

  lemma {:induction false} EndBoardsAges(s: State)
    ensures Ages(s.bridge, EndBoards(s).bridge)
    decreases |s.boards|
  {
    if s.boards != map[] { EndBoardsAges(EndBoard(s, Lowest(s.boards.Keys))); }
  }

  lemma {:induction false} EndRetriesAges(s: State)
    ensures EndRetries(s).bridge == s.bridge
    decreases |s.retries|
  {
    if s.retries != map[] { EndRetriesAges(EndRetry(s, Lowest(s.retries.Keys))); }
  }

  lemma {:induction false} EndSyncsAges(s: State)
    ensures Ages(s.bridge, EndSyncs(s).bridge)
    decreases |s.syncs|
  {
    if s.syncs != map[] { EndSyncsAges(EndSync(s, Lowest(s.syncs.Keys))); }
  }

  lemma {:induction false} RetryBoardsAges(s: State, now: nat)
    ensures Ages(s.bridge, RetryBoards(s, now).bridge)
    decreases |s.retries|
  {
    if Due(s, now) != {} {
      var next := Unpark(s, Lowest(Due(s, now)));
      RetryBoardsAges(next, now);
      AgesTwice(s.bridge, next.bridge, RetryBoards(s, now).bridge);
    }
  }

  lemma CancelsAge(s: State)
    ensures Ages(s.bridge, CancelAwards(s).bridge) && Ages(s.bridge, CancelSubmissions(s).bridge)
    ensures Ages(s.bridge, InvalidateSync(s).bridge) && Ages(s.bridge, AbortLogin(s).bridge)
  {
    hide EndAwards, EndBoards, EndRetries, EndSyncs, Ages;
    EndAwardsAges(s);
    EndBoardsAges(CancelAwards(s));
    EndRetriesAges(EndBoards(CancelAwards(s)));
    AgesTwice(s.bridge, CancelAwards(s).bridge, CancelSubmissions(s).bridge);
    EndSyncsAges(s);
  }

  lemma SentAges(b: Bridge, call: Call)
    ensures Ages(b, Sent(b, call))
  {
  }

  lemma StartNextAges(s: State, luck: Luck)
    ensures Ages(s.bridge, StartNext(s, luck).bridge)
  {
    hide Listing, AnyHeld, Lists;
    if s.offset < |s.captured| {
      hide Sent, Ages;
      var entry := s.captured[s.offset];
      SentAges(s.bridge, SyncCall(Sync(entry.id, entry.row.unlock, s.syncGeneration)));
      AgesAlready(s.bridge);
    }
  }

  lemma AgesAlready(b: Bridge)
    ensures Ages(b, b)
  {
  }

  lemma BeginSyncAges(s: State, recovery: bool, luck: Luck)
    ensures Ages(s.bridge, BeginSync(s, recovery, luck).bridge)
  {
    hide CancelAwards, InvalidateSync, StartNext, Listing, AnyHeld, Lists, Ages;
    CancelsAge(s);
    CancelsAge(CancelAwards(s));
    var quiet := InvalidateSync(CancelAwards(s));
    AgesTwice(s.bridge, CancelAwards(s).bridge, quiet.bridge);
    var entries := Listing(quiet.store, quiet.account);
    var listed := quiet.(captured := entries, remaining := |entries|, phase := SyncPending);
    StartNextAges(listed, luck);
    AgesTwice(s.bridge, quiet.bridge, StartNext(listed, luck).bridge);
  }

  lemma EndAwardBridge(s: State, id: nat)
    requires id in s.awards
    ensures EndAward(s, id).bridge == Taken(s.bridge, id)
  {
  }

  lemma AwardAnsweredAges(s: State, id: nat, r: Response, luck: Luck)
    requires id in s.awards
    ensures Ages(s.bridge, AwardAnswered(s, id, r, luck).bridge)
  {
    hide Confirms, RetryableAward, Marked, EndAward, Ages, Taken;
    var record := s.awards[id].record;
    EndAwardBridge(s, id);
    EndAwardBridge(Removed(s, record), id);
    var held := !RetryableAward(r);
    var marked := if luck.marks then Attempted(s, record, held) else s;
    EndAwardBridge(marked.(phase := SyncFailed), id);
    EndAwardBridge(Idle(marked), id);
    TakenAges(s.bridge, id);
  }

  lemma TakenAges(b: Bridge, id: nat)
    ensures Ages(b, Taken(b, id))
  {
  }

  lemma BoardAnsweredAges(s: State, id: nat, r: Response, now: nat)
    requires id in s.boards
    ensures Ages(s.bridge, BoardAnswered(s, id, r, now).bridge)
  {
    hide RetryDelay, RetryableBoard, Ages, Sent, Taken;
    TakenAges(s.bridge, id);
    var taken := Taken(s.bridge, id);
    var call := BoardCall(s.boards[id].(retries := s.boards[id].retries + 1));
    SentAges(taken, call);
    AgesTwice(s.bridge, taken, Sent(taken, call));
  }

  lemma SyncAnsweredAges(s: State, id: nat, r: Response, luck: Luck)
    requires id in s.syncs
    ensures Ages(s.bridge, SyncAnswered(s, id, r, luck).bridge)
  {
    hide Confirms, SyncHeld, StartNext, Marked;
    var taken := EndSync(s, id);
    var left := |s.captured| - (s.offset + 1);
    StartNextAges(Removed(taken, s.syncs[id].record).(
      offset := s.offset + 1, remaining := if left > 0 then left else 0), luck);
  }

  lemma AnsweredAges(s: State, id: nat, r: Response, now: nat, luck: Luck)
    ensures Ages(s.bridge, Answered(s, id, r, now, luck).bridge)
  {
    hide AwardAnswered, BoardAnswered, SyncAnswered;
    if id in s.awards { AwardAnsweredAges(s, id, r, luck); }
    if id in s.boards { BoardAnsweredAges(s, id, r, now); }
    if id in s.syncs { SyncAnsweredAges(s, id, r, luck); }
  }

  lemma QuietAges(s: State)
    ensures Ages(s.bridge, AbortLogin(CancelSubmissions(InvalidateSync(s))).bridge)
  {
    hide Ages, InvalidateSync, CancelSubmissions, AbortLogin;
    CancelsAge(s);
    CancelsAge(InvalidateSync(s));
    CancelsAge(CancelSubmissions(InvalidateSync(s)));
    var quiet := CancelSubmissions(InvalidateSync(s));
    AgesTwice(s.bridge, InvalidateSync(s).bridge, quiet.bridge);
    AgesTwice(s.bridge, quiet.bridge, AbortLogin(quiet).bridge);
  }

  lemma LogoutAges(s: State, deletePending: bool, deletesCredentials: bool, cleanup: Cleanup)
    ensures Ages(s.bridge, Logout(s, deletePending, deletesCredentials, cleanup).bridge)
  {
    hide InvalidateSync, CancelSubmissions, AbortLogin, Ages;
    QuietAges(s);
    var quiet := AbortLogin(CancelSubmissions(InvalidateSync(s)));
    CancelsAge(quiet);
    AgesTwice(s.bridge, quiet.bridge, CancelSubmissions(quiet).bridge);
  }

  lemma ShutdownAges(s: State)
    ensures Ages(s.bridge, Shutdown(s).bridge)
  {
    hide InvalidateSync, CancelSubmissions, AbortLogin;
    QuietAges(s);
  }

  lemma LoadAges(s: State, a: Action)
    requires a.LoadBegins? || a.LoadFinishes? || a.GameUnloads? || a.LoginBegins?
    ensures Ages(s.bridge, Acted(s, a).bridge)
  {
    hide CancelSubmissions, AbortLogin, MayLoad, Ages;
    CancelsAge(s);
    AgesAlready(s.bridge);
    AgesAnyGeneration(s.bridge, CancelSubmissions(s).bridge, CancelSubmissions(s).bridge.generation + 1);
  }

  lemma AgesAnyGeneration(b: Bridge, after: Bridge, generation: nat)
    requires Ages(b, after)
    ensures Ages(b, after.(generation := generation))
  {
  }

  lemma SubmitAwardAges(s: State, intake: Intake, stores: bool)
    ensures Ages(s.bridge, SubmitAward(s, intake, stores).bridge)
  {
    hide Upserted, Storable;
  }

  lemma SubmitBoardAges(s: State, usable: bool)
    ensures Ages(s.bridge, SubmitBoard(s, usable).bridge)
  {
  }

  lemma ActedAges(s: State, a: Action)
    ensures Ages(s.bridge, Acted(s, a).bridge)
  {
    hide Ages, Answered, RetryBoards, BeginSync, SubmitAward, SubmitBoard, BeginLoad, LoadEnds, UnloadGame, BeginLogin,
      Logout, Shutdown;
    match a
    case AwardSubmitted(intake, stores) => SubmitAwardAges(s, intake, stores);
    case BoardSubmitted(usable) => SubmitBoardAges(s, usable);
    case OtherRequested => SentAges(s.bridge, OtherCall);
    case ResponseArrives(id, response, now, luck) => AnsweredAges(s, id, response, now, luck);
    case RetryTick(now) => RetryBoardsAges(s, now);
    case SyncBegins(recovery, luck) => BeginSyncAges(s, recovery, luck);
    case LoginFinishes(ok, account, recovery, luck) =>
      BeginSyncAges(s.(login := LoggedIn, account := account), recovery, luck);
      AgesAlready(s.bridge);
    case UserLogsOut(deletePending, deletesCredentials, cleanup) =>
      LogoutAges(s, deletePending, deletesCredentials, cleanup);
    case ShutsDown => ShutdownAges(s);
    case _ => LoadAges(s, a);
  }

  /** A request that was answered or abandoned never has an entry again, so a late response for it is ignored. */
  lemma {:induction false} GoneIdsStayGone(s: State, actions: seq<Action>, id: nat)
    requires id < s.bridge.next && id !in s.bridge.pending
    ensures id !in Ran(s, actions).bridge.pending
    ensures forall r, now, luck :: Answered(Ran(s, actions), id, r, now, luck) == Ran(s, actions)
    decreases |actions|
  {
    hide Acted;
    if actions != [] {
      ActedAges(s, actions[0]);
      GoneIdsStayGone(Acted(s, actions[0]), actions[1..], id);
    }
  }

  // ---- leaderboard retries ----

  lemma {:induction false} PowerGrows(n: nat, m: nat)
    requires n <= m
    ensures 1 <= Power(n) <= Power(m)
    decreases m
  {
    if n < m {
      PowerGrows(n, m - 1);
    } else if m > 0 {
      PowerGrows(n - 1, m - 1);
    }
  }

  /** The first retry is immediate, and later delays never shrink and never exceed two minutes. */
  lemma RetryDelaysGrow(n: nat, m: nat)
    requires n <= m
    ensures RetryDelay(n) <= RetryDelay(m) <= 120000
    ensures RetryDelay(n) == 0 <==> n <= 1
  {
    if 1 < n { PowerGrows(n - 2, if m >= 2 then m - 2 else 0); }
    if 1 < m <= 8 {
      PowerGrows(m - 2, 6);
      assert Power(6) == 64;
    }
    if 1 < n <= 8 {
      PowerGrows(n - 2, 6);
      assert Power(6) == 64;
    }
  }
}

/**
 * The ends of a media operation in a kind environment: as asked in an active session, again active after a reset
 * that follows an Offline fallback, or everything given back after a failed commit; and that each is reached.
 */
module MediaOwnerEnds {
  import opened MediaTable
  import opened MediaRuns
  import opened MediaOwner
  import opened MediaOwnerProofs
  import opened MediaOwnerGood

  // ---- a reset after an Offline fallback ----

  /** The operation went Offline, its mounts are in place, and the VM is going to be reset. */
  predicate Fallen(w: World) {
    w.connected && w.op.ended && w.op.request.reset && w.first.Inserted?
  }

  predicate Anew(w: World) {
    w.connected && w.session == Session.Starting && w.service.game != Disabled && OneGame(w.service)
  }

  /** Together with Inv: the session is on its way back. */
  predicate Returning(s: System) {
    var w, inbox := s.world, s.inbox;
    match s.state
    case Idle => w.op.ending == EndedWell && w.session == Session.Active && Agreed(w) && w.pending == Nil && !w.op.ended
    case Commit => Fallen(w) && inbox == Posts(Value.Ok)
    case Finalize => Fallen(w)
    case AwaitReset => w.connected && w.first.Inserted? && inbox == Posts(Value.Reanchor)
    case AwaitReanchor => Anew(w) && inbox != Posts(Value.Unavailable)
    case CheckPostAux =>
      Anew(w) && !w.op.ended && inbox != Posts(Value.Fallback) && (inbox == Posts(Value.Query) ==> w.op.request.auxHash.Just?)
    case AwaitPostAux =>
      Anew(w) && !w.op.ended && (inbox == Silent ==> CheckGoesWell(w)) && (inbox.Posts? ==> inbox.value == Value.Same)
    case _ => false
  }

  lemma ReturnPoll(s: System)
    requires Inv(s) && Returning(s) && s.state != State.Idle && s.inbox == Silent
    ensures Returning(Acted(s, Poll))
  {
    hide Reanchoring, AsAsked, Covered, Committed, Failing;
  }

  lemma ReturnAround(s: System, e: Outer)
    requires Inv(s) && Returning(s) && s.state != State.Idle && s.inbox == Silent && GoodEvent(s, e)
    ensures Returning(Acted(s, Around(e)))
  {
    hide Reanchoring, AsAsked, Covered, Committed, Failing;
    SilentWaits(s);
    if s.state == State.AwaitReanchor {
      ReturnAroundAnchor(s, e);
    } else {
      ReturnAroundAux(s, e);
    }
  }

  lemma ReturnAroundAnchor(s: System, e: Outer)
    requires s.state == State.AwaitReanchor && Calm(s.world) && Anew(s.world) && GoodEvent(s, e)
    ensures Anew(Happened(s.world, e))
  {
  }

  lemma ReturnAroundAux(s: System, e: Outer)
    requires s.state == State.AwaitPostAux && InAwaitPostAux(s.world, Silent) && GoodEvent(s, e)
    requires Anew(s.world) && CheckGoesWell(s.world)
    ensures Anew(Happened(s.world, e)) && CheckGoesWell(Happened(s.world, e))
  {
  }

  predicate ReturnsOn(s: System, lucks: Lucks) {
    && s.inbox.Posts? && Choice(s.state, s.inbox.value) != 0
    && Returning(Transitioned(s, s.inbox.value, lucks))
  }

  predicate ReturnDue(s: System, lucks: Lucks, state: State) {
    Due(s, state) && Returning(s) && GoodLucks(lucks)
  }

  lemma ReturnCommit(s: System, lucks: Lucks)
    requires ReturnDue(s, lucks, State.Commit) || ReturnDue(s, lucks, State.Finalize)
    ensures ReturnsOn(s, lucks)
  {
    hide Committed, Failing;
    RunOne(s.world, if s.state == State.Commit then Effect.DecideFinish else Effect.ResetVm, lucks);
  }

  lemma ReturnReset(s: System, lucks: Lucks)
    requires ReturnDue(s, lucks, State.AwaitReset)
    ensures ReturnsOn(s, lucks)
  {
    hide Committed, Failing;
    RunOne(s.world, Effect.BeginReanchor, lucks);
  }

  lemma ReturnReanchor(s: System, lucks: Lucks)
    requires ReturnDue(s, lucks, State.AwaitReanchor)
    ensures ReturnsOn(s, lucks)
  {
    hide Reanchoring, AsAsked;
    RunTwo(s.world, Effect.RememberLaunch, Effect.DecidePostAux, lucks);
  }

  lemma ReturnActivates(w: World)
    requires Reanchoring(w) && w.service.game.Loaded?
    ensures var after := Complete(Activate(w), EndedWell);
      after.session == Session.Active && after.op.ending == EndedWell && Agreed(after)
      && after.pending == Nil && after.op.ended == w.op.ended
  {
    hide LaunchJustified, AsAsked;
  }

  lemma ReturnCheck(s: System, lucks: Lucks)
    requires ReturnDue(s, lucks, State.CheckPostAux)
    ensures ReturnsOn(s, lucks)
  {
    hide Activate, Complete, Reanchoring, RunRow, Agreed;
    ReanchorHasId(s.world);
    if s.inbox.value == Value.Satisfied {
      ActivationRow(s.world, lucks);
      ReturnActivates(s.world);
    } else {
      RunOne(s.world, Effect.VerifyAux, lucks);
    }
  }

  lemma ReanchorHasId(w: World)
    requires Reanchoring(w) && w.service.game.Loaded?
    ensures w.service.game.id > 0
  {
    hide AsAsked;
  }

  lemma ReturnVerified(s: System, lucks: Lucks)
    requires ReturnDue(s, lucks, State.AwaitPostAux)
    ensures ReturnsOn(s, lucks)
  {
    hide Activate, Complete, Reanchoring, RunRow, Agreed;
    RememberedRow(s.world, lucks);
    ReturnActivates(s.world);
  }

  lemma ReturnDeliver(s: System, lucks: Lucks)
    requires Inv(s) && Returning(s) && s.state != State.Idle && s.inbox.Posts? && GoodLucks(lucks)
    ensures ReturnsOn(s, lucks)
  {
    hide Inv, ReturnsOn, GoodLucks;
    assert Due(s, s.state);
    match s.state
    case Commit => ReturnCommit(s, lucks);
    case Finalize => ReturnCommit(s, lucks);
    case AwaitReset => ReturnReset(s, lucks);
    case AwaitReanchor => ReturnReanchor(s, lucks);
    case CheckPostAux => ReturnCheck(s, lucks);
    case AwaitPostAux => ReturnVerified(s, lucks);
    case _ =>
  }

  // ---- a commit that failed ----

  /** The session is as it was and the mounts are not: an operation that is not a launch can give everything back. */
  predicate Unfallen(w: World) {
    var r := w.op.request;
    && w.connected && !w.op.ended && !r.launch && w.session == Session.Active && w.service.game.Loaded?
    && (r.oldHash.Just? && r.oldHash.value in w.service.verified ==>
          w.service.verified[r.oldHash.value] == w.service.game.id)
  }

  /** Together with Inv: what the operation found is on its way back. */
  predicate Recovering(s: System) {
    var w, inbox := s.world, s.inbox;
    match s.state
    case Idle => w.op.ending == EndedBadly && w.session == Session.Active && Original(w) && ServiceAgreed(w)
    case Commit => Unfallen(w) && inbox == Posts(Value.Failed)
    case Restore => Unfallen(w) && inbox == Posts(Value.Restored)
    case ChooseRollback => Unfallen(w) && w.op.restored
    case AwaitRollback => Unfallen(w) && GoingChange(w, inbox)
    case _ => false
  }

  lemma RecoverPoll(s: System)
    requires Inv(s) && Recovering(s) && s.state != State.Idle && s.inbox == Silent
    ensures Recovering(Acted(s, Poll))
  {
    hide Failing, Changing, Original;
  }

  lemma RecoverAround(s: System, e: Outer)
    requires Inv(s) && Recovering(s) && s.state != State.Idle && s.inbox == Silent && GoodEvent(s, e)
    ensures Recovering(Acted(s, Around(e)))
  {
    hide Failing, Original, Committed;
    SilentWaits(s);
  }

  predicate RecoversOn(s: System, lucks: Lucks) {
    && s.inbox.Posts? && Choice(s.state, s.inbox.value) != 0
    && Recovering(Transitioned(s, s.inbox.value, lucks))
  }

  predicate RecoverDue(s: System, lucks: Lucks, state: State) {
    Due(s, state) && Recovering(s) && GoodLucks(lucks)
  }

  lemma RecoverCommit(s: System, lucks: Lucks)
    requires RecoverDue(s, lucks, State.Commit)
    ensures RecoversOn(s, lucks)
  {
    hide Committed, Failing;
    RunTwo(s.world, Effect.RememberCommitFailure, Effect.RestoreVm, lucks);
  }

  lemma RecoverRestore(s: System, lucks: Lucks)
    requires RecoverDue(s, lucks, State.Restore)
    ensures RecoversOn(s, lucks)
  {
    hide Failing, Original;
    RunTwo(s.world, Effect.RememberRestore, Effect.DecideRollback, lucks);
  }

  lemma RecoverChoose(s: System, lucks: Lucks)
    requires RecoverDue(s, lucks, State.ChooseRollback)
    ensures RecoversOn(s, lucks)
  {
    if s.inbox.value == Value.Rollback {
      RunOne(s.world, Effect.RollbackActive, lucks);
    } else {
      RunOne(s.world, Effect.CompleteFailure, lucks);
    }
  }

  lemma RecoverRolledBack(s: System, lucks: Lucks)
    requires RecoverDue(s, lucks, State.AwaitRollback)
    ensures RecoversOn(s, lucks)
  {
    RunTwo(s.world, Effect.RememberRolledBack, Effect.CompleteFailure, lucks);
  }

  lemma RecoverDeliver(s: System, lucks: Lucks)
    requires Inv(s) && Recovering(s) && s.state != State.Idle && s.inbox.Posts? && GoodLucks(lucks)
    ensures RecoversOn(s, lucks)
  {
    hide Inv, RecoversOn, GoodLucks;
    assert Due(s, s.state);
    match s.state
    case Commit => RecoverCommit(s, lucks);
    case Restore => RecoverRestore(s, lucks);
    case ChooseRollback => RecoverChoose(s, lucks);
    case AwaitRollback => RecoverRolledBack(s, lucks);
    case _ =>
  }

  // ---- whole runs ----

  datatype Course = Forward | Back | Undo

  ghost predicate On(course: Course, s: System) {
    && Inv(s)
    && match course
       case Forward => Going(s)
       case Back => Returning(s)
       case Undo => Recovering(s)
  }

  lemma OnDeliver(course: Course, s: System, lucks: Lucks)
    requires On(course, s) && s.state != State.Idle && s.inbox.Posts? && GoodLucks(lucks)
    ensures Choice(s.state, s.inbox.value) != 0 && On(course, Transitioned(s, s.inbox.value, lucks))
  {
    hide Inv, Going, Returning, Recovering;
    DeliverKeeps(s, lucks);
    match course
    case Forward => GoDeliver(s, lucks);
    case Back => ReturnDeliver(s, lucks);
    case Undo => RecoverDeliver(s, lucks);
  }

  lemma OnActed(course: Course, s: System, a: Action)
    requires On(course, s) && GoodAction(s, a)
    ensures On(course, Acted(s, a))
  {
    hide Inv, Going, Returning, Recovering, GoodEvent, GoodLucks;
    ActedKeeps(s, a);
    if s.state != State.Idle {
      match a
      case Deliver(lucks) =>
        if s.inbox.Posts? { OnDeliver(course, s, lucks); }
      case Poll =>
        if s.inbox == Silent {
          match course
          case Forward => GoodPoll(s);
          case Back => ReturnPoll(s);
          case Undo => RecoverPoll(s);
        }
      case Around(event) =>
        if s.inbox == Silent {
          match course
          case Forward => GoodAround(s, event);
          case Back => ReturnAround(s, event);
          case Undo => RecoverAround(s, event);
        }
    }
  }

  /** In a kind environment no run leaves its course. */
  lemma {:induction false} RunStaysOn(course: Course, s: System, actions: seq<Action>)
    requires On(course, s) && GoodRun(s, actions)
    ensures On(course, Run(s, actions))
    decreases |actions|
  {
    hide On, GoodAction;
    if actions != [] {
      OnActed(course, s, actions[0]);
      RunStaysOn(course, Acted(s, actions[0]), actions[1..]);
    }
  }

  /**
   * In a kind environment every run of a launch, of an anchor change, or of a disk for Drive 2 that completes has
   * ended well in an active session, with both drives as asked; and Drive 1, the service and the owner name one
   * disk unless Drive 1 was out of step and is not mounted.
   */
  lemma EveryGoodRunEndsWell(w: World, lucks: Lucks, actions: seq<Action>)
    requires MayStart(w) && Steady(w) && Trusting(w) && GoodLucks(lucks)
    requires GoodRun(Submitted(w, lucks), actions)
    ensures var end := Run(Submitted(w, lucks), actions);
      end.state == State.Idle ==>
        && end.world.op.ending == EndedWell && end.world.session == Session.Active && AsAsked(end.world)
        && (Holds(w) || w.op.request.first.Mount? ==> Agreed(end.world))
  {
    hide MayStart, Steady, Trusting, GoodLucks, GoodRun, AsAsked, Agreed;
    SubmittedGoes(w, lucks);
    RunStaysOn(Forward, Submitted(w, lucks), actions);
    EveryEndIsConsistent(w, lucks, actions);
    DriveAgreesExactly(w, lucks, actions);
  }

  lemma SubmittedGoes(w: World, lucks: Lucks)
    requires MayStart(w) && Steady(w) && Trusting(w) && GoodLucks(lucks)
    ensures On(Forward, Submitted(w, lucks))
  {
    hide Inv, RequestOk, NoAuxYet, Plain, Launching;
    SubmittedInv(w, lucks);
    assert EffectsAt(0) == [Effect.AcceptPrepare];
    RunOne(w, Effect.AcceptPrepare, lucks);
  }

  /** After an Offline fallback a reset brings the session back for the disk in Drive 1. */
  lemma EveryResetReturns(s: System, actions: seq<Action>)
    requires Inv(s) && s.state == State.Commit && s.inbox == Posts(Value.Ok) && Fallen(s.world) && GoodRun(s, actions)
    ensures var end := Run(s, actions);
      end.state == State.Idle ==>
        end.world.op.ending == EndedWell && end.world.session == Session.Active && Agreed(end.world)
  {
    hide Inv, Fallen, GoodRun, Agreed;
    RunStaysOn(Back, s, actions);
  }

  /** A commit that fails outside a launch leaves, once undone, the session and the drives it found. */
  lemma EveryFailedCommitIsUndone(s: System, actions: seq<Action>)
    requires Inv(s) && s.state == State.Commit && s.inbox == Posts(Value.Failed) && Unfallen(s.world) && GoodRun(s, actions)
    ensures var end := Run(s, actions);
      end.state == State.Idle ==>
        && end.world.op.ending == EndedBadly && end.world.session == Session.Active
        && Original(end.world) && ServiceAgreed(end.world)
  {
    hide Inv, Unfallen, GoodRun, Original, ServiceAgreed;
    RunStaysOn(Undo, s, actions);
  }

  // ---- the ends are reached ----

  const KIND: Lucks := [ANY_LUCK, ANY_LUCK, ANY_LUCK, ANY_LUCK]

  ghost predicate CanEnd(s: System) {
    exists actions :: GoodRun(s, actions) && Run(s, actions).state == State.Idle
  }

  lemma EndsLater(s: System, a: Action)
    requires GoodAction(s, a) && CanEnd(Acted(s, a))
    ensures CanEnd(s)
  {
    hide Acted, GoodAction;
    var rest :| GoodRun(Acted(s, a), rest) && Run(Acted(s, a), rest).state == State.Idle;
    assert ([a] + rest)[1..] == rest;
    assert GoodRun(s, [a] + rest) && Run(s, [a] + rest).state == State.Idle;
  }

  /** The answers a waiting state is given. */
  function Answer(s: System): (Outer, Outer)
  {
    var w := s.world;
    match s.state
    case AwaitAnchor => (LoadBegins, LoadEnds(true, 1))
    case AwaitReanchor => (LoadBegins, LoadEnds(true, 1))
    case AwaitChange => (PreflightAnswered(true, if w.service.game.Loaded? then w.service.game.id else 0), ChangeAnswered(true))
    case AwaitRollback => (PreflightAnswered(true, if w.service.game.Loaded? then w.service.game.id else 0), ChangeAnswered(true))
    case _ => (LoadBegins, CheckAnswered(true, w.op.request.expected))
  }

  /** Both answers are good, and after them a poll posts the result. */
  predicate Arrives(s: System) {
    var (e, f) := Answer(s);
    var once := Acted(s, Around(e));
    var twice := Acted(once, Around(f));
    && GoodEvent(s, e) && GoodEvent(once, f) && twice.state == s.state && twice.inbox == Silent
    && Acted(twice, Poll).inbox.Posts?
  }

  /** Answered and polled, a waiting operation has its result posted. */
  lemma AnswersArrive(course: Course, s: System)
    requires On(course, s) && s.state != State.Idle && s.inbox == Silent
    ensures Arrives(s)
  {
    hide Inv, Arrives, Going, Returning, Recovering;
    match course
    case Forward => ForwardArrives(s);
    case Back => BackArrives(s);
    case Undo => UndoArrives(s);
  }

  lemma ForwardArrives(s: System)
    requires Inv(s) && Going(s) && s.state != State.Idle && s.inbox == Silent
    ensures Arrives(s)
  {
    hide Inv, Arrives;
    SilentWaits(s);
    match s.state
    case AwaitResolve => ResolveArrives(s);
    case AwaitAnchor => AnchorArrives(s);
    case AwaitAux => AuxArrives(s);
    case AwaitChange => ChangeArrives(s);
    case _ =>
  }

  lemma BackArrives(s: System)
    requires Inv(s) && Returning(s) && s.state != State.Idle && s.inbox == Silent
    ensures Arrives(s)
  {
    hide Inv, Arrives;
    SilentWaits(s);
    match s.state
    case AwaitReanchor => ReanchorArrives(s);
    case AwaitPostAux => PostAuxArrives(s);
    case _ =>
  }

  lemma UndoArrives(s: System)
    requires Inv(s) && Recovering(s) && s.state != State.Idle && s.inbox == Silent
    ensures Arrives(s)
  {
    hide Inv, Arrives;
    SilentWaits(s);
    match s.state
    case AwaitRollback => RollbackArrives(s);
    case _ =>
  }

  lemma ResolveArrives(s: System)
    requires s.state == State.AwaitResolve && s.inbox == Silent && Inv(s) && Going(s)
    ensures Arrives(s)
  {
  }

  lemma AnchorArrives(s: System)
    requires s.state == State.AwaitAnchor && s.inbox == Silent && Inv(s) && Going(s)
    ensures Arrives(s)
  {
  }

  lemma ReanchorArrives(s: System)
    requires s.state == State.AwaitReanchor && s.inbox == Silent && Inv(s) && Returning(s)
    ensures Arrives(s)
  {
  }

  lemma AuxArrives(s: System)
    requires s.state == State.AwaitAux && s.inbox == Silent && Inv(s) && Going(s)
    ensures Arrives(s)
  {
  }

  lemma PostAuxArrives(s: System)
    requires s.state == State.AwaitPostAux && s.inbox == Silent && Inv(s) && Returning(s)
    ensures Arrives(s)
  {
  }

  lemma ChangeArrives(s: System)
    requires s.state == State.AwaitChange && s.inbox == Silent && Inv(s) && Going(s)
    ensures Arrives(s)
  {
  }

  lemma RollbackArrives(s: System)
    requires s.state == State.AwaitRollback && s.inbox == Silent && Inv(s) && Recovering(s)
    ensures Arrives(s)
  {
  }

  /** From everywhere on its course an operation has a kind run to its end. */
  lemma {:induction false} EndIsReached(course: Course, s: System)
    requires On(course, s)
    ensures CanEnd(s)
    decreases Rank(s.state), if s.inbox.Posts? then 0 else 1
  {
    hide On, Acted, GoodEvent, CanEnd, Answer;
    if s.state == State.Idle {
      EndedAlready(s);
    } else if s.inbox.Posts? {
      var a := Deliver(KIND);
      assert GoodLucks(KIND);
      OnDeliver(course, s, KIND);
      DeliveredDescends(s, KIND);
      EndIsReached(course, Acted(s, a));
      EndsLater(s, a);
    } else {
      AnswersArrive(course, s);
      var (e, f) := Answer(s);
      var once := Acted(s, Around(e));
      OnActed(course, s, Around(e));
      var twice := Acted(once, Around(f));
      OnActed(course, once, Around(f));
      OnActed(course, twice, Poll);
      PollKeepsState(twice);
      EndIsReached(course, Acted(twice, Poll));
      EndsLater(twice, Poll);
      EndsLater(once, Around(f));
      EndsLater(s, Around(e));
    }
  }

  lemma EndedAlready(s: System)
    requires s.state == State.Idle
    ensures CanEnd(s)
  {
    assert GoodRun(s, []) && Run(s, []) == s;
  }

  lemma PollKeepsState(s: System)
    ensures Acted(s, Poll).state == s.state
  {
    hide Polled;
  }

  lemma DeliveredDescends(s: System, lucks: Lucks)
    requires s.inbox.Posts? && s.state != State.Idle && Choice(s.state, s.inbox.value) != 0
    ensures Acted(s, Deliver(lucks)) == Transitioned(s, s.inbox.value, lucks)
    ensures Rank(Acted(s, Deliver(lucks)).state) < Rank(s.state)
  {
    hide RunRow, Choice, NextAt, EffectsAt, Rank;
    RankDecreases(s.state, s.inbox.value);
  }

  /** A new disk that belongs to the loaded game is changed to; one of another game is launched. */
  lemma ResolvedExactly(s: System, id: nat)
    requires On(Forward, s) && s.state == State.AwaitResolve && s.inbox == Silent && s.world.service.check.CheckPending?
    requires id > 0
    ensures s.world.service.game.Loaded?
    ensures var polled := Acted(Acted(s, Around(CheckAnswered(true, id))), Poll);
      var after := Acted(polled, Deliver(KIND));
      && On(Forward, after)
      && (if id == s.world.service.game.id then after.state == State.CheckAux && !after.world.op.request.launch
          else after.state == State.AwaitAnchor && after.world.op.request.launch)
  {
    hide On, StartLaunch, PlanAux;
    var answered := Acted(s, Around(CheckAnswered(true, id)));
    OnActed(Forward, s, Around(CheckAnswered(true, id)));
    OnActed(Forward, answered, Poll);
    var polled := Acted(answered, Poll);
    assert GoodLucks(KIND);
    OnActed(Forward, polled, Deliver(KIND));
    PolledResolved(s, id);
    if id == s.world.service.game.id {
      RunTwo(polled.world, Effect.RememberResolved, Effect.DecideAux, KIND);
      AuxIsNoLaunch(polled.world);
    } else {
      RunTwo(polled.world, Effect.RememberResolved, Effect.BeginLaunch, KIND);
      LaunchIsALaunch(polled.world);
    }
  }

  lemma PolledResolved(s: System, id: nat)
    requires On(Forward, s) && s.state == State.AwaitResolve && s.inbox == Silent && s.world.service.check.CheckPending?
    requires id > 0
    ensures s.world.service.game.Loaded?
    ensures var polled := Acted(Acted(s, Around(CheckAnswered(true, id))), Poll);
      && polled.state == s.state && polled.world.op == s.world.op && !s.world.op.request.launch
      && s.world.op.request.anchor && s.world.op.request.newHash.Just?
      && polled.inbox == Posts(if id == s.world.service.game.id then Value.Same else Value.Other)
  {
    hide Fresh, SavedOk, Original, Online, AsAsked;
  }

  lemma AuxIsNoLaunch(w: World)
    requires !w.op.request.launch
    ensures !PlanAux(w, ANY_LUCK).0.op.request.launch
  {
  }

  lemma LaunchIsALaunch(w: World)
    requires w.op.request.anchor && w.op.request.newHash.Just?
    ensures StartLaunch(w, ANY_LUCK).0.op.request.launch
  {
    hide SessionFor;
  }

  // ---- starts ----

  const QUIET: Service := Service(Loaded(7, 3), NoChange, NoCheck, map[7 := 3])

  const DISK: Disk := Disk("a", 0, 7)

  const OTHER_DISK: Disk := Disk("b", 0, 9)

  /** An active session for the disk in Drive 1, and nothing recorded yet. */
  function Playing(request: Request): World {
    World(Session.Active, Inserted(DISK), Empty, QUIET, Just(7), Nil, true,
      Operation(request, false, false, true, true, true, Value.None, InProgress, false, true, Inserted(DISK), Empty, Just(7)))
  }

  /** A session that has begun for a disk about to be mounted. */
  function BeforeLaunch(request: Request): World {
    World(Session.Starting, Empty, Empty, UNLOADED, Nil, Just(7), true,
      Operation(request, false, false, true, true, true, Value.None, InProgress, false, true, Empty, Empty, Just(7)))
  }

  const FIRST_LAUNCH: World := BeforeLaunch(
    Request.Request(true, true, true, Just(7), Nil, Nil, 0, Mount(DISK), Keep, NotSaved, NotSaved, false))

  const DISK_CHANGE: World := Playing(
    Request.Request(true, false, false, Just(9), Just(7), Nil, 3, Mount(OTHER_DISK), Keep, NotSaved, NotSaved, false))

  /** Both starts are what the theorems ask for, and each has a run to its end. */
  lemma StartsReachTheirEnds()
    ensures MayStart(FIRST_LAUNCH) && Steady(FIRST_LAUNCH) && Trusting(FIRST_LAUNCH)
    ensures MayStart(DISK_CHANGE) && Steady(DISK_CHANGE) && Trusting(DISK_CHANGE)
    ensures CanEnd(Submitted(FIRST_LAUNCH, KIND)) && CanEnd(Submitted(DISK_CHANGE, KIND))
  {
    hide Submitted, CanEnd, On;
    assert GoodLucks(KIND);
    SubmittedGoes(FIRST_LAUNCH, KIND);
    SubmittedGoes(DISK_CHANGE, KIND);
    EndIsReached(Forward, Submitted(FIRST_LAUNCH, KIND));
    EndIsReached(Forward, Submitted(DISK_CHANGE, KIND));
  }

  /** The disk change asks the service about its new disk, so that both answers of ResolvedExactly can come. */
  lemma DiskChangeAsks()
    ensures var s := Acted(Acted(Submitted(DISK_CHANGE, KIND), Deliver(KIND)), Deliver(KIND));
      && On(Forward, s) && s.state == State.AwaitResolve && s.inbox == Silent
      && s.world.service.check == CheckPending(9, 3)
  {
    hide On, Submitted, Acted, RunRow;
    StartsReachTheirEnds();
    assert GoodLucks(KIND);
    SubmittedGoes(DISK_CHANGE, KIND);
    var first := Submitted(DISK_CHANGE, KIND);
    OnActed(Forward, first, Deliver(KIND));
    OnActed(Forward, Acted(first, Deliver(KIND)), Deliver(KIND));
    ChangeSubmitted();
    ChangePlanned();
    ChangeAsked();
  }

  /** The disk change once its drives are saved. */
  function Prepared(): World {
    PrepareMounts(DISK_CHANGE, ANY_LUCK).0
  }

  lemma ChangeSubmitted()
    ensures Submitted(DISK_CHANGE, KIND) == System(State.Prepare, Prepared(), Posts(Value.Ok))
  {
    assert EffectsAt(0) == [Effect.AcceptPrepare];
    RunOne(DISK_CHANGE, Effect.AcceptPrepare, KIND);
  }

  lemma ChangePlanned()
    ensures Acted(System(State.Prepare, Prepared(), Posts(Value.Ok)), Deliver(KIND)) ==
      System(State.Plan, Prepared(), Posts(Value.Resolve))
  {
    RunOne(Prepared(), Effect.DecidePlan, KIND);
  }

  lemma ChangeAsked()
    ensures var s := Acted(System(State.Plan, Prepared(), Posts(Value.Resolve)), Deliver(KIND));
      s.state == State.AwaitResolve && s.inbox == Silent && s.world.service.check == CheckPending(9, 3)
  {
    RunOne(Prepared(), Effect.ResolveAnchor, KIND);
  }

  /** A disk change with a reset that went Offline and then mounted its disk. */
  const FALLEN: System := System(State.Commit,
    World(Session.Offline, Inserted(OTHER_DISK), Empty, UNLOADED, Nil, Nil, true,
      Operation(
        Request.Request(true, true, false, Just(9), Just(7), Nil, 3, Mount(OTHER_DISK), Keep, SavedAs(Inserted(DISK)), NotSaved, false),
        true, false, true, true, true, Value.None, InProgress, true, true, Inserted(DISK), Empty, Just(7))),
    Posts(Value.Ok))

  /** A disk change whose mount failed and left Drive 1 empty. */
  const UNMOUNTED: System := System(State.Commit,
    World(Session.Active, Empty, Empty, Service(Loaded(9, 3), NoChange, NoCheck, map[7 := 3, 9 := 3]), Just(7), Nil, true,
      Operation(
        Request.Request(true, false, false, Just(9), Just(7), Nil, 3, Mount(OTHER_DISK), Keep, SavedAs(Inserted(DISK)), NotSaved, false),
        false, true, true, true, true, Value.None, InProgress, false, true, Inserted(DISK), Empty, Just(7))),
    Posts(Value.Failed))

  lemma FallsReachTheirEnds()
    ensures Inv(FALLEN) && Fallen(FALLEN.world) && CanEnd(FALLEN)
    ensures Inv(UNMOUNTED) && Unfallen(UNMOUNTED.world) && CanEnd(UNMOUNTED)
  {
    hide CanEnd;
    EndIsReached(Back, FALLEN);
    EndIsReached(Undo, UNMOUNTED);
  }
}

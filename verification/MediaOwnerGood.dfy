/**
 * What a media operation comes to when nothing goes wrong, or nothing but the mounts: it ends as asked in an active
 * session, or gives back the session and the drives it found.
 */
module MediaOwnerGood {
  import opened MediaTable
  import opened MediaOwner
  import opened MediaOwnerProofs

  // ---- a kind environment ----

  predicate GoodLuck(luck: Luck) {
    && luck.probes && luck.resolves && luck.registers && luck.profile && luck.loggedIn && luck.sent
    && luck.first.Opens? && luck.second.Opens?
  }

  predicate GoodLucks(lucks: seq<Luck>) {
    forall k :: 0 <= k < |lucks| ==> GoodLuck(lucks[k])
  }

  /** The service answers well: loads succeed, and a checked disk belongs to the game, or to another when that is asked. */
  predicate GoodEvent(s: System, e: Outer) {
    match e
    case LoadBegins => true
    case LoadEnds(ok, id) => ok && id > 0
    case CheckAnswered(answered, id) =>
      answered && (if s.state == State.AwaitResolve then id > 0 else id == s.world.op.request.expected)
    case PreflightAnswered(answered, id) => answered && (s.world.service.game.Loaded? ==> id == s.world.service.game.id)
    case ChangeAnswered(ok) => ok
    case Reachability(connected, signal) => connected && signal != DisconnectedSignal
    case EjectSecond => true
  }

  predicate GoodAction(s: System, a: Action) {
    match a
    case Deliver(lucks) => GoodLucks(lucks)
    case Poll => true
    case LaunchFails => false
    case Around(event) => GoodEvent(s, event)
  }

  predicate GoodRun(s: System, actions: seq<Action>)
    decreases |actions|
  {
    actions == [] || (GoodAction(s, actions[0]) && GoodRun(Acted(s, actions[0]), actions[1..]))
  }

  // ---- on the way to a good end ----

  /** Connected, and neither Offline nor on the way there. */
  predicate Steady(w: World) {
    && w.connected && !w.op.ended
    && (w.session == Session.Starting || w.session == Session.Active)
  }

  /** The service knows of no other game for the disk of Drive 2, and of some game for a cached new disk. */
  predicate Trusting(w: World) {
    var s, r := w.service, w.op.request;
    if r.launch then s.game != Disabled && OneGame(s)
    else
      && s.game.Loaded? && r.expected == s.game.id > 0
      && (r.auxHash.Just? && r.auxHash.value in s.verified ==> s.verified[r.auxHash.value] == r.expected)
      && (r.newHash.Just? && r.newHash.value in s.verified ==> s.verified[r.newHash.value] > 0)
  }

  predicate OneGame(s: Service) {
    forall h :: h in s.verified ==> s.game.Loaded? && s.verified[h] == s.game.id
  }

  /** A new disk for the active session is known to be of its game. */
  predicate NewIsKnown(w: World) {
    w.op.request.anchor && !w.op.request.launch ==>
      w.op.request.newHash.Just? && VerifiedNow(w.service, w.op.request.newHash.value)
  }

  predicate CheckGoesWell(w: World) {
    w.service.check.CheckPending? || w.service.check.CheckOk?
  }

  predicate GoingResolve(w: World, inbox: Reply) {
    && Trusting(w)
    && (inbox == Silent ==>
          CheckGoesWell(w) || (w.service.check.CheckFailed? && w.service.check.different && w.service.check.id > 0))
    && (inbox.Posts? ==> inbox.value == Value.Other || (inbox.value == Value.Same && NewIsKnown(w)))
  }

  predicate GoingAux(w: World, inbox: Reply) {
    && Trusting(w) && NewIsKnown(w)
    && (inbox == Silent ==> CheckGoesWell(w))
    && (inbox.Posts? ==> inbox.value == Value.Same)
  }

  predicate GoingPlan(w: World, inbox: Reply) {
    && Trusting(w) && NewIsKnown(w) && inbox != Posts(Value.Fallback)
    && (inbox == Posts(Value.Query) ==> w.op.request.auxHash.Just?)
  }

  predicate GoingChange(w: World, inbox: Reply) {
    && (inbox == Silent ==> w.service.change.ChangePending? || w.service.change.ChangeOk?)
    && (inbox.Posts? ==> inbox.value == Value.Ok)
  }

  /** Together with Inv: nothing has gone wrong yet. */
  predicate Going(s: System) {
    var w, inbox := s.world, s.inbox;
    match s.state
    case Idle => w.op.ending == EndedWell && w.session == Session.Active && w.pending == Nil
    case Prepare => Steady(w) && Trusting(w) && inbox == Posts(Value.Ok)
    case Plan => Steady(w) && Trusting(w)
    case AwaitResolve => Steady(w) && GoingResolve(w, inbox)
    case AwaitAnchor => Steady(w) && Trusting(w) && w.op.request.launch && inbox != Posts(Value.Unavailable)
    case CheckAux => Steady(w) && GoingPlan(w, inbox)
    case AwaitAux => Steady(w) && GoingAux(w, inbox)
    case Advance => Steady(w) && NewIsKnown(w)
    case AwaitChange => Steady(w) && GoingChange(w, inbox)
    case Commit => Steady(w) && inbox == Posts(Value.Ok)
    case Finalize => Steady(w)
    case AwaitReset => Steady(w)
    case _ => false
  }

  // ---- what good answers do to a waiting operation ----

  lemma GoodPollResolve(w: World)
    requires InAwaitResolve(w, Silent) && Steady(w) && GoingResolve(w, Silent)
    ensures var (after, reply) := Polled(w, State.AwaitResolve); Steady(after) && GoingResolve(after, reply)
  {
  }

  lemma GoodPollAnchor(w: World)
    requires InAwaitAnchor(w, Silent) && Steady(w) && Trusting(w) && w.op.request.launch
    ensures var (after, reply) := Polled(w, State.AwaitAnchor); after == w && reply != Posts(Value.Unavailable)
  {
  }

  lemma GoodPollAux(w: World)
    requires InAwaitAux(w, Silent) && Steady(w) && GoingAux(w, Silent)
    ensures var (after, reply) := Polled(w, State.AwaitAux); Steady(after) && GoingAux(after, reply)
  {
  }

  lemma GoodPollChange(w: World)
    requires InAwaitChange(w, Silent) && Steady(w) && GoingChange(w, Silent)
    ensures var (after, reply) := Polled(w, State.AwaitChange); Steady(after) && GoingChange(after, reply)
  {
  }

  lemma GoodPoll(s: System)
    requires Inv(s) && Going(s) && s.state != State.Idle && s.inbox == Silent
    ensures Going(Acted(s, Poll))
  {
    hide InAwaitResolve, InAwaitAnchor, InAwaitAux, InAwaitChange, GoingResolve, GoingAux, GoingChange, Steady, Trusting, Polled;
    SilentWaits(s);
    match s.state
    case AwaitResolve => GoodPollResolve(s.world);
    case AwaitAnchor => GoodPollAnchor(s.world);
    case AwaitAux => GoodPollAux(s.world);
    case AwaitChange => GoodPollChange(s.world);
    case _ =>
  }

  lemma GoodAroundResolve(s: System, e: Outer)
    requires s.state == State.AwaitResolve && InAwaitResolve(s.world, Silent) && GoodEvent(s, e)
    requires Steady(s.world) && GoingResolve(s.world, Silent)
    ensures Steady(Happened(s.world, e)) && GoingResolve(Happened(s.world, e), Silent)
  {
  }

  lemma GoodAroundAnchor(s: System, e: Outer)
    requires s.state == State.AwaitAnchor && InAwaitAnchor(s.world, Silent) && GoodEvent(s, e)
    requires Steady(s.world) && Trusting(s.world) && s.world.op.request.launch
    ensures Steady(Happened(s.world, e)) && Trusting(Happened(s.world, e)) && Happened(s.world, e).op.request.launch
  {
  }

  lemma GoodAroundAux(s: System, e: Outer)
    requires s.state == State.AwaitAux && InAwaitAux(s.world, Silent) && GoodEvent(s, e)
    requires Steady(s.world) && GoingAux(s.world, Silent)
    ensures Steady(Happened(s.world, e)) && GoingAux(Happened(s.world, e), Silent)
  {
  }

  lemma GoodAroundChange(s: System, e: Outer)
    requires s.state == State.AwaitChange && InAwaitChange(s.world, Silent) && GoodEvent(s, e)
    requires Steady(s.world) && GoingChange(s.world, Silent)
    ensures Steady(Happened(s.world, e)) && GoingChange(Happened(s.world, e), Silent)
  {
  }

  lemma GoodAround(s: System, e: Outer)
    requires Inv(s) && Going(s) && s.state != State.Idle && s.inbox == Silent && GoodEvent(s, e)
    ensures Going(Acted(s, Around(e)))
  {
    hide InAwaitResolve, InAwaitAnchor, InAwaitAux, InAwaitChange, GoingResolve, GoingAux, GoingChange, Steady, Trusting,
      Happened, GoodEvent;
    SilentWaits(s);
    match s.state
    case AwaitResolve => GoodAroundResolve(s, e);
    case AwaitAnchor => GoodAroundAnchor(s, e);
    case AwaitAux => GoodAroundAux(s, e);
    case AwaitChange => GoodAroundChange(s, e);
    case _ =>
  }

  // ---- what a kind row does ----

  lemma GoodResolve(w: World, luck: Luck)
    requires InPlan(w, Posts(Value.Resolve)) && Steady(w) && Trusting(w) && GoodLuck(luck)
    ensures var (after, reply) := ResolveHash(w, luck); Steady(after) && GoingResolve(after, reply)
  {
  }

  lemma GoodLaunch(w: World, luck: Luck)
    requires Before(w) && Calm(w) && Steady(w) && GoodLuck(luck)
    requires w.op.request.launch ==> Trusting(w)
    requires w.op.request.launch || w.op.request.anchor
    ensures var (after, reply) := StartLaunch(w, luck);
      Steady(after) && Trusting(after) && after.op.request.launch && reply == Silent
  {
  }

  lemma GoodPlanAux(w: World, luck: Luck)
    requires Before(w) && NoAuxYet(w.op.request) && Steady(w) && Trusting(w) && NewIsKnown(w) && GoodLuck(luck)
    ensures var (after, reply) := PlanAux(w, luck);
      Steady(after) && GoingPlan(after, reply)
  {
  }

  lemma GoodNoteLaunch(w: World)
    requires Steady(w) && Trusting(w) && w.op.request.launch
    ensures var after := NoteLaunch(w);
      Steady(after) && Trusting(after) && NewIsKnown(after) && after.op.request.launch
  {
  }

  lemma GoodCheckSecond(w: World, luck: Luck)
    requires InCheckAux(w, Posts(Value.Query)) && Steady(w) && GoingPlan(w, Posts(Value.Query)) && GoodLuck(luck)
    ensures var (after, reply) := CheckSecond(w, luck); Steady(after) && GoingAux(after, reply)
  {
  }

  lemma GoodChangeTo(w: World, luck: Luck)
    requires InAdvance(w, Posts(Value.Change)) && Steady(w) && NewIsKnown(w) && GoodLuck(luck)
    ensures var (after, reply) := ChangeTo(w, w.op.request.newHash, luck); Steady(after) && GoingChange(after, reply)
  {
  }

  lemma GoodCommit(w: World, luck: Luck)
    requires Steady(w) && GoodLuck(luck)
    ensures var (after, reply) := CommitMounts(w, luck); Steady(after) && reply == Posts(Value.Ok)
  {
  }

  lemma GoodActivation(w: World)
    requires w.session == Session.Starting
    ensures var after := Complete(Activate(w), EndedWell);
      after.session == Session.Active && after.op.ending == EndedWell && after.pending == Nil
  {
    hide LaunchJustified;
  }

  // ---- a delivery on the way to a good end ----

  predicate GoesOn(s: System, lucks: Lucks) {
    && s.inbox.Posts? && Choice(s.state, s.inbox.value) != 0
    && Going(Transitioned(s, s.inbox.value, lucks))
  }

  predicate GoodDue(s: System, lucks: Lucks, state: State) {
    Due(s, state) && Going(s) && GoodLucks(lucks)
  }

  lemma GoPrepare(s: System, lucks: Lucks)
    requires GoodDue(s, lucks, State.Prepare)
    ensures GoesOn(s, lucks)
  {
    hide RequestOk, Plain, Launching, Steady, Trusting;
    RunOne(s.world, Effect.DecidePlan, lucks);
  }

  lemma GoPlan(s: System, lucks: Lucks)
    requires GoodDue(s, lucks, State.Plan)
    ensures GoesOn(s, lucks)
  {
    hide RequestOk, Plain, Launching, ResolveHash, StartLaunch, PlanAux, Steady, Trusting, GoingResolve, GoingPlan,
      VerifiedNow;
    var w := s.world;
    if s.inbox.value == Value.Resolve {
      RunOne(w, Effect.ResolveAnchor, lucks);
      GoodResolve(w, lucks[0]);
    } else if s.inbox.value == Value.Launch {
      RunOne(w, Effect.BeginLaunch, lucks);
      GoodLaunch(w, lucks[0]);
    } else {
      RunOne(w, Effect.DecideAux, lucks);
      GoodPlanAux(w, lucks[0]);
    }
  }

  lemma GoAwaitResolve(s: System, lucks: Lucks)
    requires GoodDue(s, lucks, State.AwaitResolve)
    ensures GoesOn(s, lucks)
  {
    hide RequestOk, StartLaunch, PlanAux, Steady, Trusting, GoingPlan, NewIsKnown;
    var w := s.world;
    if s.inbox.value == Value.Same {
      RunTwo(w, Effect.RememberResolved, Effect.DecideAux, lucks);
      GoodPlanAux(w, lucks[1]);
    } else {
      RunTwo(w, Effect.RememberResolved, Effect.BeginLaunch, lucks);
      NothingToCheck(w);
      GoodLaunch(w, lucks[1]);
    }
  }

  lemma NothingToCheck(w: World)
    requires InAwaitResolve(w, Posts(Value.Other))
    ensures Calm(w) && !w.op.request.launch
  {
  }

  lemma GoAwaitAnchor(s: System, lucks: Lucks)
    requires GoodDue(s, lucks, State.AwaitAnchor)
    ensures GoesOn(s, lucks)
  {
    hide RequestOk, Plain, NoteLaunch, PlanAux, Steady, Trusting, GoingPlan, NewIsKnown;
    var w := s.world;
    RunTwo(w, Effect.RememberLaunch, Effect.DecideAux, lucks);
    GoodNoteLaunch(w);
    NotedBefore(w);
    GoodPlanAux(NoteLaunch(w), lucks[1]);
  }

  lemma NotedBefore(w: World)
    requires Before(w) && NoAuxYet(w.op.request)
    ensures Before(NoteLaunch(w)) && NoAuxYet(NoteLaunch(w).op.request)
  {
  }

  lemma GoCheckAux(s: System, lucks: Lucks)
    requires GoodDue(s, lucks, State.CheckAux)
    ensures GoesOn(s, lucks)
  {
    hide RequestOk, Plain, LaunchLoaded, CheckSecond, Steady, Trusting, NewIsKnown, GoingAux;
    var w := s.world;
    if s.inbox.value == Value.Satisfied {
      RunOne(w, Effect.DecideAdvance, lucks);
    } else {
      RunOne(w, Effect.VerifyAux, lucks);
      GoodCheckSecond(w, lucks[0]);
    }
  }

  lemma GoAwaitAux(s: System, lucks: Lucks)
    requires GoodDue(s, lucks, State.AwaitAux)
    ensures GoesOn(s, lucks)
  {
    hide RequestOk, Plain, LaunchLoaded, Steady, Trusting, NewIsKnown;
    RunTwo(s.world, Effect.RememberVerified, Effect.DecideAdvance, lucks);
  }

  lemma GoAdvance(s: System, lucks: Lucks)
    requires GoodDue(s, lucks, State.Advance)
    ensures GoesOn(s, lucks)
  {
    hide RequestOk, Plain, LaunchLoaded, CommitMounts, ChangeTo, Steady, NewIsKnown, GoingChange;
    var w := s.world;
    if s.inbox.value == Value.Commit {
      RunOne(w, Effect.ApplyVm, lucks);
      GoodCommit(w, lucks[0]);
    } else {
      RunOne(w, Effect.ChangeActive, lucks);
      GoodChangeTo(w, lucks[0]);
    }
  }

  lemma GoAwaitChange(s: System, lucks: Lucks)
    requires GoodDue(s, lucks, State.AwaitChange)
    ensures GoesOn(s, lucks)
  {
    hide RequestOk, Changing, CommitMounts, Steady;
    var w := s.world;
    RunTwo(w, Effect.RememberChanged, Effect.ApplyVm, lucks);
    var noted := w.(op := w.op.(changed := true));
    assert Steady(noted) by { StillSteady(w, noted); }
    GoodCommit(noted, lucks[1]);
  }

  lemma StillSteady(w: World, after: World)
    requires Steady(w) && after.connected == w.connected && after.op.ended == w.op.ended && after.session == w.session
    ensures Steady(after)
  {
  }

  lemma GoCommit(s: System, lucks: Lucks)
    requires GoodDue(s, lucks, State.Commit)
    ensures GoesOn(s, lucks)
  {
    hide Committed, Failing, FinishValue, Steady;
    var w := s.world;
    RunOne(w, Effect.DecideFinish, lucks);
    StillSteady(w, PlanFinish(w).0);
  }

  lemma CommittedSession(w: World)
    requires Committed(w) && Steady(w)
    ensures FinishValue(w.op) != Value.Launch ==> w.pending == Nil
    ensures w.session == (if FinishValue(w.op) == Value.Launch then Session.Starting else Session.Active)
    ensures FinishValue(w.op) in {Value.Launch, Value.Preserve, Value.None}
  {
  }

  lemma GoFinalize(s: System, lucks: Lucks)
    requires GoodDue(s, lucks, State.Finalize)
    ensures GoesOn(s, lucks)
  {
    hide Committed, FinishValue, Steady;
    var w := s.world;
    CommittedSession(w);
    if s.inbox.value == Value.None {
      RunOne(w, Effect.CompleteSuccess, lucks);
    } else {
      RunOne(w, Effect.ResetVm, lucks);
    }
  }

  lemma GoReset(s: System, lucks: Lucks)
    requires GoodDue(s, lucks, State.AwaitReset) && s.inbox.value == Value.Preserve
    ensures GoesOn(s, lucks)
  {
    hide Committed, FinishValue, Steady, RunRow;
    CommittedSession(s.world);
    RunTwo(s.world, Effect.ResetProgress, Effect.CompleteSuccess, lucks);
  }

  lemma GoLaunch(s: System, lucks: Lucks)
    requires GoodDue(s, lucks, State.AwaitReset) && s.inbox.value == Value.Launch
    ensures GoesOn(s, lucks)
  {
    hide Committed, FinishValue, Steady, RunRow, Activate, Complete;
    CommittedSession(s.world);
    ActivationRow(s.world, lucks);
    GoodActivation(s.world);
  }

  lemma ResetIsExpected(s: System)
    requires Due(s, State.AwaitReset) && Going(s)
    ensures s.inbox.value == Value.Launch || s.inbox.value == Value.Preserve
  {
    hide Committed, FinishValue, Steady;
    CommittedSession(s.world);
  }

  lemma GoAwaitReset(s: System, lucks: Lucks)
    requires GoodDue(s, lucks, State.AwaitReset)
    ensures GoesOn(s, lucks)
  {
    hide GoesOn, Inv, Going, GoodLucks;
    ResetIsExpected(s);
    if s.inbox.value == Value.Preserve {
      GoReset(s, lucks);
    } else {
      GoLaunch(s, lucks);
    }
  }

  lemma GoDeliver(s: System, lucks: Lucks)
    requires Inv(s) && Going(s) && s.state != State.Idle && s.inbox.Posts? && GoodLucks(lucks)
    ensures GoesOn(s, lucks)
  {
    hide Inv, GoesOn, GoodLucks;
    assert Due(s, s.state);
    match s.state
    case Prepare => GoPrepare(s, lucks);
    case Plan => GoPlan(s, lucks);
    case AwaitResolve => GoAwaitResolve(s, lucks);
    case AwaitAnchor => GoAwaitAnchor(s, lucks);
    case CheckAux => GoCheckAux(s, lucks);
    case AwaitAux => GoAwaitAux(s, lucks);
    case Advance => GoAdvance(s, lucks);
    case AwaitChange => GoAwaitChange(s, lucks);
    case Commit => GoCommit(s, lucks);
    case Finalize => GoFinalize(s, lucks);
    case AwaitReset => GoAwaitReset(s, lucks);
    case _ =>
  }

  lemma GoActed(s: System, a: Action)
    requires Inv(s) && Going(s) && GoodAction(s, a)
    ensures Inv(Acted(s, a)) && Going(Acted(s, a))
  {
    hide Inv, Going, GoodEvent, GoodLucks;
    ActedKeeps(s, a);
    if s.state != State.Idle {
      match a
      case Deliver(lucks) =>
        if s.inbox.Posts? { GoDeliver(s, lucks); }
      case Poll =>
        if s.inbox == Silent { GoodPoll(s); }
      case Around(event) =>
        if s.inbox == Silent { GoodAround(s, event); }
    }
  }

  lemma {:induction false} GoRun(s: System, actions: seq<Action>)
    requires Inv(s) && Going(s) && GoodRun(s, actions)
    ensures Inv(Run(s, actions)) && Going(Run(s, actions))
    decreases |actions|
  {
    hide Inv, Going, GoodAction;
    if actions != [] {
      GoActed(s, actions[0]);
      GoRun(Acted(s, actions[0]), actions[1..]);
    }
  }
}

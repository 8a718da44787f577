/** How often an operation resets the VM and the RA progress: what the finish plan decides, counted over whole runs. */
module MediaOwnerResets {
  import opened MediaTable
  import opened MediaOwner
  import opened MediaOwnerProofs

  /** The step runs a row that has this effect. */
  predicate Runs(s: System, a: Action, effect: Effect) {
    && a.Deliver? && s.inbox.Posts? && s.state != State.Idle && Choice(s.state, s.inbox.value) != 0
    && effect in EffectsAt(Choice(s.state, s.inbox.value) - 1)
  }

  /** The step resets the VM: its effect does so only for a request that asks for it. */
  predicate ResetsVm(s: System, a: Action) {
    Runs(s, a, Effect.ResetVm) && s.world.op.request.reset
  }

  function VmTimes(s: System, actions: seq<Action>): nat
    decreases |actions|
  {
    if actions == [] then 0
    else (if ResetsVm(s, actions[0]) then 1 else 0) + VmTimes(Acted(s, actions[0]), actions[1..])
  }

  function ProgressTimes(s: System, actions: seq<Action>): nat
    decreases |actions|
  {
    if actions == [] then 0
    else (if Runs(s, actions[0], Effect.ResetProgress) then 1 else 0) + ProgressTimes(Acted(s, actions[0]), actions[1..])
  }

  // ---- how often it must be by now ----

  /** The operation went through and was to reset: by request, or because it is a launch that was activated. */
  predicate WasToReset(w: World) {
    w.op.ending == EndedWell && (w.op.request.reset || (w.op.request.launch && w.session != Session.Offline))
  }

  function OnceIfAsked(w: World): nat {
    if w.op.request.reset then 1 else 0
  }

  function VmResets(s: System): nat {
    match s.state
    case Idle => if s.world.op.ending == EndedWell then OnceIfAsked(s.world) else 0
    case AwaitReset => OnceIfAsked(s.world)
    case AwaitReanchor => OnceIfAsked(s.world)
    case CheckPostAux => OnceIfAsked(s.world)
    case AwaitPostAux => OnceIfAsked(s.world)
    case _ => 0
  }

  function ProgressResets(s: System): nat {
    if s.state == State.Idle && WasToReset(s.world) && s.world.session != Session.Offline then 1 else 0
  }

  /** A session is brought back only for a request to reset. */
  predicate Asked(s: System) {
    s.state == State.AwaitReanchor || s.state == State.CheckPostAux || s.state == State.AwaitPostAux ==>
      s.world.op.request.reset
  }

  /** The step resets as often as the counts say. */
  predicate Counts(s: System, a: Action) {
    var after := Acted(s, a);
    && Asked(after)
    && VmResets(after) == VmResets(s) + (if ResetsVm(s, a) then 1 else 0)
    && ProgressResets(after) == ProgressResets(s) + (if Runs(s, a, Effect.ResetProgress) then 1 else 0)
  }

  // ---- the table ----

  lemma FirstRowsReset(index: nat)
    requires index < 32
    ensures Effect.ResetVm !in EffectsAt(index) && Effect.ResetProgress !in EffectsAt(index)
  {
  }

  lemma LastRowsReset(index: nat)
    requires 32 <= index < TRANSITION_COUNT
    ensures Effect.ResetVm in EffectsAt(index) <==> index == 32
    ensures Effect.ResetProgress in EffectsAt(index) <==> index in {34, 35, 40, 43}
  {
  }

  lemma Delivered(s: System, lucks: Lucks)
    requires s.inbox.Posts? && s.state != State.Idle && Choice(s.state, s.inbox.value) != 0
    ensures Acted(s, Deliver(lucks)) == Transitioned(s, s.inbox.value, lucks)
    ensures forall effect :: Runs(s, Deliver(lucks), effect) <==>
      effect in EffectsAt(Choice(s.state, s.inbox.value) - 1)
  {
    hide Choice, RunRow, EffectsAt, NextAt;
  }

  // ---- every delivery ----

  predicate Early(state: State) {
    || state == State.Plan || state == State.AwaitResolve || state == State.AwaitAnchor || state == State.CheckAux
    || state == State.AwaitAux || state == State.Advance || state == State.AwaitChange || state == State.Commit
    || state == State.Restore
  }

  /** Before the finish plan no row resets, and none ends the operation. */
  lemma EarlyRows(state: State, value: Value)
    requires Early(state) && Choice(state, value) != 0
    ensures Choice(state, value) <= 32
    ensures var next := NextAt(Choice(state, value) - 1);
      Early(next) || next == State.ChooseRollback || next == State.AwaitRollback || next == State.Finalize
  {
  }

  lemma EarlyCounts(s: System, lucks: Lucks)
    requires Due(s, s.state) && Early(s.state)
    ensures Counts(s, Deliver(lucks))
  {
    hide Choice, NextAt, EffectsAt, RunRow, Inv, Early;
    LaterThanEarly(s.state);
    DeliverKeeps(s, lucks);
    Delivered(s, lucks);
    EarlyRows(s.state, s.inbox.value);
    FirstRowsReset(Choice(s.state, s.inbox.value) - 1);
    LaterThanEarly(NextAt(Choice(s.state, s.inbox.value) - 1));
  }

  lemma LaterThanEarly(state: State)
    requires Early(state) || state == State.ChooseRollback || state == State.AwaitRollback || state == State.Finalize
    ensures state != State.Idle && state != State.AwaitReset && state != State.AwaitReanchor
    ensures state != State.CheckPostAux && state != State.AwaitPostAux
  {
  }

  lemma PrepareCounts(s: System, lucks: Lucks)
    requires Due(s, State.Prepare)
    ensures Counts(s, Deliver(lucks))
  {
    hide RequestOk, Plain, Launching;
    Delivered(s, lucks);
    FirstRowsReset(Choice(s.state, s.inbox.value) - 1);
    RunOne(s.world, if s.inbox.value == Value.Failed then Effect.RejectLocal else Effect.DecidePlan, lucks);
  }

  lemma RollbackCounts(s: System, lucks: Lucks)
    requires Due(s, State.ChooseRollback) || Due(s, State.AwaitRollback)
    ensures Counts(s, Deliver(lucks))
  {
    hide Inv, RunRow, EffectsAt, NextAt, Choice, WasToReset;
    DeliverKeeps(s, lucks);
    Delivered(s, lucks);
    RollbackTable();
    RollbackRows(s.world, lucks);
    RollbackChoice(s.state, s.inbox.value);
    FirstRowsReset(Choice(s.state, s.inbox.value) - 1);
    EndedBadlyIsNoReset(Acted(s, Deliver(lucks)).world);
  }

  lemma RollbackChoice(state: State, value: Value)
    requires (state == State.ChooseRollback || state == State.AwaitRollback) && Choice(state, value) != 0
    ensures 27 <= Choice(state, value) <= 31
    ensures NextAt(Choice(state, value) - 1) == if Choice(state, value) == 27 then State.AwaitRollback else State.Idle
  {
  }

  lemma EndedBadlyIsNoReset(w: World)
    ensures w.op.ending == EndedBadly ==> !WasToReset(w) && w.op.ending != EndedWell
  {
  }

  lemma RollbackTable()
    ensures EffectsAt(26) == [Effect.RollbackActive]
    ensures EffectsAt(27) == [Effect.EnterOffline, Effect.CompleteFailure] && EffectsAt(28) == [Effect.CompleteFailure]
    ensures EffectsAt(29) == [Effect.RememberRolledBack, Effect.CompleteFailure]
    ensures EffectsAt(30) == [Effect.EnterOffline, Effect.CompleteFailure]
  {
  }

  lemma RollbackRows(w: World, lucks: Lucks)
    ensures RunRow(w, [Effect.EnterOffline, Effect.CompleteFailure], lucks).0.op.ending == EndedBadly
    ensures RunRow(w, [Effect.CompleteFailure], lucks).0.op.ending == EndedBadly
    ensures RunRow(w, [Effect.RememberRolledBack, Effect.CompleteFailure], lucks).0.op.ending == EndedBadly
  {
    hide GoOffline, Complete, RunRow;
    CompletesBadly(GoOffline(w));
    CompletesBadly(w);
    CompletesBadly(w.(loaded := w.op.request.oldHash));
    RunTwo(w, Effect.EnterOffline, Effect.CompleteFailure, lucks);
    RunOne(w, Effect.CompleteFailure, lucks);
    RunTwo(w, Effect.RememberRolledBack, Effect.CompleteFailure, lucks);
  }

  lemma CompletesBadly(w: World)
    ensures Complete(w, EndedBadly).op.ending == EndedBadly
  {
  }

  lemma FinalizeRows()
    ensures Choice(State.Finalize, Value.None) == 32 && NextAt(31) == State.Idle && NextAt(32) == State.AwaitReset
    ensures EffectsAt(31) == [Effect.CompleteSuccess] && EffectsAt(32) == [Effect.ResetVm]
    ensures forall value :: value != Value.None && Choice(State.Finalize, value) != 0 ==> Choice(State.Finalize, value) == 33
  {
  }

  lemma FinishingWithout(s: System)
    requires Due(s, State.Finalize)
    ensures s.inbox.value == Value.None ==>
      !s.world.op.request.reset && (s.world.op.request.launch ==> s.world.session == Session.Offline)
  {
  }

  lemma FinalizeCounts(s: System, lucks: Lucks)
    requires Due(s, State.Finalize)
    ensures Counts(s, Deliver(lucks))
  {
    hide Inv, Choice, NextAt, EffectsAt, RunRow, Complete;
    DeliverKeeps(s, lucks);
    FinalizeRows();
    FinishingWithout(s);
    Delivered(s, lucks);
    if s.inbox.value == Value.None {
      FirstRowsReset(31);
      RunOne(s.world, Effect.CompleteSuccess, lucks);
      CompletesWell(s.world);
    } else {
      LastRowsReset(32);
      RunOne(s.world, Effect.ResetVm, lucks);
    }
  }

  lemma PreservedCounts(s: System, lucks: Lucks)
    requires Due(s, State.AwaitReset) && s.inbox.value == Value.Preserve
    ensures Counts(s, Deliver(lucks))
  {
    hide RunRow, Complete, Inv, Choice, EffectsAt, NextAt;
    PreserveRow();
    Delivered(s, lucks);
    LastRowsReset(34);
    ToBePreserved(s);
    RunTwo(s.world, Effect.ResetProgress, Effect.CompleteSuccess, lucks);
    CompletesWell(s.world);
  }

  lemma PreserveRow()
    ensures Choice(State.AwaitReset, Value.Preserve) == 35 && NextAt(34) == State.Idle
    ensures EffectsAt(34) == [Effect.ResetProgress, Effect.CompleteSuccess]
  {
  }

  lemma ToBePreserved(s: System)
    requires Due(s, State.AwaitReset) && s.inbox.value == Value.Preserve
    ensures s.world.op.request.reset && s.world.session != Session.Offline
  {
  }

  lemma CompletesWell(w: World)
    ensures var after := Complete(w, EndedWell);
      after.op.ending == EndedWell && after.op.request == w.op.request && after.session == w.session
  {
  }

  lemma LaunchedCounts(s: System, lucks: Lucks)
    requires Due(s, State.AwaitReset) && s.inbox.value == Value.Launch
    ensures Counts(s, Deliver(lucks))
  {
    hide RunRow, LaunchJustified;
    Delivered(s, lucks);
    LastRowsReset(35);
    ActivationRow(s.world, lucks);
  }

  lemma ReanchoringCounts(s: System, lucks: Lucks)
    requires Due(s, State.AwaitReset) && s.inbox.value == Value.Reanchor
    ensures Counts(s, Deliver(lucks))
  {
    hide AsAsked, StartReanchor, Committed;
    Delivered(s, lucks);
    LastRowsReset(36);
    RunOne(s.world, Effect.BeginReanchor, lucks);
    ReanchorKeepsRequest(s.world, lucks[0]);
  }

  lemma ReanchorKeepsRequest(w: World, luck: Luck)
    ensures StartReanchor(w, luck).0.op == w.op
  {
    hide TransitionSession;
  }

  lemma ResetCounts(s: System, lucks: Lucks)
    requires Due(s, State.AwaitReset)
    ensures Counts(s, Deliver(lucks))
  {
    hide Counts, Committed;
    if s.inbox.value == Value.Preserve {
      PreservedCounts(s, lucks);
    } else if s.inbox.value == Value.Launch {
      LaunchedCounts(s, lucks);
    } else {
      ReanchoringCounts(s, lucks);
    }
  }

  lemma ReanchorCounts(s: System, lucks: Lucks)
    requires Due(s, State.AwaitReanchor) && Asked(s)
    ensures Counts(s, Deliver(lucks))
  {
    hide AsAsked, GoOffline, Reanchoring, RunRow, PlanPostAux, NoteLaunch, Complete;
    Delivered(s, lucks);
    if s.inbox.value == Value.Ok {
      LastRowsReset(38);
      RunTwo(s.world, Effect.RememberLaunch, Effect.DecidePostAux, lucks);
      PostPlanKeepsReset(s.world, lucks[1]);
    } else {
      LastRowsReset(39);
      OfflineEndsRow(s.world, lucks);
    }
  }

  lemma PostPlanKeepsReset(w: World, luck: Luck)
    ensures PlanPostAux(NoteLaunch(w), luck).0.op.request.reset == w.op.request.reset
  {
    hide NoteLaunch, PlanPostAux;
    NotingKeepsReset(w);
    PlanningKeepsReset(NoteLaunch(w), luck);
  }

  lemma NotingKeepsReset(w: World)
    ensures NoteLaunch(w).op.request.reset == w.op.request.reset
  {
  }

  lemma PlanningKeepsReset(w: World, luck: Luck)
    ensures PlanPostAux(w, luck).0.op.request.reset == w.op.request.reset
  {
    hide WithRequest;
    var r := w.op.request;
    RequestIsReplaced(w, r.(auxHash := Nil));
    if w.second.Inserted? { RequestIsReplaced(w, r.(auxHash := Just(w.second.disk.hash))); }
  }

  lemma RequestIsReplaced(w: World, r: Request)
    ensures WithRequest(w, r).op.request == r
  {
  }

  lemma OfflineEndsRow(w: World, lucks: Lucks)
    requires w.session != Session.Ready
    ensures var after := RunRow(w, [Effect.EnterOffline, Effect.CompleteSuccess], lucks).0;
      after.session == Session.Offline && after.op.ending == EndedWell && after.op.request == w.op.request
  {
    RunTwo(w, Effect.EnterOffline, Effect.CompleteSuccess, lucks);
  }

  lemma ActivatedEndsRow(w: World)
    requires w.session == Session.Starting
    ensures var after := Complete(Activate(w), EndedWell);
      after.session == Session.Active && after.op.ending == EndedWell && after.op.request == w.op.request
  {
    hide LaunchJustified;
  }

  lemma PostCheckCounts(s: System, lucks: Lucks)
    requires Due(s, State.CheckPostAux) && Asked(s)
    ensures Counts(s, Deliver(lucks))
  {
    hide RunRow, Complete, Activate, Reanchoring, CheckSecond;
    Delivered(s, lucks);
    ReanchorIsStarting(s.world);
    if s.inbox.value == Value.Satisfied {
      LastRowsReset(40);
      ActivationRow(s.world, lucks);
      ActivatedEndsRow(s.world);
    } else if s.inbox.value == Value.Query {
      LastRowsReset(41);
      RunOne(s.world, Effect.VerifyAux, lucks);
      CheckKeepsRequest(s.world, lucks[0]);
    } else {
      LastRowsReset(42);
      OfflineEndsRow(s.world, lucks);
    }
  }

  lemma CheckKeepsRequest(w: World, luck: Luck)
    ensures CheckSecond(w, luck).0.op == w.op
  {
    hide BeginVerify, VerifiedNow;
  }

  lemma PostAuxCounts(s: System, lucks: Lucks)
    requires Due(s, State.AwaitPostAux) && Asked(s)
    ensures Counts(s, Deliver(lucks))
  {
    hide RunRow, Complete, Activate, Reanchoring;
    Delivered(s, lucks);
    ReanchorIsStarting(s.world);
    if s.inbox.value == Value.Same {
      LastRowsReset(43);
      RememberedRow(s.world, lucks);
      ActivatedEndsRow(s.world);
    } else {
      LastRowsReset(44);
      OfflineEndsRow(s.world, lucks);
    }
  }

  lemma DeliverCounts(s: System, lucks: Lucks)
    requires Inv(s) && Asked(s) && s.state != State.Idle && s.inbox.Posts?
    ensures Counts(s, Deliver(lucks))
  {
    hide Inv, Counts, Asked;
    assert Due(s, s.state);
    match s.state
    case Prepare => PrepareCounts(s, lucks);
    case ChooseRollback => RollbackCounts(s, lucks);
    case AwaitRollback => RollbackCounts(s, lucks);
    case Finalize => FinalizeCounts(s, lucks);
    case AwaitReset => ResetCounts(s, lucks);
    case AwaitReanchor => ReanchorCounts(s, lucks);
    case CheckPostAux => PostCheckCounts(s, lucks);
    case AwaitPostAux => PostAuxCounts(s, lucks);
    case _ => EarlyCounts(s, lucks);
  }

  lemma WaitingCounts(s: System, a: Action)
    requires Asked(s) && (a.Deliver? ==> s.state == State.Idle || s.inbox == Silent)
    ensures Counts(s, a)
  {
    hide Polled, Happened, Choice, EffectsAt;
    PolledRequest(s.world, s.state);
    if a.Around? { HappenedRequest(s.world, a.event); }
  }

  lemma PolledRequest(w: World, state: State)
    ensures Polled(w, state).0.op == w.op
  {
  }

  lemma HappenedRequest(w: World, e: Outer)
    ensures Happened(w, e).op.request == w.op.request
  {
    hide TransitionSession;
  }

  lemma {:induction false} RunCounts(s: System, actions: seq<Action>)
    requires Inv(s) && Asked(s)
    ensures VmResets(Run(s, actions)) == VmResets(s) + VmTimes(s, actions)
    ensures ProgressResets(Run(s, actions)) == ProgressResets(s) + ProgressTimes(s, actions)
    decreases |actions|
  {
    hide Inv, Acted, VmResets, ProgressResets, Runs, ResetsVm, Asked;
    if actions != [] {
      var a := actions[0];
      ActedKeeps(s, a);
      if a.Deliver? && s.state != State.Idle && s.inbox.Posts? {
        DeliverCounts(s, a.lucks);
      } else {
        WaitingCounts(s, a);
      }
      RunCounts(Acted(s, a), actions[1..]);
    }
  }

  /**
   * An operation that ends has reset the VM exactly once if it went through and the request asked for it, and else not
   * at all; and the RA progress exactly once if it went through without ending Offline and either the request asked for
   * a reset or it is a launch.
   */
  lemma ResetsExactly(w: World, lucks: Lucks, actions: seq<Action>)
    requires MayStart(w)
    ensures var s := Submitted(w, lucks);
      var end := Run(s, actions);
      var o := end.world.op;
      end.state == State.Idle ==>
        && VmTimes(s, actions) == (if o.ending == EndedWell && o.request.reset then 1 else 0)
        && ProgressTimes(s, actions) ==
             (if o.ending == EndedWell && end.world.session != Session.Offline && (o.request.reset || o.request.launch)
              then 1 else 0)
  {
    hide Inv, RunRow, VmTimes, ProgressTimes;
    SubmittedInv(w, lucks);
    RunCounts(Submitted(w, lucks), actions);
  }
}

/**
 * Single steps of a media operation seen from outside: what is asked of the service and when, when a commit goes
 * through, what a refusal leaves, and that an answered operation is never stuck.
 */
module MediaOwnerExact {
  import opened MediaTable
  import opened MediaRuns
  import opened MediaOwner
  import opened MediaOwnerProofs

  // ---- the session ----

  /** A lost connection comes back, and nothing else it does is undone by it. */
  lemma DisconnectionIsUndone(state: Session)
    ensures var lost := TransitionSession(state, DisconnectedSignal);
      && TransitionSession(lost, ReconnectedSignal) == (if state == Session.ActiveDisconnected then Session.Active else state)
      && (lost != state <==> state == Session.Active)
  {
  }

  /** Active is entered only by a launch that succeeded, or from a lost connection; Offline is left only by stopping. */
  lemma SessionGraph(state: Session, signal: Signal)
    ensures var after := TransitionSession(state, signal);
      && (after == Session.Active && state != Session.Active <==>
            (state == Session.Starting && signal == LaunchSucceeded)
            || (state == Session.ActiveDisconnected && signal == ReconnectedSignal))
      && (state == Session.Offline ==> (after != Session.Offline <==> signal == StopGame))
      && (after == Session.Starting && state != Session.Starting <==> state == Session.Ready && signal == BeginLaunchSignal)
      && (after == Session.Ready && state != Session.Ready <==> signal == StopGame && state != Session.Ready)
  {
  }

  // ---- nothing is asked without a connection ----

  /** No question to the service is under way that was not before. */
  predicate AsksNothing(w: World, after: World) {
    && (after.service.check.CheckPending? ==> after.service.check == w.service.check)
    && (after.service.change.ChangePending? ==> after.service.change == w.service.change)
    && (after.session == Session.Starting && w.session != Session.Starting ==> after.op.request.launch)
  }

  lemma AsksNothingTwice(w: World, middle: World, after: World)
    requires AsksNothing(w, middle) && AsksNothing(middle, after)
    requires middle.op.request.launch ==> after.op.request.launch
    ensures AsksNothing(w, after)
  {
  }

  lemma EffectAsksNothing(w: World, effect: Effect, luck: Luck)
    requires !w.connected
    ensures var after := Effected(w, effect, luck).0;
      && AsksNothing(w, after) && !after.connected && (w.op.request.launch ==> after.op.request.launch)
  {
    hide PrepareMounts, Reject, GoOffline, CommitMounts, StartLaunch, NoteLaunch, PlanAux, PlanFinish, RestoreMounts,
      Complete, Activate, PlanPostAux, PlanValue, RollbackValue, CheckSecond, AsksNothing;
    QuietEffects(w, luck);
    EndingEffects(w);
    CachedCheck(w, luck);
    assert AsksNothing(w, w) && AsksNothing(w, w.(op := w.op.(changed := true))) && AsksNothing(w, w.(loaded := w.op.request.oldHash)) by {
      SameServiceAsksNothing(w);
    }
  }

  lemma SameServiceAsksNothing(w: World)
    ensures AsksNothing(w, w) && AsksNothing(w, w.(op := w.op.(changed := true)))
    ensures AsksNothing(w, w.(loaded := w.op.request.oldHash))
  {
  }

  predicate Quiet(w: World, after: World) {
    AsksNothing(w, after) && after.connected == w.connected && (w.op.request.launch ==> after.op.request.launch)
  }

  lemma QuietEffects(w: World, luck: Luck)
    ensures Quiet(w, PrepareMounts(w, luck).0) && Quiet(w, CommitMounts(w, luck).0) && Quiet(w, StartLaunch(w, luck).0)
    ensures Quiet(w, NoteLaunch(w)) && Quiet(w, PlanAux(w, luck).0) && Quiet(w, PlanFinish(w).0)
    ensures Quiet(w, RestoreMounts(w, luck).0) && Quiet(w, PlanPostAux(w, luck).0)
  {
    hide PrepareMounts, CommitMounts, StartLaunch, NoteLaunch, PlanAux, PlanFinish, RestoreMounts, PlanPostAux, Quiet;
    QuietMounts(w, luck);
    QuietPlans(w, luck);
    QuietLaunch(w, luck);
  }

  lemma QuietMounts(w: World, luck: Luck)
    ensures Quiet(w, PrepareMounts(w, luck).0) && Quiet(w, CommitMounts(w, luck).0) && Quiet(w, RestoreMounts(w, luck).0)
  {
    hide PrepareMounts, CommitMounts, RestoreMounts, Quiet;
    QuietPrepare(w, luck);
    QuietCommit(w, luck);
    QuietRestore(w, luck);
  }

  lemma QuietPrepare(w: World, luck: Luck)
    ensures Quiet(w, PrepareMounts(w, luck).0)
  {
    hide Save;
  }

  lemma QuietCommit(w: World, luck: Luck)
    ensures Quiet(w, CommitMounts(w, luck).0)
  {
    hide ApplyOne, ApplyOneOk;
  }

  lemma QuietRestore(w: World, luck: Luck)
    ensures Quiet(w, RestoreMounts(w, luck).0)
  {
    hide RestoreOne, RestoreOneOk;
  }

  lemma QuietPlans(w: World, luck: Luck)
    ensures Quiet(w, PlanAux(w, luck).0) && Quiet(w, PlanFinish(w).0) && Quiet(w, PlanPostAux(w, luck).0)
  {
    hide PlanAux, PlanFinish, PlanPostAux, Quiet;
    QuietPlanAux(w, luck);
    QuietPostAux(w, luck);
    QuietFinish(w);
  }

  lemma QuietPlanAux(w: World, luck: Luck)
    ensures Quiet(w, PlanAux(w, luck).0)
  {
    hide AuxValue, AsksForSecond;
  }

  lemma QuietPostAux(w: World, luck: Luck)
    ensures Quiet(w, PlanPostAux(w, luck).0)
  {
  }

  lemma QuietFinish(w: World)
    ensures Quiet(w, PlanFinish(w).0)
  {
    hide FinishValue;
  }

  lemma QuietLaunch(w: World, luck: Luck)
    ensures Quiet(w, StartLaunch(w, luck).0) && Quiet(w, NoteLaunch(w))
  {
    hide TransitionSession;
  }

  lemma EndingEffects(w: World)
    ensures Quiet(w, Reject(w)) && Quiet(w, GoOffline(w)) && Quiet(w, Activate(w))
    ensures forall ending :: Quiet(w, Complete(w, ending))
  {
    hide LaunchJustified;
  }

  /** Without a connection only the cache can answer for Drive 2. */
  lemma CachedCheck(w: World, luck: Luck)
    requires !w.connected
    ensures Quiet(w, CheckSecond(w, luck).0)
  {
  }

  lemma {:induction false} RowAsksNothing(w: World, effects: seq<Effect>, lucks: seq<Luck>)
    requires !w.connected && effects != [] && |lucks| >= |effects|
    ensures var after := RunRow(w, effects, lucks).0;
      AsksNothing(w, after) && (w.op.request.launch ==> after.op.request.launch)
    decreases |effects|
  {
    hide Effected, AsksNothing;
    EffectAsksNothing(w, effects[0], lucks[0]);
    if |effects| > 1 {
      var middle := Effected(w, effects[0], lucks[0]).0;
      RowAsksNothing(middle, effects[1..], lucks[1..]);
      AsksNothingTwice(w, middle, RunRow(middle, effects[1..], lucks[1..]).0);
    }
  }

  /**
   * While there is no connection no step asks the service to check or change a disk, and a session begins only for
   * a launch.
   */
  lemma NothingIsAskedDisconnected(s: System, a: Action)
    requires !s.world.connected
    ensures AsksNothing(s.world, Acted(s, a).world)
  {
    hide RunRow, Choice, NextAt, EffectsAt, Polled, Happened, AsksNothing;
    SameServiceAsksNothing(s.world);
    match a
    case Deliver(lucks) =>
      if s.inbox.Posts? && Choice(s.state, s.inbox.value) != 0 {
        RowsAreShort(Choice(s.state, s.inbox.value) - 1);
        RowAsksNothing(s.world, EffectsAt(Choice(s.state, s.inbox.value) - 1), lucks);
      }
    case Poll => PolledAsksNothing(s.world, s.state);
    case LaunchFails =>
    case Around(event) => HappenedAsksNothing(s.world, event);
  }

  lemma PolledAsksNothing(w: World, state: State)
    ensures AsksNothing(w, Polled(w, state).0)
  {
  }

  lemma HappenedAsksNothing(w: World, e: Outer)
    ensures AsksNothing(w, Happened(w, e))
  {
  }

  // ---- what is known is not asked again ----

  /** The service is asked about a hash exactly when it is not in the cache; the cache answers at once. */
  lemma CacheAnswers(s: Service, hash: Hash, expected: nat, sent: bool)
    requires expected > 0 && s.check == NoCheck
    ensures var after := BeginVerify(s, hash, expected, true, sent);
      && after.game == s.game && after.change == s.change && after.verified == s.verified
      && (hash in s.verified ==>
            (after.check == CheckOk(hash, expected) <==> s.verified[hash] == expected)
            && (after.check == CheckFailed(hash, true, s.verified[hash]) <==> s.verified[hash] != expected))
      && (after.check.CheckPending? <==> hash !in s.verified && sent)
  {
  }

  /** A disk known to be of another game is never asked to be changed to. */
  lemma KnownOtherIsNotSent(s: Service, hash: Hash, sent: bool)
    requires s.game.Loaded? && s.change == NoChange
    ensures var after := BeginChange(s, hash, true, sent);
      && after.game == s.game && after.check == s.check && after.verified == s.verified
      && (after.change == ChangePending(hash) <==> sent && (hash in s.verified ==> s.verified[hash] == s.game.id))
      && (after.change != ChangePending(hash) ==> after.change == ChangeFailed)
  {
  }

  /** A known disk of Drive 2 is mounted without a question, connected or not. */
  lemma KnownNeedsNoConnection(s: System, lucks: Lucks)
    requires Inv(s) && s.state == State.CheckAux && s.inbox == Posts(Value.Query)
    requires s.world.service.game.Loaded? && s.world.op.request.expected == s.world.service.game.id
    requires s.world.op.request.auxHash.Just? && VerifiedNow(s.world.service, s.world.op.request.auxHash.value)
    requires lucks[0].loggedIn
    ensures Acted(Acted(s, Deliver(lucks)), Poll).inbox == Posts(Value.Same)
  {
    hide Inv, Plain, LaunchLoaded, RequestOk;
    assert s.world.service.check == NoCheck by { CheckingNothing(s); }
    RunOne(s.world, Effect.VerifyAux, lucks);
  }

  lemma CheckingNothing(s: System)
    requires Inv(s) && s.state == State.CheckAux
    ensures s.world.service.check == NoCheck
  {
  }

  /** A Drive 2 that an anchor operation already verified is not checked again. */
  lemma VerifiedDriveIsNotChecked(s: System, lucks: Lucks)
    requires Inv(s) && s.state == State.Plan && s.inbox == Posts(Value.Existing)
    requires s.world.op.request.anchor && s.world.op.request.auxVerified
    ensures Acted(s, Deliver(lucks)).inbox == Posts(Value.Satisfied)
  {
    hide Inv, Plain, Launching, RequestOk;
    assert !s.world.op.request.launch by { PlanIsValue(s); }
    RunOne(s.world, Effect.DecideAux, lucks);
  }

  lemma PlanIsValue(s: System)
    requires Inv(s) && s.state == State.Plan
    ensures s.inbox == Posts(PlanValue(s.world))
  {
  }

  /** A launch loads at once; a new disk the service knows of this game is taken as it is; any other is asked about. */
  lemma PlansExactly(s: System, lucks: Lucks)
    requires Inv(s) && s.state == State.Prepare && s.inbox == Posts(Value.Ok)
    ensures var planned := Acted(Acted(s, Deliver(lucks)), Deliver(lucks));
      var r := s.world.op.request;
      && (planned.state == State.AwaitAnchor <==> r.launch)
      && (planned.state == State.AwaitResolve <==>
            !r.launch && r.anchor && !(r.newHash.Just? && VerifiedNow(s.world.service, r.newHash.value)))
      && (planned.state == State.CheckAux <==>
            !r.launch && (r.anchor ==> r.newHash.Just? && VerifiedNow(s.world.service, r.newHash.value)))
  {
    hide Inv, RequestOk, Plain, Launching, PlanAux, ResolveHash, StartLaunch, VerifiedNow;
    RunOne(s.world, Effect.DecidePlan, lucks);
    PlannedRow(s.world, lucks);
  }

  lemma PlannedRow(w: World, lucks: Lucks)
    ensures Choice(State.Plan, PlanValue(w)) != 0
    ensures NextAt(Choice(State.Plan, PlanValue(w)) - 1) ==
      (if PlanValue(w) == Value.Launch then State.AwaitAnchor
       else if PlanValue(w) == Value.Resolve then State.AwaitResolve else State.CheckAux)
  {
    hide VerifiedNow;
  }

  // ---- commits ----

  /**
   * A commit goes through exactly when every disk opens, and, unless the operation went Offline, the disks could be
   * registered and a pair or an anchor saved as a launch profile. The second drive is not touched once the first has
   * failed, and nothing at all before registration.
   */
  lemma CommitsExactly(w: World, luck: Luck)
    ensures var (after, reply) := CommitMounts(w, luck);
      var r := w.op.request;
      && (reply == Posts(Value.Ok) || reply == Posts(Value.Failed))
      && (reply == Posts(Value.Ok) <==>
            && (r.first.Mount? ==> luck.first.Opens?) && (r.second.Mount? ==> luck.second.Opens?)
            && (!w.op.ended ==> luck.registers)
            && (!w.op.ended && (r.anchor || (r.first != Keep && r.second != Keep)) ==> luck.profile))
      && (reply == Posts(Value.Ok) ==> after.first == Final(r.first, w.first) && after.second == Final(r.second, w.second))
      && (!w.op.ended && !luck.registers ==> after == w)
      && (r.first.Mount? && !luck.first.Opens? ==> after.second == w.second)
      && (w.op.ended || luck.registers ==>
            && (r.first.Mount? && !luck.first.Opens? ==> after.first == luck.first.drive)
            && (!(r.first.Mount? && !luck.first.Opens?) && r.second.Mount? && !luck.second.Opens? ==>
                  after.first == Final(r.first, w.first) && after.second == luck.second.drive))
      && after.session == w.session && after.service == w.service
      && (after.loaded != w.loaded ==> reply == Posts(Value.Ok) && r.anchor && !w.op.ended && after.loaded == r.newHash)
  {
  }

  /** Every drive that was saved is tried, and the restore counts as good exactly when all of them opened. */
  lemma RestoresExactly(w: World, luck: Luck)
    requires SavedOk(w.op)
    ensures var (after, reply) := RestoreMounts(w, luck);
      var r := w.op.request;
      && (reply == Posts(Value.Restored) <==> after.op.restored)
      && (after.op.restored <==>
            && (r.first != Keep && w.op.startFirst.Inserted? ==> luck.first.Opens?)
            && (r.second != Keep && w.op.startSecond.Inserted? ==> luck.second.Opens?))
      && (r.second != Keep && luck.second.Opens? ==> after.second == w.op.startSecond)
      && (r.first != Keep && luck.first.Opens? ==> after.first == w.op.startFirst)
  {
  }

  // ---- refusals ----

  /** A request is refused exactly when a disk to mount cannot be probed. */
  lemma RefusedExactly(w: World, lucks: Lucks)
    requires MayStart(w)
    ensures var s := Submitted(w, lucks);
      s.state == State.Prepare &&
      s.inbox == Posts(
        if !lucks[0].probes && (w.op.request.first.Mount? || w.op.request.second.Mount?) then Value.Failed else Value.Ok)
  {
    hide MayStart;
    assert EffectsAt(0) == [Effect.AcceptPrepare];
    RunOne(w, Effect.AcceptPrepare, lucks);
  }

  /** A refused operation leaves an active session as it was, and ends the session of a launch. */
  lemma RefusalLeaves(s: System, lucks: Lucks)
    requires Inv(s) && s.state == State.Prepare && s.inbox == Posts(Value.Failed)
    ensures var after := Acted(s, Deliver(lucks));
      && after.state == State.Idle && after.world.op.ending == EndedRejected
      && after.world.first == s.world.first && after.world.second == s.world.second
      && (if s.world.op.request.launch then Gone(after.world)
          else after.world.session == s.world.session && after.world.service.game == s.world.service.game
               && after.world.service.verified == s.world.service.verified && after.world.loaded == s.world.loaded)
  {
    hide Inv, RequestOk, Plain;
    RefusedLaunch(s);
    RunOne(s.world, Effect.RejectLocal, lucks);
  }

  lemma RefusedLaunch(s: System)
    requires Inv(s) && s.state == State.Prepare
    ensures s.world.op.request.launch ==> s.world.session == Session.Starting
  {
    hide RequestOk, Original, Fresh, Calm;
  }

  // ---- an ended operation leaves nothing behind in the service ----

  predicate Released(w: World) {
    w.service.check == NoCheck && (w.op.request.anchor ==> w.service.change == NoChange)
  }

  lemma {:induction false} LastEffectReleases(w: World, effects: seq<Effect>, lucks: seq<Luck>)
    requires effects != [] && |lucks| >= |effects|
    requires effects[|effects| - 1] in {Effect.CompleteFailure, Effect.CompleteSuccess, Effect.RejectLocal}
    ensures Released(RunRow(w, effects, lucks).0)
    decreases |effects|
  {
    hide Effected, Released;
    if |effects| > 1 {
      LastEffectReleases(Effected(w, effects[0], lucks[0]).0, effects[1..], lucks[1..]);
    } else {
      FinishingReleases(w, effects[0], lucks[0]);
    }
  }

  lemma FinishingReleases(w: World, effect: Effect, luck: Luck)
    requires effect in {Effect.CompleteFailure, Effect.CompleteSuccess, Effect.RejectLocal}
    ensures Released(Effected(w, effect, luck).0)
  {
    hide OfflineWorld;
  }

  lemma FirstEndsRelease(index: nat)
    requires index < 30 && NextAt(index) == State.Idle
    ensures EffectsAt(index)[|EffectsAt(index)| - 1] in {Effect.CompleteFailure, Effect.CompleteSuccess, Effect.RejectLocal}
  {
  }

  lemma LastEndsRelease(index: nat)
    requires 30 <= index < TRANSITION_COUNT && NextAt(index) == State.Idle
    ensures EffectsAt(index)[|EffectsAt(index)| - 1] in {Effect.CompleteFailure, Effect.CompleteSuccess, Effect.RejectLocal}
  {
  }

  lemma ActedReleases(s: System, a: Action)
    requires s.state != State.Idle
    ensures Acted(s, a).state == State.Idle ==> Released(Acted(s, a).world)
  {
    hide RunRow, Choice, NextAt, EffectsAt, Polled, Happened, Released;
    if a.Deliver? && s.inbox.Posts? && Choice(s.state, s.inbox.value) != 0 {
      var index := Choice(s.state, s.inbox.value) - 1;
      RowsAreShort(index);
      if NextAt(index) == State.Idle {
        if index < 30 { FirstEndsRelease(index); } else { LastEndsRelease(index); }
        LastEffectReleases(s.world, EffectsAt(index), a.lucks);
      }
    }
  }

  lemma {:induction false} RunReleases(s: System, actions: seq<Action>)
    requires s.state == State.Idle ==> Released(s.world)
    ensures Run(s, actions).state == State.Idle ==> Released(Run(s, actions).world)
    decreases |actions|
  {
    hide Released, Acted;
    if actions != [] {
      if s.state == State.Idle {
        IdleStays(s, actions[0]);
      } else {
        ActedReleases(s, actions[0]);
      }
      RunReleases(Acted(s, actions[0]), actions[1..]);
    }
  }

  lemma IdleStays(s: System, a: Action)
    requires s.state == State.Idle
    ensures Acted(s, a) == s
  {
  }

  /** However an operation ends, the service has no check of it left, and no change of an anchor. */
  lemma EveryEndReleases(w: World, lucks: Lucks, actions: seq<Action>)
    ensures var end := Run(Submitted(w, lucks), actions);
      end.state == State.Idle ==> Released(end.world)
  {
    hide RunRow, Released;
    RunReleases(Submitted(w, lucks), actions);
  }

  // ---- no operation is stuck ----

  /** The service has answered everything it was asked. */
  predicate Answered(w: World) {
    && (w.service.game.Loaded? || w.service.game == Disabled)
    && !w.service.check.CheckPending? && !w.service.change.ChangePending?
  }

  /** Once the service has answered, well or badly, the next poll posts a result and the delivery goes on. */
  lemma AnsweredIsNotStuck(s: System, lucks: Lucks)
    requires Inv(s) && s.state != State.Idle && (s.inbox == Silent ==> Answered(s.world))
    ensures var polled := if s.inbox == Silent then Acted(s, Poll) else s;
      && polled.inbox.Posts?
      && Rank(Acted(polled, Deliver(lucks)).state) < Rank(s.state)
  {
    hide Inv, Rank, RunRow, Choice, NextAt, EffectsAt, Acted;
    var polled := if s.inbox == Silent then Acted(s, Poll) else s;
    if s.inbox == Silent {
      SilentWaits(s);
      AnsweredPosts(s);
      PollKeeps(s);
    }
    DeliverKeeps(polled, lucks);
    DeliveredGoes(polled, lucks);
    RankDecreases(polled.state, polled.inbox.value);
  }

  lemma DeliveredGoes(s: System, lucks: Lucks)
    requires s.inbox.Posts? && s.state != State.Idle && Choice(s.state, s.inbox.value) != 0
    ensures Acted(s, Deliver(lucks)).state == NextState(s.state, s.inbox.value)
  {
    hide RunRow, Choice, NextAt, EffectsAt;
  }

  lemma AnsweredPosts(s: System)
    requires Inv(s) && Waits(s.state) && s.inbox == Silent && Answered(s.world)
    ensures Acted(s, Poll).inbox.Posts? && Acted(s, Poll).state == s.state
  {
    hide Plain, Launching, LaunchLoaded, Reanchoring, Changing, Failing, AsAsked, RequestOk, SavedOk, Covered;
  }
}

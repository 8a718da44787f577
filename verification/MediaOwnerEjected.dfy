/**
 * Drive 1 may be ejected while the session is active. What becomes of that when a disk is then opened in Drive 2:
 * the operation succeeds, and the session stays active with Drive 1 out of step.
 */
module MediaOwnerEjected {
  import opened MediaTable
  import opened MediaOwner
  import opened MediaOwnerProofs

  const LUCKY: Lucks := [ANY_LUCK, ANY_LUCK, ANY_LUCK, ANY_LUCK]

  /** A plain request for Drive 2 in an active, connected session. */
  predicate ForSecond(w: World) {
    var r := w.op.request;
    && !r.anchor && !r.launch && !r.reset && r.first == Keep && r.second.Mount? && r.auxHash == Just(r.second.disk.hash)
    && w.connected && !w.op.ended && Online(w)
    && w.service.game.Loaded? && r.expected == w.service.game.id > 0
  }

  /** Some run from here ends well, in a session that is still active. */
  ghost predicate CanEndWell(s: System) {
    exists actions :: EndsWell(Run(s, actions))
  }

  predicate EndsWell(s: System) {
    s.state == State.Idle && s.world.op.ending == EndedWell && Online(s.world)
  }

  lemma FirstStep(s: System, a: Action)
    requires CanEndWell(Acted(s, a))
    ensures CanEndWell(s)
  {
    hide Acted, EndsWell;
    var rest :| EndsWell(Run(Acted(s, a), rest));
    assert ([a] + rest)[1..] == rest;
    assert EndsWell(Run(s, [a] + rest));
  }

  /** One turn of the machine with every call succeeding. */
  lemma Turns(s: System, id: nat, w: World, reply: Reply)
    requires s.state != State.Idle && s.inbox.Posts? && id != 0 && Choice(s.state, s.inbox.value) == id
    requires 1 <= |EffectsAt(id - 1)| <= 4 && RunRow(s.world, EffectsAt(id - 1), LUCKY) == (w, reply)
    requires CanEndWell(System(NextAt(id - 1), w, reply))
    ensures CanEndWell(s)
  {
    hide Choice, RunRow, EffectsAt, NextAt, CanEndWell;
    FirstStep(s, Deliver(LUCKY));
  }

  lemma IdleEnds(w: World, reply: Reply)
    requires w.op.ending == EndedWell && Online(w)
    ensures CanEndWell(System(State.Idle, w, reply))
  {
    assert EndsWell(Run(System(State.Idle, w, reply), []));
  }

  lemma FromFinalize(s: System)
    requires s.state == State.Finalize && s.inbox == Posts(Value.None) && Online(s.world)
    ensures CanEndWell(s)
  {
    hide CanEndWell;
    RunOne(s.world, Effect.CompleteSuccess, LUCKY);
    IdleEnds(Complete(s.world, EndedWell), Silent);
    Turns(s, 32, Complete(s.world, EndedWell), Silent);
  }

  lemma FromCommit(s: System)
    requires s.state == State.Commit && s.inbox == Posts(Value.Ok) && ForSecond(s.world)
    ensures CanEndWell(s)
  {
    hide CanEndWell;
    RunOne(s.world, Effect.DecideFinish, LUCKY);
    var (w, reply) := PlanFinish(s.world);
    FromFinalize(System(State.Finalize, w, reply));
    Turns(s, 24, w, reply);
  }

  lemma FromAdvance(s: System)
    requires s.state == State.Advance && s.inbox == Posts(Value.Commit) && ForSecond(s.world)
    ensures CanEndWell(s)
  {
    hide CanEndWell;
    RunOne(s.world, Effect.ApplyVm, LUCKY);
    var (w, reply) := CommitMounts(s.world, ANY_LUCK);
    FromCommit(System(State.Commit, w, reply));
    Turns(s, 19, w, reply);
  }

  lemma FromAnswered(s: System)
    requires s.state == State.AwaitAux && s.inbox == Posts(Value.Same) && ForSecond(s.world)
    ensures CanEndWell(s)
  {
    hide CanEndWell;
    RunTwo(s.world, Effect.RememberVerified, Effect.DecideAdvance, LUCKY);
    FromAdvance(System(State.Advance, s.world, Posts(Value.Commit)));
    Turns(s, 17, s.world, Posts(Value.Commit));
  }

  lemma FromAwaitAux(s: System)
    requires s.state == State.AwaitAux && s.inbox == Silent && ForSecond(s.world)
    requires s.world.service.check == CheckPending(s.world.op.request.second.disk.hash, s.world.op.request.expected)
    ensures CanEndWell(s)
  {
    hide CanEndWell;
    var answered := Acted(s, Around(CheckAnswered(true, s.world.op.request.expected)));
    FromAnswered(Acted(answered, Poll));
    FirstStep(answered, Poll);
    FirstStep(s, Around(CheckAnswered(true, s.world.op.request.expected)));
  }

  /** The hash of the disk to mount is not in the service's cache, and nothing is being checked. */
  predicate Unchecked(w: World)
    requires ForSecond(w)
  {
    w.service.check == NoCheck && w.op.request.second.disk.hash !in w.service.verified
  }

  lemma FromCheckAux(s: System)
    requires s.state == State.CheckAux && s.inbox == Posts(Value.Query) && ForSecond(s.world) && Unchecked(s.world)
    ensures CanEndWell(s)
  {
    hide CanEndWell;
    RunOne(s.world, Effect.VerifyAux, LUCKY);
    var (w, reply) := CheckSecond(s.world, ANY_LUCK);
    FromAwaitAux(System(State.AwaitAux, w, reply));
    Turns(s, 15, w, reply);
  }

  lemma FromPlan(s: System)
    requires s.state == State.Plan && s.inbox == Posts(Value.Existing) && ForSecond(s.world) && Unchecked(s.world)
    ensures CanEndWell(s)
  {
    hide CanEndWell;
    RunOne(s.world, Effect.DecideAux, LUCKY);
    FromCheckAux(System(State.CheckAux, s.world, Posts(Value.Query)));
    Turns(s, 8, s.world, Posts(Value.Query));
  }

  lemma FromPrepare(s: System)
    requires s.state == State.Prepare && s.inbox == Posts(Value.Ok) && ForSecond(s.world) && Unchecked(s.world)
    ensures CanEndWell(s)
  {
    hide CanEndWell;
    RunOne(s.world, Effect.DecidePlan, LUCKY);
    FromPlan(System(State.Plan, s.world, Posts(Value.Existing)));
    Turns(s, 3, s.world, Posts(Value.Existing));
  }

  /** Whatever is in Drive 1, a disk for Drive 2 that the server vouches for can be mounted in an active session. */
  lemma SecondCanBeMounted(w: World)
    requires ForSecond(w) && Unchecked(w)
    ensures CanEndWell(Submitted(w, LUCKY))
  {
    hide CanEndWell;
    assert EffectsAt(0) == [Effect.AcceptPrepare];
    RunOne(w, Effect.AcceptPrepare, LUCKY);
    FromPrepare(Submitted(w, LUCKY));
  }

  /**
   * The agreement of Drive 1 with the session fails after an operation: from any start with Drive 1 ejected there
   * is a run that ends well in an active session while Drive 1 is empty.
   */
  lemma EjectedDriveStaysOut(w: World)
    requires MayStart(w) && ForSecond(w) && Unchecked(w) && w.first.Empty?
    ensures exists actions :: var end := Run(Submitted(w, LUCKY), actions);
      EndsWell(end) && end.world.first.Empty? && !Agreed(end.world)
  {
    hide MayStart, ForSecond, Unchecked, Agreed, Submitted, Run;
    SecondCanBeMounted(w);
    var actions :| EndsWell(Run(Submitted(w, LUCKY), actions));
    DriveAgreesExactly(w, LUCKY, actions);
    EveryEndIsConsistent(w, LUCKY, actions);
    SubmittedRemembers(w, LUCKY);
    RunRemembers(Submitted(w, LUCKY), actions);
    EmptyAtEnd(w, Run(Submitted(w, LUCKY), actions).world);
  }

  lemma EmptyAtEnd(w: World, after: World)
    requires MayStart(w) && ForSecond(w) && w.first.Empty? && Remembers(w, after) && AsAsked(after)
    ensures after.first.Empty? && !Agreed(after)
  {
  }

  /** An active session for hash 7, Drive 1 ejected, and a disk opened in Drive 2. */
  const EJECTED_START := World(
    Session.Active, Empty, Empty, Service(Loaded(7, 3), NoChange, NoCheck, map[7 := 3]), Just(7), Nil, true,
    Operation(
      Request.Request(false, false, false, Nil, Nil, Just(9), 3, Keep, Mount(Disk("b", 0, 9)), NotSaved, NotSaved, false),
      false, false, true, true, true, Value.None, InProgress, false, true, Empty, Empty, Just(7)))

  lemma EjectedStartEnds()
    ensures MayStart(EJECTED_START)
    ensures exists actions :: var end := Run(Submitted(EJECTED_START, LUCKY), actions);
      EndsWell(end) && end.world.first.Empty? && !Agreed(end.world)
  {
    EjectedDriveStaysOut(EJECTED_START);
  }
}

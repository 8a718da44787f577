/** What every run of a media operation keeps, and how it leaves the session and the drives. */
module MediaOwnerProofs {
  import opened MediaTable
  import opened MediaOwner

  // ---- the parts of the invariant ----

  predicate Online(w: World) {
    w.session == Session.Active || w.session == Session.ActiveDisconnected
  }

  /** Drive 1, the service and the owner name the same hash. */
  predicate Agreed(w: World) {
    && w.first.Inserted? && w.service.game.Loaded?
    && w.service.game.hash == w.first.disk.hash && w.loaded == Just(w.first.disk.hash)
  }

  /** The service and the owner name one hash. */
  predicate ServiceAgreed(w: World) {
    w.service.game.Loaded? && w.loaded == Just(w.service.game.hash)
  }

  /** Drive 1 held the session's disk when the operation started. */
  predicate HeldAtStart(o: Operation) {
    o.startHash.Just? && HashIn(o.startFirst) == o.startHash
  }

  predicate Gone(w: World) {
    w.session == Session.Offline && w.service == UNLOADED && w.loaded == Nil && w.pending == Nil
  }

  /** What a target makes of a drive when it is applied. */
  function Final(t: Target, d: Drive): Drive {
    match t
    case Keep => d
    case Eject => Empty
    case Mount(disk) => Inserted(disk)
  }

  /** A session is starting for the hash of this drive. */
  predicate StartsFor(w: World, d: Drive) {
    && d.Inserted? && w.session == Session.Starting && w.pending == Just(d.disk.hash)
    && match w.service.game
       case NoGame => w.loaded == Nil
       case LoadPending(hash) => hash == d.disk.hash && w.loaded == w.pending
       case Loaded(hash, id) => hash == d.disk.hash && w.loaded == w.pending && id > 0
       case Disabled => true
  }

  predicate VerifiedDrive(w: World, d: Drive) {
    d.Empty? || (w.service.game.Loaded? && VerifiedFor(w.service, d.disk.hash, w.service.game.id))
  }

  /** The auxiliary hash of the request speaks for this drive. */
  predicate Covered(w: World, d: Drive) {
    d.Empty? || w.op.request.auxHash == Just(d.disk.hash)
  }

  predicate RequestOk(r: Request) {
    && (r.anchor ==> r.first.Mount? && r.newHash == Just(r.first.disk.hash) && (r.launch ==> r.reset && !r.auxVerified))
    && (r.second.Mount? ==> r.auxHash == Just(r.second.disk.hash))
    && (!r.anchor ==> r.second.Mount? || (r.second == Keep && r.launch))
  }

  /** Until auxiliary media is planned, only a disk to mount in Drive 2 has an auxiliary hash. */
  predicate NoAuxYet(r: Request) {
    r.second.Mount? || r.auxHash == Nil
  }

  predicate SavedOk(o: Operation) {
    && o.request.savedFirst == Save(o.request.first, o.startFirst)
    && o.request.savedSecond == Save(o.request.second, o.startSecond)
  }

  predicate Original(w: World) {
    w.first == w.op.startFirst && w.second == w.op.startSecond
  }

  predicate Fresh(o: Operation) {
    !o.changed && o.restored && !o.applied && o.justified
  }

  /** An active session that is not being relaunched, with both drives as they were. */
  predicate Plain(w: World) {
    var r := w.op.request;
    && !w.op.ended && !r.launch && Online(w) && w.pending == Nil && ServiceAgreed(w) && w.service.game.id > 0
    && w.op.startHash == w.loaded
    && (r.anchor ==> r.oldHash == w.loaded)
    && (!r.anchor ==> r.first == Keep || (r.first.Mount? && Just(r.first.disk.hash) == w.loaded))
  }

  predicate Launching(w: World) {
    && !w.op.ended && w.op.request.launch && StartsFor(w, Final(w.op.request.first, w.first))
    && (w.op.request.first == Keep ==> HeldAtStart(w.op))
  }

  predicate LaunchLoaded(w: World) {
    Launching(w) && w.service.game.Loaded? && w.op.request.expected == w.service.game.id
  }

  predicate Before(w: World) {
    RequestOk(w.op.request) && SavedOk(w.op) && Original(w) && Fresh(w.op)
  }

  predicate Calm(w: World) {
    w.service.check == NoCheck && w.service.change == NoChange
  }

  /** A check in progress is about this hash, and a good answer is in the cache. */
  predicate CheckAbout(w: World, hash: Option<Hash>) {
    match w.service.check
    case NoCheck => true
    case CheckPending(h, expected) => Just(h) == hash && expected == w.op.request.expected && expected > 0
    case CheckOk(h, id) => Just(h) == hash && id == w.op.request.expected && VerifiedFor(w.service, h, id)
    case CheckFailed(h, _, _) => Just(h) == hash
  }

  predicate ChangeAbout(w: World, hash: Option<Hash>) {
    match w.service.change
    case NoChange => true
    case ChangePending(h) => Just(h) == hash
    case ChangeOk(h) => Just(h) == hash && w.service.game.Loaded? && w.service.game.hash == h
    case ChangeFailed => true
  }

  /** An anchor change under way: the owner still holds the old hash, the service may hold either. */
  predicate Changing(w: World) {
    var r := w.op.request;
    && r.anchor && !r.launch && !w.op.ended && Online(w) && w.pending == Nil
    && w.service.game.Loaded? && w.service.game.id > 0
    && w.loaded.Just? && r.oldHash == w.loaded && w.op.startHash == w.loaded
  }

  /** The commit was refused: drives the request does not touch are as before, the others may not be. */
  predicate Failing(w: World) {
    var o, r := w.op, w.op.request;
    && RequestOk(r) && SavedOk(o) && o.justified
    && (!Touched(r.first) ==> w.first == o.startFirst)
    && (!Touched(r.second) ==> w.second == o.startSecond)
    && w.session != Session.Ready
    && (o.ended ==> Gone(w))
    && (!o.ended && !r.launch ==>
          && Online(w) && w.pending == Nil && w.service.game.Loaded? && w.service.game.id > 0
          && w.loaded.Just? && o.startHash == w.loaded
          && o.changed == r.anchor
          && (r.anchor ==> r.oldHash == w.loaded)
          && (!r.anchor ==> Just(w.service.game.hash) == w.loaded))
  }

  /** Both drives hold what the request asked for, counted from how they were at the start. */
  predicate AsAsked(w: World) {
    && w.first == Final(w.op.request.first, w.op.startFirst)
    && w.second == Final(w.op.request.second, w.op.startSecond)
  }

  /** The mounts are in place. */
  predicate Committed(w: World) {
    var o, r := w.op, w.op.request;
    && o.applied && o.justified && AsAsked(w)
    && (if o.ended then Gone(w)
        else if r.launch then
          && StartsFor(w, w.first) && w.service.game.Loaded? && VerifiedDrive(w, w.second)
          && (r.first == Keep ==> HeldAtStart(o))
        else
          && Online(w) && ServiceAgreed(w) && w.pending == Nil
          && (if r.first == Keep then o.startHash == w.loaded else r.first.Mount? && Agreed(w)))
  }

  /** After a reset following an Offline fallback: the session is starting again for Drive 1. */
  predicate Reanchoring(w: World) {
    && w.op.applied && w.op.justified && AsAsked(w) && StartsFor(w, w.first)
    && (w.op.request.first == Keep || w.op.request.first.Mount?)
  }

  /** Drive 1 held another disk than the session's when the operation started. */
  predicate OtherAtStart(o: Operation) {
    o.startFirst.Inserted? && !HeldAtStart(o)
  }

  /** Drive 1 holds the session's disk at the end because it did at the start, or because it was mounted. */
  predicate DriveAgrees(w: World) {
    var o := w.op;
    && (HeldAtStart(o) || (o.request.first.Mount? && o.ending == EndedWell) ==> Agreed(w))
    && (Agreed(w) ==> HeldAtStart(o) || OtherAtStart(o) || (o.request.first.Mount? && o.ending == EndedWell))
  }

  /** How every run ends. */
  predicate Ended(w: World) {
    && (w.session == Session.Offline || (ServiceAgreed(w) && DriveAgrees(w) && w.pending == Nil))
    && w.op.justified
    && w.op.ending != InProgress
    && (w.op.ending == EndedBadly && w.op.restored ==> Original(w))
    && (w.op.ending == EndedRejected ==> Original(w))
    && (w.op.ending == EndedWell ==> AsAsked(w))
  }

  // ---- the invariant, state by state ----

  predicate InPrepare(w: World, inbox: Reply) {
    && RequestOk(w.op.request) && NoAuxYet(w.op.request) && Original(w) && Fresh(w.op) && Calm(w) && (Plain(w) || Launching(w))
    && (inbox == Posts(Value.Ok) || inbox == Posts(Value.Failed))
    && (inbox == Posts(Value.Ok) ==> SavedOk(w.op))
  }

  predicate InPlan(w: World, inbox: Reply) {
    && Before(w) && NoAuxYet(w.op.request) && Calm(w) && (Plain(w) || Launching(w))
    && inbox == Posts(PlanValue(w))
  }

  predicate InAwaitResolve(w: World, inbox: Reply) {
    && Before(w) && NoAuxYet(w.op.request) && Plain(w) && w.op.request.anchor && w.service.change == NoChange
    && CheckAbout(w, w.op.request.newHash)
    && (inbox.Posts? ==> w.service.check == NoCheck)
    && (inbox == Silent || inbox == Posts(Value.Same) || inbox == Posts(Value.Other)
        || inbox == Posts(Value.Unregistered) || inbox == Posts(Value.Unavailable))
  }

  predicate InAwaitAnchor(w: World, inbox: Reply) {
    && Before(w) && NoAuxYet(w.op.request) && Calm(w)
    && match inbox
       case Silent => Launching(w)
       case Posts(v) =>
         if v == Value.Ok then Launching(w) && w.service.game.Loaded?
         else v == Value.Unavailable && (Plain(w) || Launching(w))
  }

  predicate InCheckAux(w: World, inbox: Reply) {
    && Before(w) && Calm(w) && (Plain(w) || LaunchLoaded(w))
    && inbox.Posts?
    && (inbox.value == Value.Satisfied || inbox.value == Value.Query || inbox.value == Value.Fallback)
    && (inbox.value == Value.Satisfied && w.op.request.launch ==> VerifiedDrive(w, Final(w.op.request.second, w.second)))
    && (inbox.value == Value.Query && w.op.request.launch ==> Covered(w, Final(w.op.request.second, w.second)))
  }

  predicate InAwaitAux(w: World, inbox: Reply) {
    && Before(w) && w.service.change == NoChange && (Plain(w) || LaunchLoaded(w))
    && CheckAbout(w, w.op.request.auxHash)
    && (w.op.request.launch ==> Covered(w, Final(w.op.request.second, w.second)))
    && (inbox.Posts? ==> w.service.check == NoCheck)
    && (inbox == Silent || inbox == Posts(Value.Same) || inbox == Posts(Value.Unavailable))
    && (inbox == Posts(Value.Same) && w.op.request.launch ==> VerifiedDrive(w, Final(w.op.request.second, w.second)))
  }

  predicate InAdvance(w: World, inbox: Reply) {
    && Before(w) && Calm(w) && (Plain(w) || LaunchLoaded(w))
    && (w.op.request.launch ==> VerifiedDrive(w, Final(w.op.request.second, w.second)))
    && inbox == Posts(if w.op.request.anchor && !w.op.request.launch then Value.Change else Value.Commit)
  }

  predicate InAwaitChange(w: World, inbox: Reply) {
    && Before(w) && w.service.check == NoCheck && Changing(w) && ChangeAbout(w, w.op.request.newHash)
    && (inbox.Posts? ==> w.service.change == NoChange)
    && (inbox == Silent || inbox == Posts(Value.Ok) || inbox == Posts(Value.Unavailable))
    && (inbox == Posts(Value.Ok) ==> Just(w.service.game.hash) == w.op.request.newHash)
  }

  predicate InCommit(w: World, inbox: Reply) {
    && Calm(w)
    && (inbox == Posts(Value.Ok) || inbox == Posts(Value.Failed))
    && (inbox == Posts(Value.Ok) ==> Committed(w))
    && (inbox == Posts(Value.Failed) ==> Failing(w))
  }

  predicate InRestore(w: World, inbox: Reply) {
    && Calm(w) && Failing(w)
    && inbox == Posts(if w.op.restored then Value.Restored else Value.Failed)
    && (w.op.restored ==> Original(w))
  }

  predicate InChooseRollback(w: World, inbox: Reply) {
    && Calm(w) && Failing(w) && (w.op.restored ==> Original(w))
    && inbox == Posts(RollbackValue(w))
  }

  predicate InAwaitRollback(w: World, inbox: Reply) {
    && w.service.check == NoCheck && Failing(w) && Original(w) && Changing(w)
    && ChangeAbout(w, w.op.request.oldHash)
    && (inbox.Posts? ==> w.service.change == NoChange)
    && (inbox == Silent || inbox == Posts(Value.Ok) || inbox == Posts(Value.Unavailable))
    && (inbox == Posts(Value.Ok) ==> Just(w.service.game.hash) == w.op.request.oldHash)
  }

  predicate InFinalize(w: World, inbox: Reply) {
    Calm(w) && Committed(w) && w.op.finish == FinishValue(w.op) && inbox == Posts(w.op.finish)
  }

  predicate InAwaitReanchor(w: World, inbox: Reply) {
    && Calm(w) && w.op.justified && w.op.applied && AsAsked(w) && w.session != Session.Ready
    && (inbox == Silent || inbox == Posts(Value.Ok) ==> Reanchoring(w))
    && (inbox == Silent || inbox == Posts(Value.Ok) || inbox == Posts(Value.Unavailable))
    && (inbox == Posts(Value.Ok) ==> w.service.game.Loaded?)
  }

  predicate ReanchorLoaded(w: World) {
    Reanchoring(w) && w.service.game.Loaded? && w.op.request.expected == w.service.game.id
  }

  predicate InCheckPostAux(w: World, inbox: Reply) {
    && Calm(w) && ReanchorLoaded(w)
    && (inbox == Posts(Value.Satisfied) || inbox == Posts(Value.Query) || inbox == Posts(Value.Fallback))
    && (inbox == Posts(Value.Satisfied) ==> w.second.Empty?)
    && (inbox == Posts(Value.Query) ==> Covered(w, w.second))
  }

  predicate InAwaitPostAux(w: World, inbox: Reply) {
    && w.service.change == NoChange && ReanchorLoaded(w) && CheckAbout(w, w.op.request.auxHash)
    && Covered(w, w.second)
    && (inbox.Posts? ==> w.service.check == NoCheck)
    && (inbox == Silent || inbox == Posts(Value.Same) || inbox == Posts(Value.Unavailable))
    && (inbox == Posts(Value.Same) ==> VerifiedDrive(w, w.second))
  }

  predicate Inv(s: System) {
    match s.state
    case Prepare => InPrepare(s.world, s.inbox)
    case Plan => InPlan(s.world, s.inbox)
    case AwaitResolve => InAwaitResolve(s.world, s.inbox)
    case AwaitAnchor => InAwaitAnchor(s.world, s.inbox)
    case CheckAux => InCheckAux(s.world, s.inbox)
    case AwaitAux => InAwaitAux(s.world, s.inbox)
    case Advance => InAdvance(s.world, s.inbox)
    case AwaitChange => InAwaitChange(s.world, s.inbox)
    case Commit => InCommit(s.world, s.inbox)
    case Restore => InRestore(s.world, s.inbox)
    case ChooseRollback => InChooseRollback(s.world, s.inbox)
    case AwaitRollback => InAwaitRollback(s.world, s.inbox)
    case Finalize => InFinalize(s.world, s.inbox)
    case AwaitReset => InFinalize(s.world, s.inbox) && s.world.op.finish != Value.None
    case AwaitReanchor => InAwaitReanchor(s.world, s.inbox)
    case CheckPostAux => InCheckPostAux(s.world, s.inbox)
    case AwaitPostAux => InAwaitPostAux(s.world, s.inbox)
    case Idle => Ended(s.world)
  }

  // ---- what the effects establish ----

  /** Neither drives nor the operation change. */
  predicate SameMedia(w: World, after: World) {
    after.first == w.first && after.second == w.second && after.op == w.op
  }

  /** Once any session has begun, going Offline leaves nothing of it: no game, no hash, no request in the service. */
  lemma OfflineIsGone(w: World)
    requires w.session != Session.Ready
    ensures Gone(OfflineWorld(w)) && Gone(GoOffline(w)) && SameMedia(w, OfflineWorld(w))
  {
  }

  /** From any session a new one can begin for the disk of a drive, with nothing asked of the service yet. */
  lemma SessionStarts(w: World, d: Drive)
    requires d.Inserted?
    ensures var after := SessionFor(w, d.disk.hash);
      StartsFor(after, d) && Calm(after) && after.service == UNLOADED && SameMedia(w, after)
  {
  }

  /** Applying the VM in an Offline session, which needs no verification and no library. */
  lemma OfflineCommit(w: World, luck: Luck)
    requires Before(w) && w.session != Session.Ready
    ensures var (after, reply) := CommitMounts(GoOffline(w), luck); InCommit(after, reply)
  {
    hide RequestOk;
    OfflineIsGone(w);
  }

  /** A request for Drive 2 alone, or for both with the same Drive 1 hash, in an active session. */
  lemma AuxiliaryCommit(w: World, luck: Luck)
    requires Before(w) && Calm(w) && Plain(w) && !w.op.request.anchor
    ensures var (after, reply) := CommitMounts(w, luck); InCommit(after, reply)
  {
  }

  lemma LaunchCommit(w: World, luck: Luck)
    requires Before(w) && Calm(w) && LaunchLoaded(w) && VerifiedDrive(w, Final(w.op.request.second, w.second))
    ensures var (after, reply) := CommitMounts(w, luck); InCommit(after, reply)
  {
  }

  /** The committed anchor change: RememberChanged and then the VM. */
  lemma ChangedCommit(w: World, luck: Luck)
    requires Before(w) && Calm(w) && Changing(w) && Just(w.service.game.hash) == w.op.request.newHash
    ensures var (after, reply) := CommitMounts(w.(op := w.op.(changed := true)), luck); InCommit(after, reply)
  {
  }

  // ---- one lemma for each thing a transition does ----

  lemma RejectEnds(w: World)
    requires InPrepare(w, Posts(Value.Failed))
    ensures Ended(Reject(w))
  {
  }

  lemma PlanFollows(w: World)
    requires InPrepare(w, Posts(Value.Ok))
    ensures InPlan(w, Posts(PlanValue(w)))
  {
  }

  lemma ResolveFollows(w: World, luck: Luck)
    requires InPlan(w, Posts(Value.Resolve))
    ensures var (after, reply) := ResolveHash(w, luck); InAwaitResolve(after, reply)
  {
  }

  lemma LaunchFollows(w: World, luck: Luck)
    requires InPlan(w, Posts(Value.Launch)) || InAwaitResolve(w, Posts(Value.Other))
    ensures var (after, reply) := StartLaunch(w, luck); InAwaitAnchor(after, reply)
  {
    if w.op.request.anchor {
      SessionStarts(w, Final(w.op.request.first, w.first));
    }
  }

  lemma AuxFollows(w: World, luck: Luck)
    requires InPlan(w, Posts(Value.Existing)) || InAwaitResolve(w, Posts(Value.Same))
    ensures var (after, reply) := PlanAux(w, luck); InCheckAux(after, reply)
  {
  }

  lemma LoadedAuxFollows(w: World, luck: Luck)
    requires InAwaitAnchor(w, Posts(Value.Ok))
    ensures var (after, reply) := PlanAux(NoteLaunch(w), luck); InCheckAux(after, reply)
  {
    var noted := NoteLaunch(w);
    assert LaunchLoaded(noted) && Before(noted) && Calm(noted);
    LoadedPlanAux(noted, luck);
  }

  lemma LoadedPlanAux(w: World, luck: Luck)
    requires LaunchLoaded(w) && Before(w) && NoAuxYet(w.op.request) && Calm(w)
    ensures var (after, reply) := PlanAux(w, luck); InCheckAux(after, reply)
  {
  }

  lemma CheckFollows(w: World, luck: Luck)
    requires InCheckAux(w, Posts(Value.Query))
    ensures var (after, reply) := CheckSecond(w, luck); InAwaitAux(after, reply)
  {
  }

  lemma AdvanceFollows(w: World)
    requires InCheckAux(w, Posts(Value.Satisfied)) || InAwaitAux(w, Posts(Value.Same))
    ensures InAdvance(w, Posts(if w.op.request.anchor && !w.op.request.launch then Value.Change else Value.Commit))
  {
  }

  lemma CommitFollows(w: World, luck: Luck)
    requires InAdvance(w, Posts(Value.Commit))
    ensures var (after, reply) := CommitMounts(w, luck); InCommit(after, reply)
  {
    hide RequestOk, Plain, LaunchLoaded, InCommit, CommitMounts;
    if w.op.request.launch {
      PlainIsNoLaunch(w);
      LaunchCommit(w, luck);
    } else {
      LaunchIsLaunch(w);
      AuxiliaryCommit(w, luck);
    }
  }

  lemma PlainIsNoLaunch(w: World)
    ensures Plain(w) ==> !w.op.request.launch
  {
  }

  lemma LaunchIsLaunch(w: World)
    ensures LaunchLoaded(w) ==> w.op.request.launch
  {
  }

  lemma ChangeFollows(w: World, luck: Luck)
    requires InAdvance(w, Posts(Value.Change))
    ensures var (after, reply) := ChangeTo(w, w.op.request.newHash, luck); InAwaitChange(after, reply)
  {
  }

  lemma FinishFollows(w: World)
    requires InCommit(w, Posts(Value.Ok))
    ensures var (after, reply) := PlanFinish(w); InFinalize(after, reply)
  {
  }

  lemma RestoreFollows(w: World, luck: Luck)
    requires InCommit(w, Posts(Value.Failed))
    ensures var (after, reply) := RestoreMounts(w, luck); InRestore(after, reply)
  {
  }

  lemma RollbackFollows(w: World, luck: Luck)
    requires InChooseRollback(w, Posts(Value.Rollback))
    ensures var (after, reply) := ChangeTo(w, w.op.request.oldHash, luck); InAwaitRollback(after, reply)
  {
  }

  lemma OfflineEnds(w: World, ending: Ending)
    requires w.session != Session.Ready && w.op.justified && ending != InProgress
    requires ending == EndedBadly && w.op.restored ==> Original(w)
    requires ending == EndedRejected ==> Original(w)
    requires ending == EndedWell ==> AsAsked(w)
    ensures Ended(Complete(GoOffline(w), ending))
  {
  }

  lemma PreservedEnds(w: World)
    requires InChooseRollback(w, Posts(Value.Preserve)) || InChooseRollback(w, Posts(Value.Ended))
    ensures Ended(Complete(w, EndedBadly))
  {
  }

  lemma RolledBackEnds(w: World)
    requires InAwaitRollback(w, Posts(Value.Ok))
    ensures Ended(Complete(w.(loaded := w.op.request.oldHash), EndedBadly))
  {
  }

  lemma CommittedEnds(w: World)
    requires InFinalize(w, Posts(Value.None)) || InFinalize(w, Posts(Value.Preserve))
    ensures Ended(Complete(w, EndedWell))
  {
  }

  lemma ActivatedEnds(w: World)
    requires w.op.justified && w.op.applied && AsAsked(w) && StartsFor(w, w.first) && w.service.game.Loaded?
    requires w.op.request.first.Mount? || (w.op.request.first == Keep && w.op.startFirst.Inserted?)
    requires VerifiedDrive(w, w.second)
    ensures Ended(Complete(Activate(w), EndedWell)) && LaunchJustified(w)
  {
  }

  lemma ReanchorFollows(w: World, luck: Luck)
    requires InFinalize(w, Posts(Value.Reanchor))
    ensures var (after, reply) := StartReanchor(w, luck); InAwaitReanchor(after, reply)
  {
    hide SessionFor;
    if w.first.Inserted? {
      SessionStarts(w, w.first);
    }
  }

  lemma PostAuxFollows(w: World, luck: Luck)
    requires InAwaitReanchor(w, Posts(Value.Ok))
    ensures var (after, reply) := PlanPostAux(NoteLaunch(w), luck); InCheckPostAux(after, reply)
  {
    hide InAwaitReanchor, NoteLaunch, PlanPostAux, InCheckPostAux;
    LaunchNoted(w);
    PostPlanned(NoteLaunch(w), luck);
  }

  lemma LaunchNoted(w: World)
    requires InAwaitReanchor(w, Posts(Value.Ok))
    ensures Calm(NoteLaunch(w)) && ReanchorLoaded(NoteLaunch(w))
  {
  }

  lemma PostPlanned(w: World, luck: Luck)
    requires Calm(w) && ReanchorLoaded(w)
    ensures var (after, reply) := PlanPostAux(w, luck); InCheckPostAux(after, reply)
  {
  }

  lemma PostCheckFollows(w: World, luck: Luck)
    requires InCheckPostAux(w, Posts(Value.Query))
    ensures var (after, reply) := CheckSecond(w, luck); InAwaitPostAux(after, reply)
  {
  }

  // ---- while the operation waits ----

  lemma PolledResolve(w: World)
    requires InAwaitResolve(w, Silent)
    ensures var (after, reply) := Polled(w, State.AwaitResolve); InAwaitResolve(after, reply)
  {
  }

  lemma PolledAnchor(w: World)
    requires InAwaitAnchor(w, Silent)
    ensures var (after, reply) := Polled(w, State.AwaitAnchor); InAwaitAnchor(after, reply)
  {
  }

  lemma PolledAux(w: World)
    requires InAwaitAux(w, Silent)
    ensures var (after, reply) := Polled(w, State.AwaitAux); InAwaitAux(after, reply)
  {
  }

  lemma PolledChange(w: World)
    requires InAwaitChange(w, Silent)
    ensures var (after, reply) := Polled(w, State.AwaitChange); InAwaitChange(after, reply)
  {
  }

  lemma PolledRollback(w: World)
    requires InAwaitRollback(w, Silent)
    ensures var (after, reply) := Polled(w, State.AwaitRollback); InAwaitRollback(after, reply)
  {
  }

  lemma PolledReanchor(w: World)
    requires InAwaitReanchor(w, Silent)
    ensures var (after, reply) := Polled(w, State.AwaitReanchor); InAwaitReanchor(after, reply)
  {
  }

  lemma PolledPostAux(w: World)
    requires InAwaitPostAux(w, Silent)
    ensures var (after, reply) := Polled(w, State.AwaitPostAux); InAwaitPostAux(after, reply)
  {
  }

  lemma AroundResolve(w: World, e: Outer)
    requires InAwaitResolve(w, Silent)
    ensures InAwaitResolve(Happened(w, e), Silent)
  {
  }

  lemma AroundAnchor(w: World, e: Outer)
    requires InAwaitAnchor(w, Silent)
    ensures InAwaitAnchor(Happened(w, e), Silent)
  {
  }

  lemma AroundAux(w: World, e: Outer)
    requires InAwaitAux(w, Silent)
    ensures InAwaitAux(Happened(w, e), Silent)
  {
  }

  lemma AroundChange(w: World, e: Outer)
    requires InAwaitChange(w, Silent)
    ensures InAwaitChange(Happened(w, e), Silent)
  {
  }

  lemma AroundRollback(w: World, e: Outer)
    requires InAwaitRollback(w, Silent)
    ensures InAwaitRollback(Happened(w, e), Silent)
  {
  }

  lemma AroundReanchor(w: World, e: Outer)
    requires InAwaitReanchor(w, Silent)
    ensures InAwaitReanchor(Happened(w, e), Silent)
  {
  }

  lemma AroundPostAux(w: World, e: Outer)
    requires InAwaitPostAux(w, Silent)
    ensures InAwaitPostAux(Happened(w, e), Silent)
  {
  }

  // ---- rows of effects ----

  lemma RunOne(w: World, a: Effect, lucks: seq<Luck>)
    requires |lucks| >= 1
    ensures RunRow(w, [a], lucks) == Effected(w, a, lucks[0])
  {
    hide Effected;
  }

  lemma RunTwo(w: World, a: Effect, b: Effect, lucks: seq<Luck>)
    requires |lucks| >= 2
    ensures RunRow(w, [a, b], lucks) == Effected(Effected(w, a, lucks[0]).0, b, lucks[1])
  {
    hide Effected;
    var after := Effected(w, a, lucks[0]).0;
    assert [a, b][1..] == [b] && lucks[1..][0] == lucks[1];
    RunOne(after, b, lucks[1..]);
  }

  lemma RunThree(w: World, a: Effect, b: Effect, c: Effect, lucks: seq<Luck>)
    requires |lucks| >= 3
    ensures RunRow(w, [a, b, c], lucks) ==
      Effected(Effected(Effected(w, a, lucks[0]).0, b, lucks[1]).0, c, lucks[2])
  {
    hide Effected;
    var after := Effected(w, a, lucks[0]).0;
    assert [a, b, c][1..] == [b, c] && lucks[1..][0] == lucks[1] && lucks[1..][1] == lucks[2];
    RunTwo(after, b, c, lucks[1..]);
  }

  lemma RunFour(w: World, a: Effect, b: Effect, c: Effect, d: Effect, lucks: seq<Luck>)
    requires |lucks| >= 4
    ensures RunRow(w, [a, b, c, d], lucks) ==
      Effected(Effected(Effected(Effected(w, a, lucks[0]).0, b, lucks[1]).0, c, lucks[2]).0, d, lucks[3])
  {
    hide Effected;
    var after := Effected(w, a, lucks[0]).0;
    assert [a, b, c, d][1..] == [b, c, d];
    assert lucks[1..][0] == lucks[1] && lucks[1..][1] == lucks[2] && lucks[1..][2] == lucks[3];
    RunThree(after, b, c, d, lucks[1..]);
  }

  /** EnterOffline and then the mounts. */
  lemma OfflineRow(w: World, lucks: seq<Luck>)
    requires Before(w) && w.session != Session.Ready && |lucks| >= 2
    ensures var (after, reply) := RunRow(w, [Effect.EnterOffline, Effect.ApplyVm], lucks); InCommit(after, reply)
  {
    hide Before, InCommit, GoOffline, CommitMounts;
    RunTwo(w, Effect.EnterOffline, Effect.ApplyVm, lucks);
    OfflineCommit(w, lucks[1]);
  }

  lemma ActivationRow(w: World, lucks: seq<Luck>)
    requires |lucks| >= 3
    ensures RunRow(w, [Effect.ResetProgress, Effect.ActivateLaunch, Effect.CompleteSuccess], lucks) ==
      (Complete(Activate(w), EndedWell), Silent)
  {
    hide Complete, Activate;
    RunThree(w, Effect.ResetProgress, Effect.ActivateLaunch, Effect.CompleteSuccess, lucks);
  }

  lemma RememberedRow(w: World, lucks: seq<Luck>)
    requires |lucks| >= 4
    ensures RunRow(w, [Effect.RememberVerified, Effect.ResetProgress, Effect.ActivateLaunch, Effect.CompleteSuccess], lucks)
      == (Complete(Activate(w), EndedWell), Silent)
  {
    hide Complete, Activate;
    RunFour(w, Effect.RememberVerified, Effect.ResetProgress, Effect.ActivateLaunch, Effect.CompleteSuccess, lucks);
  }

  // ---- every delivery keeps the invariant ----

  /** The table decides the posted result, and the transition it picks keeps the invariant. */
  predicate Keeps(s: System, lucks: Lucks) {
    && s.inbox.Posts?
    && Choice(s.state, s.inbox.value) != 0
    && Inv(Transitioned(s, s.inbox.value, lucks))
  }

  predicate Due(s: System, state: State) {
    s.state == state && s.inbox.Posts? && Inv(s)
  }

  lemma PlainIsOnline(w: World)
    ensures Plain(w) ==> w.session != Session.Ready
  {
  }

  lemma LaunchIsStarting(w: World)
    ensures Launching(w) ==> w.session != Session.Ready
  {
  }

  lemma LoadedIsStarting(w: World)
    ensures LaunchLoaded(w) ==> w.session != Session.Ready
  {
  }

  lemma ChangingIsOnline(w: World)
    ensures Changing(w) ==> w.session != Session.Ready
  {
  }

  lemma FailingIsOn(w: World)
    ensures Failing(w) ==> w.session != Session.Ready && w.op.justified
  {
  }

  lemma CommittedStarts(w: World)
    requires Committed(w) && FinishValue(w.op) == Value.Launch
    ensures StartsFor(w, w.first) && w.service.game.Loaded? && VerifiedDrive(w, w.second)
    ensures w.op.justified && w.op.applied && AsAsked(w)
    ensures w.op.request.first.Mount? || (w.op.request.first == Keep && w.op.startFirst.Inserted?)
  {
  }

  lemma ReanchorIsStarting(w: World)
    requires Reanchoring(w)
    ensures w.session == Session.Starting
    ensures w.op.request.first.Mount? || (w.op.request.first == Keep && w.op.startFirst.Inserted?)
  {
  }

  lemma DeliverPrepare(s: System, lucks: Lucks)
    requires Due(s, State.Prepare)
    ensures Keeps(s, lucks)
  {
    hide InPlan, Ended, RequestOk, Plain, Launching;
    if s.inbox.value == Value.Failed {
      RunOne(s.world, Effect.RejectLocal, lucks);
      RejectEnds(s.world);
    } else {
      RunOne(s.world, Effect.DecidePlan, lucks);
      PlanFollows(s.world);
    }
  }

  lemma DeliverPlan(s: System, lucks: Lucks)
    requires Due(s, State.Plan)
    ensures Keeps(s, lucks)
  {
    hide InAwaitResolve, InAwaitAnchor, InCheckAux, RequestOk, Plain, Launching, ResolveHash, StartLaunch, PlanAux;
    var w := s.world;
    if s.inbox.value == Value.Resolve {
      RunOne(w, Effect.ResolveAnchor, lucks);
      ResolveFollows(w, lucks[0]);
    } else if s.inbox.value == Value.Launch {
      RunOne(w, Effect.BeginLaunch, lucks);
      LaunchFollows(w, lucks[0]);
    } else {
      RunOne(w, Effect.DecideAux, lucks);
      AuxFollows(w, lucks[0]);
    }
  }

  lemma DeliverAwaitResolve(s: System, lucks: Lucks)
    requires Due(s, State.AwaitResolve)
    ensures Keeps(s, lucks)
  {
    hide InAwaitAnchor, InCheckAux, InCommit, RequestOk, Plain, Launching, StartLaunch, PlanAux;
    var w := s.world;
    if s.inbox.value == Value.Same {
      RunTwo(w, Effect.RememberResolved, Effect.DecideAux, lucks);
      AuxFollows(w, lucks[1]);
    } else if s.inbox.value == Value.Other {
      RunTwo(w, Effect.RememberResolved, Effect.BeginLaunch, lucks);
      LaunchFollows(w, lucks[1]);
    } else {
      PlainIsOnline(w);
      OfflineRow(w, lucks);
    }
  }

  lemma DeliverAwaitAnchor(s: System, lucks: Lucks)
    requires Due(s, State.AwaitAnchor)
    ensures Keeps(s, lucks)
  {
    hide InCheckAux, InCommit, RequestOk, Plain, Launching, NoteLaunch, PlanAux;
    var w := s.world;
    if s.inbox.value == Value.Ok {
      RunTwo(w, Effect.RememberLaunch, Effect.DecideAux, lucks);
      LoadedAuxFollows(w, lucks[1]);
    } else {
      PlainIsOnline(w);
      LaunchIsStarting(w);
      OfflineRow(w, lucks);
    }
  }

  lemma DeliverCheckAux(s: System, lucks: Lucks)
    requires Due(s, State.CheckAux)
    ensures Keeps(s, lucks)
  {
    hide InAdvance, InAwaitAux, InCommit, RequestOk, Plain, LaunchLoaded, CheckSecond;
    var w := s.world;
    if s.inbox.value == Value.Satisfied {
      RunOne(w, Effect.DecideAdvance, lucks);
      AdvanceFollows(w);
    } else if s.inbox.value == Value.Query {
      RunOne(w, Effect.VerifyAux, lucks);
      CheckFollows(w, lucks[0]);
    } else {
      PlainIsOnline(w);
      LoadedIsStarting(w);
      OfflineRow(w, lucks);
    }
  }

  lemma DeliverAwaitAux(s: System, lucks: Lucks)
    requires Due(s, State.AwaitAux)
    ensures Keeps(s, lucks)
  {
    hide InAdvance, InCommit, RequestOk, Plain, LaunchLoaded;
    var w := s.world;
    if s.inbox.value == Value.Same {
      RunTwo(w, Effect.RememberVerified, Effect.DecideAdvance, lucks);
      AdvanceFollows(w);
    } else {
      PlainIsOnline(w);
      LoadedIsStarting(w);
      OfflineRow(w, lucks);
    }
  }

  lemma DeliverAdvance(s: System, lucks: Lucks)
    requires Due(s, State.Advance)
    ensures Keeps(s, lucks)
  {
    hide InAwaitChange, InCommit, RequestOk, Plain, LaunchLoaded, CommitMounts, ChangeTo;
    var w := s.world;
    if s.inbox.value == Value.Commit {
      RunOne(w, Effect.ApplyVm, lucks);
      CommitFollows(w, lucks[0]);
    } else {
      RunOne(w, Effect.ChangeActive, lucks);
      ChangeFollows(w, lucks[0]);
    }
  }

  lemma DeliverAwaitChange(s: System, lucks: Lucks)
    requires Due(s, State.AwaitChange)
    ensures Keeps(s, lucks)
  {
    hide InCommit, RequestOk, Changing, CommitMounts;
    var w := s.world;
    if s.inbox.value == Value.Ok {
      RunTwo(w, Effect.RememberChanged, Effect.ApplyVm, lucks);
      ChangedCommit(w, lucks[1]);
    } else {
      ChangingIsOnline(w);
      OfflineRow(w, lucks);
    }
  }

  lemma DeliverCommit(s: System, lucks: Lucks)
    requires Due(s, State.Commit)
    ensures Keeps(s, lucks)
  {
    hide InFinalize, InRestore, Committed, Failing, PlanFinish, RestoreMounts;
    var w := s.world;
    if s.inbox.value == Value.Ok {
      RunOne(w, Effect.DecideFinish, lucks);
      FinishFollows(w);
    } else {
      RunTwo(w, Effect.RememberCommitFailure, Effect.RestoreVm, lucks);
      RestoreFollows(w, lucks[1]);
    }
  }

  lemma DeliverRestore(s: System, lucks: Lucks)
    requires Due(s, State.Restore)
    ensures Keeps(s, lucks)
  {
    hide Failing, RequestOk, Plain, Launching;
    RunTwo(s.world, Effect.RememberRestore, Effect.DecideRollback, lucks);
  }

  lemma DeliverChooseRollback(s: System, lucks: Lucks)
    requires Due(s, State.ChooseRollback)
    ensures Keeps(s, lucks)
  {
    hide InAwaitRollback, Ended, Failing, ChangeTo, Complete, GoOffline;
    var w := s.world;
    FailingIsOn(w);
    if s.inbox.value == Value.Rollback {
      RunOne(w, Effect.RollbackActive, lucks);
      RollbackFollows(w, lucks[0]);
    } else if s.inbox.value == Value.End {
      RunTwo(w, Effect.EnterOffline, Effect.CompleteFailure, lucks);
      OfflineEnds(w, EndedBadly);
    } else {
      RunOne(w, Effect.CompleteFailure, lucks);
      PreservedEnds(w);
    }
  }

  lemma DeliverAwaitRollback(s: System, lucks: Lucks)
    requires Due(s, State.AwaitRollback)
    ensures Keeps(s, lucks)
  {
    hide Ended, Failing, Complete, GoOffline, Changing;
    var w := s.world;
    FailingIsOn(w);
    if s.inbox.value == Value.Ok {
      RunTwo(w, Effect.RememberRolledBack, Effect.CompleteFailure, lucks);
      RolledBackEnds(w);
    } else {
      RunTwo(w, Effect.EnterOffline, Effect.CompleteFailure, lucks);
      OfflineEnds(w, EndedBadly);
    }
  }

  lemma DeliverFinalize(s: System, lucks: Lucks)
    requires Due(s, State.Finalize)
    ensures Keeps(s, lucks)
  {
    hide Ended, Committed, Complete;
    var w := s.world;
    if s.inbox.value == Value.None {
      RunOne(w, Effect.CompleteSuccess, lucks);
      CommittedEnds(w);
    } else {
      RunOne(w, Effect.ResetVm, lucks);
    }
  }

  lemma ResetLaunches(s: System, lucks: Lucks)
    requires Due(s, State.AwaitReset) && s.inbox.value == Value.Launch
    ensures Keeps(s, lucks)
  {
    hide Ended, Committed, Complete, Activate, StartsFor, VerifiedDrive, RunRow, AsAsked, LaunchJustified;
    ActivationRow(s.world, lucks);
    CommittedStarts(s.world);
    ActivatedEnds(s.world);
  }

  lemma ResetReanchors(s: System, lucks: Lucks)
    requires Due(s, State.AwaitReset) && s.inbox.value == Value.Reanchor
    ensures Keeps(s, lucks)
  {
    hide Committed, StartReanchor, InAwaitReanchor, RunRow;
    RunOne(s.world, Effect.BeginReanchor, lucks);
    ReanchorFollows(s.world, lucks[0]);
  }

  lemma DeliverAwaitReset(s: System, lucks: Lucks)
    requires Due(s, State.AwaitReset)
    ensures Keeps(s, lucks)
  {
    hide Ended, Committed, Complete, RunRow;
    if s.inbox.value == Value.Preserve {
      RunTwo(s.world, Effect.ResetProgress, Effect.CompleteSuccess, lucks);
      CommittedEnds(s.world);
    } else if s.inbox.value == Value.Launch {
      hide Keeps;
      ResetLaunches(s, lucks);
    } else {
      hide Keeps;
      ResetReanchors(s, lucks);
    }
  }

  lemma DeliverAwaitReanchor(s: System, lucks: Lucks)
    requires Due(s, State.AwaitReanchor)
    ensures Keeps(s, lucks)
  {
    hide InCheckPostAux, Ended, Complete, GoOffline, Reanchoring, NoteLaunch, PlanPostAux, RunRow, StartsFor;
    var w := s.world;
    if s.inbox.value == Value.Ok {
      RunTwo(w, Effect.RememberLaunch, Effect.DecidePostAux, lucks);
      PostAuxFollows(w, lucks[1]);
    } else {
      RunTwo(w, Effect.EnterOffline, Effect.CompleteSuccess, lucks);
      OfflineEnds(w, EndedWell);
    }
  }

  lemma DeliverCheckPostAux(s: System, lucks: Lucks)
    requires Due(s, State.CheckPostAux)
    ensures Keeps(s, lucks)
  {
    hide InAwaitPostAux, Ended, Complete, GoOffline, Activate, CheckSecond, RunRow, AsAsked, StartsFor;
    var w := s.world;
    if s.inbox.value == Value.Satisfied {
      ActivationRow(w, lucks);
      ReanchorIsStarting(w);
      ActivatedEnds(w);
    } else if s.inbox.value == Value.Query {
      RunOne(w, Effect.VerifyAux, lucks);
      PostCheckFollows(w, lucks[0]);
    } else {
      RunTwo(w, Effect.EnterOffline, Effect.CompleteSuccess, lucks);
      ReanchorIsStarting(w);
      OfflineEnds(w, EndedWell);
    }
  }

  lemma DeliverAwaitPostAux(s: System, lucks: Lucks)
    requires Due(s, State.AwaitPostAux)
    ensures Keeps(s, lucks)
  {
    hide Ended, Complete, GoOffline, Activate, RunRow;
    var w := s.world;
    if s.inbox.value == Value.Same {
      hide AsAsked, StartsFor, VerifiedDrive;
      RememberedRow(w, lucks);
      ReanchorIsStarting(w);
      ActivatedEnds(w);
    } else {
      RunTwo(w, Effect.EnterOffline, Effect.CompleteSuccess, lucks);
      OfflineEnds(w, EndedWell);
    }
  }

  // ---- whole runs ----

  lemma DeliverKeeps(s: System, lucks: Lucks)
    requires Inv(s) && s.state != State.Idle && s.inbox.Posts?
    ensures Keeps(s, lucks)
  {
    hide Inv, Keeps;
    match s.state
    case Prepare => DeliverPrepare(s, lucks);
    case Plan => DeliverPlan(s, lucks);
    case AwaitResolve => DeliverAwaitResolve(s, lucks);
    case AwaitAnchor => DeliverAwaitAnchor(s, lucks);
    case CheckAux => DeliverCheckAux(s, lucks);
    case AwaitAux => DeliverAwaitAux(s, lucks);
    case Advance => DeliverAdvance(s, lucks);
    case AwaitChange => DeliverAwaitChange(s, lucks);
    case Commit => DeliverCommit(s, lucks);
    case Restore => DeliverRestore(s, lucks);
    case ChooseRollback => DeliverChooseRollback(s, lucks);
    case AwaitRollback => DeliverAwaitRollback(s, lucks);
    case Finalize => DeliverFinalize(s, lucks);
    case AwaitReset => DeliverAwaitReset(s, lucks);
    case AwaitReanchor => DeliverAwaitReanchor(s, lucks);
    case CheckPostAux => DeliverCheckPostAux(s, lucks);
    case AwaitPostAux => DeliverAwaitPostAux(s, lucks);
    case Idle =>
  }

  /** Only a state that waits for the service can have nothing posted. */
  predicate Waits(state: State) {
    || state == State.AwaitResolve || state == State.AwaitAnchor || state == State.AwaitAux
    || state == State.AwaitChange || state == State.AwaitRollback || state == State.AwaitReanchor
    || state == State.AwaitPostAux
  }

  lemma SilentWaits(s: System)
    requires Inv(s) && s.state != State.Idle && s.inbox == Silent
    ensures Waits(s.state)
  {
    hide RequestOk, Before, Calm, Plain, Launching, LaunchLoaded, Failing, Committed, RollbackValue, PlanValue;
  }

  lemma PollKeeps(s: System)
    requires Inv(s) && s.state != State.Idle && s.inbox == Silent
    ensures Inv(Acted(s, Poll))
  {
    hide InAwaitResolve, InAwaitAnchor, InAwaitAux, InAwaitChange, InAwaitRollback, InAwaitReanchor, InAwaitPostAux, Polled;
    SilentWaits(s);
    match s.state
    case AwaitResolve => PolledResolve(s.world);
    case AwaitAnchor => PolledAnchor(s.world);
    case AwaitAux => PolledAux(s.world);
    case AwaitChange => PolledChange(s.world);
    case AwaitRollback => PolledRollback(s.world);
    case AwaitReanchor => PolledReanchor(s.world);
    case AwaitPostAux => PolledPostAux(s.world);
    case _ =>
  }

  lemma AroundKeeps(s: System, e: Outer)
    requires Inv(s) && s.state != State.Idle && s.inbox == Silent
    ensures Inv(Acted(s, Around(e)))
  {
    hide InAwaitResolve, InAwaitAnchor, InAwaitAux, InAwaitChange, InAwaitRollback, InAwaitReanchor, InAwaitPostAux, Happened;
    SilentWaits(s);
    match s.state
    case AwaitResolve => AroundResolve(s.world, e);
    case AwaitAnchor => AroundAnchor(s.world, e);
    case AwaitAux => AroundAux(s.world, e);
    case AwaitChange => AroundChange(s.world, e);
    case AwaitRollback => AroundRollback(s.world, e);
    case AwaitReanchor => AroundReanchor(s.world, e);
    case AwaitPostAux => AroundPostAux(s.world, e);
    case _ =>
  }

  lemma FailedLaunchKeeps(s: System)
    requires Inv(s)
    ensures Inv(Acted(s, LaunchFails))
  {
    hide RequestOk, Before, Calm, Plain, Launching, LaunchLoaded, Failing, Committed, Reanchoring, AsAsked;
  }

  lemma ActedKeeps(s: System, a: Action)
    requires Inv(s)
    ensures Inv(Acted(s, a))
  {
    hide Inv;
    if s.state != State.Idle {
      match a
      case Deliver(lucks) =>
        if s.inbox.Posts? { DeliverKeeps(s, lucks); }
      case Poll =>
        if s.inbox == Silent { PollKeeps(s); }
      case LaunchFails => FailedLaunchKeeps(s);
      case Around(event) =>
        if s.inbox == Silent { AroundKeeps(s, event); }
    }
  }

  lemma {:induction false} RunKeeps(s: System, actions: seq<Action>)
    requires Inv(s)
    ensures Inv(Run(s, actions))
    decreases |actions|
  {
    hide Inv;
    if actions != [] {
      ActedKeeps(s, actions[0]);
      RunKeeps(Acted(s, actions[0]), actions[1..]);
    }
  }

  /**
   * What the callers of StartRaMediaOperation give it: a request that names its own disks, no request
   * of the service pending, and a session that is either active, whatever Drive 1 holds, or starting for the
   * disk the request puts in Drive 1.
   */
  predicate MayStart(w: World) {
    && RequestOk(w.op.request) && NoAuxYet(w.op.request) && Original(w) && Fresh(w.op) && Calm(w)
    && (Plain(w) || Launching(w))
  }

  lemma SubmittedInv(w: World, lucks: Lucks)
    requires MayStart(w)
    ensures Inv(Submitted(w, lucks))
  {
    hide RequestOk, NoAuxYet, Plain, Launching;
    assert EffectsAt(0) == [Effect.AcceptPrepare];
    RunOne(w, Effect.AcceptPrepare, lucks);
    PreparedKeeps(w, lucks[0]);
  }

  lemma PreparedKeeps(w: World, luck: Luck)
    requires MayStart(w)
    ensures var (after, reply) := PrepareMounts(w, luck); InPrepare(after, reply)
  {
  }

  /**
   * Whenever a media operation completes, whatever the results of its steps: the session is Offline, or the
   * service and the owner name one hash. A success leaves both drives as requested; a refusal, and a failure
   * whose restore succeeded, leave both drives as they were.
   */
  lemma EveryEndIsConsistent(w: World, lucks: Lucks, actions: seq<Action>)
    requires MayStart(w)
    ensures var s := Run(Submitted(w, lucks), actions);
      s.state == State.Idle ==>
        && (s.world.session == Session.Offline || (ServiceAgreed(s.world) && s.world.pending == Nil))
        && (s.world.op.ending == EndedWell ==> AsAsked(s.world))
        && (s.world.op.ending == EndedRejected ==> Original(s.world))
        && (s.world.op.ending == EndedBadly && s.world.op.restored ==> Original(s.world))
        && s.world.op.ending != InProgress
  {
    hide AsAsked, Original, ServiceAgreed, DriveAgrees;
    SubmittedInv(w, lucks);
    RunKeeps(Submitted(w, lucks), actions);
  }

  // ---- when Drive 1 agrees at the end ----

  /** What no step changes: how Drive 1 and the session were at the start, and what is asked of Drive 1. */
  predicate Remembers(w: World, after: World) {
    && after.op.startFirst == w.op.startFirst && after.op.startHash == w.op.startHash
    && after.op.request.first == w.op.request.first
  }

  lemma EffectRemembers(w: World, effect: Effect, luck: Luck)
    ensures Remembers(w, Effected(w, effect, luck).0)
  {
    hide PrepareMounts, Reject, PlanValue, GoOffline, CommitMounts, ResolveHash, StartLaunch, NoteLaunch, PlanAux,
      CheckSecond, ChangeTo, PlanFinish, RestoreMounts, RollbackValue, Complete, Activate, StartReanchor, PlanPostAux,
      Remembers;
    SessionEffectsRemember(w, luck);
    ServiceEffectsRemember(w, luck);
    MountsRemember(w, luck);
    PlansRemember(w, luck);
    FinishRemembers(w);
    PrepareRemembers(w, luck);
    RestoreRemembers(w, luck);
    NotesRemember(w);
  }

  lemma SessionEffectsRemember(w: World, luck: Luck)
    ensures Remembers(w, Reject(w)) && Remembers(w, GoOffline(w)) && Remembers(w, Activate(w))
    ensures forall ending :: Remembers(w, Complete(w, ending))
    ensures Remembers(w, StartLaunch(w, luck).0) && Remembers(w, StartReanchor(w, luck).0)
  {
    hide TransitionSession, LaunchJustified;
  }

  lemma ServiceEffectsRemember(w: World, luck: Luck)
    ensures Remembers(w, ResolveHash(w, luck).0) && Remembers(w, CheckSecond(w, luck).0)
    ensures forall hash :: Remembers(w, ChangeTo(w, hash, luck).0)
  {
    hide BeginVerify, BeginChange, VerifiedNow;
  }

  lemma PlansRemember(w: World, luck: Luck)
    ensures Remembers(w, PlanAux(w, luck).0) && Remembers(w, PlanPostAux(w, luck).0)
  {
    hide AsksForSecond, AuxValue;
  }

  lemma FinishRemembers(w: World)
    ensures Remembers(w, PlanFinish(w).0)
  {
    hide FinishValue;
  }

  lemma PrepareRemembers(w: World, luck: Luck)
    ensures Remembers(w, PrepareMounts(w, luck).0)
  {
    hide Save;
  }

  lemma RestoreRemembers(w: World, luck: Luck)
    ensures Remembers(w, RestoreMounts(w, luck).0)
  {
    hide RestoreOne, RestoreOneOk;
  }

  lemma NotesRemember(w: World)
    ensures Remembers(w, w) && Remembers(w, NoteLaunch(w))
    ensures Remembers(w, w.(op := w.op.(changed := true))) && Remembers(w, w.(loaded := w.op.request.oldHash))
  {
  }

  lemma MountsRemember(w: World, luck: Luck)
    ensures Remembers(w, CommitMounts(w, luck).0)
  {
    hide ApplyOne, ApplyOneOk;
  }

  lemma {:induction false} RowRemembers(w: World, effects: seq<Effect>, lucks: seq<Luck>)
    requires effects != [] && |lucks| >= |effects|
    ensures Remembers(w, RunRow(w, effects, lucks).0)
    decreases |effects|
  {
    hide Effected;
    EffectRemembers(w, effects[0], lucks[0]);
    if |effects| > 1 {
      RowRemembers(Effected(w, effects[0], lucks[0]).0, effects[1..], lucks[1..]);
    }
  }

  lemma ActedRemembers(s: System, a: Action)
    ensures Remembers(s.world, Acted(s, a).world)
  {
    hide RunRow, Choice, NextAt, EffectsAt, Polled, Happened, Remembers;
    NotesRemember(s.world);
    match a
    case Deliver(lucks) =>
      if s.inbox.Posts? && Choice(s.state, s.inbox.value) != 0 {
        RowsAreShort(Choice(s.state, s.inbox.value) - 1);
        RowRemembers(s.world, EffectsAt(Choice(s.state, s.inbox.value) - 1), lucks);
      }
    case Poll => PolledRemembers(s.world, s.state);
    case LaunchFails =>
    case Around(event) => HappenedRemembers(s.world, event);
  }

  lemma PolledRemembers(w: World, state: State)
    ensures Remembers(w, Polled(w, state).0)
  {
  }

  lemma HappenedRemembers(w: World, event: Outer)
    ensures Remembers(w, Happened(w, event))
  {
    hide TransitionSession;
  }

  lemma {:induction false} RunRemembers(s: System, actions: seq<Action>)
    ensures Remembers(s.world, Run(s, actions).world)
    decreases |actions|
  {
    hide Acted;
    if actions != [] {
      ActedRemembers(s, actions[0]);
      RunRemembers(Acted(s, actions[0]), actions[1..]);
    }
  }

  lemma SubmittedRemembers(w: World, lucks: Lucks)
    ensures Remembers(w, Submitted(w, lucks).world)
  {
    hide RunRow;
    RowsAreShort(0);
    RowRemembers(w, EffectsAt(0), lucks);
  }

  /** Drive 1 holds the disk the session is active or starting for. */
  predicate Holds(w: World) {
    w.first.Inserted? && Just(w.first.disk.hash) == w.op.startHash
  }

  /** The request puts a disk in Drive 1, and the operation went through. */
  predicate MountedFirst(request: Request, ending: Ending) {
    request.first.Mount? && ending == EndedWell
  }

  /**
   * A run that does not end Offline ends with Drive 1, the service and the owner naming one hash if Drive 1 held
   * the session's disk at the start, or the request mounts Drive 1 and the operation ended well; and only then,
   * unless Drive 1 held some other disk at the start. An ejected Drive 1 that is not mounted stays out of step.
   */
  lemma DriveAgreesExactly(w: World, lucks: Lucks, actions: seq<Action>)
    requires MayStart(w)
    ensures var end := Run(Submitted(w, lucks), actions);
      end.state == State.Idle && end.world.session != Session.Offline ==>
        && (Holds(w) || MountedFirst(w.op.request, end.world.op.ending) ==> Agreed(end.world))
        && (w.first.Empty? || Holds(w) ==>
              (Agreed(end.world) <==> Holds(w) || MountedFirst(w.op.request, end.world.op.ending)))
  {
    hide MayStart, Agreed, ServiceAgreed, AsAsked, Original;
    StartIsOriginal(w);
    SubmittedInv(w, lucks);
    RunKeeps(Submitted(w, lucks), actions);
    SubmittedRemembers(w, lucks);
    RunRemembers(Submitted(w, lucks), actions);
  }

  lemma StartIsOriginal(w: World)
    requires MayStart(w)
    ensures w.op.startFirst == w.first
  {
  }

  lemma InvIsJustified(s: System)
    requires Inv(s)
    ensures s.world.op.justified
  {
    hide RequestOk, Calm, Plain, Launching, LaunchLoaded, Original, SavedOk, StartsFor, AsAsked;
  }

  /** No launch is ever activated unless LaunchJustified held at that moment. */
  lemma EveryLaunchIsJustified(w: World, lucks: Lucks, actions: seq<Action>)
    requires MayStart(w)
    ensures Run(Submitted(w, lucks), actions).world.op.justified
  {
    hide Inv;
    SubmittedInv(w, lucks);
    RunKeeps(Submitted(w, lucks), actions);
    InvIsJustified(Run(Submitted(w, lucks), actions));
  }

  /** The owner never posts a result that the machine has no transition for. */
  lemma OwnerNeverMisreports(w: World, lucks: Lucks, actions: seq<Action>)
    requires MayStart(w)
    ensures var s := Run(Submitted(w, lucks), actions);
      s.state != State.Idle && s.inbox.Posts? ==> Choice(s.state, s.inbox.value) != 0
  {
    hide Inv;
    SubmittedInv(w, lucks);
    var s := Run(Submitted(w, lucks), actions);
    RunKeeps(Submitted(w, lucks), actions);
    if s.state != State.Idle && s.inbox.Posts? {
      DeliverKeeps(s, lucks);
    }
  }

  /** What a handler posts is a result of the event that its own effect awaits. */
  lemma EffectRepliesFit(w: World, effect: Effect, luck: Luck)
    requires effect == Effect.ResetVm ==> Carries(Event.ResetDone, w.op.finish)
    ensures var reply := Effected(w, effect, luck).1;
      reply.Posts? ==> ResultOf(effect).Awaits? && Carries(ResultOf(effect).event, reply.value)
  {
    hide Carries, BeginVerify, BeginChange, SessionFor, ApplyTargets, RestoreOne, Complete, OfflineWorld, Activate;
    SimpleCarries();
    match effect
    case DecideFinish => FinishCarries(w.op);
    case _ =>
  }

  lemma FinishCarries(o: Operation)
    ensures Carries(Event.FinishPlan, FinishValue(o))
  {
  }

  lemma SimpleCarries()
    ensures Carries(Event.Prepared, Value.Ok) && Carries(Event.Prepared, Value.Failed)
    ensures Carries(Event.PlanResult, Value.Launch) && Carries(Event.PlanResult, Value.Resolve)
    ensures Carries(Event.PlanResult, Value.Existing) && Carries(Event.ResolveResult, Value.Unavailable)
    ensures Carries(Event.LoadResult, Value.Unavailable) && Carries(Event.AuxPlan, Value.Fallback)
    ensures Carries(Event.AuxPlan, Value.Satisfied) && Carries(Event.AuxPlan, Value.Query)
    ensures Carries(Event.VerifyResult, Value.Unavailable) && Carries(Event.AdvanceResult, Value.Change)
    ensures Carries(Event.AdvanceResult, Value.Commit) && Carries(Event.ChangeResult, Value.Unavailable)
    ensures Carries(Event.CommitResult, Value.Ok) && Carries(Event.CommitResult, Value.Failed)
    ensures Carries(Event.RestoreResult, Value.Restored) && Carries(Event.RestoreResult, Value.Failed)
    ensures Carries(Event.RollbackPlan, Value.Ended) && Carries(Event.RollbackPlan, Value.Rollback)
    ensures Carries(Event.RollbackPlan, Value.Preserve) && Carries(Event.RollbackPlan, Value.End)
    ensures Carries(Event.RollbackResult, Value.Unavailable)
  {
  }
}

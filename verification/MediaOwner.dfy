/**
 * The owner of a media operation: the session, the two drives and the RA service, and what each
 * effect of the machine does to them.
 */
module MediaOwner {
  import opened MediaTable

  type Hash = nat

  datatype Option<T> = Nil | Just(value: T)

  // ---- the session ----

  datatype Session = Ready | Starting | Active | ActiveDisconnected | Offline

  datatype Signal =
    | BeginLaunchSignal | LaunchSucceeded | LaunchFailed | DisconnectedSignal | ReconnectedSignal
    | SessionInvalidated | StopGame

  function TransitionSession(state: Session, signal: Signal): Session {
    if signal == StopGame then Session.Ready
    else match state
      case Ready => if signal == BeginLaunchSignal then Session.Starting else state
      case Starting =>
        if signal == LaunchSucceeded then Session.Active
        else if signal == LaunchFailed || signal == SessionInvalidated then Session.Offline
        else state
      case Active =>
        if signal == DisconnectedSignal then Session.ActiveDisconnected
        else if signal == SessionInvalidated then Session.Offline
        else state
      case ActiveDisconnected =>
        if signal == ReconnectedSignal then Session.Active
        else if signal == SessionInvalidated then Session.Offline
        else state
      case Offline => state
  }

  // ---- drives ----

  /** A bank of a working copy, with the RA hash that resolving it gives. */
  datatype Disk = Disk(path: string, bank: nat, hash: Hash)

  datatype Drive = Empty | Inserted(disk: Disk)

  datatype Target = Keep | Eject | Mount(disk: Disk)

  datatype Saved = NotSaved | SavedAs(drive: Drive)

  /** Opening a disk may fail and leave the drive in any condition. */
  datatype Opening = Opens | FailsLeaving(drive: Drive)

  // ---- the RA service ----

  datatype Game = NoGame | LoadPending(hash: Hash) | Loaded(hash: Hash, id: nat) | Disabled

  datatype Change = NoChange | ChangePending(hash: Hash) | ChangeOk(hash: Hash) | ChangeFailed

  datatype Check =
    | NoCheck | CheckPending(hash: Hash, expected: nat) | CheckOk(hash: Hash, id: nat)
    | CheckFailed(hash: Hash, different: bool, id: nat)

  datatype Service = Service(game: Game, change: Change, check: Check, verified: map<Hash, nat>)

  const UNLOADED := Service(NoGame, NoChange, NoCheck, map[])

  predicate VerifiedFor(s: Service, hash: Hash, id: nat) {
    id > 0 && hash in s.verified && s.verified[hash] == id
  }

  predicate VerifiedNow(s: Service, hash: Hash) {
    s.game.Loaded? && VerifiedFor(s, hash, s.game.id)
  }

  /** BeginVerifyMediaHashForGame: answered from the cache, refused, or sent. */
  function BeginVerify(s: Service, hash: Hash, expected: nat, loggedIn: bool, sent: bool): Service {
    if !loggedIn || expected == 0 || s.check.CheckPending? then s
    else if hash in s.verified then
      s.(check := if s.verified[hash] == expected then CheckOk(hash, expected)
                  else CheckFailed(hash, true, s.verified[hash]))
    else s.(check := if sent then CheckPending(hash, expected) else CheckFailed(hash, false, 0))
  }

  /** BeginChangeMediaByHash: a cached hash of another game fails at once. */
  function BeginChange(s: Service, hash: Hash, loggedIn: bool, sent: bool): Service {
    if !loggedIn || !s.game.Loaded? || s.change.ChangePending? then s
    else if hash in s.verified && s.verified[hash] != s.game.id then s.(change := ChangeFailed)
    else s.(change := if sent then ChangePending(hash) else ChangeFailed)
  }

  // ---- the operation ----

  datatype Request = Request(
    anchor: bool, reset: bool, launch: bool,
    newHash: Option<Hash>, oldHash: Option<Hash>, auxHash: Option<Hash>, expected: nat,
    first: Target, second: Target, savedFirst: Saved, savedSecond: Saved, auxVerified: bool)

  datatype Ending = InProgress | EndedRejected | EndedWell | EndedBadly

  /**
   * applied, justified, the two start drives and startHash, the hash the session is active or starting for at
   * the start, record what the run did; the rest is the source's.
   */
  datatype Operation = Operation(
    request: Request, ended: bool, changed: bool, restored: bool, prepared: bool, profileSaved: bool,
    finish: Value, ending: Ending, applied: bool, justified: bool,
    startFirst: Drive, startSecond: Drive, startHash: Option<Hash>)

  datatype World = World(
    session: Session, first: Drive, second: Drive, service: Service,
    loaded: Option<Hash>, pending: Option<Hash>, connected: bool, op: Operation)

  /** The outcomes of calls into code that is not modelled, chosen freely for each effect. */
  datatype Luck = Luck(
    probes: bool, resolves: bool, registers: bool, profile: bool, loggedIn: bool, sent: bool,
    first: Opening, second: Opening)

  const ANY_LUCK := Luck(true, true, true, true, true, true, Opens, Opens)

  /** One luck for each effect of the longest row. */
  type Lucks = lucks: seq<Luck> | |lucks| == 4 witness [ANY_LUCK, ANY_LUCK, ANY_LUCK, ANY_LUCK]

  datatype Reply = Silent | Posts(value: Value)

  function Touched(t: Target): bool {
    t != Keep
  }

  /** The RA hash of the disk in a drive. */
  function HashIn(d: Drive): Option<Hash> {
    if d.Inserted? then Just(d.disk.hash) else Nil
  }

  function Save(t: Target, d: Drive): Saved {
    if Touched(t) then SavedAs(d) else NotSaved
  }

  function OpenDrive(disk: Disk, luck: Opening): Drive {
    if luck.Opens? then Inserted(disk) else luck.drive
  }

  /** One drive of DiskMountTargets.Apply. */
  function ApplyOne(t: Target, d: Drive, luck: Opening): Drive {
    match t
    case Keep => d
    case Eject => Empty
    case Mount(disk) => OpenDrive(disk, luck)
  }

  predicate ApplyOneOk(t: Target, luck: Opening) {
    t.Mount? ==> luck.Opens?
  }

  /** Apply stops at the first drive that fails. */
  function ApplyTargets(w: World, luck: Luck): (World, bool) {
    var r := w.op.request;
    var first := ApplyOne(r.first, w.first, luck.first);
    if !ApplyOneOk(r.first, luck.first) then (w.(first := first), false)
    else (w.(first := first, second := ApplyOne(r.second, w.second, luck.second)), ApplyOneOk(r.second, luck.second))
  }

  /** One drive of DiskMountSnapshots.Restore. */
  function RestoreOne(saved: Saved, d: Drive, luck: Opening): Drive {
    match saved
    case NotSaved => d
    case SavedAs(Empty) => Empty
    case SavedAs(Inserted(disk)) => OpenDrive(disk, luck)
  }

  predicate RestoreOneOk(saved: Saved, luck: Opening) {
    saved.SavedAs? && saved.drive.Inserted? ==> luck.Opens?
  }

  /** EnterRaOfflineSession, keeping the operation. */
  function OfflineWorld(w: World): World {
    w.(service := UNLOADED, session := TransitionSession(w.session, SessionInvalidated), pending := Nil, loaded := Nil)
  }

  /** BeginRaSessionForMedia, keeping the operation. */
  function SessionFor(w: World, hash: Hash): World {
    var stopped := TransitionSession(w.session, StopGame);
    w.(session := TransitionSession(stopped, BeginLaunchSignal), service := UNLOADED, pending := Just(hash), loaded := Nil)
  }

  function WithRequest(w: World, r: Request): World {
    w.(op := w.op.(request := r))
  }

  /**
   * What must hold for a launch to be activated: the game load of this session succeeded, the mounts
   * of this run were committed, and Drive 2 is empty or verified against the game just loaded.
   */
  predicate LaunchJustified(w: World) {
    && w.session == Session.Starting
    && w.service.game.Loaded?
    && w.op.applied
    && (w.second.Empty? || VerifiedFor(w.service, w.second.disk.hash, w.service.game.id))
  }

  // ---- the effects ----

  function PrepareMounts(w: World, luck: Luck): (World, Reply) {
    var r := w.op.request;
    var prepared := luck.probes || (!r.first.Mount? && !r.second.Mount?);
    var saved := if prepared then r.(savedFirst := Save(r.first, w.first), savedSecond := Save(r.second, w.second)) else r;
    (w.(op := w.op.(request := saved, prepared := prepared)), Posts(if prepared then Value.Ok else Value.Failed))
  }

  function PlanValue(w: World): Value {
    var r := w.op.request;
    if r.launch then Value.Launch
    else if r.anchor && (r.newHash == Nil || !VerifiedNow(w.service, r.newHash.value)) then Value.Resolve
    else Value.Existing
  }

  function ResolveHash(w: World, luck: Luck): (World, Reply) {
    var r := w.op.request;
    if !w.connected || r.newHash == Nil then (w, Posts(Value.Unavailable))
    else (w.(service := BeginVerify(w.service, r.newHash.value, r.expected, luck.loggedIn, luck.sent)), Silent)
  }

  function StartLaunch(w: World, luck: Luck): (World, Reply) {
    var r := w.op.request;
    if !r.anchor then (w, Silent)
    else if !luck.resolves || r.newHash == Nil then (w, Posts(Value.Unavailable))
    else (WithRequest(SessionFor(w, r.newHash.value), r.(launch := true, reset := true, auxVerified := false)), Silent)
  }

  function NoteLaunch(w: World): World {
    var id := if w.service.game.Loaded? then w.service.game.id else 0;
    w.(op := w.op.(request := w.op.request.(expected := id), ended := false))
  }

  function StartReanchor(w: World, luck: Luck): (World, Reply) {
    if !w.connected || w.first.Empty? || !luck.resolves then (w, Posts(Value.Unavailable))
    else (SessionFor(w, w.first.disk.hash), Silent)
  }

  function PlanPostAux(w: World, luck: Luck): (World, Reply) {
    var r := w.op.request;
    if w.second.Empty? then (WithRequest(w, r.(auxHash := Nil)), Posts(Value.Satisfied))
    else if !luck.resolves then (WithRequest(w, r.(auxHash := Nil)), Posts(Value.Fallback))
    else (WithRequest(w, r.(auxHash := Just(w.second.disk.hash))), Posts(Value.Query))
  }

  /** A new title must also authorize an untouched, already mounted Drive 2. */
  predicate AsksForSecond(r: Request, second: Drive) {
    r.launch && r.auxHash == Nil && second.Inserted? && r.second == Keep
  }

  function AuxValue(r: Request): Value {
    if r.auxHash == Nil || (r.anchor && r.auxVerified) then Value.Satisfied else Value.Query
  }

  function PlanAux(w: World, luck: Luck): (World, Reply) {
    var r := w.op.request;
    if !AsksForSecond(r, w.second) then (w, Posts(AuxValue(r)))
    else if !luck.resolves then (w, Posts(Value.Fallback))
    else
      var asked := r.(auxHash := Just(w.second.disk.hash));
      (WithRequest(w, asked), Posts(AuxValue(asked)))
  }

  function CheckSecond(w: World, luck: Luck): (World, Reply) {
    var r := w.op.request;
    if r.auxHash == Nil || (!w.connected && !VerifiedNow(w.service, r.auxHash.value)) then (w, Posts(Value.Unavailable))
    else (w.(service := BeginVerify(w.service, r.auxHash.value, r.expected, luck.loggedIn, luck.sent)), Silent)
  }

  function ChangeTo(w: World, hash: Option<Hash>, luck: Luck): (World, Reply) {
    if !w.connected || hash == Nil then (w, Posts(Value.Unavailable))
    else (w.(service := BeginChange(w.service, hash.value, luck.loggedIn, luck.sent)), Silent)
  }

  function GoOffline(w: World): World {
    OfflineWorld(w.(op := w.op.(ended := true)))
  }

  function CommitMounts(w: World, luck: Luck): (World, Reply) {
    var r := w.op.request;
    if !w.op.ended && !luck.registers then (w, Posts(Value.Failed))
    else
      var (applied, ok) := ApplyTargets(w, luck);
      if !ok then (applied, Posts(Value.Failed))
      else
        var saved := applied.(op := applied.op.(profileSaved := luck.profile));
        if (r.anchor || (Touched(r.first) && Touched(r.second))) && !luck.profile && !w.op.ended then
          (saved, Posts(Value.Failed))
        else
          var done := saved.(op := saved.op.(applied := true));
          (if r.anchor && !w.op.ended then done.(loaded := r.newHash) else done, Posts(Value.Ok))
  }

  function RestoreMounts(w: World, luck: Luck): (World, Reply) {
    var r := w.op.request;
    var restored := RestoreOneOk(r.savedFirst, luck.first) && RestoreOneOk(r.savedSecond, luck.second);
    (w.(first := RestoreOne(r.savedFirst, w.first, luck.first),
        second := RestoreOne(r.savedSecond, w.second, luck.second),
        op := w.op.(restored := restored)),
     Posts(if restored then Value.Restored else Value.Failed))
  }

  function RollbackValue(w: World): Value {
    if w.op.ended then Value.Ended
    else if w.op.restored && !w.op.request.launch then
      (if w.op.changed then Value.Rollback else Value.Preserve)
    else Value.End
  }

  function FinishValue(o: Operation): Value {
    if o.ended then (if o.request.reset then Value.Reanchor else Value.None)
    else if o.request.launch then Value.Launch
    else if o.request.reset then Value.Preserve
    else Value.None
  }

  function PlanFinish(w: World): (World, Reply) {
    (w.(op := w.op.(finish := FinishValue(w.op))), Posts(FinishValue(w.op)))
  }

  function Activate(w: World): World {
    w.(session := TransitionSession(w.session, LaunchSucceeded), pending := Nil,
       op := w.op.(justified := w.op.justified && LaunchJustified(w)))
  }

  /** The operation is released, and with it what it left pending in the service. */
  function Complete(w: World, ending: Ending): World {
    w.(op := w.op.(ending := ending),
       service := w.service.(
         check := NoCheck, change := if w.op.request.anchor then NoChange else w.service.change))
  }

  function Reject(w: World): World {
    Complete(if w.op.request.launch then OfflineWorld(w) else w, EndedRejected)
  }

  /** ExecuteRaMediaEffect: the new world and the result the handler posts at once, if any. */
  function Effected(w: World, effect: Effect, luck: Luck): (World, Reply) {
    match effect
    case AcceptPrepare => PrepareMounts(w, luck)
    case RejectLocal => (Reject(w), Silent)
    case DecidePlan => (w, Posts(PlanValue(w)))
    case EnterOffline => (GoOffline(w), Silent)
    case ApplyVm => CommitMounts(w, luck)
    case ResolveAnchor => ResolveHash(w, luck)
    case BeginLaunch => StartLaunch(w, luck)
    case RememberLaunch => (NoteLaunch(w), Silent)
    case DecideAux => PlanAux(w, luck)
    case VerifyAux => CheckSecond(w, luck)
    case DecideAdvance =>
      (w, Posts(if w.op.request.anchor && !w.op.request.launch then Value.Change else Value.Commit))
    case ChangeActive => ChangeTo(w, w.op.request.newHash, luck)
    case RememberChanged => (w.(op := w.op.(changed := true)), Silent)
    case DecideFinish => PlanFinish(w)
    case RestoreVm => RestoreMounts(w, luck)
    case DecideRollback => (w, Posts(RollbackValue(w)))
    case RollbackActive => ChangeTo(w, w.op.request.oldHash, luck)
    case RememberRolledBack => (w.(loaded := w.op.request.oldHash), Silent)
    case CompleteFailure => (Complete(w, EndedBadly), Silent)
    case CompleteSuccess => (Complete(w, EndedWell), Silent)
    case ResetVm => (w, Posts(w.op.finish))
    case ActivateLaunch => (Activate(w), Silent)
    case BeginReanchor => StartReanchor(w, luck)
    case DecidePostAux => PlanPostAux(w, luck)
    case _ => (w, Silent)
  }

  /** ProcessRaMediaOperation: what the service tick posts in a waiting state. */
  function Polled(w: World, state: State): (World, Reply) {
    if state == State.AwaitAnchor || state == State.AwaitReanchor then
      (w, if w.service.game.Loaded? then Posts(Value.Ok)
          else if w.service.game == Disabled then Posts(Value.Unavailable)
          else Silent)
    else if state == State.AwaitChange || state == State.AwaitRollback then
      if w.service.change.ChangePending? then (w, Silent)
      else (w.(service := w.service.(change := NoChange)),
            Posts(if w.service.change.ChangeOk? then Value.Ok else Value.Unavailable))
    else if state == State.AwaitAux || state == State.AwaitPostAux || state == State.AwaitResolve then
      var check := w.service.check;
      var hash := if state == State.AwaitResolve then w.op.request.newHash else w.op.request.auxHash;
      if check.CheckPending? || (!check.NoCheck? && Just(check.hash) != hash) then (w, Silent)
      else (w.(service := w.service.(check := NoCheck)), Posts(
        if check.CheckOk? then Value.Same
        else if state == State.AwaitResolve && check.CheckFailed? && check.different then
          (if check.id > 0 then Value.Other else Value.Unregistered)
        else Value.Unavailable))
    else (w, Silent)
  }

  // ---- what happens around the operation ----

  /** Events of the service, the network and the user while an operation waits. */
  datatype Outer =
    | LoadBegins
    | LoadEnds(ok: bool, id: nat)
    | CheckAnswered(answered: bool, id: nat)
    | PreflightAnswered(answered: bool, id: nat)
    | ChangeAnswered(ok: bool)
    | Reachability(connected: bool, signal: Signal)
    | EjectSecond

  function Happened(w: World, e: Outer): World {
    var s := w.service;
    match e
    case LoadBegins =>
      if w.session == Session.Starting && w.pending.Just? && s.game == NoGame then
        w.(service := s.(game := LoadPending(w.pending.value)), loaded := w.pending)
      else w
    case LoadEnds(ok, id) =>
      if !s.game.LoadPending? then w
      else if ok && id > 0 then
        w.(service := s.(game := Loaded(s.game.hash, id), verified := s.verified[s.game.hash := id]))
      else w.(service := s.(game := Disabled))
    case CheckAnswered(answered, id) =>
      if !s.check.CheckPending? then w
      else if !answered then w.(service := s.(check := CheckFailed(s.check.hash, false, 0)))
      else if id == s.check.expected then
        w.(service := s.(check := CheckOk(s.check.hash, id), verified := s.verified[s.check.hash := id]))
      else w.(service := s.(check := CheckFailed(s.check.hash, true, id)))
    case PreflightAnswered(answered, id) =>
      // A hash is resolved before the change itself is asked for, and stays in the cache if that fails.
      if !s.change.ChangePending? || !s.game.Loaded? || s.change.hash in s.verified then w
      else if !answered || id != s.game.id then w.(service := s.(change := ChangeFailed))
      else w.(service := s.(verified := s.verified[s.change.hash := id]))
    case ChangeAnswered(ok) =>
      if !s.change.ChangePending? || !s.game.Loaded? || s.change.hash !in s.verified then w
      else if ok then
        w.(service := s.(change := ChangeOk(s.change.hash), game := s.game.(hash := s.change.hash)))
      else w.(service := s.(change := ChangeFailed))
    case Reachability(connected, signal) =>
      if signal == DisconnectedSignal || signal == ReconnectedSignal then
        w.(connected := connected, session := TransitionSession(w.session, signal))
      else w.(connected := connected)
    case EjectSecond =>
      // Only an anchor operation that leaves Drive 2 alone lets the user eject it meanwhile.
      if w.op.request.anchor && w.op.request.second == Keep then
        w.(second := Empty, op := w.op.(startSecond := Empty))
      else w
  }

  // ---- the machine and its owner together ----

  /** inbox is the result posted and not yet taken; there is never more than one. */
  datatype System = System(state: State, world: World, inbox: Reply)

  /** The effects of a row in order, each with its own luck; only the last may post. */
  function RunRow(w: World, effects: seq<Effect>, lucks: seq<Luck>): (World, Reply)
    requires effects != [] && |lucks| >= |effects|
    decreases |effects|
  {
    var (after, reply) := Effected(w, effects[0], lucks[0]);
    if |effects| == 1 then (after, reply) else RunRow(after, effects[1..], lucks[1..])
  }

  datatype Action = Deliver(lucks: Lucks) | Poll | LaunchFails | Around(event: Outer)

  function Transitioned(s: System, value: Value, lucks: Lucks): System
    requires Choice(s.state, value) != 0
  {
    var row := TransitionAt(Choice(s.state, value) - 1);
    RowsAreShort(Choice(s.state, value) - 1);
    var (w, reply) := RunRow(s.world, row.effects, lucks);
    System(row.next, w, reply)
  }

  /** StartRaMediaOperation: the machine leaves Idle on a request. */
  function Submitted(w: World, lucks: Lucks): System {
    Transitioned(System(State.Idle, w, Silent), Value.Request, lucks)
  }

  function Acted(s: System, a: Action): System {
    match a
    case Deliver(lucks) =>
      if s.inbox.Posts? && s.state != State.Idle && Choice(s.state, s.inbox.value) != 0 then
        Transitioned(s, s.inbox.value, lucks)
      else s
    case Poll =>
      if s.inbox == Silent && s.state != State.Idle then
        var (w, reply) := Polled(s.world, s.state);
        System(s.state, w, reply)
      else s
    case LaunchFails =>
      if s.inbox == Silent && (s.state == State.AwaitAnchor || s.state == State.AwaitReanchor) then
        s.(inbox := Posts(Value.Unavailable))
      else s
    case Around(event) =>
      if s.inbox == Silent && s.state != State.Idle then s.(world := Happened(s.world, event)) else s
  }

  function Run(s: System, actions: seq<Action>): System
    decreases |actions|
  {
    if actions == [] then s else Run(Acted(s, actions[0]), actions[1..])
  }
}

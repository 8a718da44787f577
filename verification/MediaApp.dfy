/**
 * The owner as the program has it: one object whose effect handler updates its fields and drives step
 * by step. Each method is proved against the function of MediaOwner that gives the new world.
 */
module MediaApp {
  import opened MediaTable
  import opened MediaOwner
  import opened MediaOwnerProofs

  const MAX_DRIVE := 2

  class App {
    var session: Session
    var service: Service
    var loaded: Option<Hash>
    var pending: Option<Hash>
    var connected: bool
    var op: Operation
    const drives: array<Drive>

    constructor (request: Request)
      ensures Valid() && fresh(drives)
      ensures W().op.request == request && W().session == Session.Ready
      ensures Original() && W().op.restored && !W().op.ended && W().op.ending == InProgress
    {
      session := Session.Ready;
      service := UNLOADED;
      loaded, pending, connected := Nil, Nil, true;
      drives := new Drive[MAX_DRIVE](i => Empty);
      op := Operation(request, false, false, true, true, true, Value.None, InProgress, false, true, Empty, Empty, Nil);
    }

    ghost predicate Valid()
      reads this
    {
      drives.Length == MAX_DRIVE
    }

    ghost predicate Original()
      requires Valid()
      reads this, drives
    {
      drives[0] == op.startFirst && drives[1] == op.startSecond
    }

    /** The whole state as one value. */
    ghost function W(): World
      requires Valid()
      reads this, drives
    {
      World(session, drives[0], drives[1], service, loaded, pending, connected, op)
    }

    /** DiskManager.Open, which may fail. */
    method Open(drive: nat, disk: Disk, luck: Opening) returns (ok: bool)
      requires Valid() && drive < MAX_DRIVE
      modifies drives
      ensures ok == luck.Opens?
      ensures drives[drive] == OpenDrive(disk, luck)
      ensures forall d :: 0 <= d < MAX_DRIVE && d != drive ==> drives[d] == old(drives[d])
    {
      drives[drive] := if luck.Opens? then Inserted(disk) else luck.drive;
      ok := luck.Opens?;
    }

    /** DiskMountTargets.Apply: drive by drive, giving up at the first that fails. */
    method Apply(targets: seq<Target>, lucks: seq<Opening>) returns (ok: bool)
      requires Valid() && |targets| == |lucks| == MAX_DRIVE
      modifies drives
      ensures drives[0] == ApplyOne(targets[0], old(drives[0]), lucks[0])
      ensures drives[1] == if ApplyOneOk(targets[0], lucks[0])
        then ApplyOne(targets[1], old(drives[1]), lucks[1]) else old(drives[1])
      ensures ok <==> ApplyOneOk(targets[0], lucks[0]) && ApplyOneOk(targets[1], lucks[1])
    {
      var drive := 0;
      while drive < MAX_DRIVE
        invariant 0 <= drive <= MAX_DRIVE
        invariant forall d :: 0 <= d < drive ==>
          ApplyOneOk(targets[d], lucks[d]) && drives[d] == ApplyOne(targets[d], old(drives[d]), lucks[d])
        invariant forall d :: drive <= d < MAX_DRIVE ==> drives[d] == old(drives[d])
      {
        match targets[drive] {
          case Keep =>
          case Eject => drives[drive] := Empty;
          case Mount(disk) =>
            var taken := Open(drive, disk, lucks[drive]);
            if !taken { return false; }
        }
        drive := drive + 1;
      }
      return true;
    }

    /** DiskMountSnapshots.Restore: every saved drive is attempted, even after a failure. */
    method Restore(saved: seq<Saved>, lucks: seq<Opening>) returns (restored: bool)
      requires Valid() && |saved| == |lucks| == MAX_DRIVE
      modifies drives
      ensures forall d :: 0 <= d < MAX_DRIVE ==> drives[d] == RestoreOne(saved[d], old(drives[d]), lucks[d])
      ensures restored <==> forall d :: 0 <= d < MAX_DRIVE ==> RestoreOneOk(saved[d], lucks[d])
    {
      restored := true;
      var drive := 0;
      while drive < MAX_DRIVE
        invariant 0 <= drive <= MAX_DRIVE
        invariant forall d :: 0 <= d < drive ==> drives[d] == RestoreOne(saved[d], old(drives[d]), lucks[d])
        invariant forall d :: drive <= d < MAX_DRIVE ==> drives[d] == old(drives[d])
        invariant restored <==> forall d :: 0 <= d < drive ==> RestoreOneOk(saved[d], lucks[d])
      {
        if saved[drive].SavedAs? {
          if saved[drive].drive.Inserted? {
            var taken := Open(drive, saved[drive].drive.disk, lucks[drive]);
            restored := taken && restored;
          } else {
            drives[drive] := Empty;
          }
        }
        drive := drive + 1;
      }
    }

    method EnterRaOfflineSession()
      requires Valid()
      modifies this
      ensures Valid() && W() == OfflineWorld(old(W())) && SameMedia(old(W()), W())
      ensures old(session) != Session.Ready ==> Gone(W())
    {
      service := UNLOADED;
      session := TransitionSession(session, SessionInvalidated);
      pending := Nil;
      loaded := Nil;
    }

    method BeginRaSessionForMedia(hash: Hash)
      requires Valid()
      modifies this
      ensures Valid() && W() == SessionFor(old(W()), hash) && SameMedia(old(W()), W()) && Calm(W())
      ensures forall d: Drive :: d.Inserted? && d.disk.hash == hash ==> StartsFor(W(), d)
    {
      session := TransitionSession(session, StopGame);
      session := TransitionSession(session, BeginLaunchSignal);
      service := UNLOADED;
      pending := Just(hash);
      loaded := Nil;
    }

    method AcceptPrepare(luck: Luck) returns (reply: Reply)
      requires Valid()
      modifies this
      ensures Valid() && (W(), reply) == PrepareMounts(old(W()), luck)
    {
      op := op.(prepared := true);
      var drive := 0;
      var targets := [op.request.first, op.request.second];
      while drive < MAX_DRIVE && op.prepared
        invariant 0 <= drive <= MAX_DRIVE
        modifies `op
        invariant op == old(op).(prepared := luck.probes || forall d :: 0 <= d < drive ==> !targets[d].Mount?)
      {
        if targets[drive].Mount? {
          op := op.(prepared := luck.probes);
        }
        drive := drive + 1;
      }
      assert op.prepared <==> luck.probes || (!targets[0].Mount? && !targets[1].Mount?);
      if op.prepared {
        op := op.(request := op.request.(
          savedFirst := Save(op.request.first, drives[0]), savedSecond := Save(op.request.second, drives[1])));
      }
      reply := Posts(if op.prepared then Value.Ok else Value.Failed);
    }

    method ResolveAnchor(luck: Luck) returns (reply: Reply)
      requires Valid()
      modifies this
      ensures Valid() && (W(), reply) == ResolveHash(old(W()), luck)
    {
      if !connected || op.request.newHash == Nil {
        return Posts(Value.Unavailable);
      }
      service := BeginVerify(service, op.request.newHash.value, op.request.expected, luck.loggedIn, luck.sent);
      return Silent;
    }

    method BeginLaunch(luck: Luck) returns (reply: Reply)
      requires Valid()
      modifies this
      ensures Valid() && (W(), reply) == StartLaunch(old(W()), luck)
    {
      if op.request.anchor {
        if !luck.resolves || op.request.newHash == Nil {
          return Posts(Value.Unavailable);
        }
        op := op.(request := op.request.(launch := true, reset := true));
        BeginRaSessionForMedia(op.request.newHash.value);
        op := op.(request := op.request.(auxVerified := false));
      }
      return Silent;
    }

    method BeginReanchor(luck: Luck) returns (reply: Reply)
      requires Valid()
      modifies this
      ensures Valid() && (W(), reply) == StartReanchor(old(W()), luck)
    {
      if !connected || drives[0].Empty? || !luck.resolves {
        return Posts(Value.Unavailable);
      }
      BeginRaSessionForMedia(drives[0].disk.hash);
      return Silent;
    }

    method DecidePostAux(luck: Luck) returns (reply: Reply)
      requires Valid()
      modifies this
      ensures Valid() && (W(), reply) == PlanPostAux(old(W()), luck)
    {
      op := op.(request := op.request.(auxHash := Nil));
      if drives[1].Empty? {
        return Posts(Value.Satisfied);
      }
      if !luck.resolves {
        return Posts(Value.Fallback);
      }
      op := op.(request := op.request.(auxHash := Just(drives[1].disk.hash)));
      return Posts(Value.Query);
    }

    method DecideAux(luck: Luck) returns (reply: Reply)
      requires Valid()
      modifies this
      ensures Valid() && (W(), reply) == PlanAux(old(W()), luck)
    {
      if AsksForSecond(op.request, drives[1]) {
        if !luck.resolves {
          return Posts(Value.Fallback);
        }
        op := op.(request := op.request.(auxHash := Just(drives[1].disk.hash)));
      }
      return Posts(AuxValue(op.request));
    }

    method VerifyAux(luck: Luck) returns (reply: Reply)
      requires Valid()
      modifies this
      ensures Valid() && (W(), reply) == CheckSecond(old(W()), luck)
    {
      var hash := op.request.auxHash;
      if hash == Nil || (!connected && !VerifiedNow(service, hash.value)) {
        return Posts(Value.Unavailable);
      }
      service := BeginVerify(service, hash.value, op.request.expected, luck.loggedIn, luck.sent);
      return Silent;
    }

    method BeginChangeTo(hash: Option<Hash>, luck: Luck) returns (reply: Reply)
      requires Valid()
      modifies this
      ensures Valid() && (W(), reply) == ChangeTo(old(W()), hash, luck)
    {
      if !connected || hash == Nil {
        return Posts(Value.Unavailable);
      }
      service := BeginChange(service, hash.value, luck.loggedIn, luck.sent);
      return Silent;
    }

    method ApplyVm(luck: Luck) returns (reply: Reply)
      requires Valid()
      modifies this, drives
      ensures Valid() && (W(), reply) == CommitMounts(old(W()), luck)
    {
      var r := op.request;
      if !op.ended && !luck.registers {
        return Posts(Value.Failed);
      }
      var ok := Apply([r.first, r.second], [luck.first, luck.second]);
      if !ok {
        return Posts(Value.Failed);
      }
      op := op.(profileSaved := luck.profile);
      if (r.anchor || (Touched(r.first) && Touched(r.second))) && !op.profileSaved && !op.ended {
        return Posts(Value.Failed);
      }
      op := op.(applied := true);
      if r.anchor && !op.ended {
        loaded := r.newHash;
      }
      return Posts(Value.Ok);
    }

    method RestoreVm(luck: Luck) returns (reply: Reply)
      requires Valid()
      modifies this, drives
      ensures Valid() && (W(), reply) == RestoreMounts(old(W()), luck)
    {
      var saved := [op.request.savedFirst, op.request.savedSecond];
      var lucks := [luck.first, luck.second];
      var restored := Restore(saved, lucks);
      assert restored <==> RestoreOneOk(saved[0], lucks[0]) && RestoreOneOk(saved[1], lucks[1]);
      op := op.(restored := restored);
      return Posts(if restored then Value.Restored else Value.Failed);
    }

    method ActivateRaLoadedGame()
      requires Valid()
      modifies this
      ensures Valid() && W() == Activate(old(W()))
    {
      op := op.(justified := op.justified && LaunchJustified(
        World(session, drives[0], drives[1], service, loaded, pending, connected, op)));
      session := TransitionSession(session, LaunchSucceeded);
      pending := Nil;
    }

    /** ClearRaMediaChangeState and ClearRaAuxiliaryValidationState. */
    method ReleaseOperation(ending: Ending)
      requires Valid()
      modifies this
      ensures Valid() && W() == Complete(old(W()), ending)
    {
      if op.request.anchor {
        service := service.(change := NoChange);
      }
      service := service.(check := NoCheck);
      op := op.(ending := ending);
    }

    method RememberLaunch()
      requires Valid()
      modifies this
      ensures Valid() && W() == NoteLaunch(old(W()))
    {
      var id := if service.game.Loaded? then service.game.id else 0;
      op := op.(request := op.request.(expected := id));
      op := op.(ended := false);
    }

    method EnterOffline()
      requires Valid()
      modifies this
      ensures Valid() && W() == GoOffline(old(W()))
    {
      op := op.(ended := true);
      EnterRaOfflineSession();
    }

    method RejectLocal()
      requires Valid()
      modifies this
      ensures Valid() && W() == Reject(old(W()))
    {
      if op.request.launch {
        EnterRaOfflineSession();
      }
      ReleaseOperation(EndedRejected);
    }

    method DecideFinish() returns (reply: Reply)
      requires Valid()
      modifies this
      ensures Valid() && (W(), reply) == PlanFinish(old(W()))
    {
      op := op.(finish := FinishValue(op));
      reply := Posts(op.finish);
    }

    method ExecuteRaMediaEffect(effect: Effect, luck: Luck) returns (reply: Reply)
      requires Valid()
      modifies this, drives
      ensures Valid() && (W(), reply) == Effected(old(W()), effect, luck)
    {
      hide PrepareMounts, ResolveHash, StartLaunch, StartReanchor, PlanPostAux, PlanAux, CheckSecond, ChangeTo,
        CommitMounts, RestoreMounts, Activate, Complete, OfflineWorld, PlanValue, RollbackValue, FinishValue,
        NoteLaunch, GoOffline, Reject, PlanFinish;
      reply := Silent;
      match effect {
        case AcceptPrepare => reply := AcceptPrepare(luck);
        case DecidePlan =>
          reply := Posts(PlanValue(World(session, drives[0], drives[1], service, loaded, pending, connected, op)));
        case ResolveAnchor => reply := ResolveAnchor(luck);
        case BeginLaunch => reply := BeginLaunch(luck);
        case RememberLaunch => RememberLaunch();
        case BeginReanchor => reply := BeginReanchor(luck);
        case DecidePostAux => reply := DecidePostAux(luck);
        case ActivateLaunch => ActivateRaLoadedGame();
        case DecideAux => reply := DecideAux(luck);
        case VerifyAux => reply := VerifyAux(luck);
        case DecideAdvance =>
          reply := Posts(if op.request.anchor && !op.request.launch then Value.Change else Value.Commit);
        case ChangeActive => reply := BeginChangeTo(op.request.newHash, luck);
        case RollbackActive => reply := BeginChangeTo(op.request.oldHash, luck);
        case RememberChanged => op := op.(changed := true);
        case RememberRolledBack => loaded := op.request.oldHash;
        case EnterOffline => EnterOffline();
        case ApplyVm => reply := ApplyVm(luck);
        case RestoreVm => reply := RestoreVm(luck);
        case DecideRollback =>
          reply := Posts(RollbackValue(World(session, drives[0], drives[1], service, loaded, pending, connected, op)));
        case DecideFinish => reply := DecideFinish();
        case ResetVm => reply := Posts(op.finish);
        case CompleteSuccess => ReleaseOperation(EndedWell);
        case CompleteFailure => ReleaseOperation(EndedBadly);
        case RejectLocal => RejectLocal();
        case _ =>
      }
    }

    method ProcessRaMediaOperation(state: State) returns (reply: Reply)
      requires Valid()
      modifies this
      ensures Valid() && (W(), reply) == Polled(old(W()), state)
    {
      if state == State.AwaitAnchor || state == State.AwaitReanchor {
        if service.game.Loaded? {
          return Posts(Value.Ok);
        } else if service.game == Disabled {
          return Posts(Value.Unavailable);
        }
        return Silent;
      }
      if state == State.AwaitChange || state == State.AwaitRollback {
        if service.change.ChangePending? {
          return Silent;
        }
        var ok := service.change.ChangeOk?;
        service := service.(change := NoChange);
        return Posts(if ok then Value.Ok else Value.Unavailable);
      }
      if state != State.AwaitAux && state != State.AwaitPostAux && state != State.AwaitResolve {
        return Silent;
      }
      var check := service.check;
      if check.CheckPending? {
        return Silent;
      }
      if !check.NoCheck? &&
         Just(check.hash) != (if state == State.AwaitResolve then op.request.newHash else op.request.auxHash) {
        return Silent;
      }
      service := service.(check := NoCheck);
      if state == State.AwaitResolve {
        return Posts(
          if check.CheckOk? then Value.Same
          else if check.CheckFailed? && check.different then
            (if check.id > 0 then Value.Other else Value.Unregistered)
          else Value.Unavailable);
      }
      return Posts(if check.CheckOk? then Value.Same else Value.Unavailable);
    }

    /** One turn of the machine: the effects of the chosen row, in order. */
    method RunEffects(effects: seq<Effect>, lucks: seq<Luck>) returns (reply: Reply)
      requires Valid() && effects != [] && |lucks| >= |effects|
      modifies this, drives
      ensures Valid() && (W(), reply) == RunRow(old(W()), effects, lucks)
    {
      hide Effected;
      var index := 0;
      reply := Silent;
      while index < |effects|
        invariant Valid() && 0 <= index <= |effects|
        invariant index < |effects| ==>
          RunRow(old(W()), effects, lucks) == RunRow(W(), effects[index..], lucks[index..])
        invariant index == |effects| ==> (W(), reply) == RunRow(old(W()), effects, lucks)
      {
        reply := ExecuteRaMediaEffect(effects[index], lucks[index]);
        assert effects[index..][1..] == effects[index + 1..] && lucks[index..][1..] == lucks[index + 1..];
        index := index + 1;
      }
    }
  }
}

/**
 * The table of the media operation machine: states, events, result values, effects and the 45
 * transitions. A bit mask over values in the source is a predicate on values here.
 */
module MediaTable {

  datatype State =
    | Idle | Prepare | Plan | AwaitResolve | AwaitAnchor | CheckAux | AwaitAux | Advance | AwaitChange
    | Commit | Restore | ChooseRollback | AwaitRollback | Finalize | AwaitReset | AwaitReanchor | CheckPostAux
    | AwaitPostAux

  datatype Event =
    | Submit | Prepared | PlanResult | ResolveResult | LoadResult | AuxPlan | VerifyResult | AdvanceResult
    | ChangeResult | CommitResult | RestoreResult | RollbackPlan | RollbackResult | FinishPlan | ResetDone
    | Connectivity | Stale

  datatype Value =
    | Request | Ok | Failed | Local | Fallback | Resolve | Launch | Existing | Same | Other | Unregistered
    | Unavailable | Satisfied | Query | Rejected | Commit | Change | Restored | Rollback | End | Ended
    | Preserve | None | Reanchor | Noanchor | Connected | Disconnected | Retired

  datatype Effect =
    | AcceptPrepare | RejectLocal | DecidePlan | EnterOffline | ApplyVm | ResolveAnchor | BeginLaunch
    | RememberResolved | RememberLaunch | DecideAux | VerifyAux | RememberVerified | DecideAdvance
    | ChangeActive | RememberChanged | DecideFinish | RememberCommitFailure | RestoreVm | RememberRestore
    | DecideRollback | RollbackActive | RememberRolledBack | CompleteFailure | CompleteSuccess | ResetVm
    | ResetProgress | ActivateLaunch | BeginReanchor | NoAnchor | DecidePostAux | UpdateConnectivity
    | RejectBusy | IgnoreStale | ProtocolError

  datatype CellKind = Normal | Busy | Connectivity | Stale | Invalid

  datatype Transition = Transition(next: State, effects: seq<Effect>)

  datatype Cell = Cell(kind: CellKind, first: nat, count: nat, generic: Effect)

  datatype Step = Step(next: State, kind: CellKind, effects: seq<Effect>, id: nat)

  datatype Expected = NoResult | Awaits(event: Event)

  const TRANSITION_COUNT: nat := 45

  /** Row T01 is index 0. */
  function TransitionAt(index: nat): Transition
    requires index < TRANSITION_COUNT
  {
    Transition(NextAt(index), EffectsAt(index))
  }

  /** The state column of the table. */
  function NextAt(index: nat): State
    requires index < TRANSITION_COUNT
  {
    match index
    case 0 => State.Prepare
    case 1 => State.Idle
    case 2 => State.Plan
    case 3 => State.Commit
    case 4 => State.Commit
    case 5 => State.AwaitResolve
    case 6 => State.AwaitAnchor
    case 7 => State.CheckAux
    case 8 => State.CheckAux
    case 9 => State.AwaitAnchor
    case 10 => State.Commit
    case 11 => State.CheckAux
    case 12 => State.Commit
    case 13 => State.Advance
    case 14 => State.AwaitAux
    case 15 => State.Commit
    case 16 => State.Advance
    case 17 => State.Commit
    case 18 => State.Commit
    case 19 => State.AwaitChange
    case 20 => State.Commit
    case 21 => State.Commit
    case 22 => State.Commit
    case 23 => State.Finalize
    case 24 => State.Restore
    case 25 => State.ChooseRollback
    case 26 => State.AwaitRollback
    case 27 => State.Idle
    case 28 => State.Idle
    case 29 => State.Idle
    case 30 => State.Idle
    case 31 => State.Idle
    case 32 => State.AwaitReset
    case 33 => State.Idle
    case 34 => State.Idle
    case 35 => State.Idle
    case 36 => State.AwaitReanchor
    case 37 => State.Idle
    case 38 => State.CheckPostAux
    case 39 => State.Idle
    case 40 => State.Idle
    case 41 => State.AwaitPostAux
    case 42 => State.Idle
    case 43 => State.Idle
    case _ => State.Idle
  }

  /** The effect column. */
  function EffectsAt(index: nat): seq<Effect>
    requires index < TRANSITION_COUNT
  {
    match index
    case 0 => [Effect.AcceptPrepare]
    case 1 => [Effect.RejectLocal]
    case 2 => [Effect.DecidePlan]
    case 3 => [Effect.ApplyVm]
    case 4 => [Effect.EnterOffline, Effect.ApplyVm]
    case 5 => [Effect.ResolveAnchor]
    case 6 => [Effect.BeginLaunch]
    case 7 => [Effect.DecideAux]
    case 8 => [Effect.RememberResolved, Effect.DecideAux]
    case 9 => [Effect.RememberResolved, Effect.BeginLaunch]
    case 10 => [Effect.EnterOffline, Effect.ApplyVm]
    case 11 => [Effect.RememberLaunch, Effect.DecideAux]
    case 12 => [Effect.EnterOffline, Effect.ApplyVm]
    case 13 => [Effect.DecideAdvance]
    case 14 => [Effect.VerifyAux]
    case 15 => [Effect.EnterOffline, Effect.ApplyVm]
    case 16 => [Effect.RememberVerified, Effect.DecideAdvance]
    case 17 => [Effect.EnterOffline, Effect.ApplyVm]
    case 18 => [Effect.ApplyVm]
    case 19 => [Effect.ChangeActive]
    case 20 => [Effect.EnterOffline, Effect.ApplyVm]
    case 21 => [Effect.RememberChanged, Effect.ApplyVm]
    case 22 => [Effect.EnterOffline, Effect.ApplyVm]
    case 23 => [Effect.DecideFinish]
    case 24 => [Effect.RememberCommitFailure, Effect.RestoreVm]
    case 25 => [Effect.RememberRestore, Effect.DecideRollback]
    case 26 => [Effect.RollbackActive]
    case 27 => [Effect.EnterOffline, Effect.CompleteFailure]
    case 28 => [Effect.CompleteFailure]
    case 29 => [Effect.RememberRolledBack, Effect.CompleteFailure]
    case 30 => [Effect.EnterOffline, Effect.CompleteFailure]
    case 31 => [Effect.CompleteSuccess]
    case 32 => [Effect.ResetVm]
    case 33 => [Effect.CompleteSuccess]
    case 34 => [Effect.ResetProgress, Effect.CompleteSuccess]
    case 35 => [Effect.ResetProgress, Effect.ActivateLaunch, Effect.CompleteSuccess]
    case 36 => [Effect.BeginReanchor]
    case 37 => [Effect.NoAnchor, Effect.CompleteSuccess]
    case 38 => [Effect.RememberLaunch, Effect.DecidePostAux]
    case 39 => [Effect.EnterOffline, Effect.CompleteSuccess]
    case 40 => [Effect.ResetProgress, Effect.ActivateLaunch, Effect.CompleteSuccess]
    case 41 => [Effect.VerifyAux]
    case 42 => [Effect.EnterOffline, Effect.CompleteSuccess]
    case 43 => [Effect.RememberVerified, Effect.ResetProgress, Effect.ActivateLaunch, Effect.CompleteSuccess]
    case _ => [Effect.EnterOffline, Effect.CompleteSuccess]
  }

  lemma RowsAreShort(index: nat)
    requires index < TRANSITION_COUNT
    ensures 1 <= |EffectsAt(index)| <= 4
  {
  }

  /** The value mask of a row: whether it lists the value. */
  predicate Lists(index: nat, value: Value)
    requires index < TRANSITION_COUNT
  {
    match index
    case 0 => value.Request?
    case 1 => value.Failed?
    case 2 => value.Ok?
    case 3 => value.Local?
    case 4 => value.Fallback?
    case 5 => value.Resolve?
    case 6 => value.Launch?
    case 7 => value.Existing?
    case 8 => value.Same?
    case 9 => value.Other?
    case 10 => value.Unregistered? || value.Unavailable?
    case 11 => value.Ok?
    case 12 => value.Unavailable?
    case 13 => value.Satisfied?
    case 14 => value.Query?
    case 15 => value.Fallback?
    case 16 => value.Same?
    case 17 => value.Unavailable? || value.Rejected?
    case 18 => value.Commit?
    case 19 => value.Change?
    case 20 => value.Fallback?
    case 21 => value.Ok?
    case 22 => value.Unavailable?
    case 23 => value.Ok?
    case 24 => value.Failed?
    case 25 => value.Failed? || value.Restored?
    case 26 => value.Rollback?
    case 27 => value.End?
    case 28 => value.Ended? || value.Preserve?
    case 29 => value.Ok?
    case 30 => value.Unavailable?
    case 31 => value.None?
    case 32 => value.Local? || value.Launch? || value.Preserve? || value.Reanchor?
    case 33 => value.Local?
    case 34 => value.Preserve?
    case 35 => value.Launch?
    case 36 => value.Reanchor?
    case 37 => value.Noanchor?
    case 38 => value.Ok?
    case 39 => value.Unavailable?
    case 40 => value.Satisfied?
    case 41 => value.Query?
    case 42 => value.Fallback?
    case 43 => value.Same?
    case _ => value.Unavailable? || value.Rejected?
  }

  /** The value mask of an event: whether it may carry the value. */
  predicate Carries(event: Event, value: Value) {
    match event
    case Submit => value.Request?
    case Prepared => value.Ok? || value.Failed?
    case PlanResult => value.Local? || value.Fallback? || value.Resolve? || value.Launch? || value.Existing?
    case ResolveResult => value.Same? || value.Other? || value.Unregistered? || value.Unavailable?
    case LoadResult => value.Ok? || value.Unavailable?
    case AuxPlan => value.Fallback? || value.Satisfied? || value.Query?
    case VerifyResult => value.Same? || value.Unavailable? || value.Rejected?
    case AdvanceResult => value.Fallback? || value.Commit? || value.Change?
    case ChangeResult => value.Ok? || value.Unavailable?
    case CommitResult => value.Ok? || value.Failed?
    case RestoreResult => value.Failed? || value.Restored?
    case RollbackPlan => value.Rollback? || value.End? || value.Ended? || value.Preserve?
    case RollbackResult => value.Ok? || value.Unavailable?
    case FinishPlan => value.Local? || value.Launch? || value.Preserve? || value.None? || value.Reanchor?
    case ResetDone => value.Local? || value.Launch? || value.Preserve? || value.Reanchor? || value.Noanchor?
    case Connectivity => value.Connected? || value.Disconnected?
    case Stale => value.Retired?
  }

  /** The event that reports the result of an effect; NoResult for effects without one. */
  function ResultOf(effect: Effect): Expected {
    match effect
    case AcceptPrepare => Awaits(Event.Prepared)
    case DecidePlan => Awaits(Event.PlanResult)
    case ApplyVm => Awaits(Event.CommitResult)
    case ResolveAnchor => Awaits(Event.ResolveResult)
    case BeginLaunch => Awaits(Event.LoadResult)
    case DecideAux => Awaits(Event.AuxPlan)
    case VerifyAux => Awaits(Event.VerifyResult)
    case DecideAdvance => Awaits(Event.AdvanceResult)
    case ChangeActive => Awaits(Event.ChangeResult)
    case DecideFinish => Awaits(Event.FinishPlan)
    case RestoreVm => Awaits(Event.RestoreResult)
    case DecideRollback => Awaits(Event.RollbackPlan)
    case RollbackActive => Awaits(Event.RollbackResult)
    case ResetVm => Awaits(Event.ResetDone)
    case BeginReanchor => Awaits(Event.LoadResult)
    case DecidePostAux => Awaits(Event.AuxPlan)
    case _ => NoResult
  }

  /** The one event each state waits for. */
  function NormalEvent(state: State): Event {
    match state
    case Idle => Event.Submit
    case Prepare => Event.Prepared
    case Plan => Event.PlanResult
    case AwaitResolve => Event.ResolveResult
    case AwaitAnchor => Event.LoadResult
    case CheckAux => Event.AuxPlan
    case AwaitAux => Event.VerifyResult
    case Advance => Event.AdvanceResult
    case AwaitChange => Event.ChangeResult
    case Commit => Event.CommitResult
    case Restore => Event.RestoreResult
    case ChooseRollback => Event.RollbackPlan
    case AwaitRollback => Event.RollbackResult
    case Finalize => Event.FinishPlan
    case AwaitReset => Event.ResetDone
    case AwaitReanchor => Event.LoadResult
    case CheckPostAux => Event.AuxPlan
    case AwaitPostAux => Event.VerifyResult
  }

  function RowStart(state: State): (index: nat)
    ensures index + RowLength(state) <= TRANSITION_COUNT
  {
    match state
    case Idle => 0
    case Prepare => 1
    case Plan => 3
    case AwaitResolve => 8
    case AwaitAnchor => 11
    case CheckAux => 13
    case AwaitAux => 16
    case Advance => 18
    case AwaitChange => 21
    case Commit => 23
    case Restore => 25
    case ChooseRollback => 26
    case AwaitRollback => 29
    case Finalize => 31
    case AwaitReset => 33
    case AwaitReanchor => 38
    case CheckPostAux => 40
    case AwaitPostAux => 43
  }

  function RowLength(state: State): (count: nat)
    ensures 1 <= count <= 5
  {
    match state
    case Idle => 1
    case Prepare => 2
    case Plan => 5
    case AwaitResolve => 3
    case AwaitAnchor => 2
    case CheckAux => 3
    case AwaitAux => 2
    case Advance => 3
    case AwaitChange => 2
    case Commit => 2
    case Restore => 1
    case ChooseRollback => 3
    case AwaitRollback => 2
    case Finalize => 2
    case AwaitReset => 5
    case AwaitReanchor => 2
    case CheckPostAux => 3
    case AwaitPostAux => 2
  }

  function CellAt(state: State, event: Event): (cell: Cell)
    ensures cell.first + cell.count <= TRANSITION_COUNT
  {
    if event == NormalEvent(state) then
      Cell(CellKind.Normal, RowStart(state), RowLength(state), Effect.ProtocolError)
    else match event
    case Submit => Cell(CellKind.Busy, 0, 0, Effect.RejectBusy)
    case Connectivity => Cell(CellKind.Connectivity, 0, 0, Effect.UpdateConnectivity)
    case Stale => Cell(CellKind.Stale, 0, 0, Effect.IgnoreStale)
    case _ => Cell(CellKind.Invalid, 0, 0, Effect.ProtocolError)
  }

  lemma CellMeaning(state: State, event: Event)
    ensures var cell := CellAt(state, event);
      && (cell.kind == CellKind.Normal <==> event == NormalEvent(state))
      && (cell.kind == CellKind.Normal ==> cell.first == RowStart(state) && cell.count == RowLength(state))
  {
    hide NormalEvent, RowStart, RowLength;
  }

  function InvalidStep(current: State): Step {
    Step(current, CellKind.Invalid, [Effect.ProtocolError], 0)
  }

  function GenericStep(current: State, cell: Cell): Step {
    Step(current, cell.kind, [cell.generic], 0)
  }

  function TransitionStep(id: nat): Step
    requires 1 <= id <= TRANSITION_COUNT
  {
    Step(TransitionAt(id - 1).next, CellKind.Normal, TransitionAt(id - 1).effects, id)
  }

  method Reduce(current: State, event: Event, value: Value) returns (step: Step)
    ensures step == Reduced(current, event, value)
  {
    hide Reduced, TransitionAt, Choice, Carries, NormalEvent, CellAt, InvalidStep, GenericStep, TransitionStep,
      RowStart, RowLength;
    if !Carries(event, value) {
      ReducedForeign(current, event, value);
      return InvalidStep(current);
    }
    var cell := CellAt(current, event);
    if cell.kind != CellKind.Normal {
      ReducedGeneric(current, event, value);
      return GenericStep(current, cell);
    }
    CellMeaning(current, event);
    ReducedNormal(current, event, value);
    var id := ScanRow(cell, current, value);
    if id == 0 {
      return InvalidStep(current);
    }
    return TransitionStep(id);
  }

  lemma ReducedForeign(current: State, event: Event, value: Value)
    requires !Carries(event, value)
    ensures Reduced(current, event, value) == InvalidStep(current)
  {
    hide Choice, Carries, CellAt, InvalidStep, GenericStep, TransitionStep;
  }

  lemma ReducedGeneric(current: State, event: Event, value: Value)
    requires Carries(event, value) && CellAt(current, event).kind != CellKind.Normal
    ensures Reduced(current, event, value) == GenericStep(current, CellAt(current, event))
  {
    hide Choice, Carries, CellAt, InvalidStep, GenericStep, TransitionStep;
  }

  lemma ReducedNormal(current: State, event: Event, value: Value)
    requires Carries(event, value) && CellAt(current, event).kind == CellKind.Normal
    ensures Reduced(current, event, value) ==
      if Choice(current, value) == 0 then InvalidStep(current) else TransitionStep(Choice(current, value))
  {
    hide Choice, Carries, CellAt, InvalidStep, GenericStep, TransitionStep;
  }

  /** The loop over one row: the number of the first transition that lists the value. */
  method ScanRow(cell: Cell, ghost state: State, value: Value) returns (id: nat)
    requires cell.first == RowStart(state) && cell.count == RowLength(state)
    requires cell.first + cell.count <= TRANSITION_COUNT
    ensures id == Choice(state, value)
  {
    hide Lists, Choice, RowStart, RowLength;
    var index := cell.first;
    while index < cell.first + cell.count
      invariant cell.first <= index <= cell.first + cell.count
      invariant forall k :: cell.first <= k < index ==> !Lists(k, value)
    {
      if Lists(index, value) {
        ListedIsChosen(state, value, index);
        return index + 1;
      }
      index := index + 1;
    }
    ChosenIsListed(state, value);
    return 0;
  }

  // ---- what the table decides ----

  /** The number of the transition a waiting state takes on a value; 0 when it takes none. */
  function Choice(state: State, value: Value): (id: nat)
    ensures id <= TRANSITION_COUNT
  {
    match state
    case Idle =>
      if value.Request? then 1 else 0
    case Prepare =>
      if value.Failed? then 2 else if value.Ok? then 3 else 0
    case Plan =>
      if value.Local? then 4
      else if value.Fallback? then 5
      else if value.Resolve? then 6
      else if value.Launch? then 7
      else if value.Existing? then 8 else 0
    case AwaitResolve =>
      if value.Same? then 9
      else if value.Other? then 10
      else if value.Unregistered? || value.Unavailable? then 11 else 0
    case AwaitAnchor =>
      if value.Ok? then 12 else if value.Unavailable? then 13 else 0
    case CheckAux =>
      if value.Satisfied? then 14 else if value.Query? then 15 else if value.Fallback? then 16 else 0
    case AwaitAux =>
      if value.Same? then 17 else if value.Unavailable? || value.Rejected? then 18 else 0
    case Advance =>
      if value.Commit? then 19 else if value.Change? then 20 else if value.Fallback? then 21 else 0
    case AwaitChange =>
      if value.Ok? then 22 else if value.Unavailable? then 23 else 0
    case Commit =>
      if value.Ok? then 24 else if value.Failed? then 25 else 0
    case Restore =>
      if value.Failed? || value.Restored? then 26 else 0
    case ChooseRollback =>
      if value.Rollback? then 27
      else if value.End? then 28
      else if value.Ended? || value.Preserve? then 29 else 0
    case AwaitRollback =>
      if value.Ok? then 30 else if value.Unavailable? then 31 else 0
    case Finalize =>
      if value.None? then 32
      else if value.Local? || value.Launch? || value.Preserve? || value.Reanchor? then 33 else 0
    case AwaitReset =>
      if value.Local? then 34
      else if value.Preserve? then 35
      else if value.Launch? then 36
      else if value.Reanchor? then 37
      else if value.Noanchor? then 38 else 0
    case AwaitReanchor =>
      if value.Ok? then 39 else if value.Unavailable? then 40 else 0
    case CheckPostAux =>
      if value.Satisfied? then 41 else if value.Query? then 42 else if value.Fallback? then 43 else 0
    case AwaitPostAux =>
      if value.Same? then 44 else if value.Unavailable? || value.Rejected? then 45 else 0
  }

  function Reduced(current: State, event: Event, value: Value): Step {
    if !Carries(event, value) then InvalidStep(current)
    else if CellAt(current, event).kind != CellKind.Normal then
      GenericStep(current, CellAt(current, event))
    else
      var id := Choice(current, value);
      if id == 0 then InvalidStep(current)
      else TransitionStep(id)
  }

  /** The state whose row a transition is in. */
  function Owner(index: nat): State
    requires index < TRANSITION_COUNT
  {
    if index < 1 then State.Idle
    else if index < 3 then State.Prepare
    else if index < 8 then State.Plan
    else if index < 11 then State.AwaitResolve
    else if index < 13 then State.AwaitAnchor
    else if index < 16 then State.CheckAux
    else if index < 18 then State.AwaitAux
    else if index < 21 then State.Advance
    else if index < 23 then State.AwaitChange
    else if index < 25 then State.Commit
    else if index < 26 then State.Restore
    else if index < 29 then State.ChooseRollback
    else if index < 31 then State.AwaitRollback
    else if index < 33 then State.Finalize
    else if index < 38 then State.AwaitReset
    else if index < 40 then State.AwaitReanchor
    else if index < 43 then State.CheckPostAux
    else State.AwaitPostAux
  }

  lemma RowIsOwned(state: State, index: nat)
    requires RowStart(state) <= index < RowStart(state) + RowLength(state)
    ensures index < TRANSITION_COUNT && Owner(index) == state
  {
  }

  lemma FirstRowsListed(index: nat, value: Value)
    requires index < 16 && Lists(index, value)
    ensures Choice(Owner(index), value) == index + 1
  {
  }

  lemma MiddleRowsListed(index: nat, value: Value)
    requires 16 <= index < 31 && Lists(index, value)
    ensures Choice(Owner(index), value) == index + 1
  {
  }

  lemma LastRowsListed(index: nat, value: Value)
    requires 31 <= index < TRANSITION_COUNT && Lists(index, value)
    ensures Choice(Owner(index), value) == index + 1
  {
  }

  /** Within a row no two transitions list the same value, so scanning order does not matter. */
  lemma ListedIsChosen(state: State, value: Value, index: nat)
    requires RowStart(state) <= index < RowStart(state) + RowLength(state)
    requires Lists(index, value)
    ensures Choice(state, value) == index + 1
  {
    hide Choice, Lists, Owner, RowStart, RowLength;
    RowIsOwned(state, index);
    if index < 16 {
      FirstRowsListed(index, value);
    } else if index < 31 {
      MiddleRowsListed(index, value);
    } else {
      LastRowsListed(index, value);
    }
  }

  lemma ChosenIsListed(state: State, value: Value)
    ensures Choice(state, value) != 0 ==>
      && RowStart(state) < Choice(state, value) <= RowStart(state) + RowLength(state)
      && Lists(Choice(state, value) - 1, value)
  {
  }

  /** Every value a state's event may carry is decided: the scan never runs off the end of a row. */
  lemma EveryResultIsDecided(state: State, value: Value)
    ensures Carries(NormalEvent(state), value) <==> Choice(state, value) != 0
  {
  }
}

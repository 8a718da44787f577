/** What every path through the media operation table has in common. */
module MediaRuns {
  import opened MediaTable

  function NextState(state: State, value: Value): State
    requires Choice(state, value) != 0
  {
    TransitionAt(Choice(state, value) - 1).next
  }

  function EffectsOf(state: State, value: Value): seq<Effect>
    requires Choice(state, value) != 0
  {
    TransitionAt(Choice(state, value) - 1).effects
  }

  predicate Finishing(effect: Effect) {
    effect.RejectLocal? || effect.CompleteSuccess? || effect.CompleteFailure?
  }

  lemma ChoiceIsOwned(state: State, value: Value)
    requires Choice(state, value) != 0
    ensures Owner(Choice(state, value) - 1) == state
  {
  }

  /** The last effect reports what the next state waits for, or ends the request; the others do neither. */
  ghost predicate WellShaped(t: Transition) {
    && 1 <= |t.effects| <= 4
    && (forall k :: 0 <= k < |t.effects| - 1 ==> Quiet(t.effects[k]))
    && var last := t.effects[|t.effects| - 1];
       if t.next == State.Idle then ResultOf(last) == NoResult && Finishing(last)
       else ResultOf(last) == Awaits(NormalEvent(t.next)) && !Finishing(last)
  }

  predicate Quiet(effect: Effect) {
    ResultOf(effect) == NoResult && !Finishing(effect)
  }

  lemma FirstRowsShape(index: nat)
    requires index < 16
    ensures WellShaped(TransitionAt(index))
  {
  }

  lemma MiddleRowsShape(index: nat)
    requires 16 <= index < 31
    ensures WellShaped(TransitionAt(index))
  {
  }

  lemma ResetRowsShape(index: nat)
    requires 31 <= index < 38
    ensures WellShaped(TransitionAt(index))
  {
  }

  lemma ReanchorRowsShape(index: nat)
    requires 38 <= index < 42
    ensures WellShaped(TransitionAt(index))
  {
  }

  lemma LastRowsShape(index: nat)
    requires 42 <= index < TRANSITION_COUNT
    ensures WellShaped(TransitionAt(index))
  {
  }

  lemma RowShape(state: State, value: Value)
    requires Choice(state, value) != 0
    ensures WellShaped(TransitionAt(Choice(state, value) - 1))
  {
    hide Choice, NextAt, EffectsAt, WellShaped;
    var index := Choice(state, value) - 1;
    if index < 16 {
      FirstRowsShape(index);
    } else if index < 31 {
      MiddleRowsShape(index);
    } else if index < 38 {
      ResetRowsShape(index);
    } else if index < 42 {
      ReanchorRowsShape(index);
    } else {
      LastRowsShape(index);
    }
  }

  /** The most results a request can still need. */
  function Rank(state: State): nat {
    match state
    case Idle => 0
    case Prepare => 14
    case Plan => 13
    case AwaitResolve => 12
    case AwaitAnchor => 11
    case CheckAux => 10
    case AwaitAux => 9
    case Advance => 8
    case AwaitChange => 7
    case Commit => 6
    case Restore => 3
    case ChooseRollback => 2
    case AwaitRollback => 1
    case Finalize => 5
    case AwaitReset => 4
    case AwaitReanchor => 3
    case CheckPostAux => 2
    case AwaitPostAux => 1
  }

  lemma RankDecreases(state: State, value: Value)
    requires state != State.Idle && Choice(state, value) != 0
    ensures Rank(NextState(state, value)) < Rank(state)
  {
    hide Choice;
    ChoiceIsOwned(state, value);
    TransitionDecreases(Choice(state, value) - 1);
  }

  lemma TransitionDecreases(index: nat)
    requires 1 <= index < TRANSITION_COUNT
    ensures Rank(TransitionAt(index).next) < Rank(Owner(index))
  {
    hide EffectsAt;
  }

  // ---- the results of one request ----

  /** Every value is one its state decides, and nothing follows the end. */
  predicate Walkable(state: State, values: seq<Value>)
    decreases |values|
  {
    values == [] ||
    (state != State.Idle && Choice(state, values[0]) != 0 && Walkable(NextState(state, values[0]), values[1..]))
  }

  function EndState(state: State, values: seq<Value>): State
    requires Walkable(state, values)
    decreases |values|
  {
    if values == [] then state else EndState(NextState(state, values[0]), values[1..])
  }

  /** All effects run on the way. */
  function EffectsAlong(state: State, values: seq<Value>): seq<Effect>
    requires Walkable(state, values)
    decreases |values|
  {
    if values == [] then []
    else EffectsOf(state, values[0]) + EffectsAlong(NextState(state, values[0]), values[1..])
  }

  lemma {:induction false} WalkIsBounded(state: State, values: seq<Value>)
    requires Walkable(state, values)
    ensures |values| + Rank(EndState(state, values)) <= Rank(state)
    decreases |values|
  {
    if values != [] {
      RankDecreases(state, values[0]);
      WalkIsBounded(NextState(state, values[0]), values[1..]);
    }
  }

  predicate Path(state: State, values: seq<Value>) {
    Walkable(state, values) && EndState(state, values) == State.Idle
  }

  lemma PathGrows(state: State, value: Value, values: seq<Value>)
    requires state != State.Idle && Choice(state, value) != 0 && Path(NextState(state, value), values)
    ensures Path(state, [value] + values)
  {
    assert ([value] + values)[1..] == values;
  }

  /** The longest path: a new title, a failed change, the reset and then both drives again. */
  lemma FourteenResultsCanHappen() returns (values: seq<Value>)
    ensures |values| == 14 && Path(State.Prepare, values)
  {
    hide Path;
    values := LongTail();
    values := Longer(State.Commit, Value.Ok, values);
    values := Longer(State.AwaitChange, Value.Unavailable, values);
    values := Longer(State.Advance, Value.Change, values);
    values := Longer(State.AwaitAux, Value.Same, values);
    values := Longer(State.CheckAux, Value.Query, values);
    values := Longer(State.AwaitAnchor, Value.Ok, values);
    values := Longer(State.AwaitResolve, Value.Other, values);
    values := Longer(State.Plan, Value.Resolve, values);
    values := Longer(State.Prepare, Value.Ok, values);
  }

  lemma EndIsPath() returns (values: seq<Value>)
    ensures values == [] && Path(State.Idle, values)
  {
    values := [];
  }

  lemma LongTail() returns (values: seq<Value>)
    ensures |values| == 5 && Path(State.Finalize, values)
  {
    hide Path;
    values := EndIsPath();
    values := Longer(State.AwaitPostAux, Value.Same, values);
    values := Longer(State.CheckPostAux, Value.Query, values);
    values := Longer(State.AwaitReanchor, Value.Ok, values);
    values := Longer(State.AwaitReset, Value.Reanchor, values);
    values := Longer(State.Finalize, Value.Reanchor, values);
  }

  lemma Longer(state: State, value: Value, values: seq<Value>) returns (longer: seq<Value>)
    requires state != State.Idle && Choice(state, value) != 0 && Path(NextState(state, value), values)
    ensures longer == [value] + values && Path(state, longer)
  {
    PathGrows(state, value, values);
    longer := [value] + values;
  }

  // ---- what a request does to the machine and the drives ----

  function Times(effect: Effect, effects: seq<Effect>): nat {
    if effects == [] then 0 else (if effects[0] == effect then 1 else 0) + Times(effect, effects[1..])
  }

  lemma {:induction false} TimesConcat(effect: Effect, a: seq<Effect>, b: seq<Effect>)
    ensures Times(effect, a + b) == Times(effect, a) + Times(effect, b)
  {
    if a == [] {
      assert a + b == b;
    } else {
      assert (a + b)[1..] == a[1..] + b;
      TimesConcat(effect, a[1..], b);
    }
  }

  /** How often a value was accepted as the result of the commit. */
  function CommitsWith(result: Value, state: State, values: seq<Value>): nat
    requires Walkable(state, values)
    decreases |values|
  {
    if values == [] then 0
    else
      (if state == State.Commit && values[0] == result then 1 else 0)
      + CommitsWith(result, NextState(state, values[0]), values[1..])
  }

  datatype Tally = Tally(
    applies: nat, restores: nat, rejections: nat, successes: nat, failures: nat, committed: nat, refused: nat)

  function TallyOf(effects: seq<Effect>, committed: nat, refused: nat): Tally {
    Tally(Times(Effect.ApplyVm, effects), Times(Effect.RestoreVm, effects), Times(Effect.RejectLocal, effects),
          Times(Effect.CompleteSuccess, effects), Times(Effect.CompleteFailure, effects), committed, refused)
  }

  function Sum(a: Tally, b: Tally): Tally {
    Tally(a.applies + b.applies, a.restores + b.restores, a.rejections + b.rejections,
          a.successes + b.successes, a.failures + b.failures, a.committed + b.committed, a.refused + b.refused)
  }

  const NOTHING := Tally(0, 0, 0, 0, 0, 0, 0)
  const ONE_APPLY := Tally(1, 0, 0, 0, 0, 0, 0)
  const COMMITTED := Tally(1, 0, 0, 0, 0, 1, 0)
  const RESTORED := Tally(1, 1, 0, 0, 0, 0, 1)

  /** What a request has done by the time it waits in a state, counted from its start. */
  function DoneBy(state: State): Tally {
    if state == State.Commit then ONE_APPLY
    else if state == State.Restore || state == State.ChooseRollback || state == State.AwaitRollback then RESTORED
    else if Rank(state) <= 5 then COMMITTED
    else NOTHING
  }

  /** The three ways a request can have ended. */
  predicate Finished(t: Tally) {
    t == NOTHING.(rejections := 1) || t == COMMITTED.(successes := 1) || t == RESTORED.(failures := 1)
  }

  predicate Reached(state: State, t: Tally) {
    if state == State.Idle then Finished(t) else t == DoneBy(state)
  }

  function StepTally(state: State, value: Value): Tally
    requires Choice(state, value) != 0
  {
    TallyOf(EffectsOf(state, value),
      if state == State.Commit && value == Value.Ok then 1 else 0,
      if state == State.Commit && value == Value.Failed then 1 else 0)
  }

  function Hits(effect: Effect, effects: seq<Effect>, k: nat): nat {
    if k < |effects| && effects[k] == effect then 1 else 0
  }

  /** Up to four effects counted without recursion. */
  lemma ShortTimes(effect: Effect, effects: seq<Effect>)
    requires |effects| <= 4
    ensures Times(effect, effects)
      == Hits(effect, effects, 0) + Hits(effect, effects, 1) + Hits(effect, effects, 2) + Hits(effect, effects, 3)
  {
    if |effects| > 0 {
      var one := effects[1..];
      if |one| > 0 {
        var two := one[1..];
        if |two| > 0 {
          assert Times(effect, two[1..]) ==
            if |two| > 1 then ((if effects[3] == effect then 1 else 0) + Times(effect, two[1..][1..])) else 0;
        }
      }
    }
  }

  /** What the effects of a transition add to the tally, read off the table. */
  function Marks(index: nat): Tally
    requires index < TRANSITION_COUNT
  {
    var next := TransitionAt(index).next;
    if index == 1 then NOTHING.(rejections := 1)
    else if next == State.Commit then ONE_APPLY
    else if next == State.Restore then NOTHING.(restores := 1)
    else if index >= 27 && index < 31 && next == State.Idle then NOTHING.(failures := 1)
    else if index >= 31 && next == State.Idle then NOTHING.(successes := 1)
    else NOTHING
  }

  lemma ShortTally(effects: seq<Effect>)
    requires |effects| <= 4
    ensures TallyOf(effects, 0, 0) == Tally(
      Hits(Effect.ApplyVm, effects, 0) + Hits(Effect.ApplyVm, effects, 1) +
        Hits(Effect.ApplyVm, effects, 2) + Hits(Effect.ApplyVm, effects, 3),
      Hits(Effect.RestoreVm, effects, 0) + Hits(Effect.RestoreVm, effects, 1) +
        Hits(Effect.RestoreVm, effects, 2) + Hits(Effect.RestoreVm, effects, 3),
      Hits(Effect.RejectLocal, effects, 0) + Hits(Effect.RejectLocal, effects, 1) +
        Hits(Effect.RejectLocal, effects, 2) + Hits(Effect.RejectLocal, effects, 3),
      Hits(Effect.CompleteSuccess, effects, 0) + Hits(Effect.CompleteSuccess, effects, 1) +
        Hits(Effect.CompleteSuccess, effects, 2) + Hits(Effect.CompleteSuccess, effects, 3),
      Hits(Effect.CompleteFailure, effects, 0) + Hits(Effect.CompleteFailure, effects, 1) +
        Hits(Effect.CompleteFailure, effects, 2) + Hits(Effect.CompleteFailure, effects, 3),
      0, 0)
  {
    hide Times, Hits;
    ShortTimes(Effect.ApplyVm, effects);
    ShortTimes(Effect.RestoreVm, effects);
    ShortTimes(Effect.RejectLocal, effects);
    ShortTimes(Effect.CompleteSuccess, effects);
    ShortTimes(Effect.CompleteFailure, effects);
  }

  lemma FirstRowsMark(index: nat)
    requires index < 16
    ensures TallyOf(TransitionAt(index).effects, 0, 0) == Marks(index)
  {
    hide Times;
    ShortTally(TransitionAt(index).effects);
  }

  lemma MiddleRowsMark(index: nat)
    requires 16 <= index < 31
    ensures TallyOf(TransitionAt(index).effects, 0, 0) == Marks(index)
  {
    hide Times;
    ShortTally(TransitionAt(index).effects);
  }

  lemma LastRowsMark(index: nat)
    requires 31 <= index < TRANSITION_COUNT
    ensures TallyOf(TransitionAt(index).effects, 0, 0) == Marks(index)
  {
    hide Times;
    ShortTally(TransitionAt(index).effects);
  }

  lemma RowsMark(index: nat)
    requires index < TRANSITION_COUNT
    ensures TallyOf(TransitionAt(index).effects, 0, 0) == Marks(index)
  {
    hide TallyOf, Marks, NextAt, EffectsAt;
    if index < 16 {
      FirstRowsMark(index);
    } else if index < 31 {
      MiddleRowsMark(index);
    } else {
      LastRowsMark(index);
    }
  }

  function MarksWith(index: nat, value: Value): Tally
    requires index < TRANSITION_COUNT
  {
    Marks(index).(
      committed := if Owner(index) == State.Commit && value == Value.Ok then 1 else 0,
      refused := if Owner(index) == State.Commit && value == Value.Failed then 1 else 0)
  }

  lemma SumIs(a: Tally, b: Tally, c: Tally)
    requires a.applies + b.applies == c.applies && a.restores + b.restores == c.restores
    requires a.rejections + b.rejections == c.rejections && a.successes + b.successes == c.successes
    requires a.failures + b.failures == c.failures
    requires a.committed + b.committed == c.committed && a.refused + b.refused == c.refused
    ensures Sum(a, b) == c
  {
  }

  /** The additions the proof needs, once and for all. */
  lemma Additions()
    ensures Sum(NOTHING, NOTHING) == NOTHING && Sum(NOTHING, ONE_APPLY) == ONE_APPLY
    ensures Sum(ONE_APPLY, NOTHING.(committed := 1)) == COMMITTED
    ensures Sum(ONE_APPLY, NOTHING.(restores := 1, refused := 1)) == RESTORED
    ensures Sum(RESTORED, NOTHING) == RESTORED && Sum(COMMITTED, NOTHING) == COMMITTED
    ensures Finished(Sum(NOTHING, NOTHING.(rejections := 1)))
    ensures Finished(Sum(RESTORED, NOTHING.(failures := 1)))
    ensures Finished(Sum(COMMITTED, NOTHING.(successes := 1)))
  {
    hide Sum;
    SumIs(NOTHING, NOTHING, NOTHING);
    SumIs(NOTHING, ONE_APPLY, ONE_APPLY);
    SumIs(ONE_APPLY, NOTHING.(committed := 1), COMMITTED);
    SumIs(ONE_APPLY, NOTHING.(restores := 1, refused := 1), RESTORED);
    SumIs(RESTORED, NOTHING, RESTORED);
    SumIs(COMMITTED, NOTHING, COMMITTED);
    SumIs(NOTHING, NOTHING.(rejections := 1), NOTHING.(rejections := 1));
    SumIs(RESTORED, NOTHING.(failures := 1), RESTORED.(failures := 1));
    SumIs(COMMITTED, NOTHING.(successes := 1), COMMITTED.(successes := 1));
  }

  lemma Arrives(next: State, before: Tally, marks: Tally)
    requires if next == State.Idle then Finished(Sum(before, marks)) else Sum(before, marks) == DoneBy(next)
    ensures Reached(next, Sum(before, marks))
  {
    hide Finished, Sum, DoneBy;
  }

  /** Before the commit only the rejection of row 1 ends a request. */
  lemma EndingRows(index: nat)
    requires 1 <= index < 23
    ensures NextAt(index) == State.Idle <==> index == 1
  {
  }

  lemma OpeningRowsBefore(index: nat)
    requires 1 <= index < 23
    ensures DoneBy(Owner(index)) == NOTHING
  {
  }

  lemma OpeningRowsMarks(index: nat, value: Value)
    requires 1 <= index < 23
    ensures MarksWith(index, value) == 
      if index == 1 then NOTHING.(rejections := 1)
      else if NextAt(index) == State.Commit then ONE_APPLY
      else NOTHING
  {
    hide EffectsAt;
  }

  lemma OpeningRowsAfter(index: nat)
    requires 1 <= index < 23
    ensures NextAt(index) != State.Idle ==> DoneBy(NextAt(index)) == (if NextAt(index) == State.Commit then ONE_APPLY else NOTHING)
  {
  }

  lemma OpeningRowsKeepDoneBy(index: nat, value: Value)
    requires 1 <= index < 23
    ensures Reached(NextAt(index), Sum(DoneBy(Owner(index)), MarksWith(index, value)))
  {
    hide NextAt, EffectsAt, DoneBy, Owner, MarksWith, Reached, Sum, Finished, Rank;
    Additions();
    OpeningRowsBefore(index);
    OpeningRowsMarks(index, value);
    OpeningRowsAfter(index);
    EndingRows(index);
    Arrives(NextAt(index), DoneBy(Owner(index)), MarksWith(index, value));
  }

  lemma CommitRows(index: nat, value: Value)
    requires 23 <= index < 25 && Lists(index, value)
    ensures Owner(index) == State.Commit && NextAt(index) == (if index == 23 then State.Finalize else State.Restore)
    ensures MarksWith(index, value) ==
      if index == 23 then NOTHING.(committed := 1) else NOTHING.(restores := 1, refused := 1)
  {
    hide EffectsAt;
  }

  lemma CommitRowsKeepDoneBy(index: nat, value: Value)
    requires 23 <= index < 25 && Lists(index, value)
    ensures Reached(NextAt(index), Sum(DoneBy(Owner(index)), MarksWith(index, value)))
  {
    hide NextAt, EffectsAt, Owner, MarksWith, Lists, Reached, Sum, Finished, Rank;
    Additions();
    CommitRows(index, value);
    CommitAfter();
    Arrives(NextAt(index), DoneBy(Owner(index)), MarksWith(index, value));
  }

  lemma CommitAfter()
    ensures DoneBy(State.Finalize) == COMMITTED && DoneBy(State.Restore) == RESTORED
  {
  }

  lemma FailureRowsBefore(index: nat)
    requires 25 <= index < 31
    ensures DoneBy(Owner(index)) == RESTORED
  {
  }

  lemma FailureRowsMarks(index: nat, value: Value)
    requires 25 <= index < 31
    ensures MarksWith(index, value) == 
      if NextAt(index) == State.Idle then NOTHING.(failures := 1) else NOTHING
  {
    hide EffectsAt;
  }

  lemma FailureRowsAfter(index: nat)
    requires 25 <= index < 31
    ensures NextAt(index) != State.Idle ==> DoneBy(NextAt(index)) == RESTORED
  {
  }

  lemma FailureRowsKeepDoneBy(index: nat, value: Value)
    requires 25 <= index < 31
    ensures Reached(NextAt(index), Sum(DoneBy(Owner(index)), MarksWith(index, value)))
  {
    hide NextAt, EffectsAt, DoneBy, Owner, MarksWith, Reached, Sum, Finished, Rank;
    Additions();
    FailureRowsBefore(index);
    FailureRowsMarks(index, value);
    FailureRowsAfter(index);
    Arrives(NextAt(index), DoneBy(Owner(index)), MarksWith(index, value));
  }

  lemma FinishRowsBefore(index: nat)
    requires 31 <= index < TRANSITION_COUNT
    ensures DoneBy(Owner(index)) == COMMITTED
  {
  }

  lemma FinishRowsMarks(index: nat, value: Value)
    requires 31 <= index < TRANSITION_COUNT
    ensures MarksWith(index, value) == 
      if NextAt(index) == State.Idle then NOTHING.(successes := 1) else NOTHING
  {
    hide EffectsAt;
  }

  lemma FinishRowsAfter(index: nat)
    requires 31 <= index < TRANSITION_COUNT
    ensures NextAt(index) != State.Idle ==> DoneBy(NextAt(index)) == COMMITTED
  {
  }

  lemma FinishRowsKeepDoneBy(index: nat, value: Value)
    requires 31 <= index < TRANSITION_COUNT
    ensures Reached(NextAt(index), Sum(DoneBy(Owner(index)), MarksWith(index, value)))
  {
    hide NextAt, EffectsAt, DoneBy, Owner, MarksWith, Reached, Sum, Finished, Rank;
    Additions();
    FinishRowsBefore(index);
    FinishRowsMarks(index, value);
    FinishRowsAfter(index);
    Arrives(NextAt(index), DoneBy(Owner(index)), MarksWith(index, value));
  }

  lemma MarksKeepDoneBy(index: nat, value: Value)
    requires 1 <= index < TRANSITION_COUNT && Lists(index, value)
    ensures Reached(NextAt(index), Sum(DoneBy(Owner(index)), MarksWith(index, value)))
  {
    hide NextAt, EffectsAt, Lists, Reached, DoneBy, Owner, MarksWith, Sum;
    if index < 23 {
      OpeningRowsKeepDoneBy(index, value);
    } else if index < 25 {
      CommitRowsKeepDoneBy(index, value);
    } else if index < 31 {
      FailureRowsKeepDoneBy(index, value);
    } else {
      FinishRowsKeepDoneBy(index, value);
    }
  }

  lemma StepKeepsDoneBy(state: State, value: Value)
    requires state != State.Idle && Choice(state, value) != 0
    ensures Reached(NextState(state, value), Sum(DoneBy(state), StepTally(state, value)))
  {
    hide Choice, DoneBy, Reached, NextAt, EffectsAt, Marks, Times, Lists, RowStart, RowLength;
    var index := Choice(state, value) - 1;
    ChoiceIsOwned(state, value);
    ChosenIsListed(state, value);
    if index == 0 {
      OnlySubmitIsFirst(state, value);
    }
    RowsMark(index);
    MarksKeepDoneBy(index, value);
    assert StepTally(state, value) == MarksWith(index, value);
  }

  lemma OnlySubmitIsFirst(state: State, value: Value)
    requires Choice(state, value) == 1
    ensures state == State.Idle
  {
  }

  lemma SumAssociates(a: Tally, b: Tally, c: Tally)
    ensures Sum(Sum(a, b), c) == Sum(a, Sum(b, c))
  {
  }

  lemma {:induction false} WalkKeepsDoneBy(state: State, values: seq<Value>)
    requires Walkable(state, values) && state != State.Idle
    ensures Reached(EndState(state, values), Sum(DoneBy(state), TallyAlong(state, values)))
    decreases |values|
  {
    hide DoneBy, StepTally, TallyAlong, Choice, NextAt, EffectsAt, Finished, Sum;
    if values == [] {
      NothingTallied(state, DoneBy(state));
    } else {
      var next := NextState(state, values[0]);
      StepKeepsDoneBy(state, values[0]);
      TallyStep(state, values);
      SumAssociates(DoneBy(state), StepTally(state, values[0]), TallyAlong(next, values[1..]));
      if next == State.Idle {
        assert values[1..] == [];
        NothingTallied(next, Sum(DoneBy(state), StepTally(state, values[0])));
      } else {
        WalkKeepsDoneBy(next, values[1..]);
      }
    }
  }

  function TallyAlong(state: State, values: seq<Value>): Tally
    requires Walkable(state, values)
  {
    TallyOf(EffectsAlong(state, values), CommitsWith(Value.Ok, state, values), CommitsWith(Value.Failed, state, values))
  }

  lemma NothingTallied(state: State, before: Tally)
    ensures Sum(before, TallyAlong(state, [])) == before
  {
  }

  lemma TallyStep(state: State, values: seq<Value>)
    requires Walkable(state, values) && values != []
    ensures TallyAlong(state, values)
      == Sum(StepTally(state, values[0]), TallyAlong(NextState(state, values[0]), values[1..]))
  {
    hide Times;
    var a, b := EffectsOf(state, values[0]), EffectsAlong(NextState(state, values[0]), values[1..]);
    TimesConcat(Effect.ApplyVm, a, b);
    TimesConcat(Effect.RestoreVm, a, b);
    TimesConcat(Effect.RejectLocal, a, b);
    TimesConcat(Effect.CompleteSuccess, a, b);
    TimesConcat(Effect.CompleteFailure, a, b);
  }

  /**
   * Any sequence of results a request may receive has at most 14 of them. On the way the VM is
   * applied at most once. At the end exactly one of the three finishing effects has run, once:
   * success exactly when the commit reported ok, failure exactly when it reported failed, and then,
   * and only then, the VM was restored; a rejection never touched the VM.
   */
  lemma EveryRequest(values: seq<Value>)
    requires Walkable(State.Prepare, values)
    ensures var t, end := TallyAlong(State.Prepare, values), EndState(State.Prepare, values);
      && |values| <= 14
      && t.applies <= 1 && t.restores == t.refused && t.committed + t.refused <= t.applies
      && (end == State.Idle ==>
            && t.rejections + t.successes + t.failures == 1
            && t.successes == t.committed && t.failures == t.refused
            && t.rejections + t.applies == 1)
  {
    hide TallyAlong, Walkable, EndState, Reached, Sum, DoneBy, Rank;
    assert Rank(State.Prepare) == 14 by { PrepareRank(); }
    WalkIsBounded(State.Prepare, values);
    WalkKeepsDoneBy(State.Prepare, values);
    ReachedMeans(EndState(State.Prepare, values), TallyAlong(State.Prepare, values));
  }

  lemma PrepareRank()
    ensures Rank(State.Prepare) == 14
  {
  }

  lemma ReachedMeans(end: State, t: Tally)
    requires Reached(end, Sum(DoneBy(State.Prepare), t))
    ensures t.applies <= 1 && t.restores == t.refused && t.committed + t.refused <= t.applies
    ensures end == State.Idle ==>
      && t.rejections + t.successes + t.failures == 1
      && t.successes == t.committed && t.failures == t.refused
      && t.rejections + t.applies == 1
  {
  }

  // ---- requests without a session ----

  /** The answers that an operation on local disks gives. */
  predicate LocalValue(value: Value) {
    value == Value.Ok || value == Value.Failed || value == Value.Local || value == Value.Restored
    || value == Value.Ended || value == Value.None
  }

  predicate LocalState(state: State) {
    || state == State.Idle || state == State.Prepare || state == State.Plan || state == State.Commit
    || state == State.Restore || state == State.ChooseRollback || state == State.Finalize || state == State.AwaitReset
  }

  /** Effects that ask something of the service or change the session. */
  predicate TouchesSession(effect: Effect) {
    || effect == Effect.EnterOffline || effect == Effect.ResolveAnchor || effect == Effect.BeginLaunch
    || effect == Effect.VerifyAux || effect == Effect.ChangeActive || effect == Effect.RollbackActive
    || effect == Effect.ActivateLaunch || effect == Effect.BeginReanchor
  }

  lemma LocalChoice(state: State, value: Value)
    requires LocalState(state) && LocalValue(value) && Choice(state, value) != 0
    ensures LocalIndex(Choice(state, value) - 1)
  {
  }

  predicate Harmless(effects: seq<Effect>) {
    forall k :: 0 <= k < |effects| ==> !TouchesSession(effects[k])
  }

  predicate LocalIndex(index: nat) {
    index in {1, 2, 3, 23, 24, 25, 28, 31, 32, 33, 34}
  }

  lemma LocalRow(index: nat)
    requires LocalIndex(index)
    ensures LocalState(NextAt(index))
    ensures Harmless(EffectsAt(index))
  {
  }

  lemma LocalStep(state: State, value: Value)
    requires LocalState(state) && LocalValue(value) && Choice(state, value) != 0
    ensures LocalState(NextState(state, value))
    ensures Harmless(EffectsOf(state, value))
  {
    hide Choice, NextAt, EffectsAt, LocalState, LocalValue, TouchesSession, LocalIndex, Harmless;
    LocalChoice(state, value);
    var index := Choice(state, value) - 1;
    LocalRow(index);
    assert NextState(state, value) == NextAt(index) && EffectsOf(state, value) == EffectsAt(index);
  }

  /** A request whose plan, commits and finishes are all local never touches the session or the service. */
  lemma {:induction false} LocalStaysLocal(state: State, values: seq<Value>)
    requires LocalState(state) && Walkable(state, values)
    requires forall k :: 0 <= k < |values| ==> LocalValue(values[k])
    ensures Harmless(EffectsAlong(state, values))
    decreases |values|
  {
    hide Choice, NextAt, EffectsAt, LocalState, LocalValue, TouchesSession;
    if values != [] {
      LocalStep(state, values[0]);
      LocalStaysLocal(NextState(state, values[0]), values[1..]);
    }
  }

  /** The local request that succeeds: it prepares, applies the VM once and completes. */
  lemma LocalRequest()
    ensures var values := [Value.Ok, Value.Local, Value.Ok, Value.None];
      && Path(State.Prepare, values)
      && EffectsAlong(State.Prepare, values) == [Effect.DecidePlan, Effect.ApplyVm, Effect.DecideFinish, Effect.CompleteSuccess]
  {
    var a, b, c, d := Value.Ok, Value.Local, Value.Ok, Value.None;
    assert [a, b, c, d][1..] == [b, c, d] && [b, c, d][1..] == [c, d] && [c, d][1..] == [d] && [d][1..] == [];
    assert Path(State.Idle, []) && EffectsAlong(State.Idle, []) == [];
    assert EffectsAlong(State.Finalize, [d]) == [Effect.CompleteSuccess] && Path(State.Finalize, [d]);
    assert EffectsAlong(State.Commit, [c, d]) == [Effect.DecideFinish, Effect.CompleteSuccess] && Path(State.Commit, [c, d]);
    assert EffectsAlong(State.Plan, [b, c, d]) == [Effect.ApplyVm, Effect.DecideFinish, Effect.CompleteSuccess];
    assert Path(State.Plan, [b, c, d]);
  }
}

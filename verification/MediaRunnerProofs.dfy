/** Safety of the runner over every interleaving of outer calls and calls made inside handlers. */
module MediaRunnerProofs {
  import opened MediaTable
  import opened MediaRuns
  import opened MediaRunner

  // ---- what holds between any two calls ----

  ghost predicate Ready(m: Machine) {
    && (m.active ==> m.handler)
    && (!m.active ==> m.state == State.Idle && !m.waiting)
    && (m.waiting ==>
          && m.active && m.state != State.Idle
          && m.expected == Awaits(NormalEvent(m.state))
          && m.pending == Token(m.request, m.generation, m.sequence))
  }

  /** No handler on the stack: nothing queued, and either idle or waiting for the one normal event. */
  ghost predicate Quiescent(m: Machine) {
    && Ready(m) && !m.draining && m.queue == []
    && (m.active ==> m.waiting)
    && (!m.active ==> !m.handler)
  }

  // ---- the log as a record of one outstanding token ----

  datatype Outstanding = Nothing | Expecting(token: Token)

  /** The token whose result is awaited after a log. */
  function Live(log: seq<Happening>): Outstanding {
    if log == [] then Nothing
    else match log[|log| - 1]
      case Issued(token) => Expecting(token)
      case Accepted(_) => Nothing
      case Finished => Nothing
      case _ => Live(log[..|log| - 1])
  }

  /** The highest sequence number issued so far. */
  function Newest(log: seq<Happening>): nat {
    if log == [] then 0
    else match log[|log| - 1]
      case Issued(token) => token.sequence
      case _ => Newest(log[..|log| - 1])
  }

  /** Numbers only grow, and only the outstanding token is ever accepted or refused. */
  predicate Orderly(log: seq<Happening>) {
    log == [] ||
    (var before := log[..|log| - 1];
     && Orderly(before)
     && match log[|log| - 1]
        case Issued(token) => token.sequence > Newest(before)
        case Accepted(message) => Live(before) == Expecting(message.token)
        case Refused(token) => Live(before) == Expecting(token)
        case _ => true)
  }

  ghost predicate LogTied(m: Machine) {
    && Orderly(m.history.log)
    && Newest(m.history.log) == m.sequence
    && (m.waiting ==> Live(m.history.log) == Expecting(m.pending))
  }

  lemma NotedLog(log: seq<Happening>, happening: Happening)
    ensures var longer := log + [happening];
      && longer[..|longer| - 1] == log && longer[|longer| - 1] == happening
      && Live(longer) == (match happening
           case Issued(token) => Expecting(token)
           case Accepted(_) => Nothing
           case Finished => Nothing
           case _ => Live(log))
      && Newest(longer) == (match happening case Issued(token) => token.sequence case _ => Newest(log))
  {
    assert (log + [happening])[..|log + [happening]| - 1] == log;
  }

  lemma OrderlyGrows(log: seq<Happening>, happening: Happening)
    requires Orderly(log)
    requires happening.Issued? ==> happening.token.sequence > Newest(log)
    requires happening.Accepted? ==> Live(log) == Expecting(happening.message.token)
    requires happening.Refused? ==> Live(log) == Expecting(happening.token)
    ensures Orderly(log + [happening])
  {
    hide Live, Newest;
    NotedLog(log, happening);
  }

  lemma IssueTies(m: Machine)
    requires LogTied(m)
    ensures LogTied(Issue(m)) && Live(Issue(m).history.log) == Expecting(Issue(m).pending)
  {
    hide Live, Newest, Orderly;
    var happening := Issued(Token(m.request, m.generation, m.sequence + 1));
    NotedLog(m.history.log, happening);
    OrderlyGrows(m.history.log, happening);
  }

  lemma PlainNoteTies(m: Machine, happening: Happening)
    requires LogTied(m) && (happening.Ran? || (happening.Finished? && !m.waiting))
    ensures LogTied(m.(history := Noted(m.history, happening)))
  {
    hide Live, Newest, Orderly;
    NotedLog(m.history.log, happening);
    OrderlyGrows(m.history.log, happening);
  }

  // ---- handlers ----

  /** What a handler can do to the request it is called for: leave it alone or cancel it. */
  ghost predicate Undisturbed(m: Machine, after: Machine) {
    && Ready(after) && LogTied(after) && after.draining == m.draining && after.request == m.request
    && after.history.values == m.history.values && after.history.effects == m.history.effects
    && (after.active ==>
          m.active && after.state == m.state && after.waiting == m.waiting
          && after.history.cut == m.history.cut)
    && (m.active && !after.active ==>
          after.history.cut == (m.history.cut || m.state != State.Idle))
    && (!m.active ==> !after.active && after.history.cut == m.history.cut)
  }

  lemma ReboundUndisturbed(m: Machine, generation: nat)
    requires Ready(m) && LogTied(m)
    ensures Undisturbed(m, Rebound(m, generation))
  {
    hide Live, Newest, Orderly, NormalEvent;
    if m.active && m.waiting {
      IssueTies(m.(generation := generation));
    }
  }

  lemma CancelledUndisturbed(m: Machine)
    requires Ready(m) && LogTied(m) && m.draining
    ensures Undisturbed(m, Cancelled(m))
  {
    hide Live, Newest, Orderly, NormalEvent;
    if m.active {
      NotedLog(m.history.log, Finished);
      OrderlyGrows(m.history.log, Finished);
    }
  }

  lemma InsideUndisturbed(m: Machine, call: Call)
    requires Ready(m) && LogTied(m) && m.draining
    ensures Undisturbed(m, Inside(m, call))
  {
    hide LogTied, Rebound, Cancelled, NormalEvent;
    match call
    case PostCall(_) => QueueIsNotLogged(m, Inside(m, call));
    case RebindCall(generation) => ReboundUndisturbed(m, generation);
    case CancelCall => CancelledUndisturbed(m);
    case StartCall(_) =>
  }

  lemma QueueIsNotLogged(m: Machine, after: Machine)
    requires LogTied(m) && after.history.log == m.history.log
    requires after.sequence == m.sequence && after.waiting == m.waiting && after.pending == m.pending
    ensures LogTied(after)
  {
  }

  lemma UndisturbedTransitive(a: Machine, b: Machine, c: Machine)
    requires Undisturbed(a, b) && Undisturbed(b, c)
    ensures Undisturbed(a, c)
  {
    hide Ready, LogTied;
  }

  lemma {:induction false} AllInsideUndisturbed(m: Machine, calls: seq<Call>)
    requires Ready(m) && LogTied(m) && m.draining
    ensures Undisturbed(m, InsideAll(m, calls))
    decreases |calls|
  {
    hide Ready, LogTied, Inside;
    if calls != [] {
      var next := Inside(m, calls[0]);
      InsideUndisturbed(m, calls[0]);
      AllInsideUndisturbed(next, calls[1..]);
      UndisturbedTransitive(m, next, InsideAll(next, calls[1..]));
    }
  }

  lemma HandledUndisturbed(m: Machine)
    requires Ready(m) && LogTied(m) && m.draining
    ensures Undisturbed(m, Handled(m))
  {
    hide InsideAll, NormalEvent;
    if m.script != [] {
      var popped := m.(script := m.script[1..]);
      QueueIsNotLogged(m, popped);
      AllInsideUndisturbed(popped, m.script[0]);
    }
  }

  // ---- the effects of one transition ----

  /** The effects that go with moving to a state: quiet ones, then the one that decides what is awaited. */
  ghost predicate Fits(next: State, effects: seq<Effect>) {
    && effects != []
    && (forall k :: 0 <= k < |effects| - 1 ==> ResultOf(effects[k]) == NoResult)
    && ResultOf(effects[|effects| - 1]) == (if next == State.Idle then NoResult else Awaits(NormalEvent(next)))
  }

  /** What running effects for a state may leave behind. */
  ghost predicate RanFor(m: Machine, effects: seq<Effect>, after: Machine) {
    && Ready(after) && LogTied(after) && after.draining && after.request == m.request
    && after.history.values == m.history.values
    && (after.active ==>
          && after.state == m.state && after.waiting == (m.state != State.Idle)
          && after.history.effects == m.history.effects + effects
          && after.history.cut == m.history.cut)
    && (!after.active ==>
          (after.history.cut
           || (m.state == State.Idle && after.history.effects == m.history.effects + effects
               && after.history.cut == m.history.cut)))
  }

  lemma QuietEffectKeeps(m: Machine, effect: Effect)
    requires Ready(m) && LogTied(m) && m.draining && m.active && !m.waiting && ResultOf(effect) == NoResult
    ensures var after := RunOne(m, effect);
      && Ready(after) && LogTied(after) && after.draining && after.request == m.request
      && after.history.values == m.history.values && after.history.effects == m.history.effects + [effect]
      && (if after.active then
            after.state == m.state && !after.waiting && after.history.cut == m.history.cut
          else after.history.cut == (m.history.cut || m.state != State.Idle))
  {
    hide LogTied, ResultOf, Handled, NormalEvent;
    var told := m.(history := RanIn(m.history, effect));
    PlainNoteTies(m, Ran(effect));
    QueueIsNotLogged(m.(history := Noted(m.history, Ran(effect))), told);
    HandledUndisturbed(told);
  }

  lemma AwaitedEffectKeeps(m: Machine, effect: Effect)
    requires Ready(m) && LogTied(m) && m.draining && m.active && !m.waiting && m.state != State.Idle
    requires ResultOf(effect) == Awaits(NormalEvent(m.state))
    ensures RanFor(m, [effect], RunOne(m, effect))
  {
    hide Live, Newest, Orderly, ResultOf, Handled, NormalEvent;
    IssueTies(m);
    var armed := Arm(m, effect);
    assert LogTied(armed);
    var told := armed.(history := RanIn(armed.history, effect));
    PlainNoteTies(armed, Ran(effect));
    QueueIsNotLogged(armed.(history := Noted(armed.history, Ran(effect))), told);
    HandledUndisturbed(told);
  }

  lemma CutKeeps(m: Machine)
    requires Ready(m) && LogTied(m)
    ensures Ready(CutShort(m, true)) && LogTied(CutShort(m, true))
  {
    hide NormalEvent;
    QueueIsNotLogged(m, CutShort(m, true));
  }

  lemma {:induction false} EffectsKeep(m: Machine, effects: seq<Effect>)
    requires Ready(m) && LogTied(m) && m.draining && m.active && !m.waiting && Fits(m.state, effects)
    ensures RanFor(m, effects, RunEffects(m, effects))
    decreases |effects|
  {
    hide Ready, LogTied, RunOne, ResultOf, NormalEvent;
    var first, rest := effects[0], effects[1..];
    var next := RunOne(m, first);
    if rest == [] {
      assert effects == [first];
      if m.state == State.Idle {
        QuietEffectKeeps(m, first);
      } else {
        AwaitedEffectKeeps(m, first);
      }
      assert RunEffects(next, rest) == next;
    } else {
      QuietEffectKeeps(m, first);
      if next.active {
        assert Fits(next.state, rest);
        EffectsKeep(next, rest);
        assert m.history.effects + effects == (m.history.effects + [first]) + rest;
      } else {
        CutKeeps(next);
      }
    }
  }

  // ---- the walk through the table ----

  lemma {:induction false} WalkGrows(state: State, values: seq<Value>, value: Value)
    requires Walkable(state, values) && EndState(state, values) != State.Idle
    requires Choice(EndState(state, values), value) != 0
    ensures Walkable(state, values + [value])
    ensures EndState(state, values + [value]) == NextState(EndState(state, values), value)
    ensures EffectsAlong(state, values + [value])
      == EffectsAlong(state, values) + EffectsOf(EndState(state, values), value)
    decreases |values|
  {
    hide Choice, NextAt, EffectsAt;
    var longer := values + [value];
    if values == [] {
      assert longer == [value] && longer[1..] == [];
      assert EffectsOf(state, value) + [] == [] + EffectsOf(state, value);
    } else {
      assert longer[0] == values[0] && longer[1..] == values[1..] + [value];
      WalkGrows(NextState(state, values[0]), values[1..], value);
      assert (EffectsOf(state, values[0]) + EffectsAlong(NextState(state, values[0]), values[1..]))
          + EffectsOf(EndState(state, values), value)
        == EffectsOf(state, values[0])
          + (EffectsAlong(NextState(state, values[0]), values[1..]) + EffectsOf(EndState(state, values), value));
    }
  }

  /** A normal step is the transition the table chooses, and its effects fit the state it leads to. */
  lemma NormalStep(state: State, event: Event, value: Value)
    requires Reduced(state, event, value).kind == CellKind.Normal
    ensures event == NormalEvent(state) && Choice(state, value) != 0
    ensures Reduced(state, event, value).next == NextState(state, value)
    ensures Reduced(state, event, value).effects == EffectsOf(state, value)
    ensures Fits(NextState(state, value), EffectsOf(state, value))
  {
    hide Choice, Carries, NextAt, EffectsAt, CellAt, NormalEvent, ResultOf, Reduced;
    if !Carries(event, value) {
      ReducedForeign(state, event, value);
    } else if CellAt(state, event).kind != CellKind.Normal {
      ReducedGeneric(state, event, value);
    } else {
      ReducedNormal(state, event, value);
      CellMeaning(state, event);
      RowShape(state, value);
    }
  }

  lemma NormalStepBack(state: State, value: Value)
    requires state != State.Idle && Choice(state, value) != 0
    ensures Reduced(state, NormalEvent(state), value).kind == CellKind.Normal
  {
    hide Choice, NormalEvent, Carries, CellAt, Reduced, NextAt, EffectsAt;
    CellMeaning(state, NormalEvent(state));
    EveryResultIsDecided(state, value);
    ReducedNormal(state, NormalEvent(state), value);
  }

  /** The steps the machine takes are exactly those of the normal event with a value the state decides. */
  lemma ReducedExactly(state: State, event: Event, value: Value)
    requires state != State.Idle
    ensures Reduced(state, event, value).kind == CellKind.Normal <==>
      event == NormalEvent(state) && Choice(state, value) != 0
  {
    hide Choice, NormalEvent, Reduced;
    if event == NormalEvent(state) && Choice(state, value) != 0 {
      NormalStepBack(state, value);
    }
    if Reduced(state, event, value).kind == CellKind.Normal {
      NormalStep(state, event, value);
    }
  }

  lemma SubmitStep()
    ensures Reduced(State.Idle, Event.Submit, Value.Request)
      == Step(State.Prepare, CellKind.Normal, [Effect.AcceptPrepare], 1)
    ensures Fits(State.Prepare, [Effect.AcceptPrepare])
  {
    hide Reduced;
    var state, event, value := State.Idle, Event.Submit, Value.Request;
    CellMeaning(state, event);
    assert Carries(event, value) && Choice(state, value) == 1;
    ReducedNormal(state, event, value);
  }

  /** The latest request, unless it was cut short, ran exactly the effects its accepted results call for. */
  ghost predicate Chronicle(m: Machine) {
    && (m.active ==> !m.history.cut && m.request > 0)
    && (m.request > 0 && !m.history.cut ==>
          && Walkable(State.Prepare, m.history.values)
          && m.state == EndState(State.Prepare, m.history.values)
          && m.history.effects == [Effect.AcceptPrepare] + EffectsAlong(State.Prepare, m.history.values))
  }

  /** Between two turns of the drain loop. */
  ghost predicate Turning(m: Machine) {
    Ready(m) && LogTied(m) && m.draining && (m.active ==> m.waiting) && Chronicle(m)
  }

  /** Moving to a state and running its effects, given the walk that led there. */
  lemma ExecutedKeeps(m: Machine, next: State, effects: seq<Effect>)
    requires Ready(m) && LogTied(m) && m.draining && m.active && !m.waiting && Fits(next, effects)
    requires m.request > 0 && !m.history.cut && Walkable(State.Prepare, m.history.values)
    requires next == EndState(State.Prepare, m.history.values)
    requires m.history.effects + effects
      == [Effect.AcceptPrepare] + EffectsAlong(State.Prepare, m.history.values)
    ensures Turning(Executed(m, next, effects))
  {
    hide LogTied, Fits, Walkable, EffectsAlong, EndState, RunEffects, NormalEvent;
    var moved := m.(state := next);
    QueueIsNotLogged(m, moved);
    EffectsKeep(moved, effects);
    var ran := RunEffects(moved, effects);
    if ran.state == State.Idle {
      var closed := ran.(active := false, waiting := false, handler := false);
      QueueIsNotLogged(ran, closed);
      PlainNoteTies(closed, Finished);
    }
  }

  lemma RefusedKeeps(m: Machine, token: Token)
    requires Turning(m) && m.waiting && token == m.pending
    ensures Turning(Handled(m.(history := Noted(m.history, Refused(token)))))
  {
    hide Live, Newest, Orderly, Walkable, EffectsAlong, EndState, Handled, NormalEvent;
    NotedLog(m.history.log, Refused(token));
    OrderlyGrows(m.history.log, Refused(token));
    var told := m.(history := Noted(m.history, Refused(token)));
    HandledUndisturbed(told);
  }

  lemma AcceptedKeeps(m: Machine, message: Message)
    requires Turning(m) && m.waiting && message.token == m.pending
    requires Awaits(message.event) == m.expected
    requires Reduced(m.state, message.event, message.value).kind == CellKind.Normal
    ensures var step := Reduced(m.state, message.event, message.value);
      Turning(Executed(m.(waiting := false, history := AcceptedIn(m.history, message)), step.next, step.effects))
  {
    hide Live, Newest, Orderly, Walkable, EffectsAlong, EndState, Reduced, Executed, NormalEvent, Choice, NextAt, EffectsAt, Fits;
    NormalStep(m.state, message.event, message.value);
    var told := m.(waiting := false, history := AcceptedIn(m.history, message));
    NotedLog(m.history.log, Accepted(message));
    OrderlyGrows(m.history.log, Accepted(message));
    WalkGrows(State.Prepare, m.history.values, message.value);
    var effects := EffectsOf(m.state, message.value);
    assert ([Effect.AcceptPrepare] + EffectsAlong(State.Prepare, m.history.values)) + effects
      == [Effect.AcceptPrepare] + (EffectsAlong(State.Prepare, m.history.values) + effects);
    ExecutedKeeps(told, NextState(m.state, message.value), effects);
  }

  lemma TurnKeeps(m: Machine)
    requires Turning(m) && m.queue != []
    ensures Turning(Turn(m))
  {
    hide LogTied, Chronicle, Handled, Executed, Reduced, NormalEvent;
    var message, rest := m.queue[0], m.(queue := m.queue[1..]);
    QueueIsNotLogged(m, rest);
    SameChronicle(m, rest);
    if m.active && m.waiting && message.token == m.pending {
      var step := Reduced(m.state, message.event, message.value);
      if Awaits(message.event) != m.expected || step.kind != CellKind.Normal {
        RefusedKeeps(rest, message.token);
      } else {
        AcceptedKeeps(rest, message);
      }
    }
  }

  lemma SameChronicle(m: Machine, after: Machine)
    requires Chronicle(m) && after.history == m.history && after.active == m.active
    requires after.request == m.request && after.state == m.state
    ensures Chronicle(after)
  {
    hide Walkable, EffectsAlong, EndState;
  }

  lemma {:induction false} TurnsKeep(m: Machine)
    requires m.draining && Turning(m)
    ensures Turning(Turns(m))
    decreases |m.queue| + Load(m.script)
  {
    hide Turning, Turn;
    if m.queue != [] {
      TurnKeeps(m);
      TurnsKeep(Turn(m));
    }
  }

  // ---- the whole runner ----

  /** What holds whenever no handler is running. */
  ghost predicate Settled(m: Machine) {
    Quiescent(m) && LogTied(m) && Chronicle(m)
  }

  lemma DrainedSettles(m: Machine)
    requires !m.draining && Turning(m.(draining := true))
    ensures Settled(Drained(m))
  {
    hide LogTied, Chronicle, Turns, NormalEvent;
    var begun := m.(draining := true);
    TurnsKeep(begun);
    var after := Turns(begun);
    QueueIsNotLogged(after, Drained(m));
    SameChronicle(after, Drained(m));
  }

  datatype OuterCall =
    | DoStart(generation: nat, hasHandler: bool)
    | DoPost(message: Message)
    | DoRebind(generation: nat)
    | DoCancel

  /** A call from outside, with what the handlers it reaches will do. */
  function Outside(m: Machine, call: OuterCall, script: seq<seq<Call>>): Machine {
    var given := m.(script := script);
    match call
    case DoStart(generation, hasHandler) => Started(given, generation, hasHandler)
    case DoPost(message) => Posted(given, message)
    case DoRebind(generation) => Rebound(given, generation)
    case DoCancel => Cancelled(given)
  }

  lemma PostSettles(m: Machine, message: Message)
    requires Settled(m)
    ensures Settled(Posted(m, message))
  {
    hide LogTied, Chronicle, Drained, NormalEvent;
    var posted := m.(queue := m.queue + [message]);
    QueueIsNotLogged(m, posted.(draining := true));
    SameChronicle(m, posted.(draining := true));
    DrainedSettles(posted);
  }

  lemma StartSettles(m: Machine, generation: nat, hasHandler: bool)
    requires Settled(m)
    ensures Settled(Started(m, generation, hasHandler))
  {
    hide LogTied, Chronicle, Drained, NormalEvent, Reduced, Executed, Fits;
    if !m.active && hasHandler {
      var begun := Begun(m, generation);
      SubmitStep();
      QueueIsNotLogged(m, m.(draining := true));
      BegunTied(m, generation);
      NothingWalked();
      assert [] + [Effect.AcceptPrepare] == [Effect.AcceptPrepare] + [];
      ExecutedKeeps(begun, State.Prepare, [Effect.AcceptPrepare]);
      var ran := Executed(begun, State.Prepare, [Effect.AcceptPrepare]);
      assert ran.(draining := false).(draining := true) == ran;
      DrainedSettles(ran.(draining := false));
    }
  }

  lemma BegunTied(m: Machine, generation: nat)
    requires LogTied(m) && !m.waiting
    ensures LogTied(Begun(m, generation))
  {
    QueueIsNotLogged(m, Begun(m, generation));
  }

  lemma NothingWalked()
    ensures Walkable(State.Prepare, []) && EndState(State.Prepare, []) == State.Prepare
    ensures EffectsAlong(State.Prepare, []) == []
  {
  }

  lemma RebindSettles(m: Machine, generation: nat)
    requires Settled(m)
    ensures Settled(Rebound(m, generation))
  {
    hide LogTied, NormalEvent, Walkable, EndState, EffectsAlong;
    ReboundUndisturbed(m, generation);
  }

  lemma CancelSettles(m: Machine)
    requires Settled(m)
    ensures Settled(Cancelled(m))
  {
    hide Live, Newest, Orderly, NormalEvent, Walkable, EndState, EffectsAlong;
    if m.active {
      NotedLog(m.history.log, Finished);
      OrderlyGrows(m.history.log, Finished);
    }
  }

  lemma OutsideSettles(m: Machine, call: OuterCall, script: seq<seq<Call>>)
    requires Settled(m)
    ensures Settled(Outside(m, call, script))
  {
    hide LogTied, Chronicle, Started, Posted, Rebound, Cancelled, NormalEvent;
    var given := m.(script := script);
    QueueIsNotLogged(m, given);
    SameChronicle(m, given);
    match call
    case DoStart(generation, hasHandler) => StartSettles(given, generation, hasHandler);
    case DoPost(message) => PostSettles(given, message);
    case DoRebind(generation) => RebindSettles(given, generation);
    case DoCancel => CancelSettles(given);
  }

  const NEW_RUNNER := Machine(State.Idle, [], Token(0, 0, 0), NoResult, 0, 0, 0, false, false, false, false,
                              [], NO_HISTORY)

  function AfterCalls(m: Machine, calls: seq<(OuterCall, seq<seq<Call>>)>): Machine
    decreases |calls|
  {
    if calls == [] then m else AfterCalls(Outside(m, calls[0].0, calls[0].1), calls[1..])
  }

  /**
   * Under any sequence of calls from outside, with any calls made inside the handlers they reach: when
   * no handler is running the queue is empty and the runner is either inactive in Idle or waiting for
   * the one event that is normal in its state.
   */
  lemma {:induction false} RunnerSettles(m: Machine, calls: seq<(OuterCall, seq<seq<Call>>)>)
    requires Settled(m)
    ensures Settled(AfterCalls(m, calls))
    decreases |calls|
  {
    hide Settled, Outside;
    if calls != [] {
      OutsideSettles(m, calls[0].0, calls[0].1);
      RunnerSettles(Outside(m, calls[0].0, calls[0].1), calls[1..]);
    }
  }

  lemma NewRunnerSettled()
    ensures Settled(NEW_RUNNER)
  {
  }

  /**
   * A request that has ended without being cut short accepted at most 14 results, applied the VM at
   * most once, and ran exactly one finishing effect, which says truly how the commit went.
   */
  lemma EndedRequest(m: Machine)
    requires Settled(m) && !m.active && m.request > 0 && !m.history.cut
    ensures Walkable(State.Prepare, m.history.values) && |m.history.values| <= 14
    ensures EndState(State.Prepare, m.history.values) == State.Idle
    ensures m.history.effects == [Effect.AcceptPrepare] + EffectsAlong(State.Prepare, m.history.values)
    ensures var t := TallyAlong(State.Prepare, m.history.values);
      && t.applies <= 1 && t.restores == t.refused
      && t.rejections + t.successes + t.failures == 1
      && t.successes == t.committed && t.failures == t.refused
  {
    hide LogTied, Walkable, EndState, EffectsAlong, TallyAlong, NormalEvent;
    EveryRequest(m.history.values);
  }

  // ---- tokens ----

  lemma {:induction false} LiveIsNewest(log: seq<Happening>)
    requires Orderly(log)
    ensures Live(log).Expecting? ==> Live(log).token.sequence == Newest(log)
    decreases |log|
  {
    if log != [] {
      LiveIsNewest(log[..|log| - 1]);
    }
  }

  lemma {:induction false} NewestGrows(log: seq<Happening>, k: nat)
    requires Orderly(log) && k <= |log|
    ensures Orderly(log[..k]) && Newest(log[..k]) <= Newest(log)
    ensures forall i :: k <= i < |log| && log[i].Issued? ==> Newest(log[..k]) < log[i].token.sequence <= Newest(log)
    decreases |log|
  {
    if k == |log| {
      assert log[..k] == log;
    } else {
      var before := log[..|log| - 1];
      NewestGrows(before, k);
      assert before[..k] == log[..k];
      assert forall i :: 0 <= i < |log| - 1 ==> log[i] == before[i];
    }
  }

  /** Every token issued has a higher number than all issued before it: none is issued twice. */
  lemma IssuedOnce(log: seq<Happening>, i: nat, j: nat)
    requires Orderly(log) && i < j < |log| && log[i].Issued? && log[j].Issued?
    ensures log[i].token.sequence < log[j].token.sequence
  {
    NewestGrows(log, i + 1);
    NotedLog(log[..i], log[i]);
    assert log[..i + 1] == log[..i] + [log[i]];
  }

  lemma OrderlyAt(log: seq<Happening>, k: nat)
    requires Orderly(log) && k < |log|
    ensures Orderly(log[..k])
    ensures log[k].Accepted? ==> Live(log[..k]) == Expecting(log[k].message.token)
    ensures log[k].Refused? ==> Live(log[..k]) == Expecting(log[k].token)
  {
    NewestGrows(log, k + 1);
    assert log[..k + 1][..k] == log[..k];
  }

  /** After a later token was issued, an earlier one is never again accepted, nor even refused. */
  lemma StaleTokensAreIgnored(log: seq<Happening>, issued: nat, later: nat, k: nat)
    requires Orderly(log) && issued < later < k < |log| && log[issued].Issued? && log[later].Issued?
    ensures log[k].Accepted? ==> log[k].message.token != log[issued].token
    ensures log[k].Refused? ==> log[k].token != log[issued].token
  {
    hide Live, Newest, Orderly;
    OrderlyAt(log, k);
    LiveIsNewest(log[..k]);
    NewestGrows(log[..k], issued);
    NewestGrows(log[..k], later);
    IssuedOnce(log, issued, later);
    assert log[..k][later] == log[later];
  }

  lemma {:induction false} NothingLiveUntilIssued(log: seq<Happening>, i: nat)
    requires Orderly(log) && i < |log| && log[i].Accepted?
    requires forall k :: i < k < |log| ==> !log[k].Issued?
    ensures Live(log) == Nothing
    decreases |log|
  {
    if i < |log| - 1 {
      var before := log[..|log| - 1];
      NothingLiveUntilIssued(before, i);
    }
  }

  /** A token is accepted at most once. */
  lemma AcceptedOnce(log: seq<Happening>, i: nat, j: nat)
    requires Orderly(log) && i < j < |log| && log[i].Accepted? && log[j].Accepted?
    ensures log[i].message.token.sequence < log[j].message.token.sequence
  {
    OrderlyAt(log, i);
    OrderlyAt(log, j);
    LiveIsNewest(log[..i]);
    LiveIsNewest(log[..j]);
    if forall k :: i < k < j ==> !log[k].Issued? {
      NothingLiveUntilIssued(log[..j], i);
    } else {
      var k :| i < k < j && log[k].Issued?;
      NewestGrows(log[..j], i);
      assert log[..j][k] == log[k] && log[..j][..i] == log[..i];
    }
  }
}

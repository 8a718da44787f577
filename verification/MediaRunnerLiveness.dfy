/** A handler that answers every waiting effect once brings every request to its end. */
module MediaRunnerLiveness {
  import opened MediaTable
  import opened MediaRuns
  import opened MediaRunner
  import opened MediaRunnerProofs

  /** A way of answering: for each state a value its event may carry. */
  ghost predicate Answers(choose: State -> Value) {
    forall s :: s != State.Idle ==> Choice(s, choose(s)) != 0
  }

  /** The results a request receives from such a handler. The rank makes the list finite. */
  ghost function ResultsFrom(state: State, choose: State -> Value): (values: seq<Value>)
    requires Answers(choose)
    ensures Path(state, values)
    decreases Rank(state)
  {
    hide Choice, NextAt, EffectsAt;
    if state == State.Idle then []
    else
      RankDecreases(state, choose(state));
      var rest := ResultsFrom(NextState(state, choose(state)), choose);
      assert ([choose(state)] + rest)[1..] == rest;
      [choose(state)] + rest
  }

  function Silent(count: nat): seq<seq<Call>> {
    seq(count, i => [])
  }

  function Reply(request: nat, generation: nat, sequence: nat, state: State, value: Value): seq<Call> {
    [PostCall(Message(Token(request, generation, sequence), NormalEvent(state), value))]
  }

  /** The handler's script: nothing for quiet effects, and for the last one the next result. */
  function Entries(request: nat, generation: nat, sequence: nat, next: State, count: nat, values: seq<Value>): seq<seq<Call>>
    requires count > 0
  {
    Silent(count - 1) + [if next == State.Idle || values == [] then [] else Reply(request, generation, sequence, next, values[0])]
  }

  function ScriptFor(request: nat, generation: nat, sequence: nat, state: State, values: seq<Value>): seq<seq<Call>>
    requires Walkable(state, values)
    decreases |values|
  {
    if values == [] then []
    else
      RowShape(state, values[0]);
      var next := NextState(state, values[0]);
      Entries(request, generation, sequence + 1, next, |EffectsOf(state, values[0])|, values[1..])
      + ScriptFor(request, generation, sequence + 1, next, values[1..])
  }

  /** The part of a machine that the argument follows: the next result is the one message queued. */
  ghost predicate Awaiting(m: Machine, values: seq<Value>) {
    && m.draining && m.active && m.waiting && m.state != State.Idle
    && m.expected == Awaits(NormalEvent(m.state)) && m.pending == Token(m.request, m.generation, m.sequence)
    && Path(m.state, values) && values != []
    && m.queue == [Message(m.pending, NormalEvent(m.state), values[0])]
    && m.script == ScriptFor(m.request, m.generation, m.sequence, m.state, values)
  }

  lemma SilentHandler(m: Machine)
    requires m.draining && m.script != [] && m.script[0] == []
    ensures Handled(m) == m.(script := m.script[1..])
  {
  }

  lemma PostingHandler(m: Machine, message: Message)
    requires m.draining && m.script != [] && m.script[0] == [PostCall(message)]
    ensures Handled(m) == m.(script := m.script[1..], queue := m.queue + [message])
  {
    var popped := m.(script := m.script[1..]);
    var calls := m.script[0];
    assert calls[1..] == [];
    assert InsideAll(popped, calls) == InsideAll(Inside(popped, calls[0]), calls[1..]);
  }

  /** How a row that goes on leaves the machine: waiting, with the handler's answer queued. */
  ghost predicate AnsweredIn(m: Machine, after: Machine, script: seq<seq<Call>>, queue: seq<Message>) {
    && after.draining && after.active && after.state == m.state && after.script == script && after.queue == queue
    && after.request == m.request && after.generation == m.generation
    && after.history.values == m.history.values && after.history.cut == m.history.cut
    && (if m.state == State.Idle then !after.waiting && after.sequence == m.sequence
        else
          && after.waiting && after.expected == Awaits(NormalEvent(m.state)) && after.sequence == m.sequence + 1
          && after.pending == Token(m.request, m.generation, m.sequence + 1))
  }

  lemma RunOnlyOne(m: Machine, effect: Effect)
    requires m.draining
    ensures RunEffects(m, [effect]) == RunOne(m, effect)
  {
    hide RunOne;
    assert [effect][0] == effect && [effect][1..] == [];
    var after := RunOne(m, effect);
    assert RunEffects(after, []) == after;
  }

  lemma HandlerReplies(m: Machine, reply: seq<Message>, rest: seq<seq<Call>>)
    requires m.draining && |reply| <= 1
    requires m.script == [if reply == [] then [] else [PostCall(reply[0])]] + rest
    ensures Handled(m) == m.(script := rest, queue := m.queue + reply)
  {
    assert m.script[1..] == rest;
    if reply == [] {
      SilentHandler(m);
    } else {
      PostingHandler(m, reply[0]);
      assert reply == [reply[0]];
    }
  }

  lemma LastEffectRuns(m: Machine, effect: Effect, reply: seq<Message>, rest: seq<seq<Call>>)
    requires m.draining && m.active && !m.waiting && Fits(m.state, [effect]) && |reply| <= 1
    requires m.script == [if reply == [] then [] else [PostCall(reply[0])]] + rest
    ensures AnsweredIn(m, RunEffects(m, [effect]), rest, m.queue + reply)
  {
    hide NormalEvent, ResultOf, Handled;
    RunOnlyOne(m, effect);
    var armed := Arm(m, effect);
    HandlerReplies(armed.(history := RanIn(armed.history, effect)), reply, rest);
  }

  lemma {:induction false} EffectsRun(m: Machine, effects: seq<Effect>, reply: seq<Message>, rest: seq<seq<Call>>)
    requires m.draining && m.active && !m.waiting && Fits(m.state, effects) && |reply| <= 1
    requires m.script == Silent(|effects| - 1) + [if reply == [] then [] else [PostCall(reply[0])]] + rest
    ensures AnsweredIn(m, RunEffects(m, effects), rest, m.queue + reply)
    decreases |effects|
  {
    hide NormalEvent, ResultOf, Handled, AnsweredIn;
    if |effects| == 1 {
      assert effects == [effects[0]];
      LastEffectRuns(m, effects[0], reply, rest);
    } else {
      var told := m.(history := RanIn(m.history, effects[0]));
      SilentHandler(told);
      var next := RunOne(m, effects[0]);
      assert next.script == Silent(|effects[1..]| - 1) + [if reply == [] then [] else [PostCall(reply[0])]] + rest;
      EffectsRun(next, effects[1..], reply, rest);
      SameAnswer(m, next, RunEffects(next, effects[1..]), rest, m.queue + reply);
    }
  }

  lemma SameAnswer(m: Machine, next: Machine, after: Machine, script: seq<seq<Call>>, queue: seq<Message>)
    requires AnsweredIn(next, after, script, queue)
    requires next.state == m.state && next.request == m.request && next.generation == m.generation
    requires next.sequence == m.sequence
    requires next.history.values == m.history.values && next.history.cut == m.history.cut
    ensures AnsweredIn(m, after, script, queue)
  {
  }

  function ReplyTo(m: Machine, next: State, values: seq<Value>): seq<Message> {
    if next == State.Idle || values == [] then []
    else [Message(Token(m.request, m.generation, m.sequence + 1), NormalEvent(next), values[0])]
  }

  /** The machine just before the effects of the accepted result run. */
  function Accepting(m: Machine, value: Value): Machine
    requires m.queue != [] && Choice(m.state, value) != 0
  {
    m.(queue := m.queue[1..], waiting := false, history := AcceptedIn(m.history, m.queue[0]),
       state := NextState(m.state, value))
  }

  lemma TurnAccepts(m: Machine, value: Value)
    requires m.draining && m.active && m.waiting && m.state != State.Idle && Choice(m.state, value) != 0
    requires m.expected == Awaits(NormalEvent(m.state)) && m.queue == [Message(m.pending, NormalEvent(m.state), value)]
    ensures Turn(m) == Close(RunEffects(Accepting(m, value), EffectsOf(m.state, value)))
    ensures Fits(NextState(m.state, value), EffectsOf(m.state, value))
  {
    hide NormalEvent, Choice, NextAt, EffectsAt, RunEffects, Reduced, Fits;
    NormalStepBack(m.state, value);
    NormalStep(m.state, NormalEvent(m.state), value);
  }

  /** One result is taken, and either the request is over or the next result is waiting in the queue. */
  lemma AnswerAdvances(m: Machine, values: seq<Value>)
    requires Awaiting(m, values)
    ensures m.draining && m.queue != [] && values != []
    ensures var after := Turn(m);
      && after.history.values == m.history.values + [values[0]] && after.history.cut == m.history.cut
      && (if values[1..] == [] then !after.active && after.queue == [] && after.draining
          else Awaiting(after, values[1..]))
  {
    hide NormalEvent, Choice, NextAt, EffectsAt, RunEffects, Turn, Fits;
    var value, next := values[0], NextState(m.state, values[0]);
    var effects := EffectsOf(m.state, value);
    TurnAccepts(m, value);
    RowShape(m.state, value);
    var told := Accepting(m, value);
    var reply := ReplyTo(m, next, values[1..]);
    var rest := ScriptFor(m.request, m.generation, m.sequence + 1, next, values[1..]);
    assert m.queue[1..] == [] && [] + reply == reply;
    EffectsRun(told, effects, reply, rest);
    PathGoesOn(m.state, values);
  }

  lemma PathGoesOn(state: State, values: seq<Value>)
    requires Path(state, values) && values != []
    ensures Path(NextState(state, values[0]), values[1..])
    ensures values[1..] == [] <==> NextState(state, values[0]) == State.Idle
  {
    hide Choice, NextAt;
  }

  lemma {:induction false} AnswersFinish(m: Machine, values: seq<Value>)
    requires m.draining && Awaiting(m, values)
    ensures var end := Turns(m);
      !end.active && end.history.values == m.history.values + values && end.history.cut == m.history.cut
    decreases |values|
  {
    hide Turn, Awaiting;
    AnswerAdvances(m, values);
    var after := Turn(m);
    if values[1..] == [] {
      assert Turns(after) == after;
      assert values == [values[0]];
    } else {
      AnswersFinish(after, values[1..]);
      assert (m.history.values + [values[0]]) + values[1..] == m.history.values + values;
    }
  }

  /** What a handler with these answers does in the next request of the runner. */
  ghost function AnsweringScript(m: Machine, generation: nat, choose: State -> Value): seq<seq<Call>>
    requires Answers(choose)
  {
    var values := ResultsFrom(State.Prepare, choose);
    Entries(m.request + 1, generation, m.sequence + 1, State.Prepare, 1, values)
    + ScriptFor(m.request + 1, generation, m.sequence + 1, State.Prepare, values)
  }

  /**
   * A handler that posts one result for each effect that has one, whichever values it picks, brings
   * the request to its end before Start returns, after at most 14 results and without a cancellation.
   */
  lemma AnsweringHandlerFinishes(m: Machine, generation: nat, choose: State -> Value)
    requires Settled(m) && !m.active && Answers(choose)
    ensures var end := Started(m.(script := AnsweringScript(m, generation, choose)), generation, true);
      && !end.active && !end.history.cut && end.queue == []
      && end.history.values == ResultsFrom(State.Prepare, choose) && |end.history.values| <= 14
  {
    hide NormalEvent, Choice, NextAt, EffectsAt, RunEffects, Reduced, ScriptFor, ResultsFrom, LogTied, Chronicle, Turns, Fits;
    var values := ResultsFrom(State.Prepare, choose);
    var script := AnsweringScript(m, generation, choose);
    var given := m.(script := script);
    SubmitStep();
    PrepareNeedsResults(values);
    var begun := Begun(given, generation).(state := State.Prepare);
    var rest := ScriptFor(m.request + 1, generation, m.sequence + 1, State.Prepare, values);
    var reply := [Message(Token(m.request + 1, generation, m.sequence + 1), NormalEvent(State.Prepare), values[0])];
    assert script == Silent(0) + [[PostCall(reply[0])]] + rest;
    EffectsRun(begun, [Effect.AcceptPrepare], reply, rest);
    var ran := RunEffects(begun, [Effect.AcceptPrepare]);
    assert [] + reply == reply;
    assert Awaiting(ran, values);
    AnswersFinish(ran, values);
    WalkIsBounded(State.Prepare, values);
    assert [] + values == values;
    assert Executed(Begun(given, generation), State.Prepare, [Effect.AcceptPrepare]) == ran;
    assert ran.(draining := false).(draining := true) == ran;
  }

  lemma PrepareNeedsResults(values: seq<Value>)
    requires Path(State.Prepare, values)
    ensures values != []
  {
  }
}

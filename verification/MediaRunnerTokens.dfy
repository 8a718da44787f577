/** What one call does to the outstanding token, and what no later call can undo: the log only grows. */
module MediaRunnerTokens {
  import opened MediaTable
  import opened MediaRunner
  import opened MediaRunnerProofs

  // ---- the log only grows ----

  lemma InsideGrows(m: Machine, call: Call)
    ensures m.history.log <= Inside(m, call).history.log
  {
  }

  lemma {:induction false} InsideAllGrows(m: Machine, calls: seq<Call>)
    requires m.draining
    ensures m.history.log <= InsideAll(m, calls).history.log
    decreases |calls|
  {
    hide Inside;
    if calls != [] {
      InsideGrows(m, calls[0]);
      InsideDrains(m, calls[0]);
      InsideAllGrows(Inside(m, calls[0]), calls[1..]);
    }
  }

  lemma InsideDrains(m: Machine, call: Call)
    requires m.draining
    ensures Inside(m, call).draining
  {
  }

  lemma HandledGrows(m: Machine)
    requires m.draining
    ensures m.history.log <= Handled(m).history.log
  {
    hide InsideAll;
    if m.script != [] {
      InsideAllGrows(m.(script := m.script[1..]), m.script[0]);
    }
  }

  lemma RunOneGrows(m: Machine, effect: Effect)
    requires m.draining
    ensures m.history.log <= RunOne(m, effect).history.log
  {
    hide Handled, ResultOf;
    var armed := Arm(m, effect);
    HandledGrows(armed.(history := RanIn(armed.history, effect)));
  }

  lemma {:induction false} RunEffectsGrows(m: Machine, effects: seq<Effect>)
    requires m.draining
    ensures m.history.log <= RunEffects(m, effects).history.log
    decreases |effects|
  {
    hide RunOne;
    if effects != [] {
      RunOneGrows(m, effects[0]);
      RunEffectsGrows(RunOne(m, effects[0]), effects[1..]);
    }
  }

  lemma ExecutedGrows(m: Machine, next: State, effects: seq<Effect>)
    requires m.draining
    ensures m.history.log <= Executed(m, next, effects).history.log
  {
    hide RunEffects;
    RunEffectsGrows(m.(state := next), effects);
  }

  lemma TurnGrows(m: Machine)
    requires m.draining && m.queue != []
    ensures m.history.log <= Turn(m).history.log
  {
    hide Executed, Handled, Reduced;
    var message, rest := m.queue[0], m.(queue := m.queue[1..]);
    var step := Reduced(m.state, message.event, message.value);
    HandledGrows(rest.(history := Noted(rest.history, Refused(message.token))));
    ExecutedGrows(rest.(waiting := false, history := AcceptedIn(rest.history, message)), step.next, step.effects);
  }

  lemma {:induction false} TurnsGrow(m: Machine)
    requires m.draining
    ensures m.history.log <= Turns(m).history.log
    decreases |m.queue| + Load(m.script)
  {
    hide Turn;
    if m.queue != [] {
      TurnGrows(m);
      TurnsGrow(Turn(m));
    }
  }

  lemma DrainedGrows(m: Machine)
    ensures m.history.log <= Drained(m).history.log
  {
    hide Turns;
    TurnsGrow(m.(draining := true));
  }

  lemma OutsideGrows(m: Machine, call: OuterCall, script: seq<seq<Call>>)
    ensures m.history.log <= Outside(m, call, script).history.log
  {
    hide Drained, Executed, Reduced;
    var given := m.(script := script);
    match call
    case DoStart(generation, hasHandler) =>
      if !m.active && !m.draining && hasHandler {
        var step := Reduced(m.state, Event.Submit, Value.Request);
        ExecutedGrows(Begun(given, generation), step.next, step.effects);
        DrainedGrows(Executed(Begun(given, generation), step.next, step.effects).(draining := false));
      }
    case DoPost(message) => DrainedGrows(given.(queue := given.queue + [message]));
    case DoRebind(_) =>
    case DoCancel =>
  }

  lemma {:induction false} CallsGrow(m: Machine, calls: seq<(OuterCall, seq<seq<Call>>)>)
    ensures m.history.log <= AfterCalls(m, calls).history.log
    decreases |calls|
  {
    hide Outside;
    if calls != [] {
      OutsideGrows(m, calls[0].0, calls[0].1);
      CallsGrow(Outside(m, calls[0].0, calls[0].1), calls[1..]);
    }
  }

  // ---- rebinding ----

  /** Everything but the outstanding token, its generation and number, and the record of it. */
  predicate SameOtherwise(m: Machine, after: Machine) {
    && after.state == m.state && after.queue == m.queue && after.expected == m.expected && after.request == m.request
    && after.active == m.active && after.waiting == m.waiting && after.draining == m.draining
    && after.handler == m.handler && after.script == m.script
    && after.history.values == m.history.values && after.history.effects == m.history.effects
    && after.history.cut == m.history.cut
  }

  /** A new token is outstanding: of this generation, for the same request, above every number issued before. */
  ghost predicate Reissued(m: Machine, after: Machine, generation: nat) {
    && SameOtherwise(m, after)
    && after.history.log == m.history.log + [Issued(after.pending)]
    && after.generation == generation == after.pending.generation && after.pending.request == m.request
    && after.sequence == after.pending.sequence
    && forall i :: 0 <= i < |m.history.log| && m.history.log[i].Issued? ==>
         m.history.log[i].token.sequence < after.pending.sequence
  }

  lemma NewestIsHighest(log: seq<Happening>, i: nat)
    requires Orderly(log) && i < |log| && log[i].Issued?
    ensures log[i].token.sequence <= Newest(log)
  {
    NewestGrows(log, i);
  }

  /** A rebinding from outside or inside a handler issues one token exactly when a result is awaited. */
  lemma RebindIssuesExactly(m: Machine, generation: nat)
    requires LogTied(m)
    ensures var after := Inside(m, RebindCall(generation));
      && after == Outside(m, DoRebind(generation), m.script)
      && (if m.active && m.waiting then Reissued(m, after, generation) else after == m)
  {
    hide Orderly, Newest, Live;
    var after := Inside(m, RebindCall(generation));
    forall i | 0 <= i < |m.history.log| && m.history.log[i].Issued?
      ensures m.history.log[i].token.sequence < m.sequence + 1
    {
      NewestIsHighest(m.history.log, i);
    }
  }

  /** Whatever happens after a rebinding, no message with a token issued before it is accepted or even refused. */
  lemma RebindRetiresTokens(m: Machine, generation: nat, calls: seq<(OuterCall, seq<seq<Call>>)>, i: nat, k: nat)
    requires Settled(m) && m.active
    requires i < |m.history.log| && m.history.log[i].Issued?
    ensures var log := AfterCalls(Outside(m, DoRebind(generation), m.script), calls).history.log;
      |m.history.log| <= k < |log| ==>
        && (log[k].Accepted? ==> log[k].message.token != m.history.log[i].token)
        && (log[k].Refused? ==> log[k].token != m.history.log[i].token)
  {
    hide Chronicle, Live, Newest, Orderly, Outside, Inside, SameOtherwise;
    RebindIssuesExactly(m, generation);
    var after := Outside(m, DoRebind(generation), m.script);
    OutsideSettles(m, DoRebind(generation), m.script);
    RunnerSettles(after, calls);
    CallsGrow(after, calls);
    var log := AfterCalls(after, calls).history.log;
    assert log[|m.history.log|] == Issued(after.pending) && log[i] == m.history.log[i];
    if |m.history.log| < k < |log| {
      StaleTokensAreIgnored(log, i, |m.history.log|, k);
    }
  }

  // ---- cancelling ----

  /** Cancelling an active request ends it and empties the queue, from outside and inside a handler. */
  lemma CancelEnds(m: Machine)
    ensures var after := Inside(m, CancelCall);
      && after == Outside(m, DoCancel, m.script)
      && (if m.active then
            && !after.active && !after.waiting && after.state == State.Idle && after.queue == []
            && after.history.log == m.history.log + [Finished]
            && after.request == m.request && after.sequence == m.sequence && after.draining == m.draining
          else after == m)
  {
  }

  lemma {:induction false} LiveIsAfter(log: seq<Happening>, ended: nat)
    requires Orderly(log) && ended < |log| && log[ended].Finished?
    ensures Live(log).Expecting? ==> Live(log).token.sequence > Newest(log[..ended])
    decreases |log|
  {
    var before := log[..|log| - 1];
    if ended < |log| - 1 {
      LiveIsAfter(before, ended);
      assert before[..ended] == log[..ended];
      NewestGrows(before, ended);
    }
  }

  /** After a request has finished, no token issued before that is accepted or refused again. */
  lemma FinishRetiresTokens(log: seq<Happening>, issued: nat, ended: nat, k: nat)
    requires Orderly(log) && issued < ended < k < |log| && log[issued].Issued? && log[ended].Finished?
    ensures log[k].Accepted? ==> log[k].message.token != log[issued].token
    ensures log[k].Refused? ==> log[k].token != log[issued].token
  {
    hide Live, Newest, Orderly;
    OrderlyAt(log, k);
    assert log[..k][ended] == log[ended] && log[..k][..ended] == log[..ended];
    LiveIsAfter(log[..k], ended);
    NewestGrows(log, ended);
    NewestIsHighest(log[..ended], issued);
  }

  lemma CancelRetiresTokens(m: Machine, calls: seq<(OuterCall, seq<seq<Call>>)>, i: nat, k: nat)
    requires Settled(m) && m.active
    requires i < |m.history.log| && m.history.log[i].Issued?
    ensures var log := AfterCalls(Outside(m, DoCancel, m.script), calls).history.log;
      |m.history.log| <= k < |log| ==>
        && (log[k].Accepted? ==> log[k].message.token != m.history.log[i].token)
        && (log[k].Refused? ==> log[k].token != m.history.log[i].token)
  {
    hide Chronicle, Live, Newest, Orderly, Outside, Inside;
    CancelEnds(m);
    var after := Outside(m, DoCancel, m.script);
    OutsideSettles(m, DoCancel, m.script);
    RunnerSettles(after, calls);
    CallsGrow(after, calls);
    var log := AfterCalls(after, calls).history.log;
    assert log[|m.history.log|] == Finished && log[i] == m.history.log[i];
    if |m.history.log| < k < |log| {
      FinishRetiresTokens(log, i, |m.history.log|, k);
    }
  }

  // ---- posting ----

  /** The one result that moves the machine: the outstanding token, the awaited event, a value the state decides. */
  predicate Moves(m: Machine, message: Message) {
    && m.active && message.token == m.pending && message.event == NormalEvent(m.state)
    && Choice(m.state, message.value) != 0
  }

  lemma FirstTurn(m: Machine, message: Message, script: seq<seq<Call>>)
    requires Settled(m)
    ensures var posted := m.(script := script, queue := [message], draining := true);
      Turn(posted).history.log <= Outside(m, DoPost(message), script).history.log
  {
    hide Chronicle, LogTied, Turn, Turns, NormalEvent, Choice;
    var given := m.(script := script, queue := m.queue + [message]);
    var posted := m.(script := script, queue := [message], draining := true);
    assert given.(draining := true) == posted;
    TurnsGrow(Turn(posted));
    FirstOfTurns(posted);
  }

  lemma FirstOfTurns(m: Machine)
    requires m.draining && m.queue != []
    ensures Turns(m) == Turns(Turn(m))
  {
    hide Turn;
  }

  /**
   * A posted result is accepted exactly when it moves the machine. With the outstanding token but another event or
   * value it is refused and the token stays outstanding for the handler; with any other token nothing happens.
   */
  lemma PostExactly(m: Machine, message: Message, script: seq<seq<Call>>)
    requires Settled(m)
    ensures var log, after := m.history.log, Outside(m, DoPost(message), script);
      if Moves(m, message) then
        |log| < |after.history.log| && log <= after.history.log && after.history.log[|log|] == Accepted(message)
      else if m.active && message.token == m.pending then
        |log| < |after.history.log| && log <= after.history.log && after.history.log[|log|] == Refused(message.token)
      else after == m.(script := script)
  {
    hide Chronicle, LogTied, Executed, Handled, Reduced, NormalEvent, Choice;
    var posted := m.(script := script, queue := [message], draining := true);
    FirstTurn(m, message, script);
    var rest := posted.(queue := []);
    if m.active && message.token == m.pending {
      ReducedExactly(m.state, message.event, message.value);
      var step := Reduced(m.state, message.event, message.value);
      if Moves(m, message) {
        ExecutedGrows(rest.(waiting := false, history := AcceptedIn(rest.history, message)), step.next, step.effects);
      } else {
        HandledGrows(rest.(history := Noted(rest.history, Refused(message.token))));
      }
    } else {
      IgnoredPost(m, message, script);
    }
  }

  lemma IgnoredPost(m: Machine, message: Message, script: seq<seq<Call>>)
    requires Quiescent(m) && !(m.active && message.token == m.pending)
    ensures Outside(m, DoPost(message), script) == m.(script := script)
  {
    hide NormalEvent, Reduced, Executed, Handled;
    var posted := m.(script := script, queue := [message], draining := true);
    assert m.(script := script).queue + [message] == [message];
    var rest := posted.(queue := []);
    assert [message][1..] == [];
    assert Turn(posted) == rest && Turns(rest) == rest;
    assert Turns(posted) == Turns(Turn(posted));
    assert rest.(draining := false) == m.(script := script);
  }

  // ---- starting ----

  /** A start begins a new request under a new number exactly when none is active and there is a handler. */
  lemma StartExactly(m: Machine, generation: nat, hasHandler: bool, script: seq<seq<Call>>)
    requires Settled(m)
    ensures var log, after := m.history.log, Outside(m, DoStart(generation, hasHandler), script);
      if m.active || !hasHandler then after == m.(script := script)
      else
        && |log| + 1 < |after.history.log| && log <= after.history.log
        && after.history.log[|log|] == Issued(Token(m.request + 1, generation, m.sequence + 1))
        && after.history.log[|log| + 1] == Ran(Effect.AcceptPrepare)
  {
    hide Chronicle, LogTied, Drained, Reduced, Handled;
    if !m.active && hasHandler {
      SubmitStep();
      var begun := Begun(m.(script := script), generation).(state := State.Prepare);
      var armed := Arm(begun, Effect.AcceptPrepare);
      var told := armed.(history := RanIn(armed.history, Effect.AcceptPrepare));
      HandledGrows(told);
      var ran := Executed(Begun(m.(script := script), generation), State.Prepare, [Effect.AcceptPrepare]);
      OneEffect(begun, Effect.AcceptPrepare);
      assert told.history.log == m.history.log
        + [Issued(Token(m.request + 1, generation, m.sequence + 1))] + [Ran(Effect.AcceptPrepare)];
      assert told.history.log <= ran.history.log;
      DrainedGrows(ran.(draining := false));
    }
  }

  lemma OneEffect(m: Machine, effect: Effect)
    requires m.draining
    ensures RunOne(m, effect).history.log <= RunEffects(m, [effect]).history.log
  {
    hide RunOne;
    RunEffectsGrows(RunOne(m, effect), []);
  }
}

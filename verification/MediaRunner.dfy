/**
 * The runner of the media operation machine. Handlers may call back into the runner while they run;
 * what each handler invocation does is an arbitrary script of such calls.
 */
module MediaRunner {
  import opened MediaTable

  datatype Token = Token(request: nat, generation: nat, sequence: nat)

  datatype Message = Message(token: Token, event: Event, value: Value)

  /** A call a handler makes on the runner that is running it. */
  datatype Call = PostCall(message: Message) | RebindCall(generation: nat) | CancelCall | StartCall(generation: nat)

  /** What an observer sees, in order. */
  datatype Happening =
    | Issued(token: Token)
    | Accepted(message: Message)
    | Refused(token: Token)
    | Ran(effect: Effect)
    | Finished

  /** The fields of the runner, what its handlers are going to do, and what has happened so far. */
  datatype Machine = Machine(
    state: State,
    queue: seq<Message>,
    pending: Token,
    expected: Expected,
    request: nat,
    generation: nat,
    sequence: nat,
    active: bool,
    waiting: bool,
    draining: bool,
    handler: bool,
    script: seq<seq<Call>>,
    history: History)

  /**
   * Everything that happened, and of the latest request the values it accepted, the effects it ran,
   * and whether a cancellation cut it short.
   */
  datatype History = History(log: seq<Happening>, values: seq<Value>, effects: seq<Effect>, cut: bool)

  const NO_HISTORY := History([], [], [], false)

  function Began(h: History): History {
    h.(values := [], effects := [], cut := false)
  }

  function Noted(h: History, happening: Happening): History {
    h.(log := h.log + [happening])
  }

  function Abandoned(h: History, unfinished: bool): History {
    Noted(h, Finished).(cut := h.cut || unfinished)
  }

  function RanIn(h: History, effect: Effect): History {
    Noted(h, Ran(effect)).(effects := h.effects + [effect])
  }

  function AcceptedIn(h: History, message: Message): History {
    Noted(h, Accepted(message)).(values := h.values + [message.value])
  }

  // ---- calls made while a handler runs: draining is set ----

  function Issue(m: Machine): Machine {
    var token := Token(m.request, m.generation, m.sequence + 1);
    m.(sequence := m.sequence + 1, pending := token, history := Noted(m.history, Issued(token)))
  }

  function Rebound(m: Machine, generation: nat): Machine {
    if !m.active || !m.waiting then m else Issue(m.(generation := generation))
  }

  function Retire(m: Machine): Machine {
    m.(active := false, waiting := false, state := State.Idle, queue := [],
       history := Abandoned(m.history, m.state != State.Idle))
  }

  function Cancelled(m: Machine): Machine {
    if !m.active then m
    else if m.draining then Retire(m)
    else Retire(m).(handler := false)
  }

  function Inside(m: Machine, call: Call): Machine {
    match call
    case PostCall(message) => m.(queue := m.queue + [message])
    case RebindCall(generation) => Rebound(m, generation)
    case CancelCall => Cancelled(m)
    case StartCall(_) => m
  }

  function InsideAll(m: Machine, calls: seq<Call>): (after: Machine)
    requires m.draining
    ensures after.draining && after.script == m.script
    ensures |after.queue| <= |m.queue| + |calls|
    decreases |calls|
  {
    if calls == [] then m else InsideAll(Inside(m, calls[0]), calls[1..])
  }

  function Load(script: seq<seq<Call>>): nat {
    if script == [] then 0 else |script[0]| + Load(script[1..])
  }

  /** The handler runs; what it does is the next entry of the script. */
  function Handled(m: Machine): (after: Machine)
    requires m.draining
    ensures after.draining && |after.queue| + Load(after.script) <= |m.queue| + Load(m.script)
  {
    if m.script == [] then m else InsideAll(m.(script := m.script[1..]), m.script[0])
  }

  function Arm(m: Machine, effect: Effect): Machine {
    if ResultOf(effect).NoResult? then m
    else Issue(m).(expected := ResultOf(effect), waiting := true)
  }

  function RunOne(m: Machine, effect: Effect): (after: Machine)
    requires m.draining
    ensures after.draining && |after.queue| + Load(after.script) <= |m.queue| + Load(m.script)
  {
    var armed := Arm(m, effect);
    Handled(armed.(history := RanIn(armed.history, effect)))
  }

  function CutShort(m: Machine, unfinished: bool): Machine {
    if unfinished then m.(history := m.history.(cut := true)) else m
  }

  /** The effects in order; a cancellation drops the rest. */
  function RunEffects(m: Machine, effects: seq<Effect>): (after: Machine)
    requires m.draining
    ensures after.draining && |after.queue| + Load(after.script) <= |m.queue| + Load(m.script)
    decreases |effects|
  {
    if effects == [] then m
    else
      var after := RunOne(m, effects[0]);
      if !after.active then CutShort(after, effects[1..] != []) else RunEffects(after, effects[1..])
  }

  function Close(m: Machine): Machine {
    if m.state == State.Idle then 
      m.(active := false, waiting := false, handler := false, history := Noted(m.history, Finished))
    else m
  }

  function Executed(m: Machine, next: State, effects: seq<Effect>): (after: Machine)
    requires m.draining
    ensures after.draining && |after.queue| + Load(after.script) <= |m.queue| + Load(m.script)
  {
    Close(RunEffects(m.(state := next), effects))
  }

  /** One turn of the drain loop. */
  function Turn(m: Machine): (after: Machine)
    requires m.draining && m.queue != []
    ensures after.draining && |after.queue| + Load(after.script) < |m.queue| + Load(m.script)
  {
    var message, rest := m.queue[0], m.(queue := m.queue[1..]);
    if !m.active || !m.waiting || message.token != m.pending then rest
    else
      var step := Reduced(m.state, message.event, message.value);
      if Awaits(message.event) != m.expected || step.kind != CellKind.Normal then
        Handled(rest.(history := Noted(rest.history, Refused(message.token))))
      else
        Executed(rest.(waiting := false, history := AcceptedIn(rest.history, message)), step.next, step.effects)
  }

  function Turns(m: Machine): (after: Machine)
    requires m.draining
    ensures after.draining && after.queue == []
    decreases |m.queue| + Load(m.script)
  {
    if m.queue == [] then m else Turns(Turn(m))
  }

  function Drained(m: Machine): Machine {
    if m.draining then m
    else
      var after := Turns(m.(draining := true)).(draining := false);
      if !after.active then after.(handler := false) else after
  }

  // ---- calls from outside ----

  function Posted(m: Machine, message: Message): Machine {
    Drained(m.(queue := m.queue + [message]))
  }

  function Begun(m: Machine, generation: nat): (begun: Machine)
    ensures begun.draining && begun.state == m.state
  {
    m.(handler := true, active := true, generation := generation, request := m.request + 1, draining := true,
       history := Began(m.history))
  }

  function Started(m: Machine, generation: nat, hasHandler: bool): Machine {
    if m.active || m.draining || !hasHandler then m
    else
      var step := Reduced(m.state, Event.Submit, Value.Request);
      Drained(Executed(Begun(m, generation), step.next, step.effects).(draining := false))
  }

  // ---- the class ----

  class Runner {
    var handler: bool
    var queue: seq<Message>
    var state: State
    var pending: Token
    var expected: Expected
    var request: nat
    var generation: nat
    var sequence: nat
    var active: bool
    var waiting: bool
    var draining: bool
    var script: seq<seq<Call>>
    ghost var history: History

    ghost function M(): Machine
      reads this
    {
      Machine(state, queue, pending, expected, request, generation, sequence, active, waiting, draining, handler,
        script, history)
    }

    constructor ()
      ensures M() == Machine(State.Idle, [], Token(0, 0, 0), NoResult, 0, 0, 0, false, false, false, false,
        [], NO_HISTORY)
    {
      handler, queue, state, pending, expected := false, [], State.Idle, Token(0, 0, 0), NoResult;
      request, generation, sequence, active, waiting, draining := 0, 0, 0, false, false, false;
      script, history := [], NO_HISTORY;
    }

    /** What the handlers will do from here on. */
    method SetScript(entries: seq<seq<Call>>)
      modifies this`script
      ensures M() == old(M()).(script := entries)
    {
      script := entries;
    }

    method Start(newGeneration: nat, hasHandler: bool) returns (ok: bool)
      modifies this
      ensures ok == (!old(active) && !old(draining) && hasHandler)
      ensures M() == Started(old(M()), newGeneration, hasHandler)
      decreases if draining then 2 else 6
    {
      hide Begun, Drained, Executed, Reduced;
      if active || draining || !hasHandler {
        return false;
      }
      ghost var before := M();
      Begin(newGeneration);
      var step := Reduce(state, Event.Submit, Value.Request);
      Execute(step.next, step.effects);
      draining := false;
      Drain();
      return true;
    }

    method Begin(newGeneration: nat)
      modifies this
      ensures M() == Begun(old(M()), newGeneration)
    {
      handler := true;
      active := true;
      generation := newGeneration;
      request := request + 1;
      history := Began(history);
      draining := true;
    }

    method Post(token: Token, event: Event, value: Value)
      modifies this
      ensures M() == Posted(old(M()), Message(token, event, value))
      decreases if draining then 2 else 6
    {
      queue := queue + [Message(token, event, value)];
      Drain();
    }

    method RebindSession(newGeneration: nat) returns (token: Token)
      modifies this
      ensures M() == Rebound(old(M()), newGeneration)
      ensures old(active) && old(waiting) ==> token == pending == Token(old(request), newGeneration, old(sequence) + 1)
      ensures !(old(active) && old(waiting)) ==> token == Token(0, 0, 0) && M() == old(M())
    {
      if !active || !waiting {
        return Token(0, 0, 0);
      }
      generation := newGeneration;
      sequence := sequence + 1;
      pending := Token(request, generation, sequence);
      history := Noted(history, Issued(pending));
      return pending;
    }

    method Cancel() returns (ok: bool)
      modifies this
      ensures M() == Cancelled(old(M())) && ok == old(active)
    {
      if !active {
        return false;
      }
      active := false;
      waiting := false;
      history := Abandoned(history, state != State.Idle);
      state := State.Idle;
      queue := [];
      if !draining {
        handler := false;
      }
      return true;
    }

    method Execute(next: State, stepEffects: seq<Effect>)
      requires draining
      modifies this
      ensures M() == Executed(old(M()), next, stepEffects)
      decreases 4, 0
    {
      hide RunEffects;
      state := next;
      RunAll(stepEffects);
      if state == State.Idle {
        active := false;
        waiting := false;
        handler := false;
        history := Noted(history, Finished);
      }
    }

    method RunAll(stepEffects: seq<Effect>)
      requires draining
      modifies this
      ensures M() == RunEffects(old(M()), stepEffects)
      decreases 3, 2
    {
      hide RunOne;
      ghost var begun := M();
      var index := 0;
      while index < |stepEffects|
        invariant 0 <= index <= |stepEffects| && draining
        invariant RunEffects(begun, stepEffects) == RunEffects(M(), stepEffects[index..])
      {
        assert stepEffects[index..][1..] == stepEffects[index + 1..];
        RunEffect(stepEffects[index]);
        if !active {
          ghost var unfinished := stepEffects[index + 1..] != [];
          if unfinished {
            history := history.(cut := true);
          }
          break;
        }
        index := index + 1;
      }
    }

    /** One effect of the list: arm the token if it has a result, then call the handler. */
    method RunEffect(effect: Effect)
      requires draining
      modifies this
      ensures M() == RunOne(old(M()), effect)
      decreases 3, 1
    {
      hide Handled;
      var result := ResultOf(effect);
      if result.Awaits? {
        sequence := sequence + 1;
        pending := Token(request, generation, sequence);
        expected := result;
        waiting := true;
        history := Noted(history, Issued(pending));
      }
      history := RanIn(history, effect);
      Handle();
    }

    /** The handler, on the stack of whoever called it. */
    method Handle()
      requires draining
      modifies this
      ensures M() == Handled(old(M()))
      decreases 3, 0
    {
      if script == [] {
        return;
      }
      var calls := script[0];
      script := script[1..];
      ghost var begun := M();
      var index := 0;
      while index < |calls|
        invariant 0 <= index <= |calls| && draining
        invariant InsideAll(begun, calls) == InsideAll(M(), calls[index..])
      {
        assert calls[index..][1..] == calls[index + 1..];
        ghost var before := M();
        match calls[index] {
          case PostCall(message) => Post(message.token, message.event, message.value);
          case RebindCall(newGeneration) => var _ := RebindSession(newGeneration);
          case CancelCall => var _ := Cancel();
          case StartCall(newGeneration) => var _ := Start(newGeneration, true);
        }
        assert M() == Inside(before, calls[index]);
        index := index + 1;
      }
    }

    method Drain()
      modifies this
      ensures M() == Drained(old(M()))
      decreases if draining then 1 else 5
    {
      if draining {
        return;
      }
      draining := true;
      ghost var begun := M();
      while queue != []
        invariant draining && Turns(begun) == Turns(M())
        decreases |queue| + Load(script)
      {
        TakeMessage();
      }
      draining := false;
      if !active {
        handler := false;
      }
    }

    /** The body of the drain loop. */
    method TakeMessage()
      requires draining && queue != []
      modifies this
      ensures M() == Turn(old(M()))
      decreases 4, 1
    {
      hide Executed, Handled, Reduced;
      var message := queue[0];
      queue := queue[1..];
      if !active || !waiting || message.token != pending {
        return;
      }
      var step := Reduce(state, message.event, message.value);
      if Awaits(message.event) != expected || step.kind != CellKind.Normal {
        history := Noted(history, Refused(message.token));
        Handle();
        return;
      }
      waiting := false;
      history := AcceptedIn(history, message);
      Execute(step.next, step.effects);
    }
  }
}

/** The array loader: it turns a plain configuration array (`class`,
    `states`, `transitions`, `callbacks`) into a fixed sequence of
    registration calls on a state machine and on its callback handler.

    The calls are recorded as operations (`Op`). `LoadRun` is the
    specification: the operations a load issues, in order, and the error
    that stops it, if any. The class `ArrayLoader` does the same step by step
    and is proved to issue exactly `LoadRun`'s operations. */
module ArrayLoader {
  import opened Php
  import opened OptionsResolver
  import opened Events

  datatype Position = Before | After

  /** A registration call the loader makes. */
  datatype Op =
    | AddState(name: Key, stateType: Value, properties: Value)
    | AddTransition(name: Key, from: Value, to: Value, guard: Value)
    | AddBefore(callback: Value, specs: Entries)
    | AddAfter(callback: Value, specs: Entries)

  /** Why a load stops. */
  datatype LoadError =
    | InvalidState(name: Key, reason: ResolveError)            // resolving a state entry raised
    | InvalidTransition(name: Key, reason: ResolveError)       // resolving a transition entry raised
    | CallbackEntryNotArray(position: Position, index: Key)    // a callback entry is not an array
    | Refused(op: Op)                                          // the state machine raised on a registration

  /** The three loops of a load, the last one once per position. */
  datatype Phase = States | Transitions | Callbacks(position: Position)

  /** What a load, or one of its loops, leaves behind: the machine's whole
      journal of registrations afterwards, and the error that ended it
      early, if any. */
  datatype Run = Run(calls: seq<Op>, failure: Option<LoadError>)

  // The state types a state entry may name.
  const TypeInitial := Str("initial")
  const TypeNormal := Str("normal")
  const TypeFinal := Str("final")

  /** The resolver for a state entry: `type` defaults to normal and must be
      one of the three types, `properties` defaults to an empty array. */
  const StateSchema: Schema :=
    Schema([(StrKey("type"), TypeNormal), (StrKey("properties"), Arr([]))],
           {}, {},
           map["type" := [TypeInitial, TypeNormal, TypeFinal]],
           map[])

  /** The resolver for a transition entry: `from` and `to` are required,
      `guard` is optional; `from` is cast to an array and an unset `guard`
      becomes null. */
  const TransitionSchema: Schema := Schema([], {"from", "to"}, {"guard"}, map[], map["from" := ToList, "guard" := NullIfUnset])

  /** The configuration keys the constructor supplies when they are missing. */
  const Defaults: Entries := [(StrKey("class"), Str("")), (StrKey("states"), Arr([])), (StrKey("transitions"), Arr([]))]

  /** The configuration the loader keeps: the given one merged over the
      defaults. */
  function WithDefaults(config: Entries): (r: Entries)
    ensures UniqueKeys(r)
    ensures HasKey(r, StrKey("class")) && HasKey(r, StrKey("states")) && HasKey(r, StrKey("transitions"))
  {
    ArrayMergeHasKey(Defaults, config, "class");
    ArrayMergeHasKey(Defaults, config, "states");
    ArrayMergeHasKey(Defaults, config, "transitions");
    ArrayMerge(Defaults, config)
  }

  function PositionName(position: Position): string
  {
    match position
    case Before => "before"
    case After => "after"
  }

  function StateEntries(config: Entries): Entries
  {
    Iterate(Field(config, "states"))
  }

  function TransitionEntries(config: Entries): Entries
  {
    Iterate(Field(config, "transitions"))
  }

  /** The entries of `callbacks[position]`: none when that is not set. */
  function CallbackEntries(config: Entries, position: Position): Entries
  {
    var callbacks := Field(config, "callbacks");
    if callbacks.Arr? && IsSet(callbacks.entries, PositionName(position))
    then Iterate(Field(callbacks.entries, PositionName(position)))
    else []
  }

  /** `new State($state, $config['type'], array(), $config['properties'])`
      for a resolved state entry. */
  function NewState(name: Key, resolved: Entries): Op
  {
    AddState(name, Field(resolved, "type"), Field(resolved, "properties"))
  }

  /** `new Transition($transition, $config['from'], $config['to'], $guard)`
      for a resolved transition entry, the guard being null when the
      resolved entry has none. */
  function NewTransition(name: Key, resolved: Entries): Op
  {
    var guard := if HasKey(resolved, StrKey("guard")) then Field(resolved, "guard") else Null;
    AddTransition(name, Field(resolved, "from"), Field(resolved, "to"), guard)
  }

  /** The registration one configuration entry gives rise to, or the error
      it raises. */
  function Step(phase: Phase, name: Key, entry: Value): (r: Result<Op, LoadError>)
    ensures phase == States ==> if r.Ok? then r.value.AddState? && r.value.name == name else r.error.InvalidState? && r.error.name == name
    ensures phase == Transitions ==> if r.Ok? then r.value.AddTransition? && r.value.name == name else r.error.InvalidTransition? && r.error.name == name
    ensures phase.Callbacks? ==> (r.Ok? <==> entry.Arr?)
    ensures phase == Callbacks(Before) && r.Ok? ==> r.value.AddBefore?
    ensures phase == Callbacks(After) && r.Ok? ==> r.value.AddAfter?
    ensures phase.Callbacks? && r.Err? ==> r.error == CallbackEntryNotArray(phase.position, name)
  {
    match phase
    case States =>
      (match Resolve(StateSchema, entry)
       case Err(e) => Err(InvalidState(name, e))
       case Ok(r) => Ok(NewState(name, r)))
    case Transitions =>
      (match Resolve(TransitionSchema, entry)
       case Err(e) => Err(InvalidTransition(name, e))
       case Ok(r) => Ok(NewTransition(name, r)))
    case Callbacks(position) =>
      if !entry.Arr? then Err(CallbackEntryNotArray(position, name))
      else
        var callback := Field(entry.entries, "do");
        var specs := Remove(entry.entries, StrKey("do"));
        Ok(if position == Before then AddBefore(callback, specs) else AddAfter(callback, specs))
  }

  /** One `foreach` over `entries` on a machine whose journal is `history`:
      each entry issues its registration in turn, and the first entry that
      raises, or the first registration that `accepts` refuses given the
      journal so far, ends the loop. A refused registration is still in the
      journal. */
  function RunEach(history: seq<Op>, phase: Phase, entries: Entries, accepts: (seq<Op>, Op) -> bool): (r: Run)
    ensures |history| <= |r.calls| <= |history| + |entries|
    ensures r.calls[..|history|] == history
    decreases |entries|
  {
    if entries == [] then Run(history, None)
    else
      var done := RunEach(history, phase, entries[..|entries| - 1], accepts);
      if done.failure.Some? then done
      else
        var last := entries[|entries| - 1];
        match Step(phase, last.0, last.1)
        case Err(e) => Run(done.calls, Some(e))
        case Ok(op) => Run(done.calls + [op], if accepts(done.calls, op) then None else Some(Refused(op)))
  }

  /** The callback registrations, `handlerAccepts` saying which ones the
      callback handler raises on: nothing when `callbacks` is not set, else
      the `before` entries, then the `after` entries. */
  function CallbacksRun(config: Entries, history: seq<Op>, handlerAccepts: (seq<Op>, Op) -> bool): (r: Run)
    ensures !IsSet(config, "callbacks") ==> r.calls == history && r.failure.None?
    ensures |history| <= |r.calls| <= |history| + |CallbackEntries(config, Before)| + |CallbackEntries(config, After)|
    ensures r.calls[..|history|] == history
  {
    if !IsSet(config, "callbacks") then Run(history, None)
    else
      var before := RunEach(history, Callbacks(Before), CallbackEntries(config, Before), handlerAccepts);
      if before.failure.Some? then before
      else RunEach(before.calls, Callbacks(After), CallbackEntries(config, After), handlerAccepts)
  }

  /** A whole load on a machine whose journal is `history`: the states, then
      the transitions, then the callbacks. */
  function LoadRun(config: Entries, history: seq<Op>, accepts: (seq<Op>, Op) -> bool, handlerAccepts: (seq<Op>, Op) -> bool): (r: Run)
    ensures |history| <= |r.calls|
    ensures |r.calls| <= |history| + |StateEntries(config)| + |TransitionEntries(config)| + |CallbackEntries(config, Before)| + |CallbackEntries(config, After)|
    ensures r.calls[..|history|] == history
  {
    var states := RunEach(history, States, StateEntries(config), accepts);
    if states.failure.Some? then states
    else
      var transitions := RunEach(states.calls, Transitions, TransitionEntries(config), accepts);
      if transitions.failure.Some? then transitions
      else CallbacksRun(config, transitions.calls, handlerAccepts)
  }

  /** Once a loop has failed on a prefix of its entries, the rest of the
      entries are never looked at. */
  lemma {:induction false} RunEachStops(history: seq<Op>, phase: Phase, entries: Entries, n: nat, accepts: (seq<Op>, Op) -> bool)
    requires n <= |entries|
    requires RunEach(history, phase, entries[..n], accepts).failure.Some?
    ensures RunEach(history, phase, entries, accepts) == RunEach(history, phase, entries[..n], accepts)
    decreases |entries| - n
  {
    if n < |entries| {
      var longer := entries[..n + 1];
      assert longer[..n] == entries[..n];
      assert RunEach(history, phase, longer, accepts) == RunEach(history, phase, entries[..n], accepts);
      RunEachStops(history, phase, entries, n + 1, accepts);
    } else {
      assert entries[..n] == entries;
    }
  }

  /** A loop that has not failed yet issues the next entry's registration. */
  lemma RunEachIssues(history: seq<Op>, phase: Phase, entries: Entries, i: nat, accepts: (seq<Op>, Op) -> bool, op: Op)
    requires i < |entries|
    requires RunEach(history, phase, entries[..i], accepts).failure == None
    requires Step(phase, entries[i].0, entries[i].1) == Ok(op)
    ensures var done := RunEach(history, phase, entries[..i], accepts);
            RunEach(history, phase, entries[..i + 1], accepts)
            == Run(done.calls + [op], if accepts(done.calls, op) then None else Some(Refused(op)))
  {
    assert entries[..i + 1][..i] == entries[..i];
  }

  /** A loop that has not failed yet stops at an entry that raises. */
  lemma RunEachRaises(history: seq<Op>, phase: Phase, entries: Entries, i: nat, accepts: (seq<Op>, Op) -> bool, e: LoadError)
    requires i < |entries|
    requires RunEach(history, phase, entries[..i], accepts).failure == None
    requires Step(phase, entries[i].0, entries[i].1) == Err(e)
    ensures RunEach(history, phase, entries, accepts)
         == Run(RunEach(history, phase, entries[..i], accepts).calls, Some(e))
  {
    assert entries[..i + 1][..i] == entries[..i];
    RunEachStops(history, phase, entries, i + 1, accepts);
  }

  // ---------------------------------------------------------------------
  // The objects a load works on.

  /** The state machine, as far as the loader sees it: it receives
      registrations and may raise on one (`accepts` says which, given the
      registrations it already holds). `calls` is the journal of every
      registration made for this machine, whether the machine itself or its
      callback handler receives it. */
  class StateMachine {
    const dispatcher: EventDispatcher?
    const accepts: (seq<Op>, Op) -> bool
    var calls: seq<Op>

    constructor (dispatcher: EventDispatcher?, accepts: (seq<Op>, Op) -> bool)
      ensures this.dispatcher == dispatcher && this.accepts == accepts && calls == []
    {
      this.dispatcher := dispatcher;
      this.accepts := accepts;
      calls := [];
    }

    /** Registers a state; `accepted` is false when the machine raises. */
    method AddState(state: Op) returns (accepted: bool)
      requires state.AddState?
      modifies this`calls
      ensures calls == old(calls) + [state]
      ensures accepted == accepts(old(calls), state)
    {
      accepted := accepts(calls, state);
      calls := calls + [state];
    }

    /** Registers a transition; `accepted` is false when the machine raises. */
    method AddTransition(transition: Op) returns (accepted: bool)
      requires transition.AddTransition?
      modifies this`calls
      ensures calls == old(calls) + [transition]
      ensures accepted == accepts(old(calls), transition)
    {
      accepted := accepts(calls, transition);
      calls := calls + [transition];
    }
  }

  /** The callback handler: created on a dispatcher, it records before and
      after callbacks registered for a machine, and may raise on one, for
      instance on specs it does not recognise (`accepts` says which, given
      the machine's journal). */
  class CallbackHandler {
    const dispatcher: EventDispatcher?
    const accepts: (seq<Op>, Op) -> bool

    constructor (dispatcher: EventDispatcher?, accepts: (seq<Op>, Op) -> bool)
      ensures this.dispatcher == dispatcher && this.accepts == accepts
    {
      this.dispatcher := dispatcher;
      this.accepts := accepts;
    }

    /** Registers a before-callback; `accepted` is false when the handler raises. */
    method AddBefore(sm: StateMachine, callback: Value, specs: Entries) returns (accepted: bool)
      modifies sm`calls
      ensures sm.calls == old(sm.calls) + [Op.AddBefore(callback, specs)]
      ensures accepted == accepts(old(sm.calls), Op.AddBefore(callback, specs))
    {
      accepted := accepts(sm.calls, Op.AddBefore(callback, specs));
      sm.calls := sm.calls + [Op.AddBefore(callback, specs)];
    }

    /** Registers an after-callback; `accepted` is false when the handler raises. */
    method AddAfter(sm: StateMachine, callback: Value, specs: Entries) returns (accepted: bool)
      modifies sm`calls
      ensures sm.calls == old(sm.calls) + [Op.AddAfter(callback, specs)]
      ensures accepted == accepts(old(sm.calls), Op.AddAfter(callback, specs))
    {
      accepted := accepts(sm.calls, Op.AddAfter(callback, specs));
      sm.calls := sm.calls + [Op.AddAfter(callback, specs)];
    }
  }

  class ArrayLoader {
    const config: Entries
    var callbackHandler: CallbackHandler?

    /** Keeps the configuration merged over the defaults, and the handler
        when one is given. */
    constructor (config: Entries, handler: CallbackHandler?)
      ensures this.config == WithDefaults(config) && callbackHandler == handler
    {
      callbackHandler := handler;
      this.config := ArrayMerge(Defaults, config);
    }

    /** Creates the callback handler from the machine's dispatcher when none
        is held yet, then registers states, transitions and callbacks.
        `newHandlerAccepts` is what a handler created here raises on. */
    method Load(sm: StateMachine, newHandlerAccepts: (seq<Op>, Op) -> bool) returns (failure: Option<LoadError>)
      modifies this`callbackHandler, sm`calls
      ensures old(callbackHandler) != null ==> callbackHandler == old(callbackHandler)
      ensures old(callbackHandler) == null ==>
                && callbackHandler != null && fresh(callbackHandler)
                && callbackHandler.dispatcher == sm.dispatcher && callbackHandler.accepts == newHandlerAccepts
      ensures callbackHandler != null
      ensures sm.calls == LoadRun(config, old(sm.calls), sm.accepts, callbackHandler.accepts).calls
      ensures failure == LoadRun(config, old(sm.calls), sm.accepts, callbackHandler.accepts).failure
    {
      if callbackHandler == null {
        callbackHandler := new CallbackHandler(sm.dispatcher, newHandlerAccepts);
      }
      failure := LoadStates(sm);
      if failure.Some? {
        return;
      }
      failure := LoadTransitions(sm);
      if failure.Some? {
        return;
      }
      failure := LoadCallbacks(sm);
    }

    method LoadStates(sm: StateMachine) returns (failure: Option<LoadError>)
      modifies sm`calls
      ensures sm.calls == RunEach(old(sm.calls), States, StateEntries(config), sm.accepts).calls
      ensures failure == RunEach(old(sm.calls), States, StateEntries(config), sm.accepts).failure
    {
      var entries := Iterate(Field(config, "states"));
      ghost var start := sm.calls;
      var i := 0;
      while i < |entries|
        invariant 0 <= i <= |entries|
        invariant sm.calls == RunEach(start, States, entries[..i], sm.accepts).calls
        invariant RunEach(start, States, entries[..i], sm.accepts).failure == None
      {
        var (name, entry) := entries[i];
        var resolved := Resolve(StateSchema, entry);
        if resolved.Err? {
          RunEachRaises(start, States, entries, i, sm.accepts, InvalidState(name, resolved.error));
          return Some(InvalidState(name, resolved.error));
        }
        var state := NewState(name, resolved.value);
        RunEachIssues(start, States, entries, i, sm.accepts, state);
        var accepted := sm.AddState(state);
        if !accepted {
          RunEachStops(start, States, entries, i + 1, sm.accepts);
          return Some(Refused(state));
        }
        i := i + 1;
      }
      assert entries[..i] == entries;
      return None;
    }

    method LoadTransitions(sm: StateMachine) returns (failure: Option<LoadError>)
      modifies sm`calls
      ensures sm.calls == RunEach(old(sm.calls), Transitions, TransitionEntries(config), sm.accepts).calls
      ensures failure == RunEach(old(sm.calls), Transitions, TransitionEntries(config), sm.accepts).failure
    {
      var entries := Iterate(Field(config, "transitions"));
      ghost var start := sm.calls;
      var i := 0;
      while i < |entries|
        invariant 0 <= i <= |entries|
        invariant sm.calls == RunEach(start, Transitions, entries[..i], sm.accepts).calls
        invariant RunEach(start, Transitions, entries[..i], sm.accepts).failure == None
      {
        var (name, entry) := entries[i];
        var resolved := Resolve(TransitionSchema, entry);
        if resolved.Err? {
          RunEachRaises(start, Transitions, entries, i, sm.accepts, InvalidTransition(name, resolved.error));
          return Some(InvalidTransition(name, resolved.error));
        }
        var transition := NewTransition(name, resolved.value);
        RunEachIssues(start, Transitions, entries, i, sm.accepts, transition);
        var accepted := sm.AddTransition(transition);
        if !accepted {
          RunEachStops(start, Transitions, entries, i + 1, sm.accepts);
          return Some(Refused(transition));
        }
        i := i + 1;
      }
      assert entries[..i] == entries;
      return None;
    }

    method LoadCallbacks(sm: StateMachine) returns (failure: Option<LoadError>)
      requires callbackHandler != null
      modifies sm`calls
      ensures sm.calls == CallbacksRun(config, old(sm.calls), callbackHandler.accepts).calls
      ensures failure == CallbacksRun(config, old(sm.calls), callbackHandler.accepts).failure
    {
      if !IsSet(config, "callbacks") {
        return None;
      }
      failure := LoadCallbacksFor(Before, sm);
      if failure.Some? {
        return;
      }
      failure := LoadCallbacksFor(After, sm);
    }

    method LoadCallbacksFor(position: Position, sm: StateMachine) returns (failure: Option<LoadError>)
      requires callbackHandler != null
      modifies sm`calls
      ensures sm.calls == RunEach(old(sm.calls), Callbacks(position), CallbackEntries(config, position), callbackHandler.accepts).calls
      ensures failure == RunEach(old(sm.calls), Callbacks(position), CallbackEntries(config, position), callbackHandler.accepts).failure
    {
      var callbacks := Field(config, "callbacks");
      if !(callbacks.Arr? && IsSet(callbacks.entries, PositionName(position))) {
        return None;
      }
      var entries := Iterate(Field(callbacks.entries, PositionName(position)));
      ghost var start := sm.calls;
      var i := 0;
      while i < |entries|
        invariant 0 <= i <= |entries|
        invariant sm.calls == RunEach(start, Callbacks(position), entries[..i], callbackHandler.accepts).calls
        invariant RunEach(start, Callbacks(position), entries[..i], callbackHandler.accepts).failure == None
      {
        var (index, specs) := entries[i];
        if !specs.Arr? {
          RunEachRaises(start, Callbacks(position), entries, i, callbackHandler.accepts, CallbackEntryNotArray(position, index));
          return Some(CallbackEntryNotArray(position, index));
        }
        var callback := Field(specs.entries, "do");
        var rest := Remove(specs.entries, StrKey("do"));
        var op := if position == Before then Op.AddBefore(callback, rest) else Op.AddAfter(callback, rest);
        RunEachIssues(start, Callbacks(position), entries, i, callbackHandler.accepts, op);
        var accepted;
        match position {
          case Before => accepted := callbackHandler.AddBefore(sm, callback, rest);
          case After => accepted := callbackHandler.AddAfter(sm, callback, rest);
        }
        if !accepted {
          RunEachStops(start, Callbacks(position), entries, i + 1, callbackHandler.accepts);
          return Some(Refused(op));
        }
        i := i + 1;
      }
      assert entries[..i] == entries;
      return None;
    }
  }
}

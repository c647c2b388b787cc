/** What a load promises, proved about the specification functions of the
    array loader: each loop issues one registration per entry, in order, and
    stops at the first entry that fails; the registrations of a load come
    phase by phase; a state or transition entry registers exactly what its
    resolver makes of it; and a configuration missing a key falls back to
    its default. */
module LoaderProperties {
  import opened Php
  import opened OptionsResolver
  import opened ArrayLoader

  /** The position of a registration's kind in a load. */
  function Rank(op: Op): nat
  {
    match op
    case AddState(_, _, _) => 0
    case AddTransition(_, _, _, _) => 1
    case AddBefore(_, _) => 2
    case AddAfter(_, _) => 3
  }

  function PhaseRank(phase: Phase): nat
  {
    match phase
    case States => 0
    case Transitions => 1
    case Callbacks(Before) => 2
    case Callbacks(After) => 3
  }

  /** `calls` extends `history`, and what it adds is ordered by kind. */
  ghost predicate Ordered(history: seq<Op>, calls: seq<Op>)
  {
    |history| <= |calls| && calls[..|history|] == history
    && forall i, j :: |history| <= i < j < |calls| ==> Rank(calls[i]) <= Rank(calls[j])
  }

  /** Every registration added after `history` is of rank at most `r`. */
  ghost predicate RanksAtMost(history: seq<Op>, calls: seq<Op>, r: nat)
  {
    forall i :: |history| <= i < |calls| ==> Rank(calls[i]) <= r
  }

  /** An entry that registers something registers the kind its loop is for. */
  lemma StepRank(phase: Phase, name: Key, entry: Value)
    ensures Step(phase, name, entry).Ok? ==> Rank(Step(phase, name, entry).value) == PhaseRank(phase)
  {
  }

  /** A loop only adds to the journal, at most one registration per entry,
      each of the kind the loop is for. */
  lemma {:induction false} RunEachShape(history: seq<Op>, phase: Phase, entries: Entries, accepts: (seq<Op>, Op) -> bool)
    ensures var c := RunEach(history, phase, entries, accepts).calls;
            && |history| <= |c| <= |history| + |entries| && c[..|history|] == history
            && forall i :: |history| <= i < |c| ==> Rank(c[i]) == PhaseRank(phase)
    decreases |entries|
  {
    if entries != [] {
      var prefix := entries[..|entries| - 1];
      RunEachShape(history, phase, prefix, accepts);
      var last := entries[|entries| - 1];
      StepRank(phase, last.0, last.1);
    }
  }

  /** Every entry of `entries` gave, in order, the registration at its
      place after `history`, and the journal before it accepted it. */
  ghost predicate Registered(history: seq<Op>, phase: Phase, entries: Entries, accepts: (seq<Op>, Op) -> bool, c: seq<Op>)
  {
    && |c| == |history| + |entries| && c[..|history|] == history
    && forall i :: 0 <= i < |entries| ==>
         Step(phase, entries[i].0, entries[i].1) == Ok(c[|history| + i])
         && accepts(c[..|history| + i], c[|history| + i])
  }

  /** One more entry that goes through extends a complete journal by its
      registration. */
  lemma RegisteredAppend(history: seq<Op>, phase: Phase, entries: Entries, accepts: (seq<Op>, Op) -> bool, calls: seq<Op>, op: Op)
    requires entries != []
    requires Registered(history, phase, entries[..|entries| - 1], accepts, calls)
    requires Step(phase, entries[|entries| - 1].0, entries[|entries| - 1].1) == Ok(op) && accepts(calls, op)
    ensures Registered(history, phase, entries, accepts, calls + [op])
  {
    var n := |entries| - 1;
    var c := calls + [op];
    forall i | 0 <= i < |entries|
      ensures Step(phase, entries[i].0, entries[i].1) == Ok(c[|history| + i])
      ensures accepts(c[..|history| + i], c[|history| + i])
    {
      if i < n {
        assert entries[i] == entries[..n][i];
        assert c[..|history| + i] == calls[..|history| + i];
      } else {
        assert c[..|history| + i] == calls;
      }
    }
  }

  /** A loop that does not fail issues one registration per entry, in the
      order of the entries: each the one its entry gives rise to, and each
      accepted by the machine given the journal before it. */
  lemma {:induction false} RunEachComplete(history: seq<Op>, phase: Phase, entries: Entries, accepts: (seq<Op>, Op) -> bool)
    requires RunEach(history, phase, entries, accepts).failure == None
    ensures Registered(history, phase, entries, accepts, RunEach(history, phase, entries, accepts).calls)
    decreases |entries|
  {
    if entries == [] {
      assert history[..|history|] == history;
    } else {
      var n := |entries| - 1;
      var done := RunEach(history, phase, entries[..n], accepts);
      RunEachComplete(history, phase, entries[..n], accepts);
      var step := Step(phase, entries[n].0, entries[n].1);
      RegisteredAppend(history, phase, entries, accepts, done.calls, step.value);
    }
  }

  /** The loop stops at entry `n`: every entry before it went through, and
      entry `n` either raises, leaving the journal as it was, or issues a
      registration the machine refuses. */
  ghost predicate FailsAt(history: seq<Op>, phase: Phase, entries: Entries, accepts: (seq<Op>, Op) -> bool, n: nat)
    requires n < |entries|
  {
    var done := RunEach(history, phase, entries[..n], accepts);
    var r := RunEach(history, phase, entries, accepts);
    done.failure == None
    && match Step(phase, entries[n].0, entries[n].1)
       case Err(e) => r == Run(done.calls, Some(e))
       case Ok(op) => !accepts(done.calls, op) && r == Run(done.calls + [op], Some(Refused(op)))
  }

  /** A loop that fails fails at one entry, and nothing after that entry is
      looked at. */
  lemma {:induction false} RunEachFailure(history: seq<Op>, phase: Phase, entries: Entries, accepts: (seq<Op>, Op) -> bool)
    requires RunEach(history, phase, entries, accepts).failure.Some?
    ensures exists n: nat :: n < |entries| && FailsAt(history, phase, entries, accepts, n)
    decreases |entries|
  {
    var n := |entries| - 1;
    var prefix := entries[..n];
    if RunEach(history, phase, prefix, accepts).failure.Some? {
      RunEachFailure(history, phase, prefix, accepts);
      var m: nat :| m < |prefix| && FailsAt(history, phase, prefix, accepts, m);
      assert prefix[..m] == entries[..m];
      assert prefix[m] == entries[m];
      assert FailsAt(history, phase, entries, accepts, m);
    } else {
      assert FailsAt(history, phase, entries, accepts, n);
    }
  }

  /** Appending registrations of rank `r2` to an ordered journal whose new
      registrations are of rank at most `r2` keeps it ordered. */
  lemma OrderedAppend(history: seq<Op>, middle: seq<Op>, calls: seq<Op>, r1: nat, r2: nat)
    requires Ordered(history, middle) && RanksAtMost(history, middle, r1)
    requires |middle| <= |calls| && calls[..|middle|] == middle
    requires forall i :: |middle| <= i < |calls| ==> Rank(calls[i]) == r2
    requires r1 <= r2
    ensures Ordered(history, calls) && RanksAtMost(history, calls, r2)
  {
    assert calls[..|history|] == middle[..|history|];
    forall i, j | |history| <= i < j < |calls|
      ensures Rank(calls[i]) <= Rank(calls[j])
    {
      if j < |middle| {
        assert calls[i] == middle[i] && calls[j] == middle[j];
      } else if i < |middle| {
        assert calls[i] == middle[i];
      }
    }
    forall i | |history| <= i < |calls|
      ensures Rank(calls[i]) <= r2
    {
      if i < |middle| {
        assert calls[i] == middle[i];
      }
    }
  }

  /** One loop's registrations appended to an ordered journal. */
  lemma RunEachOrdered(history: seq<Op>, done: seq<Op>, phase: Phase, entries: Entries, accepts: (seq<Op>, Op) -> bool, r1: nat)
    requires Ordered(history, done) && RanksAtMost(history, done, r1) && r1 <= PhaseRank(phase)
    ensures var c := RunEach(done, phase, entries, accepts).calls;
            Ordered(history, c) && RanksAtMost(history, c, PhaseRank(phase))
  {
    RunEachShape(done, phase, entries, accepts);
    OrderedAppend(history, done, RunEach(done, phase, entries, accepts).calls, r1, PhaseRank(phase));
  }

  /** A load registers every state before any transition, every transition
      before any callback, and every before-callback before any
      after-callback; the registrations the machine already held stay in
      front. */
  lemma LoadRunOrdered(config: Entries, history: seq<Op>, accepts: (seq<Op>, Op) -> bool, handlerAccepts: (seq<Op>, Op) -> bool)
    ensures Ordered(history, LoadRun(config, history, accepts, handlerAccepts).calls)
  {
    assert history[..|history|] == history;
    assert Ordered(history, history) && RanksAtMost(history, history, 0);
    var states := RunEach(history, States, StateEntries(config), accepts);
    RunEachOrdered(history, history, States, StateEntries(config), accepts, 0);
    if states.failure.None? {
      var transitions := RunEach(states.calls, Transitions, TransitionEntries(config), accepts);
      RunEachOrdered(history, states.calls, Transitions, TransitionEntries(config), accepts, 0);
      if transitions.failure.None? && IsSet(config, "callbacks") {
        var before := RunEach(transitions.calls, Callbacks(Before), CallbackEntries(config, Before), handlerAccepts);
        RunEachOrdered(history, transitions.calls, Callbacks(Before), CallbackEntries(config, Before), handlerAccepts, 1);
        if before.failure.None? {
          RunEachOrdered(history, before.calls, Callbacks(After), CallbackEntries(config, After), handlerAccepts, 2);
        }
      }
    }
  }

  /** A load that does not fail registers one state per state entry, one
      transition per transition entry and, when `callbacks` is set, one
      callback per before and after entry. */
  lemma LoadRunCount(config: Entries, history: seq<Op>, accepts: (seq<Op>, Op) -> bool, handlerAccepts: (seq<Op>, Op) -> bool)
    requires LoadRun(config, history, accepts, handlerAccepts).failure == None
    ensures |LoadRun(config, history, accepts, handlerAccepts).calls|
         == |history| + |StateEntries(config)| + |TransitionEntries(config)|
            + (if IsSet(config, "callbacks") then |CallbackEntries(config, Before)| + |CallbackEntries(config, After)| else 0)
  {
    var states := RunEach(history, States, StateEntries(config), accepts);
    RunEachComplete(history, States, StateEntries(config), accepts);
    var transitions := RunEach(states.calls, Transitions, TransitionEntries(config), accepts);
    RunEachComplete(states.calls, Transitions, TransitionEntries(config), accepts);
    if IsSet(config, "callbacks") {
      var before := RunEach(transitions.calls, Callbacks(Before), CallbackEntries(config, Before), handlerAccepts);
      RunEachComplete(transitions.calls, Callbacks(Before), CallbackEntries(config, Before), handlerAccepts);
      RunEachComplete(before.calls, Callbacks(After), CallbackEntries(config, After), handlerAccepts);
    }
  }

  /** The names a state entry may give. */
  predicate StateOption(k: Key)
  {
    k == StrKey("type") || k == StrKey("properties")
  }

  lemma StateDeclared(k: Key)
    ensures Declared(StateSchema, k) <==> StateOption(k)
  {
    var d := StateSchema.defaults;
    assert HasKey(d, k) <==> d[0].0 == k || HasKey(d[1..], k);
    assert HasKey(d[1..], k) <==> d[1..][0].0 == k || HasKey(d[1..][1..], k);
    assert d[1..][1..] == [];
  }

  /** The state types a state entry may give: the three types, or null,
      which the allowed-values check lets through. */
  predicate StateTypeAllowed(t: Value)
  {
    t == Null || t in [TypeInitial, TypeNormal, TypeFinal]
  }

  /** A state entry registers a state exactly when it is an array that gives
      no option other than `type` and `properties` and, if it gives a type,
      one of initial, normal and final, or null. An unknown option raises the
      undefined-options error and any other type the invalid-value error.
      The state takes the given type or else normal, and the given
      properties or else none. */
  lemma StateEntryResolves(name: Key, entry: Value)
    requires entry.Arr? ==> UniqueKeys(entry.entries)
    ensures !entry.Arr? ==> Step(States, name, entry) == Err(InvalidState(name, NotAnArray))
    ensures entry.Arr? ==>
              var a := entry.entries;
              var known := forall k :: HasKey(a, k) ==> StateOption(k);
              var typed := HasKey(a, StrKey("type")) ==> StateTypeAllowed(Field(a, "type"));
              && (Step(States, name, entry).Ok? <==> known && typed)
              && (!known ==> Step(States, name, entry) == Err(InvalidState(name, UndefinedOptions)))
              && (known && !typed ==> Step(States, name, entry) == Err(InvalidState(name, InvalidOptionValue)))
              && (Step(States, name, entry).Ok? ==>
                    Step(States, name, entry).value
                    == AddState(name,
                                if HasKey(a, StrKey("type")) then Field(a, "type") else TypeNormal,
                                if HasKey(a, StrKey("properties")) then Field(a, "properties") else Arr([])))
  {
    if entry.Arr? {
      var a := entry.entries;
      ResolveOutcome(StateSchema, entry);
      forall k ensures Declared(StateSchema, k) <==> StateOption(k) {
        StateDeclared(k);
      }
      var typed := HasKey(a, StrKey("type")) ==> StateTypeAllowed(Field(a, "type"));
      assert typed <==> forall k :: GivenAllowed(StateSchema, a, k) by {
        assert GivenAllowed(StateSchema, a, StrKey("type")) <==> typed;
        if typed {
          forall k ensures GivenAllowed(StateSchema, a, k) {
            if k == StrKey("type") {
              assert GivenAllowed(StateSchema, a, StrKey("type"));
            }
          }
        }
      }
      if Resolve(StateSchema, entry).Ok? {
        ResolvedOption(StateSchema, entry, StrKey("type"));
        ResolvedOption(StateSchema, entry, StrKey("properties"));
      }
    }
  }

  /** The names a transition entry may give. */
  predicate TransitionOption(k: Key)
  {
    k == StrKey("from") || k == StrKey("to") || k == StrKey("guard")
  }

  lemma TransitionSchemaFacts(a: Entries)
    ensures (forall k :: HasKey(a, k) ==> Declared(TransitionSchema, k)) <==> (forall k :: HasKey(a, k) ==> TransitionOption(k))
    ensures forall k :: GivenAllowed(TransitionSchema, a, k)
    ensures RequiredPresent(TransitionSchema, a) <==> HasKey(a, StrKey("from")) && HasKey(a, StrKey("to"))
  {
    assert forall k :: Declared(TransitionSchema, k) <==> TransitionOption(k);
  }

  /** A transition entry registers a transition exactly when it is an array
      that gives `from` and `to`, and no option other than those and
      `guard`; an entry of known options missing `from` or `to` raises the
      missing-options error. The transition goes from the given `from` cast
      to an array (a single state becomes a one-element list) to the given
      `to`, with the given guard, or none. */
  lemma TransitionEntryResolves(name: Key, entry: Value)
    requires entry.Arr? ==> UniqueKeys(entry.entries)
    ensures !entry.Arr? ==> Step(Transitions, name, entry) == Err(InvalidTransition(name, NotAnArray))
    ensures entry.Arr? ==>
              var a := entry.entries;
              var known := forall k :: HasKey(a, k) ==> TransitionOption(k);
              var complete := HasKey(a, StrKey("from")) && HasKey(a, StrKey("to"));
              && (Step(Transitions, name, entry).Ok? <==> known && complete)
              && (!known ==> Step(Transitions, name, entry) == Err(InvalidTransition(name, UndefinedOptions)))
              && (known && !complete ==> Step(Transitions, name, entry) == Err(InvalidTransition(name, MissingOptions)))
              && (Step(Transitions, name, entry).Ok? ==>
                    Step(Transitions, name, entry).value
                    == AddTransition(name, Arr(CastToArray(Field(a, "from"))), Field(a, "to"), Field(a, "guard")))
  {
    if entry.Arr? {
      var a := entry.entries;
      ResolveOutcome(TransitionSchema, entry);
      TransitionSchemaFacts(a);
      if Resolve(TransitionSchema, entry).Ok? {
        ResolvedOption(TransitionSchema, entry, StrKey("from"));
        ResolvedOption(TransitionSchema, entry, StrKey("to"));
        ResolvedOption(TransitionSchema, entry, StrKey("guard"));
      }
    }
  }

  /** A callback entry registers exactly when it is an array: its `do` is
      the callback, and the rest of the entry, without `do`, is what the
      callback is registered for. */
  lemma CallbackEntryRegisters(position: Position, index: Key, entry: Value)
    ensures Step(Callbacks(position), index, entry).Ok? <==> entry.Arr?
    ensures !entry.Arr? ==> Step(Callbacks(position), index, entry) == Err(CallbackEntryNotArray(position, index))
    ensures entry.Arr? ==>
              var op := Step(Callbacks(position), index, entry).value;
              && op.callback == Field(entry.entries, "do")
              && !HasKey(op.specs, StrKey("do"))
              && (forall k :: k != StrKey("do") ==> Lookup(op.specs, k) == Lookup(entry.entries, k))
              && (position == Before <==> op.AddBefore?)
  {
    if entry.Arr? {
      RemoveLookup(entry.entries, StrKey("do"));
    }
  }

  /** The constructor's merge: a name the configuration gives keeps its
      value, any other takes its default; in particular, missing `states`
      and `transitions` are empty, so their loops register nothing. */
  lemma ConfigDefaults(config: Entries, name: string)
    requires UniqueKeys(config)
    ensures Lookup(WithDefaults(config), StrKey(name))
         == if HasKey(config, StrKey(name)) then Lookup(config, StrKey(name)) else Lookup(Defaults, StrKey(name))
    ensures !HasKey(config, StrKey("states")) ==> StateEntries(WithDefaults(config)) == []
    ensures !HasKey(config, StrKey("transitions")) ==> TransitionEntries(WithDefaults(config)) == []
  {
    ArrayMergeStringKey(Defaults, config, name);
    ArrayMergeStringKey(Defaults, config, "states");
    ArrayMergeStringKey(Defaults, config, "transitions");
  }
}

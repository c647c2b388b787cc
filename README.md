# Finite: the array loader and the listenable state machine

This project models two parts of the Finite state-machine library in Dafny.

- **The array loader** turns a plain configuration array into registrations on a state machine. The configuration has the keys `class`, `states`, `transitions` and `callbacks`. The loader:
  - merges the configuration over defaults when it is constructed;
  - creates a callback handler lazily on the first load;
  - registers every state entry, resolved against a state option schema;
  - registers every transition entry, resolved against a transition option schema;
  - registers every `before` and then every `after` callback entry with the callback handler.
- **The listenable state machine** wraps its parent's `initialize` and `apply`. It dispatches the initialize event after the parent initialises. It dispatches the pre-transition event before the parent applies a transition and the post-transition event after it.

The project has five modules.

- `Php` (`php.dfy`) models the PHP values a configuration holds. A PHP array is an ordered map, kept as the sequence of its entries in insertion order. The module also models the array operations the loader uses: reading a key, `isset`, `unset`, assignment, `array_merge`, the `(array)` cast and `foreach` over a non-array.
- `OptionsResolver` (`options_resolver.dfy`) models how an options resolver resolves an options array against a schema. Its parts are defaults, required names, optional names, allowed values and normalisers. The checks run in this order: undeclared names, then missing required names, then disallowed values. Otherwise the result is the defaults overridden by the given options, each normalised.
- `Events` (`events.dfy`) models the event dispatcher as the trace of the events dispatched to it. A set lists the events whose listeners raise.
- `ArrayLoader` (`array_loader.dfy`) models the loader and the collaborators it calls.
  - Every registration is an `Op`, appended to the machine's journal `calls`.
  - `LoadRun` is the specification: the journal a load leaves behind and the error that stopped it, if any.
  - `RunEach` is one `foreach` loop of the loader.
  - The class `ArrayLoader` does the same work step by step, with loops. Each of its methods is proved to leave exactly the journal its specification function computes.
- `LoaderProperties` (`loader_properties.dfy`) holds what is proved about that specification.
  - Each loop registers one operation per entry, in order, and stops at the first entry that fails.
  - A load registers states, then transitions, then before-callbacks, then after-callbacks.
  - A state or transition entry is accepted exactly when the listed conditions hold, and it registers the listed values.
  - A missing configuration key takes its default.
- `Listenable` (`listenable_state_machine.dfy`) models the listenable state machine. It is a class with the dispatcher and a journal of the calls its parent receives. The functions `InitializeCall` and `ApplyCall` describe which events an operation dispatches, whether it calls the parent, and what it returns.

A PHP exception ends the operation that raised it. This includes the fatal error of calling `dispatch` when no dispatcher is set. Each is modelled as an error result, so the model can state which registrations or events happened before it.

## Model

| member | source | states |
|---|---|---|
| Php.CastToArray | src/Finite/Loader/ArrayLoader.php:103 | The `(array)` cast keeps an array as it is. Null gives an empty array, and so does an object (see Left out). A boolean, integer or string becomes a one-element array holding it under key 0. |
| Php.ArrayMerge | src/Finite/Loader/ArrayLoader.php:38-45 | `array_merge` gives an array with no repeated key, even when its arguments repeat keys. |
| Php.Lookup | src/Finite/Loader/ArrayLoader.php:142 | Reading a key finds a value exactly when the key is present, and that value is stored under the key in the array. |
| Php.RemoveLookup | src/Finite/Loader/ArrayLoader.php:143 | `unset` removes the key and leaves every other key's value as it was. Removing an absent key leaves the array unchanged. |
| Php.PutLookup | src/Finite/Loader/ArrayLoader.php:38-45 | After an assignment, the key holds the new value and every other key holds its old value. |
| Php.PutShape | src/Finite/Loader/ArrayLoader.php:38-45 | Assigning to an existing key keeps the array's size and the other entries in place. Assigning to a new key appends it at the end. |
| Php.PutAllLookup | src/Finite/Loader/ArrayLoader.php:38-45 | After a run of assignments, a key holds the last value assigned to it, or its old value if it was never assigned. |
| Php.ArrayMergeHasKey | src/Finite/Loader/ArrayLoader.php:38-45 | `array_merge` holds a string key exactly when one of its two arguments holds it. |
| Php.ArrayMergeStringKey | src/Finite/Loader/ArrayLoader.php:38-45 | In `array_merge`, a string key of the second array wins. Otherwise the first array's value is kept. |
| OptionsResolver.Resolve | src/Finite/Loader/ArrayLoader.php:89 | Resolution is used for states (line 89) and transitions (line 108). It raises the not-an-array error exactly when the options are not an array. A successful resolution means every given name is declared, every required name is given, and every given value is allowed. |
| OptionsResolver.NormaliseAllLookup | src/Finite/Loader/ArrayLoader.php:102-105 | Normalising keeps the set of options and passes each value through its option's normaliser. |
| OptionsResolver.ResolvedOption | src/Finite/Loader/ArrayLoader.php:89 | A successful resolution gives each option its given value, or else its default, normalised. Every given name is declared and every given value is allowed. Every required option has a value. |
| OptionsResolver.ResolveOutcome | src/Finite/Loader/ArrayLoader.php:89 | An undeclared name raises the undefined-options error. Otherwise a missing required name raises the missing-options error. Otherwise a disallowed value raises the invalid-value error. Resolution succeeds exactly when none of these applies. |
| ArrayLoader.WithDefaults | src/Finite/Loader/ArrayLoader.php:38-45 | The configuration the loader keeps always has `class`, `states` and `transitions`, whatever it was given, and no repeated key. |
| ArrayLoader.Step | src/Finite/Loader/ArrayLoader.php:89-90 | A state entry registers a state under the entry's key, or raises a state error naming that key (lines 89-90). A transition entry does the same with a transition (lines 108-116). A callback entry registers exactly when it is an array: a before-callback in the before loop, an after-callback in the after loop. Otherwise it raises an error naming its position and key (lines 142-145). |
| ArrayLoader.RunEach | src/Finite/Loader/ArrayLoader.php:88-91 | One `foreach`, the same for states (lines 88-91), transitions (lines 107-117) and callbacks (lines 141-146). It keeps the journal it started with and appends at most one registration per entry. |
| ArrayLoader.CallbacksRun | src/Finite/Loader/ArrayLoader.php:123-132 | Without `callbacks` set, the callback phase changes nothing and does not fail. Otherwise it keeps the journal it started with and appends at most one registration per before entry and per after entry. The callback handler's own function says which registrations it raises on. |
| ArrayLoader.LoadRun | src/Finite/Loader/ArrayLoader.php:56-58 | A load keeps the journal it started with. It appends at most one registration per state, transition, before and after entry. |
| ArrayLoader.ArrayLoader.constructor | src/Finite/Loader/ArrayLoader.php:35-46 | The loader keeps the given handler and the configuration merged over the defaults for `class`, `states` and `transitions`. |
| ArrayLoader.ArrayLoader.Load | src/Finite/Loader/ArrayLoader.php:51-59 | A handler that was held is kept. Otherwise a new one is created on the machine's dispatcher, and the function that says which registrations it raises on is a parameter of the load. The machine's journal becomes the one `LoadRun` specifies, and the result is `LoadRun`'s error. |
| ArrayLoader.ArrayLoader.LoadStates | src/Finite/Loader/ArrayLoader.php:74-92 | The loop over the state entries leaves the journal and the error that `RunEach` specifies for the states phase. |
| ArrayLoader.ArrayLoader.LoadTransitions | src/Finite/Loader/ArrayLoader.php:97-118 | The loop over the transition entries leaves the journal and the error that `RunEach` specifies for the transitions phase. |
| ArrayLoader.ArrayLoader.LoadCallbacks | src/Finite/Loader/ArrayLoader.php:123-132 | Nothing happens when `callbacks` is not set. Otherwise the before entries run, then the after entries, as `CallbacksRun` specifies. A callback the handler raises on stops the load. |
| ArrayLoader.ArrayLoader.LoadCallbacksFor | src/Finite/Loader/ArrayLoader.php:134-147 | Nothing happens when the position is not set. Otherwise the loop over that position's entries leaves the journal and the error that `RunEach` specifies. |
| ArrayLoader.StateMachine.AddState | src/Finite/Loader/ArrayLoader.php:90 | The state is appended to the machine's journal. It is accepted exactly when the machine accepts it given the journal before it. |
| ArrayLoader.StateMachine.AddTransition | src/Finite/Loader/ArrayLoader.php:109-116 | The transition is appended to the machine's journal. It is accepted exactly when the machine accepts it given the journal before it. |
| ArrayLoader.CallbackHandler.AddBefore | src/Finite/Loader/ArrayLoader.php:145 | The before-callback and its specs are appended to the machine's journal. It is accepted exactly when the handler accepts it given the journal before it. |
| ArrayLoader.CallbackHandler.AddAfter | src/Finite/Loader/ArrayLoader.php:145 | The after-callback and its specs are appended to the machine's journal. It is accepted exactly when the handler accepts it given the journal before it. |
| ArrayLoader.RunEachStops | src/Finite/Loader/ArrayLoader.php:88-91 | Once a loop has failed, the entries after the failing one change nothing. |
| LoaderProperties.RunEachShape | src/Finite/Loader/ArrayLoader.php:88-91 | A loop only appends to the journal, at most one registration per entry, each of the kind its loop registers. |
| LoaderProperties.RunEachComplete | src/Finite/Loader/ArrayLoader.php:88-91 | A loop that does not fail appends exactly one registration per entry, in the order of the entries. The journal it started with is kept. Each registration is the one its entry gives, and the receiver accepted each one given the journal before it. |
| LoaderProperties.RunEachFailure | src/Finite/Loader/ArrayLoader.php:88-91 | A loop that fails does so at one entry, and every entry before it went through. That entry either raises, leaving the journal as it was, or is refused after being appended. |
| LoaderProperties.LoadRunOrdered | src/Finite/Loader/ArrayLoader.php:56-58 | A load keeps the journal it started with and appends states, then transitions, then before-callbacks, then after-callbacks, never interleaved. |
| LoaderProperties.LoadRunCount | src/Finite/Loader/ArrayLoader.php:51-59 | A load that does not fail appends one registration per state entry and per transition entry. When `callbacks` is set, it also appends one per before entry and per after entry. |
| LoaderProperties.StateEntryResolves | src/Finite/Loader/ArrayLoader.php:76-91 | A state entry registers exactly when it is an array whose only names are `type` and `properties`, and whose type, if given and not null, is initial, normal or final. An unknown name raises the undefined-options error, and a non-array raises the not-an-array error. A known entry with any other type raises the invalid-value error. The registered state has the given type or normal, and the given properties or an empty array. |
| LoaderProperties.TransitionEntryResolves | src/Finite/Loader/ArrayLoader.php:99-117 | A transition entry registers exactly when it is an array that gives `from` and `to` and no name other than those and `guard`. An unknown name raises the undefined-options error. Known names without `from` or `to` raise the missing-options error. The registered transition has `from` cast to an array, the given `to`, and the given guard or null. |
| LoaderProperties.CallbackEntryRegisters | src/Finite/Loader/ArrayLoader.php:140-146 | A callback entry registers exactly when it is an array. The callback is its `do` value, and the specs are the entry without `do`, every other name keeping its value. A before entry goes to the before list and an after entry to the after list. |
| LoaderProperties.ConfigDefaults | src/Finite/Loader/ArrayLoader.php:38-45 | A configuration name keeps its given value and otherwise takes its default. Without `states` or `transitions` in the configuration, those loops have no entries. |
| Events.EventDispatcher.Dispatch | src/Finite/ListenableStateMachine.php:37 | Each dispatch is appended to the dispatcher's trace. It is delivered exactly when the event has no raising listener. |
| Listenable.ListenableStateMachine.constructor | src/Finite/ListenableStateMachine.php:21 | A new machine has no dispatcher, since the `protected $dispatcher` field starts null. Its parent has received no calls. |
| Listenable.ListenableStateMachine.SetEventDispatcher | src/Finite/ListenableStateMachine.php:26-29 | The given dispatcher replaces the current one. |
| Listenable.InitializeCall | src/Finite/ListenableStateMachine.php:34-38 | The parent is always initialised. The initialize event is dispatched exactly when a dispatcher is set and the parent returned. Initialisation succeeds with null exactly when, in addition, no initialize listener raises. A raising parent gives the parent error. A missing dispatcher gives the no-dispatcher error. A raising initialize listener gives that listener's error. |
| Listenable.ListenableStateMachine.Initialize | src/Finite/ListenableStateMachine.php:34-38 | The parent's journal gains the initialisation. The dispatcher's trace gains the events `InitializeCall` lists, each carrying an event that refers to this machine. The result is the one `InitializeCall` gives. |
| Listenable.ApplyCall | src/Finite/ListenableStateMachine.php:43-50 | The pre-transition event is dispatched first. The parent is called exactly when a dispatcher is set and no pre-transition listener raises. The post-transition event is dispatched exactly when the parent was called and returned. On success both events are dispatched, in that order, and the parent's value is returned. A missing dispatcher gives the no-dispatcher error. A raising pre-transition listener gives that listener's error. A raising parent gives the parent error. A raising post-transition listener, after the parent returned, gives that listener's error. |
| Listenable.ListenableStateMachine.Apply | src/Finite/ListenableStateMachine.php:43-50 | The parent's journal gains the transition exactly when `ApplyCall` calls the parent. The dispatcher's trace gains `ApplyCall`'s events as blank events. The result is `ApplyCall`'s. |

## Left out

- `supports` is not modelled. It asks PHP reflection whether an object is an instance of the configured class name, and the model has no classes or reflection.
- The state machine, the callback handler and the event dispatcher are modelled only as far as the loader and the listenable machine observe them: their journals and traces. How states, transitions and callbacks are stored and later applied, and how listeners are called, is not part of this model.
- The parent state machine's own `initialize` and `apply` are not modelled. How each one ends, returning a value or raising, is a parameter of the operation that wraps it.
- Whether the machine raises on a state or transition registration is a function it is given (`accepts`). The callback handler has its own such function, which decides whether `addBefore` or `addAfter` raises. A refused registration is recorded in the journal before the receiver raises.
- Objects in a configuration, such as closures and services, are opaque identities. Casting one to an array gives an empty array, where PHP would expose its properties.
- ArrayLoader.ArrayLoader.LoadCallbacksFor: a callback entry that is not an array stops the load with an error. PHP instead reads `do` from a null entry as null and goes on. For a string entry it reads a character or raises, depending on the PHP version.
- ArrayLoader.CallbackEntries: when `callbacks` is a string, PHP's string-offset `isset` is read as not set.
- OptionsResolver.Resolve: only the resolution behaviour the loader uses is modelled: the exception kinds, their order, defaults, allowed values and normalisers. Exception messages, lazy options and the library's other features are not part of this model. Allowed values restrict only a value that is set: an explicit null always passes, as the resolver checks allowed values under `isset`. Other values are compared exactly. Allowed values are checked on the given values. For the loader's schemas these coincide with the resolved values, because the only restricted option, `type`, has no normaliser and an allowed default.
- Php.ArrayMerge: integer keys are renumbered as PHP does, but no property about integer keys is proved. The configuration is only read through string keys.
- A loop over a value that is not an array visits no entries. For a scalar or null this matches PHP, which also emits a warning that is not modelled. For an object PHP iterates its public properties, or a Traversable's elements. Objects are opaque here, so the model visits nothing.
- The transition schema accepts a null or empty `from`. The normaliser casts it to an empty array, and the loader registers the transition. The model follows the code here, not a stricter reading that would reject an empty source set.
- The guard normaliser `!isset($v) ? null : $v` returns its argument unchanged for every value, so the registered guard is the given guard, or null when none is given.

# State emitter, modelled in Dafny

A model of `StateEmitter` (`source/state-emitter.js`), an event emitter whose
event names come from a fixed, ordered list of *states*. Each state is a
string or a symbol. A caller can name a state directly or give its position
in the list. Every listener operation first *normalizes* that reference to
the state itself, then passes it on to the underlying event emitter. So a
position and the state at that position always reach the same listener list.

The project has these modules:

- `Wrappers` (`wrappers.dfy`): `Option` and `Result`. A thrown error is a
  `Failure`.
- `Values` (`values.dfy`): the JavaScript values the emitter tells apart.
  These are `Num(int)`, `Str(string)`, `Sym(id)` (a symbol, compared by
  identity), `Undefined`, and `Other(id)` (null, booleans, objects, and arrays used as elements or references; the constructor's argument is told apart by `Emitter.Input`).
  `StateName` is the subset that may be a state: strings and symbols.
- `ListenerTable` (`listener_table.dfy`): the delegated event emitter,
  reduced to a table from a state to its ordered registrations
  (`Entry(listener, once)`). It supports append, prepend, remove the most
  recent registration of a listener, clear one key, and fire. Firing
  invokes every registration in order and drops the `once` ones.
- `Emitter` (`state_emitter.dfy`): construction, the `index`/`state`
  lookups, `normalize`, and the ten forwarding wrappers. They are pure
  functions over an immutable `StateEmitter(states, table)` value. A wrapper
  that succeeds returns the updated emitter. A wrapper that fails returns
  `UnknownState(ref)`, and the emitter the caller holds is unchanged.
- `Properties` (`properties.dfy`): lemmas relating the operations. They cover
  the index/state round trip, index and name agreement, idempotent
  resolution, the complete invalid-element list, once and prepend ordering,
  and the scope of `removeAllListeners`.
- `Scenarios` (`scenarios.dfy`): the runs of the repository's test file,
  replayed over any three distinct states (strings, symbols or a mix).

`Resolves` and `Canonical` in `Emitter` are the reference definition of
resolution: a valid position, or a string or symbol in the list. `Normalize`
follows the code instead: a number goes through `State`, and the candidate
is then checked with `Index`. Its contract states that the two agree.

On three points a reader might not expect, the model follows the code:

- Duplicate states are not rejected. Lookups return the first match
  (`Properties.DuplicateResolvesToFirst`).
- `removeAllListeners(undefined)` behaves exactly like `removeAllListeners()`.
  The code tests `Type.isUndefined`, so an explicit `undefined` and a missing
  argument are the same. The model passes `Undefined` as the reference.
- The state array is stored by reference, not copied. The model treats the
  list as fixed at construction.

## Model

| member | source | states |
|---|---|---|
| Emitter.Create | source/state-emitter.js:19-34 | Succeeds exactly for a non-empty array whose every element is a string or symbol, and the new emitter holds that list and no listeners. A non-array or an empty array fails with NotStateArray. Otherwise it fails with InvalidStates, which holds every offending element and nothing else. |
| Emitter.Invalid | source/state-emitter.js:26-27 | The filtered list contains exactly the elements that are neither string nor symbol, and is never longer than the input. |
| Properties.InvalidAppend | source/state-emitter.js:26-27 | The invalid list is an order-preserving filter: it distributes over concatenation. |
| Properties.InvalidAfterValidPrefix | source/state-emitter.js:26-27 | Past a prefix of strings and symbols, the invalid list is the first bad element followed by every invalid element after it. |
| Properties.CreateReportsEveryInvalid | source/state-emitter.js:26-31 | A valid prefix followed by a bad element fails with that element followed by every invalid element after it, not just the first one. |
| Emitter.Index | source/state-emitter.js:43-49 | Returns none exactly when the name is absent. Otherwise it returns a position holding the name, with no earlier position holding it (first match). |
| Emitter.State | source/state-emitter.js:58-62 | Yields a state exactly when the position is inside the list, and then the state stored at that position; any other position yields none (`undefined` in the code). |
| Properties.IndexOfState | source/state-emitter.js:43-62 | In a list without duplicates, every position maps to a state and that state maps back to the same position. |
| Properties.StateOfIndex | source/state-emitter.js:43-62 | Every state maps to a position whose state is that state, duplicates or not. |
| Properties.DuplicateResolvesToFirst | source/state-emitter.js:43-49 | With a duplicate, its later position resolves like the first, and the state maps back to the first position. |
| Emitter.Normalize | source/state-emitter.js:71-80 | Succeeds exactly when the reference is a position inside the list, or a string or symbol in the list. It then yields the designated state; otherwise it fails with UnknownState naming the reference. |
| Properties.NormalizeIndexAndName | source/state-emitter.js:71-80 | For every valid position i, resolving i and resolving states[i] both yield states[i]. |
| Properties.NormalizeUnknown | source/state-emitter.js:72-77 | An out-of-range position, a string or symbol not in the list, or any other kind of value fails with UnknownState. |
| Properties.NormalizeIdempotent | source/state-emitter.js:75-79 | Resolving a resolved state yields the same result. |
| Emitter.AddListener | source/state-emitter.js:90-92 | Fails with UnknownState exactly when the reference does not resolve. Otherwise it appends the listener to the resolved state's list, leaves every other state's list alone, and keeps the emitter valid. |
| Emitter.Emit | source/state-emitter.js:102-104 | Fails exactly when the reference does not resolve. Otherwise it invokes the resolved state's listeners in order with the arguments unchanged. It reports whether any ran and keeps only the non-once registrations. |
| Emitter.GetListeners | source/state-emitter.js:113-115 | Fails exactly when the reference does not resolve. Otherwise it returns the resolved state's listener ids in the order an emission would invoke them: prepended registrations first, most recent first. |
| Emitter.Off | source/state-emitter.js:125-127 | `off` is the same operation as `removeListener`. |
| Emitter.On | source/state-emitter.js:137-139 | `on` is the same operation as `addListener`. |
| Emitter.Once | source/state-emitter.js:149-151 | Like AddListener, but the appended registration is marked to be dropped after one emission. |
| Emitter.PrependListener | source/state-emitter.js:161-163 | Fails exactly when the reference does not resolve. Otherwise it puts the listener in front of the resolved state's list and changes no other state. |
| Emitter.PrependOnceListener | source/state-emitter.js:174-176 | Like PrependListener, with the registration marked once. |
| Emitter.RemoveAllListeners | source/state-emitter.js:185-189 | Without a state it always succeeds and empties every list. With a state it fails exactly when that does not resolve, and otherwise empties only the resolved state's list. |
| Emitter.RemoveListener | source/state-emitter.js:199-201 | Fails exactly when the reference does not resolve. Otherwise it removes the most recent registration of the listener from the resolved state's list, or nothing if it has none, and changes no other state. |
| Properties.SameStateSameEffect | source/state-emitter.js:90-201 | Any two references that resolve to the same state have identical effects and results under every wrapper. |
| Properties.IndexAndNameShareListeners | source/state-emitter.js:90-201 | A position and the state at it give identical results under every wrapper, e.g. listeners(i) == listeners(states[i]). |
| Properties.EmitCalls | source/state-emitter.js:102-104 | A resolving emission succeeds, invokes exactly the resolved state's registrations in order with the given arguments, and reports whether there were any. |
| Properties.EmitKeepsPersistent | source/state-emitter.js:102-104 | An emission over a list with no once-registrations succeeds and leaves every state's list exactly as it was. |
| Properties.SubscribeByIndexThenByName | test/source/state-emitter.js:140-144 | Registering l1 by position and then l2 by name gives [l1, l2] whether listed by position or by name. |
| Properties.UnknownStateTouchesNothing | source/state-emitter.js:71-201 | For a reference other than `undefined` that does not resolve, every wrapper fails with UnknownState(ref) and yields no new emitter. |
| Properties.OnceRunsOnce | source/state-emitter.js:149-151 | A listener with no earlier registration for the state, added with `once`, is listed before the next emission, invoked by it, and absent afterwards. |
| Properties.PrependRunsFirst | source/state-emitter.js:161-176 | A prepended listener, plain or once, is the first one invoked at the next emission. |
| Properties.PersistentIdempotent | source/state-emitter.js:102-104 | Dropping once-registrations twice is the same as dropping them once. |
| Properties.PersistentAppend | source/state-emitter.js:102-104 | Dropping once-registrations after an emission keeps the survivors in their order: it distributes over concatenation. |
| Properties.SecondEmissionKeepsAll | source/state-emitter.js:102-104 | A second emission invokes exactly the survivors of the first and drops nothing more. |
| Properties.PersistentAllPersistent | source/state-emitter.js:102-104 | Dropping once-registrations after an emission changes nothing in a list that has none. |
| Properties.AddThenRemoveRestores | source/state-emitter.js:90-201 | Adding a listener and then removing it, through any two references to the same state, succeeds and restores every state's list. |
| Properties.RemoveAllClearsOnlyItsState | source/state-emitter.js:185-189 | Clearing a named state empties the listing at every position holding it and leaves the listing at every other position as it was. |
| Properties.RemoveAllThenAll | source/state-emitter.js:185-189 | Clearing one state and then clearing without a state leaves every position with no listeners. |
| Scenarios.ConstructionCases | test/source/state-emitter.js:19-71 | Construction's accepted and rejected inputs from the tests, with the exact invalid-element lists: every non-array (`undefined`, `null`, a number, a string, a boolean, a plain or array-like object) and the empty array fail with NotStateArray. |
| Scenarios.PreparedLookups | test/source/state-emitter.js:74-129 | index, state and normalize over the first two and the last two of three distinct states give the expected values and failures. |
| Scenarios.OneAddRun | test/source/state-emitter.js:137-150 | The constructor builds `one` over the first two states with no listeners; adding by position and by name then builds one shared list of four listeners. |
| Scenarios.OneListRun | test/source/state-emitter.js:146-150 | With four listeners registered, listing by position or by name gives them in registration order. |
| Scenarios.OneEmitRun | test/source/state-emitter.js:152-158 | Emitting position 0 invokes all four listeners in order, reports that listeners ran, and leaves the state's list of four in place. |
| Scenarios.OneEmitTwiceRun | test/source/state-emitter.js:152-169 | Emitting by position and then again by name invokes the same four listeners in the same order both times, and both report that listeners ran. |
| Scenarios.OneQuietRun | test/source/state-emitter.js:170-171 | Emitting the state without listeners reports that none ran, by position and by name. |
| Scenarios.OneRemovalRun | test/source/state-emitter.js:173-182 | Removing from the back, alternately by name and by position, shrinks the shared list to empty. |
| Scenarios.TwoOnceRun | test/source/state-emitter.js:187-196 | The constructor builds `two` over the last two states with no listeners; once-registrations by position and by name then share one list, and the other state stays empty. |
| Scenarios.TwoPrependRun | test/source/state-emitter.js:198-205 | Prepend and prepend-once registrations land in front, most recent first. |
| Scenarios.TwoEmitRun | test/source/state-emitter.js:207-228 | The first emission runs the prepended listeners first with the arguments; the second runs only the one persistent listener. |
| Scenarios.TwoClearRun | test/source/state-emitter.js:230-254 | A once-registration by position on the second state lists one listener there, by position and by name. Clearing that state then leaves the other's listener, and clearing without a state leaves none. |

## Left out

- Node's `events.EventEmitter` internals are not shown, so they are modelled only as the listener table above. Left out:
  - the special `'error'` event (emitting it with no listener throws),
  - the `newListener` and `removeListener` meta-events,
  - the max-listeners warning,
  - listeners that throw or change the table while an emission runs,
  - the exact way once-wrappers remove themselves.
- Listeners are opaque ids. An emission is recorded as the sequence of calls it makes; listener side effects and return values are outside the model.
- The chainable wrappers return `this` in the code; the model returns the updated emitter value instead.
- The `@konfirm/is-type` predicates are foreign code. They are replaced by the constructors of `Value` and `Input`.
- JavaScript number quirks are left out because numbers are `int`. This covers `NaN`, fractions, `-0`, and property lookup on the state array for non-integer keys.
- Emitter.Create: sparse arrays are not represented. The code accepts an array with holes, such as `new Array(2)`, because `filter` skips holes; `Input.Array` holds only the elements that are present, so such an input has no counterpart.
- Error messages (`JSON.stringify` text) are left out; errors are the variants of `Emitter.Error`.
- The `WeakMap` private storage and the by-reference state array are left out. The list is an immutable sequence, so changing the caller's array after construction has no counterpart.

# react-use-yield: the state-update engine, modelled in Dafny

The library gives a React component a composite state record that changes
through cancellable, possibly multi-step updates. This project models its
engine: the state cell behind `useYield`, its runner `run`, and the three
effect bindings built on it (`useYieldState`, `useYieldEffect`,
`useYieldReducer`). It also models the compiled `run` of the shipped build.

- `js_values.dfy` (module `JsValues`): JavaScript values. It covers
  `typeof`, `instanceof Object`, and the own entries that an object spread
  `{ ...v }` copies (`Spread`).
- `merge_laws.dfy` (module `MergeLaws`): one `updateState` call as a function
  (`Update`) and a run of calls in yield order (`Feed`). It holds the laws
  they obey: right-biased overwrite, suppression of merges that change
  nothing, the abort gate, idempotence, and render counting.
- `use_yield.dfy` (module `UseYield`): the cell as a class (`YieldCell`, with
  `current` for `state.current` and `counter` for the render counter), the
  setup check, `getState`, `updateState`, `run` and the generator loop
  (`Drain`). Each method is proved against the functions of `MergeLaws`.
- `lib_use_yield.dfy` (module `LibUseYield`): the compiled setup and `run`.
  Their cell is the same class.
- `react_hooks.dfy` (module `ReactHooks`): React's rule for when an effect
  re-runs and when `useCallback` hands out a new function.
- `use_yield_state.dfy`, `use_yield_effect.dfy`, `use_yield_reducer.dfy`: one
  class per binding. Each holds the controller its cleanup aborts (`held`).
  The reducer also holds the pending-action slot and the dispatch counter.
  `Render` is one render plus its commit.

Asynchrony is flattened into ordered steps. `run` does the synchronous part:
- It classifies the result by reading `next` and `then` off the returned
  value (`Classify`).
- It merges a plain value at once.
- It returns the controller and a `Task` listing the partials still to merge.

`Drain` is the `pull`/`onYield` loop. It merges those partials in order under
the run's signal. The environment's abort happens just before a chosen yield.
A state changer is a function of the state snapshot and the action argument.
It returns a `ChangerResult`: the value, plus what the value's methods
deliver if `run` calls them (the partials of successive `next()` calls, the
value `then` resolves with). Which path is taken depends on the value alone.
A function's identity, which decides whether an effect over a memoized
changer re-runs, is passed to the bindings as a number.

Behaviour of the code that the model keeps:
- `dispatch` stores the raw action and checks nothing
  (src/useYieldReducer.mjs:38-41). `copy` runs inside the effect
  (src/useYieldReducer.mjs:44), so a `copy` that throws surfaces there. The
  slot is reset only after `run` returns (src/useYieldReducer.mjs:47), so a
  throwing `copy` leaves it set.
- `copy` accepts every object that is `instanceof Object`, class instances
  included, and turns it into a plain object (src/useYieldReducer.mjs:13-21).
  The setup check accepts arrays and class instances too
  (src/useYield.mjs:5).
- The source `run` calls the changer with `getState` and the signal only
  (src/useYield.mjs:50), so a reducer's changer receives `undefined` as its
  action. The compiled `run` passes `options.action` on (lib/useYield.js:132).

## Model

| member | source | states |
|---|---|---|
| UseYield.AcceptsInitialState | src/useYield.mjs:5-7 | setup accepts exactly arrays and objects whose prototype chain reaches Object.prototype; null, primitives, functions and null-prototype objects are refused |
| UseYield.Mount | src/useYield.mjs:4-10 | setup fails with the hook's message iff the check refuses; otherwise a new cell holds the initial state with the counter at zero |
| UseYield.YieldCell.GetState | src/useYield.mjs:12-14 | getState gives a plain object with the stored record's own entries, equal to the record when that is a plain object; it reads and changes nothing |
| MergeLaws.Merged | src/useYield.mjs:23 | the merge holds every key of the partial with the partial's value and every other key of the current record with its old value, and no other key |
| UseYield.YieldCell.UpdateState | src/useYield.mjs:16-33 | aborted signal: record and counter unchanged; merge deep-equal to the record: unchanged; otherwise the record becomes the merge and the counter rises by exactly one; returns the stored record |
| MergeLaws.UpdateLaws | src/useYield.mjs:19-32 | the counter rises exactly when the record is replaced; a live call always leaves the record's entries equal to current overwritten by the partial |
| MergeLaws.UpdateIdempotent | src/useYield.mjs:23-26 | applying the same partial twice in a row: the second call changes nothing and renders nothing |
| UseYield.Classify | src/useYield.mjs:47-68 | the path is read off the value: reading next of null or undefined throws a TypeError; a truthy next makes a generator whose steps are what next() delivers; a truthy then alone makes a promise resolving to what then delivers; everything else is merged as it is; every failure is a TypeError |
| UseYield.ShapeIsReadOffTheValue | src/useYield.mjs:52-57 | two results with the same returned value take the same path, whatever their methods deliver |
| UseYield.FalsyMembersMergeAtOnce | src/useYield.mjs:64-67 | every value other than null and undefined whose next and then read falsy (records, arrays, strings, numbers, functions, class instances) is merged at once, unchanged |
| UseYield.ProbedValuesAreNeverMerged | src/useYield.mjs:47-59 | a value with a truthy next or then is never merged as it is; next is tested first, so a truthy next that does not throw makes a generator whatever then is, and only a value with a falsy next can be a promise; run throws exactly when the member probed is not a function, or when next does not give a promise |
| UseYield.AsyncGeneratorStarts | src/useYield.mjs:52-55 | the object an async generator function returns is started as a generator over its yields |
| UseYield.ThenableShapes | src/useYield.mjs:52-62 | an async generator with a then of its own is still a generator; a promise is a promise over its resolved value |
| UseYield.ThrowingShapes | src/useYield.mjs:47-59 | a record {next: "page2"}, a record {then: 1} and a synchronous generator each make run throw a TypeError |
| UseYield.CursorThrows | src/useYield.mjs:47-54 | run of a plain changer returning {next: "page2"} throws a TypeError and leaves record and render count as they were |
| UseYield.YieldCell.Launch | src/useYield.mjs:52-68 | generator and promise leave the cell as it was and return the controller with their partials pending; a plain value is merged at once without a signal and null is returned |
| UseYield.YieldCell.Run | src/useYield.mjs:36-69 | the controller is options.aborter when given, else a new live one; the changer gets the current snapshot and no action; the result is handled as Launch states |
| MergeLaws.GatedIsLivePrefix | src/useYield.mjs:19-21 | under a signal that stays aborted once aborted, merging every partial under its step's abort flag equals merging, live, exactly the partials before the first aborted step |
| MergeLaws.DrainedFlags | src/useYield.mjs:19-21 | the flags of a drained run stay set once set, and are clear at exactly the first Live steps |
| UseYield.YieldCell.Drain | src/useYield.mjs:39-48 | every yield of a finite generator is merged under the signal's flag at its step, so the cell ends as the live prefix of the yields merged in order; the signal ends aborted exactly when it was or the environment aborted it |
| MergeLaws.FeedRecord | src/useYield.mjs:39-48 | after a run of merges the record's entries are the initial entries overwritten in yield order by each partial, whether or not a merge was suppressed |
| MergeLaws.FeedRenders | src/useYield.mjs:24-30 | a run of merges counts at most one render per partial, and a run that rendered nothing left the record as it was |
| MergeLaws.FeedCountsEveryChange | src/useYield.mjs:24-30 | when each partial changes the record built so far, the renders equal the number of partials |
| MergeLaws.FeedAppend | src/useYield.mjs:40-44 | merging two stretches of yields one after the other is merging their concatenation |
| MergeLaws.OverlayKeepsUntouched | src/useYield.mjs:23 | an entry that no partial mentions keeps its initial presence and value through any run of merges |
| UseYield.PostsThenUsersMerges | examples/UseYieldTest.jsx:22-36 | from {posts: [], users: []}, yielding {posts: [1,2]} then {users: [3]} gives both lists after two renders; the first yield alone gives users still empty after one |
| UseYield.PostsThenUsers | examples/UseYieldTest.jsx:22-36 | the same scenario through run and the drain loop: drained to the end, two renders; aborted between the yields, users stays empty after one render |
| LibUseYield.Mount | lib/useYield.js:74-77 | the compiled setup accepts exactly what the source accepts, failing with its own message |
| LibUseYield.LibRun | lib/useYield.js:113-149 | without options it throws a TypeError before touching the cell; otherwise the controller is options.abortable or a new one, the changer gets options.action, and the result is handled as in the source |
| LibUseYield.ActionReachesChangerOnlyInLib | lib/useYield.js:132 | a changer storing its action stores the given action under the compiled run, undefined under the source run; the compiled run without options throws |
| LibUseYield.AborterIgnoredByLib | lib/useYield.js:116 | given options.aborter, the source run returns that controller while the compiled run returns a different, live one |
| UseYieldReducer.Copy | src/useYieldReducer.mjs:13-21 | copy succeeds exactly on null, booleans, strings, numbers, undefined, arrays and objects with a prototype; primitives and arrays come back equal, objects as plain objects with the same entries; others throw naming their typeof |
| UseYieldReducer.CopyIsStable | src/useYieldReducer.mjs:16-19 | a copy is copyable again, copying it changes nothing, and it has the same own entries as the original |
| UseYieldReducer.ReducerBinding.constructor | src/useYieldReducer.mjs:25-31 | the pending slot starts undefined and the dispatch counter at zero |
| UseYieldReducer.ReducerBinding.Dispatch | src/useYieldReducer.mjs:38-41 | dispatch overwrites the slot with the raw action and raises the counter by exactly one, touching nothing else and never throwing |
| UseYieldReducer.ReducerBinding.Render | src/useYieldReducer.mjs:36-49 | useCallback hands out this render's changer on a deps change; the effect runs iff the memoized function's identity or the dispatch count changed; it aborts the previous controller, copies the slot, runs the memoized changer, and clears the slot only after a successful run; a failed copy starts nothing and leaves the slot set |
| UseYieldReducer.ReducerBinding.Teardown | src/useYieldReducer.mjs:48 | unmounting aborts the held controller, if any |
| UseYieldReducer.Mount | src/useYieldReducer.mjs:23-24 | mounting fails exactly as the setup of useYield does; otherwise the slot is empty and the cell holds the initial state |
| UseYieldReducer.DispatchIsReadOnce | src/useYieldReducer.mjs:38-49 | the mount run reads undefined; two dispatches cause one run that reads a copy of the later action; an idle render runs nothing; a run caused by a new changer alone reads undefined; a copy that throws leaves the slot uncleared |
| UseYieldReducer.DispatchedActionNeverReachesChanger | src/useYieldReducer.mjs:44 | whatever is dispatched, the changer run by the source receives undefined as its action |
| UseYieldState.StateBinding.Render | src/useYieldState.mjs:11-16 | on a deps change useCallback hands out this render's changer; the effect runs iff the memoized function's identity changed, aborting the previous controller and starting a run with a fresh controller, which is then held; otherwise nothing changes; the record of the render is returned |
| UseYieldState.StateBinding.Teardown | src/useYieldState.mjs:15 | unmounting aborts the held controller, if any |
| UseYieldState.Mount | src/useYieldState.mjs:5-6 | mounting fails exactly as the setup of useYield does |
| UseYieldState.SupersededRunIsSilenced | src/useYieldState.mjs:13-15 | after a new changer with new deps, whatever the first run still yields leaves record and render count as they were |
| UseYieldState.StableChangerIsNotRestarted | src/useYieldState.mjs:11-16 | new deps with a changer of the same identity do not re-run the effect and leave the first run live; a changer of another identity does re-run it |
| UseYieldEffect.EffectBinding.Render | src/useYieldEffect.mjs:8-11 | on a change of the caller's deps the previous controller is aborted and the changer of this render runs with a fresh controller; otherwise nothing changes |
| UseYieldEffect.EffectBinding.Teardown | src/useYieldEffect.mjs:10 | unmounting aborts the held controller, if any |
| UseYieldEffect.Mount | src/useYieldEffect.mjs:5-6 | mounting fails exactly as the setup of useYield does |
| UseYieldEffect.EveryRenderRestarts | src/useYieldEffect.mjs:8-11 | without a dependency list every render starts a run and aborts the one before; after unmounting, the last run merges nothing |

## Left out

- React's render cycle is reduced to one `Render` method per binding, which is a render plus its commit. Batching, strict-mode double effects and concurrent rendering are not modelled. The `ran` and `read` outputs of `Render` let the model observe the effect; the hooks themselves return only the state (and `dispatch`).
- Dependency lists are compared by value equality. React compares elements with `Object.is`, and treats lists of different lengths as equal on their common prefix; neither is modelled.
- Deep equality is datatype equality. fast-deep-equal's special cases (NaN, `Date`/`RegExp` by value, `Map`/`Set` contents, `valueOf`/`toString` overrides) are not modelled.
- Numbers are unbounded integers: there are no floats, NaN or -0.
- Spread copies only string-keyed own entries. Symbol keys, getters, key order and the own properties of functions are not modelled.
- A state changer's partials are fixed when it is called. A changer that reads `getState` mid-flight, or reacts to its signal, is not modelled.
- Promise and microtask ordering is not modelled. Neither are errors thrown inside a changer, or the unhandled rejections left by the missing `.catch`. A run's later merges happen only when `Drain` is called.
- `UseYield.YieldCell.Drain`: the environment aborts at most once per drain, at one chosen yield.
- `UseYield.YieldCell.Drain`: generators are finite sequences of yields. An endless async generator cannot be represented; the source keeps pulling one forever, even after an abort, because `onYield` never looks at the signal (src/useYield.mjs:40-44), and only the merges are refused.
- `UseYield.Classify`: only the `next` and `then` inherited from the built-in async generator, generator and promise prototypes are known. A `next` or `then` inherited from any other prototype reads as undefined: instances of a `Promise` subclass or of a user class defining `then`, and Map, Set or Array iterators, are merged as plain values, where the source takes the promise path or throws a TypeError at src/useYield.mjs:47.
- `UseYield.Classify`: a callable `next` of the changer's own making is taken to hand back promises of `{ value, done }` records, and a callable `then` to call back once with the resolved value; what other user-written methods do is not modelled. A rejected promise, and an error thrown by `next()` itself, are not modelled either.
- The setup check runs at every render of every hook (src/useYield.mjs:5-7), so a later render passing null or a primitive `initialState` throws although the cell is untouched. The bindings' `Render` takes no `initialState`; only `Mount`, the first render, is checked.
- An effect that throws (a `copy` that fails, src/useYieldReducer.mjs:44) goes to React's nearest error boundary, which unmounts the component; that teardown is not modelled. `Render` may be called again after such a throw, which the source never does.
- `Spread` of a string splits it into Unicode scalar values; JavaScript splits it into UTF-16 code units, so strings outside the Basic Multilingual Plane spread differently.
- Function identity is a number the caller passes to `Render`; closures that capture different values but share a number are not told apart.
- Values are immutable: in-place mutation of nested data shared through shallow copies is not modelled. `getState` and the merge copy only the top level (src/useYield.mjs:13,23), so a snapshot, the partials and `state.current` share nested arrays and objects; `copy` is shallow too and runs only in the effect (src/useYieldReducer.mjs:17-18,44), so a dispatched object mutated before then is copied as mutated. A changer that pushes onto a nested array of its snapshot changes the stored record in place; the deep-equality check at src/useYield.mjs:24 then finds the merge equal, so the record changes with no render. `MergeLaws.FeedRenders` ("no render means the record is unchanged") and the render counts of the other laws hold only for changers that do not mutate shared data.
- The identity of `state.current` is not modelled separately. It changes exactly when the counter rises, which the contracts state.
- lib/useYieldReducer.js and lib/useYieldState.js are not part of this model. Their logic matches the source; the compiled `useYieldState` calls `run` without options, and `LibUseYield.LibRun` shows that this throws.
- src/index.mjs, lib/index.js and the example pages are export wiring and UI, with network and timers; they are not part of this model.

# Asynchronous state machine, safe dispatch and result cache — a Dafny model

This project models the core of three exercises of an "advanced React hooks" workshop.

- `src/exercise/02.js` tracks one asynchronous fetch. `pokemonInfoReducer` is a closed transition
  function over `{status, data, error}`. `useSafeDispatch` drops dispatches unless a `mounted` ref
  is set. `useAsync` holds the reducer state and offers `run(promise)`, which dispatches `pending`
  at once and later `resolved` or `rejected`.
- `src/exercise/03.extra-2.js` puts a keyed cache in front of that. `pokemonCacheReducer` stores
  fetched data by pokemon name. `usePokemon` reads the cache context. The effect of `PokemonInfo` adopts a
  cached value or runs a fetch that fills the cache on success. `PreviousPokemon` lists the cached names.
- `src/exercise/01.js` holds three small counter update rules.

Files:

- `js_model.dfy` (module `JsModel`): `Nullable` for JavaScript `null`/`undefined`, `Option`, and
  `Result` with `Failure(message)` for a thrown `Error`.
- `counter.dfy` (module `Counter`): the pure rules of `01.js`.
- `async_info.dfy` (module `AsyncInfo`): the pure reducer and the functions that specify guarded
  dispatch. The class `AsyncSession` holds the reducer state, the `mounted` flag and the registered
  promise handlers. Its methods are `Mount`, `Unmount`, `Dispatch`, `Run`, `Settle` and `SetData`.
- `pokemon_cache.dfy` (module `PokemonCache`): the cache as an insertion-ordered object, its reducer and
  lookups. The class `CacheStore` is the provider's state. The class `PokemonInfo` models the
  cache-consulting effect and the fetch continuation.

Asynchrony is explicit. `Run(Thenable)` registers a handler and returns a ticket for it. Later the
environment calls `Settle(ticket, outcome)`, and the handler dispatches `resolved` or `rejected`
through the guard. A ticket fires at most once: a second `Settle` for it is a no-op. Nothing orders
the settlements of overlapping runs, so the last one delivered decides the state (`LastSettledWins`).
The fetch is an opaque promise whose outcome (`Fulfilled` or `Failed`) is a parameter of the settle call.

Three behaviours of the code that a reader might not expect, and that the model keeps:

- The `mounted` flag starts false (`02.js:40`). It becomes true only when the mount effect runs
  (`02.js:43`). So a dispatch before mount is dropped, and that includes the `pending` of a `run`
  called before mount.
- The reducer ignores the prior state (`ReducerIgnoresState`). Every known action is accepted from
  every state: nothing restricts which status may follow which.
- A cache hit moves the state straight to resolved (`setData`) without passing through `pending`.

## Model

| member | source | states |
|---|---|---|
| `Counter.CountReducer` | src/exercise/01.js:19 | a function update is applied to the previous state; a plain update is returned as it is |
| `Counter.InitialCountReducer` | src/exercise/01.js:20 | a lazy initialiser is called; a plain initial value is returned unchanged |
| `Counter.TraditionCountReducer` | src/exercise/01.js:23-30 | succeeds exactly for `INCREMENT`, then adds `step` to `count` and keeps every other property (so a state without a second `count` key stays so); any other tag fails with "Unhandled reducer with action: " followed by the tag |
| `Counter.Increment` | src/exercise/01.js:43 | the updater the button passes maps every state to one whose `count` is the old count plus `step` and that has no other property |
| `Counter.CounterStartsAtInitialCount` | src/exercise/01.js:33-35 | the counter's lazy initial state is `{count: initialCount}` and nothing else |
| `Counter.ReplaceIgnoresPrevious` | src/exercise/01.js:19 | a plain update gives the same result whatever the previous state |
| `Counter.FunctionUpdatesCompose` | src/exercise/01.js:19 | two function updates in a row equal one update by their composition |
| `Counter.IncrementAddsStep` | src/exercise/01.js:43 | one click's updater gives `count + step` and drops all other properties |
| `Counter.UpdateStylesAgree` | src/exercise/01.js:38-43 | the traditional `INCREMENT` action and the function update give the same count; only the traditional one keeps the other properties |
| `Counter.ClicksAccumulate` | src/exercise/01.js:43-44 | after `n` clicks the count is the initial count plus `n * step` |
| `AsyncInfo.InfoReducer` | src/exercise/02.js:22-37 | succeeds exactly for `pending`, `resolved` and `rejected`: any `pending` action gives pending with null data and error, any `resolved` action gives resolved with that action's data and a null error, any `rejected` action gives rejected with null data and that action's error; every result is consistent (data only when resolved, error only when rejected), never idle; any other tag fails with "Unhandled action type: " followed by the tag, from every state |
| `AsyncInfo.SettleAction` | src/exercise/02.js:72-77 | a fulfilment is dispatched as `resolved` carrying the value, a rejection as `rejected` carrying the reason; never `pending` and never an unknown tag |
| `AsyncInfo.Guarded` | src/exercise/02.js:47-52 | while not mounted the state is unchanged; while mounted a known action yields the reducer's state and an unknown one leaves the state unchanged; a consistent state stays consistent |
| `AsyncInfo.TransitionTable` | src/exercise/02.js:24-32 | from any state: `pending` gives pending with null data and error; `resolved(V)` gives resolved, data V, error null; `rejected(E)` gives rejected, data null, error E |
| `AsyncInfo.ReducerIgnoresState` | src/exercise/02.js:22-37 | the reducer's result depends only on the action |
| `AsyncInfo.DroppedWhileUnmounted` | src/exercise/02.js:47-53 | while not mounted, any number of guarded dispatches leaves the state unchanged |
| `AsyncInfo.DispatchKeepsConsistent` | src/exercise/02.js:22-53 | every sequence of guarded dispatches, including unknown tags, keeps the state consistent |
| `AsyncInfo.LastSettledWins` | src/exercise/02.js:71-78 | of two settlements delivered in a row, the state is the one the last alone would give |
| `AsyncInfo.RunThenSettle` | src/exercise/02.js:70-78 | while mounted, `pending` is observable after `run`, then the settlement yields resolved with the value or rejected with the reason |
| `AsyncInfo.AsyncSession.constructor` | src/exercise/02.js:56-63 | the initial state is the given status with null data and error; the flag starts false; no handler is registered |
| `AsyncInfo.AsyncSession.Mount` | src/exercise/02.js:42-43 | the mount effect sets the flag |
| `AsyncInfo.AsyncSession.Unmount` | src/exercise/02.js:44 | the cleanup clears the flag |
| `AsyncInfo.AsyncSession.Dispatch` | src/exercise/02.js:47-53 | while mounted, forwards the action to the reducer and returns what it produced; otherwise the state is unchanged and the result is `Dropped`; the invariant is kept |
| `AsyncInfo.AsyncSession.Run` | src/exercise/02.js:65-71 | a falsy argument changes nothing and dispatches nothing; otherwise exactly `pending` is dispatched through the guard before returning, and one new handler is registered |
| `AsyncInfo.AsyncSession.Settle` | src/exercise/02.js:71-78 | a registered handler fires once: it dispatches exactly the `resolved(value)` or `rejected(reason)` of the outcome through the guard and is removed; an unknown or spent ticket changes nothing |
| `AsyncInfo.AsyncSession.SetData` | src/exercise/03.extra-2.js:87-93 | a `resolved` action with the value is handed to the guard: while mounted the state becomes resolved with the value and a null error, otherwise it is unchanged |
| `PokemonCache.EmptyCache` | src/exercise/03.extra-2.js:44 | the provider's initial cache has no entries and a well-formed key list |
| `PokemonCache.CacheReducer` | src/exercise/03.extra-2.js:60-69 | succeeds exactly for `ADD_POKEMON`: the name maps to the data, overwriting, and every other entry is kept with no key removed; any other tag fails with "Unhandled action type: " followed by the tag |
| `PokemonCache.ReadProperty` | src/exercise/03.extra-2.js:92 | `cache[name]` is the own value when there is one; otherwise an inherited `Object.prototype` member when the name is one; otherwise absent |
| `PokemonCache.Lookup` | src/exercise/03.extra-2.js:92-93 | a hit exactly when the cache holds a non-null value of its own under the name, and then that value |
| `PokemonCache.ConsultAsWritten` | src/exercise/03.extra-2.js:89-101 | the effect's branch as written: an empty name does nothing; an `Object.prototype` member name the cache does not hold counts as a hit |
| `PokemonCache.ConsultDecision` | src/exercise/03.extra-2.js:89-101 | an empty name does nothing; an own hit adopts the cached value; any other name is fetched; an inherited member is never adopted |
| `PokemonCache.UsePokemon` | src/exercise/03.extra-2.js:71-81 | fails with "usePokemon must be used within a PokemonCacheProvider" when no provider value is present; otherwise returns the `[cache, dispatch]` pair unchanged |
| `PokemonCache.PreviousNames` | src/exercise/03.extra-2.js:118-123 | the listed names are exactly the cache's keys, each once |
| `PokemonCache.AddKeepsWellFormed` | src/exercise/03.extra-2.js:63 | adding keeps the key list well formed; a new name is listed last; a known name keeps its place |
| `PokemonCache.AddThenLookup` | src/exercise/03.extra-2.js:92-98 | a name just added with data is a hit with that same data, so the next effect for it adopts it without fetching |
| `PokemonCache.AddOverwrites` | src/exercise/03.extra-2.js:63 | a second add under a name leaves the entries as if only the second had happened |
| `PokemonCache.UnknownNameMisses` | src/exercise/03.extra-2.js:92-95 | a name the cache does not hold is a miss |
| `PokemonCache.KeysOnlyGrow` | src/exercise/03.extra-2.js:60-69 | no sequence of actions removes a key or breaks the key list |
| `PokemonCache.InheritedNameIsAHit` | src/exercise/03.extra-2.js:92-93 | with an empty cache, "constructor" is a hit as written, but is fetched with the own-entry lookup |
| `PokemonCache.ConsultAgreesOffPrototype` | src/exercise/03.extra-2.js:92-95 | the two hit tests agree for every name the cache holds or that is not an `Object.prototype` member |
| `PokemonCache.CacheStore.constructor` | src/exercise/03.extra-2.js:44 | the provider starts with the empty cache |
| `PokemonCache.CacheStore.Dispatch` | src/exercise/03.extra-2.js:44-47 | the cache becomes the reducer's result; when the reducer throws, the cache is unchanged and the error is returned |
| `PokemonCache.PokemonInfo.constructor` | src/exercise/03.extra-2.js:86-87 | the component starts with no fetch in flight |
| `PokemonCache.PokemonInfo.Effect` | src/exercise/03.extra-2.js:89-102 | an empty name changes nothing; an own-entry hit adopts the cached value through `setData` (resolved with it while mounted) and does not call `run`; a miss calls `run` once, handing exactly `pending` to the guard and recording the fetch under its name |
| `PokemonCache.PokemonInfo.FetchSettled` | src/exercise/03.extra-2.js:95-100 | on success the data is added to the cache under the fetched name and the same data is passed to `run`'s handler; on failure the cache is untouched and the handler sees the same reason; an unknown ticket changes nothing |

## Left out

- `src/exercise/03.js` is not part of this model. Its only logic is a missing-provider throw, of the same shape as `usePokemon`.
- JSX rendering, the status-to-view branches (`02.js:95-105`, `03.extra-2.js:104-112`), `App`, `PokemonSection` and `PokemonCacheProvider`'s element tree: presentation only.
- The `PokemonInfo` component of `02.js` (lines 85-93) is caller glue. It picks `pending` or `idle` as the initial status and runs `fetchPokemon` for a non-empty name.
- `fetchPokemon`, `PokemonForm`, `PokemonDataView`, `PokemonInfoFallback` and `PokemonErrorBoundary` are not part of this model. The fetch is an opaque promise; its outcome is a parameter of `Settle` and `FetchSettled`.
- The `useAsync` that `03.extra-2.js` imports from `../utils` is not part of this model. It is assumed to behave like the one in `02.js`.
- AsyncSession.SetData: assumed to dispatch through the same mounted guard as `02.js`, and to set a null error. The `../utils` source of `setData` is not shown, so neither point is taken from code.
- PokemonInfo.Effect: decides a hit on the cache's own entries only. As written, `cache[pokemonName]` at `03.extra-2.js:92` also finds `Object.prototype` members. For example, "constructor" on an empty cache adopts the inherited `Object` function instead of fetching (see "## Findings"; `ConsultAsWritten` models the code as written).
- React scheduling, hook memoisation (`useCallback`, dependency arrays, re-running effects) and the promise event loop are not modelled. They become explicit calls of `Mount`, `Unmount`, `Run`, `Settle`, `Effect` and `FetchSettled`.
- `AsyncSession.Run`: the React `run` returns `undefined`. The returned ticket is the model's handle for the later settlement.
- `AsyncSession.Dispatch`: React's dispatch returns `undefined`, and a throwing reducer surfaces at render time. The model instead returns the reducer's error at once and keeps the old state.
- CacheStore.Dispatch: the provider's React `dispatch` returns `undefined`, and a throwing `pokemonCacheReducer` surfaces when the provider renders. The model instead returns the reducer's error at once and keeps the old cache.
- Counter: the other properties of a counter state share one value type `V`, where JavaScript allows each its own. `Plain` states that `count` is not among them.
- `AsyncSession.constructor`: `useAsync(status)` spreads whatever object it is given. The model takes the status alone, and does not model a missing `status` property or extra properties.
- Falsy values: `Nullable.Null` stands for `null` and `undefined`, and `Value` for objects. Other falsy primitives (`0`, `''`, `false`, `NaN`) are not modelled as data, errors, promises or cached values. A `null` pokemon name is modelled as the empty string.
- Counter arithmetic uses unbounded integers. JavaScript's floating-point numbers and `+` on strings are not modelled.
- `PreviousNames`: lists keys in insertion order. JavaScript lists integer-like keys (such as "25") first, in ascending numeric order, and the model does not reproduce that.
- `ReadProperty`: assumes `Object.prototype` has not been extended or altered at run time.

## Findings

| source | as written | input that shows it | evidently intended | confidence | as-written member | corrected member |
|---|---|---|---|---|---|---|
| src/exercise/03.extra-2.js:92-93 | the hit test `cache[pokemonName]` reads through the prototype chain of the plain cache object | pokemon name "constructor" (or "toString", "valueOf", ...) with an empty cache: `setData` adopts an inherited function as pokemon data and no fetch is run | a hit only for names the cache itself holds | not executed; follows from property lookup on plain objects | `PokemonCache.ConsultAsWritten` (discrepancy shown by `PokemonCache.InheritedNameIsAHit`) | `PokemonCache.ConsultDecision` (used by `PokemonCache.PokemonInfo.Effect`; agreement elsewhere shown by `PokemonCache.ConsultAgreesOffPrototype`) |

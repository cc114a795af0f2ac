# tudux store, modelled in Dafny

A Dafny model of the state container in `src/index.ts` of tudux, a small
Redux-like library. The model covers three things:

- the `Store` class and `createStore`. The store is a two-phase state machine
  (Idle, Dispatching) with guarded `getState`, `dispatch` and `subscrible`, and
  it keeps a listener list together with its unsubscriber closures;
- `combineReducers`, which fans one action out to a record of sub-reducers;
- `bindActionCreators`, `transform` and `isActionCreator`, which wrap action
  creators so that calling a wrapper dispatches the created action.

The store is an immutable record, and each operation is a pure function from
one store to the next. Reducers are opaque total functions that return a value
or throw (`Outcome`). Listeners are identities (`nat`), so the same function
can be registered twice. The listener array holds function references, exactly
as the source's array does. Each `subscrible` call's closure flag
(`isSubscribled`) is kept in a separate `subscriptions` sequence, and an
`Unsubscriber` is the position of its flag there. `dispatch` is split into
three steps:

1. `BeginDispatch`: the guard, then the flag is set.
2. The reducer's outcome.
3. `FinishDispatch`: the `finally` block, then state publication and
   notification.

This split means a call made from inside a reducer is a call on the store
returned by `BeginDispatch`.

Files and modules:

- `values.dfy` (`Values`): JavaScript values, `Freeze`, actions, errors,
  reducer outcomes.
- `sequences.dfy` (`Sequences`): `indexOf`, `splice(pos, 1)`, and the
  subsequence order.
- `records.dfy` (`Records`): objects used as dictionaries, with their
  `Object.keys` order.
- `store.dfy` (`Stores`): the store, its operations and the bookkeeping
  invariant `Valid`.
- `combine.dfy` (`Combine`): `combineReducers` as written, plus a corrected
  variant.
- `bind.dfy` (`Bind`): `bindActionCreators`, `transform` and
  `isActionCreator`, plus a corrected variant.
- `scenarios.dfy` (`Scenarios`): concrete runs on the reducers from the
  repository's tests.

Where the code and the tests or the code's own names and comments disagree,
the model follows the code:

- `createStore(reducer, preloadedState)` does not dispatch an initial action.
  The state is the preloaded value, `undefined` when none is given
  (`Scenarios.NoInitialDispatch`).
- `Object.freeze` is shallow, so only the top level of a published state is
  marked frozen (`Values.FreezeIsShallow`). A composite preloaded state is not
  frozen until the first dispatch (`Scenarios.PreloadedStateNotFrozen`).
- `combineReducers` gives every sub-reducer the whole previous state and
  performs no `undefined` check. `isActionCreator` is false for every function
  and every object that inherits from `Object.prototype`. These three points
  are listed under Findings.
- `subscrible` and its unsubscriber keep one array entry per armed
  registration, but the array is only a subsequence of the registration
  history: when one function is registered twice, `indexOf` removes its first
  entry whichever registration is cancelled, so later notifications need not
  follow the order in which the armed registrations were made
  (`Scenarios.DuplicateUnsubscribeReorders`).

## Model

| member | source | states |
|---|---|---|
| Values.Freeze | src/index.ts:51-53 | a composite reducer result keeps its fields and gets the frozen mark; a primitive (or null/undefined) is stored unchanged; composite-ness is preserved |
| Values.FreezeIsShallow | src/index.ts:52 | freezing touches only the outer object: every nested value is exactly as it was |
| Values.FreezeIdempotent | src/index.ts:52 | freezing an already frozen value changes nothing |
| Sequences.IndexOf | src/index.ts:77 | the result is -1 exactly when the listener is absent, otherwise the position of its first occurrence |
| Sequences.RemoveAt | src/index.ts:79 | `splice(pos, 1)` drops exactly the entry at `pos`: one shorter, entries before kept, entries after shifted by one, multiset minus that entry |
| Sequences.SubseqRemoveAt | src/index.ts:79 | splicing one entry out keeps the array a subsequence of any sequence it was a subsequence of |
| Sequences.SubseqAppend | src/index.ts:71 | pushing the same listener on the array and on the registration history keeps the subsequence relation |
| Stores.CreateStore | src/index.ts:25-30 | the new store holds exactly the preloaded state and the given reducer, has no listeners or registrations, is Idle, and satisfies the bookkeeping invariant |
| Stores.CreateThenGetState | src/index.ts:86-88 | `getState()` right after `createStore(r, s)` returns `s`: no reducer call happens |
| Stores.GetState | src/index.ts:32-40 | fails with the getState error exactly when Dispatching; otherwise returns the current state |
| Stores.BeginDispatch | src/index.ts:43-47 | fails with the dispatch error exactly when Dispatching; otherwise the same store, now Dispatching |
| Stores.FinishDispatch | src/index.ts:48-60 | the flag is cleared on both paths; a returned value is published frozen, the action is returned and the listener array is notified in order; a throw leaves state and lists alone and propagates the error |
| Stores.Dispatch | src/index.ts:42-61 | a dispatch while Dispatching fails and changes nothing; from Idle the store is Idle afterwards; success publishes `Freeze(reducer(state, action))`, returns the same action and notifies the listener array; a throwing reducer yields the unchanged store and its error |
| Stores.Subscribe | src/index.ts:63-72 | fails exactly when Dispatching; otherwise appends exactly the listener to the array and one armed registration, returns that registration's unsubscriber, and changes nothing else |
| Stores.Unsubscribe | src/index.ts:73-82 | a disarmed unsubscriber changes nothing; the array shrinks by at most one, and it shrinks exactly when the registration goes from armed to disarmed; other registrations, state, phase and reducer are untouched |
| Stores.ReentrantCallsRejected | src/index.ts:33-66 | inside a running dispatch, `getState`, `dispatch` and `subscrible` each fail with their own error, and the store is left as it was |
| Stores.ThrowingReducerLeavesStoreUsable | src/index.ts:47-57 | whatever the reducer throws, including a re-entrant call's error, dispatch yields exactly the original Idle store and that error, and the next dispatch is accepted |
| Stores.DispatchNeverLeavesFlagSet | src/index.ts:55-57 | after any dispatch from Idle the store is Idle and accepts the next dispatch |
| Stores.DispatchPreservesValid | src/index.ts:42-61 | dispatch keeps the bookkeeping invariant |
| Stores.SubscribePreservesValid | src/index.ts:70-71 | subscribing keeps the invariant: one array entry per armed registration, and the array a subsequence of the registration history |
| Stores.UnsubscribePreservesValid | src/index.ts:73-82 | unsubscribing keeps that invariant |
| Stores.UnsubscribeRemovesExactlyOne | src/index.ts:77-80 | in a valid store an armed unsubscriber always finds its listener, removes its first occurrence and no other entry, and disarms its registration |
| Stores.UnsubscribeIdempotent | src/index.ts:74-76 | calling an unsubscriber twice has the same effect as calling it once |
| Stores.IndependentRegistrations | src/index.ts:68-71 | after subscribing the same function twice and unsubscribing the first registration, the second stays armed and the function is in the array once more than before |
| Stores.SecondRegistrationStillNotified | src/index.ts:59 | in that situation the next successful dispatch still calls the function once more than before the two subscriptions |
| Stores.NotifiesEachRegistrationOnce | src/index.ts:59 | a successful dispatch calls each armed registration's listener once, as a subsequence of the registration history, from the Idle published store |
| Combine.FoldKeys | src/index.ts:99-105 | the key loop returns exactly when no remaining sub-reducer throws, and then returns a fresh, unfrozen object |
| Combine.FoldKeysFields | src/index.ts:100-104 | the returned object holds the keys built so far plus every remaining key, and each remaining key holds its own sub-reducer's result |
| Combine.FoldKeysFirstThrow | src/index.ts:100-102 | a throw is the error of the first sub-reducer in key order that throws, and every earlier sub-reducer returned |
| Combine.CombineReducers | src/index.ts:95-106 | the combined reducer, whenever it returns, returns a fresh, unfrozen object (its full input/output relation is `Combine.CombineReducersFanOut`) |
| Combine.CombineReducersFanOut | src/index.ts:95-106 | the combined reducer returns exactly when no sub-reducer throws on the whole previous state; the result's key set is exactly the reducers' key set, and each value is its sub-reducer's result on the whole state |
| Combine.CombineReducersFirstThrow | src/index.ts:100-102 | when the combined reducer throws, it throws what the first throwing sub-reducer in `Object.keys` order threw |
| Combine.IntendedFanOut | src/index.ts:102 | the corrected combinator returns exactly when every sub-reducer returns a defined value on its own slice `state[key]`; the record then holds exactly those values under exactly the reducers' keys |
| Combine.IntendedRejectsUndefined | src/index.ts:102-103 | with the corrected combinator, one sub-reducer returning `undefined` makes the whole call throw |
| Bind.IsActionCreator | src/index.ts:148-152 | `isActionCreator` is false for a bare creator function and for a record of creators, both inheriting from `Object.prototype` |
| Bind.OwnEntries | src/index.ts:128 | `Object.keys` of a creator function with no enumerable own properties (such as the tests' `addTodo`) is empty; for a record it is the record itself |
| Bind.Transform | src/index.ts:137-145 | calling the wrapper on any arguments equals dispatching the action the creator makes from them |
| Bind.BindFrom | src/index.ts:127-134 | the loop yields a record with exactly the input's keys in the same order, each wrapper dispatching its own creator's action |
| Bind.BindActionCreators | src/index.ts:119-135 | the result is always a record with the argument's own keys; calling `result[k](args)` equals `dispatch(creator_k(args))` |
| Bind.SingleCreatorYieldsEmptyRecord | src/index.ts:123-134 | binding one creator function with no enumerable own properties (such as the tests' `addTodo`) returns an empty object |
| Bind.BindIntendedKeepsShape | src/index.ts:123-125 | the corrected binder returns one wrapper for a creator function and a same-keyed record of wrappers for a record, each dispatching its creator's action |
| Scenarios.StoreTestRun | test/store.test.ts:22-28 | with the test reducer and preloaded `''`: FIRST returns the action and publishes `'First'`; SECOND then publishes the frozen `{value: 'Second'}` |
| Scenarios.NoInitialDispatch | test/createStore.test.ts:9-28 | with that test's reducer and no preloaded state the store reads `undefined`, not the `'INIT'` the reducer's default gives and the test expects |
| Scenarios.ThrowingReducerRun | src/index.ts:47-57 | a reducer's own exception propagates out of `dispatch`, the state is unchanged and the next dispatch succeeds |
| Scenarios.ThreeRegistrationsShape | src/index.ts:63-72 | subscribing `1`, `2`, `1` to a fresh store pushes `[1, 2, 1]`, arms three registrations in that order and hands back the third one's unsubscriber |
| Scenarios.DuplicateUnsubscribeReorders | src/index.ts:59-82 | subscribing `1`, `2`, `1` and cancelling the third registration leaves the array `[2, 1]`, so the next dispatch calls `2` before `1` |
| Scenarios.PreloadedStateNotFrozen | src/index.ts:27 | a composite preloaded state is published unfrozen until the first dispatch |
| Scenarios.FoldPair | src/index.ts:100-104 | on a two-key record whose sub-reducers both return, the loop yields exactly the object holding the two results under their keys |
| Scenarios.CombinePair | src/index.ts:98-105 | as written, a two-key combined reducer returns the object of both sub-reducers' results on the whole state |
| Scenarios.IntendedPair | src/index.ts:102 | the corrected two-key combined reducer returns the object of both sub-reducers' results on their own slices |
| Scenarios.WholeStateWitness | test/combinReducers.test.ts:45-51 | as written, `({}, UNKNOWN)` yields `{first: {}, second: {}}`, not the defaults the test expects |
| Scenarios.NoUndefinedGuardWitness | test/combinReducers.test.ts:93-114 | as written, the OPP action stores `undefined` under `bad` instead of throwing |
| Scenarios.IntendedMeetsTransferTest | test/combinReducers.test.ts:53-63 | the corrected combinator yields the defaults and then `{first: {value: 'ONE'}, second: {other: 'opp'}}` |
| Scenarios.IntendedMeetsUndefinedTest | test/combinReducers.test.ts:106-113 | the corrected combinator throws on OPP |

## Findings

| source | as written | input that shows it | evidently intended | confidence | as-written member | corrected member |
|---|---|---|---|---|---|---|
| src/index.ts:102 | each sub-reducer is called with the whole previous state | `combineReducers({first: reducer1, second: reducer2})({}, {type: 'UNKNOWN'})` gives `{first: {}, second: {}}` | each sub-reducer gets `state[key]`, so the same call gives `{first: 'INIT_ONE', second: 'INIT_TWO'}` | medium (test/combinReducers.test.ts:45-51 expects slicing, and line 102 names the result `tinyState`), not executed | Scenarios.WholeStateWitness | Combine.IntendedFanOut |
| src/index.ts:102-103 | a sub-reducer's result is stored with no `undefined` check | `withBad(nextState1, {type: 'OPP'})` returns an object with `bad: undefined` | the combined call throws when a sub-reducer returns `undefined` | medium (test/combinReducers.test.ts:93-114 expects the error, and the `NotUndefined` todo at line 6 asks for the invariant), not executed | Scenarios.NoUndefinedGuardWitness | Combine.IntendedRejectsUndefined |
| src/index.ts:151 | `isActionCreator` is `!(x instanceof Object)`, which is false for functions | `bindActionCreators(addTodo, dispatch)` returns `{}` | a callable argument is wrapped and returned as one function | high (for functions and objects that inherit from `Object.prototype` the single-creator branch at lines 123-125 is never taken), not executed | Bind.SingleCreatorYieldsEmptyRecord | Bind.BindIntendedKeepsShape |

## Left out

- `applyMiddleware`, `compose`, `observable()`, `isPlainAction`, the `Dispatchedable`/`StoreState` types and the options-object form of `createStore` are imported by the tests but are not part of `src/index.ts`. There is no code to model for them.
- Listener and reducer side effects are not modelled, because they are opaque user callbacks. A listener is an identity, and the notified list is what `forEach` would call. A listener that throws (stopping the loop), or that subscribes, unsubscribes or dispatches during notification, is not modelled.
- A reducer is a total function of state and action. It cannot close over the store. Calls made from inside a reducer are modelled as calls on the Dispatching store returned by `BeginDispatch` (`Stores.ReentrantCallsRejected`), and the error they raise as the reducer's `Threw` outcome.
- The runtime semantics of `Object.freeze` and `instanceof Object` are not modelled. Freezing sets a mark on the value, and writes to frozen objects are not modelled. Every composite value (object, array, function) is an `Obj`.
- Numbers are unbounded integers, and symbols are not represented. The store never computes on them.
- `transform` passes its `args` array as one argument to the creator. The model treats the argument list as one opaque value.
- `Object.keys` puts integer-like keys first. Records keep their keys in the order given.
- `combineReducers` looks `reducers[key]` up again at each call, so a reducers object mutated afterwards would change the result. Records are immutable here.
- Bind.BindActionCreators: the single-creator branch (lines 123-125) is not written as a branch. Every modelled argument inherits from `Object.prototype`, for which `Bind.IsActionCreator` proves the guard false, so the body is the record loop alone.
- Values with a null prototype (`Object.create(null)`) or from another realm are not modelled. For them `instanceof Object` is false, so `isActionCreator` (line 151) is true and line 124 returns `transform(obj, dispatch)`, a single wrapper (one that throws a `TypeError` when called if `obj` is not callable); likewise the store would not freeze such a reducer result (line 51). `Values.IsComposite` and `Bind.InstanceOfObject` treat every composite value as inheriting from `Object.prototype`.
- Stores.Unsubscribe: the model does not tie an unsubscriber to the store that issued it. Its requires only bounds the slot, so an in-range slot from another store is accepted, which the source's closure cannot do.
- Creator functions with enumerable own properties (for example `c.type = 'ADD'`) are not represented: `Creator` stands for a function with none. For such a function `Object.keys` at line 128 is not empty, and the loop at lines 129-133 wraps each such property.
- Records treat every string key, `"__proto__"` included, as an ordinary own property. In the source that key is the exception: the assignments at lines 103 and 132 then call the setter inherited from `Object.prototype`, create no own property, and replace the result's prototype when the value is an object.
- Combine.CombineReducersFanOut: its exact key set is the source's only for reducer records without the key `"__proto__"`, for the reason above.
- Bind.BindActionCreators: its exact key set is the source's only for creator records without the key `"__proto__"`, for the reason above.

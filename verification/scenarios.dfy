/** Concrete runs of the model on the reducers and actions of the
    repository's tests, showing where the code meets them and where it does
    not. */
module Scenarios {
  import opened Values
  import opened Records
  import opened Stores
  import opened Combine
  import opened Sequences

  function Act(tag: string): Action {
    Action(tag, map[])
  }

  function One(key: string, v: string): Value {
    Obj(map[key := Str(v)], false)
  }

  /** JavaScript default parameter: `state = d` applies only to `undefined`. */
  function Default(state: Value, d: Value): Value {
    if state == Undefined then d else state
  }

  // -----------------------------------------------------------------------
  // test/store.test.ts

  function StoreReducer(state: Value, action: Action): Outcome {
    if action.tag == "FIRST" then Returned(Str("First"))
    else if action.tag == "SECOND" then Returned(One("value", "Second"))
    else Returned(Default(state, Str("")))
  }

  /** `createStore(reducer, '')` reads `''`; dispatching FIRST returns the
      action and publishes `'First'`; dispatching SECOND publishes the
      object `{value: 'Second'}`, frozen. */
  lemma StoreTestRun()
    ensures var s0 := CreateStore(StoreReducer, Str(""));
      && GetState(s0) == Ok(Str(""))
      && var d1 := Dispatch(s0, Act("FIRST"));
      && d1 == Dispatched(d1.store, Act("FIRST"), [])
      && GetState(d1.store) == Ok(Str("First"))
      && var d2 := Dispatch(d1.store, Act("SECOND"));
      && d2.Dispatched?
      && GetState(d2.store) == Ok(Obj(map["value" := Str("Second")], true))
  {
  }

  // -----------------------------------------------------------------------
  // Further runs of the store

  /** A reducer that throws on BOOM and otherwise behaves as `StoreReducer`. */
  function ThrowingReducer(state: Value, action: Action): Outcome {
    if action.tag == "BOOM" then Threw(Raised(Str("boom"))) else StoreReducer(state, action)
  }

  /** A reducer's own exception propagates out of `dispatch`, the state
      stays as it was, and the store accepts the next dispatch. */
  lemma ThrowingReducerRun()
    ensures var s0 := CreateStore(ThrowingReducer, Str(""));
      && Dispatch(s0, Act("BOOM")) == Failed(s0, Raised(Str("boom")))
      && GetState(Dispatch(s0, Act("BOOM")).store) == Ok(Str(""))
      && Dispatch(s0, Act("FIRST")).Dispatched?
  {
  }

  /** The store after subscribing `1`, `2`, `1` to a fresh store, with the
      unsubscriber of the third registration. */
  function ThreeRegistrations(): Subscribed {
    var a := Subscribe(CreateStore(StoreReducer, Str("")), 1).value;
    var b := Subscribe(a.store, 2).value;
    Subscribe(b.store, 1).value
  }

  lemma ThreeRegistrationsShape()
    ensures var c := ThreeRegistrations();
      && c.store == Store(Str(""), StoreReducer, [1, 2, 1], false,
                          [Subscription(1, true), Subscription(2, true), Subscription(1, true)])
      && c.unsubscribe == Unsubscriber(2)
  {
    var s0 := CreateStore(StoreReducer, Str(""));
    var a := Subscribe(s0, 1).value;
    assert a.store.listeners == [1] && a.store.subscriptions == [Subscription(1, true)];
    var b := Subscribe(a.store, 2).value;
    assert b.store.listeners == [1, 2];
    assert b.store.subscriptions == [Subscription(1, true), Subscription(2, true)];
  }

  /** One function registered twice around another: cancelling the second
      registration of `1` removes its FIRST entry, so the next dispatch calls
      `2` before `1` although both armed registrations of them were made in
      the order `1`, `2`. */
  lemma DuplicateUnsubscribeReorders()
    ensures var c := ThreeRegistrations();
      var s1 := Unsubscribe(c.store, c.unsubscribe);
      && s1.subscriptions == [Subscription(1, true), Subscription(2, true), Subscription(1, false)]
      && Dispatch(s1, Act("FIRST")).Dispatched?
      && Dispatch(s1, Act("FIRST")).notified == [2, 1]
  {
    ThreeRegistrationsShape();
    var c := ThreeRegistrations();
    assert IndexOf(c.store.listeners, 1) == 0;
    assert RemoveAt([1, 2, 1], 0) == [2, 1];
    var s1 := Unsubscribe(c.store, c.unsubscribe);
    assert s1.listeners == [2, 1] && !s1.dispatching && s1.reducer == StoreReducer;
  }

  // -----------------------------------------------------------------------
  // test/createStore.test.ts

  /** The reducer of test/createStore.test.ts: like `StoreReducer`, but its
      state defaults to `'INIT'`. */
  function CreationReducer(state: Value, action: Action): Outcome {
    if action.tag == "FIRST" then Returned(Str("First"))
    else if action.tag == "SECOND" then Returned(One("value", "Second"))
    else Returned(Default(state, Str("INIT")))
  }

  /** `createStore(reducer)` performs no initial dispatch: the state is the
      missing preloaded state, `undefined`, not the `'INIT'` the reducer's
      default would give and the test expects. */
  lemma NoInitialDispatch()
    ensures GetState(CreateStore(CreationReducer, Undefined)) == Ok(Undefined)
    ensures CreationReducer(Undefined, Act("@@INIT")) == Returned(Str("INIT"))
    ensures Ok(Undefined) != Ok(Str("INIT"))
  {
  }

  /** A store built with a composite preloaded state publishes it unfrozen
      until the first dispatch. */
  lemma PreloadedStateNotFrozen()
    ensures GetState(CreateStore(StoreReducer, One("value", "x"))) == Ok(Obj(map["value" := Str("x")], false))
  {
  }

  // -----------------------------------------------------------------------
  // test/combinReducers.test.ts

  function Reducer1(state: Value, action: Action): Outcome {
    if action.tag == "ONE_ONE" then Returned(One("value", "ONE"))
    else if action.tag == "ONE_TWO" then Returned(One("value", "TWO"))
    else if action.tag == "TWO_ONE" then Returned(One("other", "ahh"))
    else Returned(Default(state, Str("INIT_ONE")))
  }

  function Reducer2(state: Value, action: Action): Outcome {
    if action.tag == "TWO_ONE" then Returned(One("value", "ONE"))
    else if action.tag == "TWO_TWO" then Returned(One("value", "TWO"))
    else if action.tag == "ONE_ONE" then Returned(One("other", "opp"))
    else Returned(Default(state, Str("INIT_TWO")))
  }

  function BadReducer(state: Value, action: Action): Outcome {
    if action.tag == "ONE" then Returned(One("value", "ONE"))
    else if action.tag == "OPP" then Returned(Undefined)
    else Returned(Default(state, Str("INIT")))
  }

  function Pair(k1: string, r1: Reducer, k2: string, r2: Reducer): WfRecord<Reducer>
    requires k1 != k2
  {
    var entries: map<string, Reducer> := map[k1 := r1, k2 := r2];
    Record([k1, k2], entries)
  }

  function Two(k1: string, v1: Value, k2: string, v2: Value): Value {
    Obj(map[k1 := v1, k2 := v2], false)
  }

  /** The combinator's loop over a two-key record whose sub-reducers both return. */
  lemma FoldPair(k1: string, r1: Reducer, k2: string, r2: Reducer, run: Runner)
    requires k1 != k2 && run(r1, k1).Returned? && run(r2, k2).Returned?
    ensures FoldKeys(Pair(k1, r1, k2, r2), run, 0, map[])
         == Returned(Two(k1, run(r1, k1).value, k2, run(r2, k2).value))
  {
    var rs := Pair(k1, r1, k2, r2);
    assert rs.keys == [k1, k2] && rs.entries[k1] == r1 && rs.entries[k2] == r2;
    var v1 := run(r1, k1).value;
    var v2 := run(r2, k2).value;
    assert Step(rs, run, 0) == Returned(v1);
    assert FoldKeys(rs, run, 0, map[]) == FoldKeys(rs, run, 1, map[k1 := v1]);
    assert Step(rs, run, 1) == Returned(v2);
    assert FoldKeys(rs, run, 1, map[k1 := v1]) == FoldKeys(rs, run, 2, map[k1 := v1, k2 := v2]);
  }

  /** `combineReducers` as written on a two-key record whose sub-reducers
      both return. */
  lemma CombinePair(k1: string, r1: Reducer, k2: string, r2: Reducer, state: Value, action: Action)
    requires k1 != k2 && r1(state, action).Returned? && r2(state, action).Returned?
    ensures CombineReducers(Pair(k1, r1, k2, r2))(state, action)
         == Returned(Two(k1, r1(state, action).value, k2, r2(state, action).value))
  {
    var run := (f: Reducer, k: string) => f(state, action);
    assert CombineReducers(Pair(k1, r1, k2, r2))(state, action) == FoldKeys(Pair(k1, r1, k2, r2), run, 0, map[]);
    assert run(r1, k1) == r1(state, action);
    assert run(r2, k2) == r2(state, action);
    FoldPair(k1, r1, k2, r2, run);
  }

  /** The corrected combinator on a two-key record: both slices return
      defined values. */
  lemma IntendedPair(k1: string, r1: Reducer, k2: string, r2: Reducer, state: Value, action: Action)
    requires k1 != k2
    requires r1(Slice(state, k1), action).Returned? && r1(Slice(state, k1), action).value != Undefined
    requires r2(Slice(state, k2), action).Returned? && r2(Slice(state, k2), action).value != Undefined
    ensures CombineReducersIntended(Pair(k1, r1, k2, r2))(state, action)
         == Returned(Two(k1, r1(Slice(state, k1), action).value, k2, r2(Slice(state, k2), action).value))
  {
    var run := (f: Reducer, k: string) => RejectUndefined(f(Slice(state, k), action), k);
    assert CombineReducersIntended(Pair(k1, r1, k2, r2))(state, action) == FoldKeys(Pair(k1, r1, k2, r2), run, 0, map[]);
    assert run(r1, k1) == RejectUndefined(r1(Slice(state, k1), action), k1);
    assert run(r2, k2) == RejectUndefined(r2(Slice(state, k2), action), k2);
    FoldPair(k1, r1, k2, r2, run);
  }

  /** As written, `combineReducers({first, second})({}, UNKNOWN)` hands the
      whole `{}` to each sub-reducer, so neither default applies: the result
      is `{first: {}, second: {}}`, not `{first: 'INIT_ONE', second: 'INIT_TWO'}`. */
  lemma WholeStateWitness()
    ensures var empty := Obj(map[], false);
      && CombineReducers(Pair("first", Reducer1, "second", Reducer2))(empty, Act("UNKNOWN"))
         == Returned(Two("first", empty, "second", empty))
      && Two("first", empty, "second", empty) != Two("first", Str("INIT_ONE"), "second", Str("INIT_TWO"))
  {
    var empty := Obj(map[], false);
    assert Reducer1(empty, Act("UNKNOWN")) == Returned(empty);
    assert Reducer2(empty, Act("UNKNOWN")) == Returned(empty);
    CombinePair("first", Reducer1, "second", Reducer2, empty, Act("UNKNOWN"));
    assert Two("first", empty, "second", empty).fields["first"] != Str("INIT_ONE");
  }

  /** As written, a sub-reducer returning `undefined` does not make the
      combined reducer throw: `undefined` is stored under its key. */
  lemma NoUndefinedGuardWitness()
    ensures var empty := Obj(map[], false);
      var rs := Pair("good", Reducer1, "bad", BadReducer);
      var next1 := Two("good", empty, "bad", empty);
      && CombineReducers(rs)(empty, Act("UNKNOWN")) == Returned(next1)
      && CombineReducers(rs)(next1, Act("OPP")) == Returned(Two("good", next1, "bad", Undefined))
  {
    var empty := Obj(map[], false);
    var next1 := Two("good", empty, "bad", empty);
    assert Reducer1(empty, Act("UNKNOWN")) == Returned(empty);
    assert BadReducer(empty, Act("UNKNOWN")) == Returned(empty);
    CombinePair("good", Reducer1, "bad", BadReducer, empty, Act("UNKNOWN"));
    assert Reducer1(next1, Act("OPP")) == Returned(next1);
    assert BadReducer(next1, Act("OPP")) == Returned(Undefined);
    CombinePair("good", Reducer1, "bad", BadReducer, next1, Act("OPP"));
  }

  /** The corrected combinator meets the test's expectations: the unknown
      action yields the defaults and ONE_ONE then yields both new slices. */
  lemma IntendedMeetsTransferTest()
    ensures var empty := Obj(map[], false);
      var rs := Pair("first", Reducer1, "second", Reducer2);
      var next1 := Two("first", Str("INIT_ONE"), "second", Str("INIT_TWO"));
      && CombineReducersIntended(rs)(empty, Act("UNKNOWN")) == Returned(next1)
      && CombineReducersIntended(rs)(next1, Act("ONE_ONE"))
         == Returned(Two("first", One("value", "ONE"), "second", One("other", "opp")))
  {
    var empty := Obj(map[], false);
    var next1 := Two("first", Str("INIT_ONE"), "second", Str("INIT_TWO"));
    assert Slice(empty, "first") == Undefined && Slice(empty, "second") == Undefined;
    assert Reducer1(Undefined, Act("UNKNOWN")) == Returned(Str("INIT_ONE"));
    assert Reducer2(Undefined, Act("UNKNOWN")) == Returned(Str("INIT_TWO"));
    IntendedPair("first", Reducer1, "second", Reducer2, empty, Act("UNKNOWN"));
    assert Reducer1(Slice(next1, "first"), Act("ONE_ONE")) == Returned(One("value", "ONE"));
    assert Reducer2(Slice(next1, "second"), Act("ONE_ONE")) == Returned(One("other", "opp"));
    IntendedPair("first", Reducer1, "second", Reducer2, next1, Act("ONE_ONE"));
  }

  /** With the corrected combinator the `undefined` returned for OPP makes
      the combined call throw. */
  lemma IntendedMeetsUndefinedTest()
    ensures var empty := Obj(map[], false);
      var bad := Pair("good", Reducer1, "bad", BadReducer);
      var next1 := Two("good", Str("INIT_ONE"), "bad", Str("INIT"));
      && CombineReducersIntended(bad)(empty, Act("UNKNOWN")) == Returned(next1)
      && CombineReducersIntended(bad)(next1, Act("OPP")).Threw?
  {
    var empty := Obj(map[], false);
    var next1 := Two("good", Str("INIT_ONE"), "bad", Str("INIT"));
    assert Slice(empty, "good") == Undefined && Slice(empty, "bad") == Undefined;
    assert Reducer1(Undefined, Act("UNKNOWN")) == Returned(Str("INIT_ONE"));
    assert BadReducer(Undefined, Act("UNKNOWN")) == Returned(Str("INIT"));
    IntendedPair("good", Reducer1, "bad", BadReducer, empty, Act("UNKNOWN"));
    assert Slice(next1, "bad") == Str("INIT");
    assert BadReducer(Str("INIT"), Act("OPP")) == Returned(Undefined);
    IntendedRejectsUndefined(Pair("good", Reducer1, "bad", BadReducer), next1, Act("OPP"), "bad");
  }
}

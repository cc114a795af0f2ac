/** The `Store` of src/index.ts as an immutable record with pure transitions.

    The store's mutable fields become the fields of `Store`; the listener
    array holds function references (`Listener` identities, so the same
    function can sit in it more than once). Every call to `subscrible`
    creates a closure with its own `isSubscribled` flag; those flags are kept
    in `subscriptions`, in the order the calls were made, and an
    `Unsubscriber` is the position of its flag there. */
module Stores {
  import opened Values
  import opened Sequences

  /** The identity of a listener function reference. */
  type Listener = nat

  /** One `subscrible` call: the function it pushed and its closure's flag. */
  datatype Subscription = Subscription(listener: Listener, subscribed: bool)

  /** The unsubscribe closure returned by `subscrible`. */
  datatype Unsubscriber = Unsubscriber(slot: nat)

  datatype Store = Store(
    state: Value,
    reducer: Reducer,
    listeners: seq<Listener>,
    dispatching: bool,
    subscriptions: seq<Subscription>)

  /** What `dispatch` ends with: it returns the action after notifying the
      listeners (in the order given), or throws. */
  datatype DispatchResult =
    | Dispatched(store: Store, action: Action, notified: seq<Listener>)
    | Failed(store: Store, error: Error)

  /** What `subscrible` returns, with the store it leaves behind. */
  datatype Subscribed = Subscribed(store: Store, unsubscribe: Unsubscriber)

  // ---------------------------------------------------------------------
  // Listener bookkeeping

  /** The listeners of the registrations whose closure is still armed. */
  function ActiveListeners(subs: seq<Subscription>): multiset<Listener>
  {
    if |subs| == 0 then multiset{}
    else
      var last := subs[|subs| - 1];
      ActiveListeners(subs[..|subs| - 1])
        + (if last.subscribed then multiset{last.listener} else multiset{})
  }

  /** The listener of every registration ever made, in registration order. */
  function Registered(subs: seq<Subscription>): (r: seq<Listener>)
    ensures |r| == |subs|
    ensures forall i :: 0 <= i < |subs| ==> r[i] == subs[i].listener
  {
    if |subs| == 0 then [] else Registered(subs[..|subs| - 1]) + [subs[|subs| - 1].listener]
  }

  /** The store's bookkeeping invariant: the listener array holds exactly
      one entry per armed registration (as a multiset), and it is a
      subsequence of the history of registrations. When one function is
      registered more than once, `indexOf` removes its first entry whichever
      registration is cancelled, so the array need not list the armed
      registrations in the order they were made. */
  predicate Valid(s: Store) {
    && multiset(s.listeners) == ActiveListeners(s.subscriptions)
    && Subseq(s.listeners, Registered(s.subscriptions))
  }

  lemma {:induction false} ActiveListenersAppend(subs: seq<Subscription>, l: Listener)
    ensures ActiveListeners(subs + [Subscription(l, true)]) == ActiveListeners(subs) + multiset{l}
  {
    assert (subs + [Subscription(l, true)])[..|subs|] == subs;
  }

  lemma {:induction false} RegisteredUpdate(subs: seq<Subscription>, i: nat, b: bool)
    requires i < |subs|
    ensures Registered(subs[i := subs[i].(subscribed := b)]) == Registered(subs)
  {
  }

  /** An armed registration's listener is counted among the active ones. */
  lemma {:induction false} ArmedIsActive(subs: seq<Subscription>, i: nat)
    requires i < |subs| && subs[i].subscribed
    ensures subs[i].listener in ActiveListeners(subs)
    decreases |subs|
  {
    if i < |subs| - 1 {
      ArmedIsActive(subs[..|subs| - 1], i);
    }
  }

  /** Disarming one armed registration takes exactly its listener out of
      the active ones. */
  lemma {:induction false} DisarmActive(subs: seq<Subscription>, i: nat)
    requires i < |subs| && subs[i].subscribed
    ensures ActiveListeners(subs[i := subs[i].(subscribed := false)])
         == ActiveListeners(subs) - multiset{subs[i].listener}
    decreases |subs|
  {
    var subs' := subs[i := subs[i].(subscribed := false)];
    var n := |subs| - 1;
    if i == n {
      assert subs'[..n] == subs[..n];
    } else {
      assert subs'[..n] == subs[..n][i := subs[i].(subscribed := false)];
      DisarmActive(subs[..n], i);
      ArmedIsActive(subs[..n], i);
    }
  }

  // ---------------------------------------------------------------------
  // Construction

  /** `createStore(reducer, preloadedState)`: the state is exactly the
      preloaded one, with no listeners, in the Idle phase. The reducer is not
      called. */
  function CreateStore(reducer: Reducer, preloadedState: Value): (s: Store)
    ensures s.state == preloadedState && s.reducer == reducer
    ensures s.listeners == [] && s.subscriptions == [] && !s.dispatching
    ensures Valid(s)
  {
    Store(preloadedState, reducer, [], false, [])
  }

  // ---------------------------------------------------------------------
  // The three guarded operations

  /** `getState()`: rejected while a reducer runs, otherwise the state. */
  function GetState(s: Store): (r: Result<Value>)
    ensures r.Err? <==> s.dispatching
    ensures r.Err? ==> r.error == GetStateInReducer
    ensures r.Ok? ==> r.value == s.state
  {
    if s.dispatching then Err(GetStateInReducer) else Ok(s.state)
  }

  /** The part of `dispatch` before the reducer runs: the guard, then the
      switch to the Dispatching phase. */
  function BeginDispatch(s: Store): (r: Result<Store>)
    ensures r.Err? <==> s.dispatching
    ensures r.Err? ==> r.error == DispatchInReducer
    ensures r.Ok? ==> r.value == s.(dispatching := true)
  {
    if s.dispatching then Err(DispatchInReducer) else Ok(s.(dispatching := true))
  }

  /** The part of `dispatch` after the reducer ran: the `finally` block
      clears the flag on both paths; a returned state is frozen (if composite)
      and published, then every listener in the array is called in order and
      the action is returned; a thrown error leaves state and listeners alone
      and propagates. */
  function FinishDispatch(s: Store, action: Action, outcome: Outcome): (r: DispatchResult)
    ensures !r.store.dispatching
    ensures r.store.reducer == s.reducer
    ensures r.store.listeners == s.listeners && r.store.subscriptions == s.subscriptions
    ensures r.Dispatched? <==> outcome.Returned?
    ensures outcome.Returned? ==>
      && r.store.state == Freeze(outcome.value)
      && r.action == action
      && r.notified == s.listeners
    ensures outcome.Threw? ==> r.store.state == s.state && r.error == outcome.error
  {
    match outcome
    case Returned(next) =>
      var s' := s.(state := Freeze(next), dispatching := false);
      Dispatched(s', action, s'.listeners)
    case Threw(e) =>
      Failed(s.(dispatching := false), e)
  }

  /** `dispatch(action)`. */
  function Dispatch(s: Store, action: Action): (r: DispatchResult)
    ensures s.dispatching ==> r == Failed(s, DispatchInReducer)
    ensures !s.dispatching ==> !r.store.dispatching
    ensures r.store.reducer == s.reducer
    ensures r.store.listeners == s.listeners && r.store.subscriptions == s.subscriptions
    ensures !s.dispatching && s.reducer(s.state, action).Returned? ==>
      && r.Dispatched?
      && r.store.state == Freeze(s.reducer(s.state, action).value)
      && r.action == action
      && r.notified == s.listeners
    ensures !s.dispatching && s.reducer(s.state, action).Threw? ==>
      r == Failed(s, s.reducer(s.state, action).error)
  {
    match BeginDispatch(s)
    case Err(e) => Failed(s, e)
    case Ok(running) => FinishDispatch(running, action, running.reducer(running.state, action))
  }

  /** `subscrible(listener)`: rejected while a reducer runs; otherwise the
      listener is pushed at the end of the array and a fresh, armed
      registration is made whose unsubscriber is returned. */
  function Subscribe(s: Store, l: Listener): (r: Result<Subscribed>)
    ensures r.Err? <==> s.dispatching
    ensures r.Err? ==> r.error == SubscribeInReducer
    ensures r.Ok? ==>
      && r.value.store.listeners == s.listeners + [l]
      && r.value.store.subscriptions == s.subscriptions + [Subscription(l, true)]
      && r.value.unsubscribe.slot == |s.subscriptions|
      && r.value.store.state == s.state
      && r.value.store.dispatching == s.dispatching
      && r.value.store.reducer == s.reducer
  {
    if s.dispatching then Err(SubscribeInReducer)
    else
      var s' := s.(listeners := s.listeners + [l],
                   subscriptions := s.subscriptions + [Subscription(l, true)]);
      Ok(Subscribed(s', Unsubscriber(|s.subscriptions|)))
  }

  /** Calling an unsubscriber: nothing once its flag is cleared; otherwise
      the first occurrence of its listener is spliced out of the array and
      the flag is cleared, and if the listener is not in the array nothing
      happens. The closure has no phase guard. */
  function Unsubscribe(s: Store, u: Unsubscriber): (r: Store)
    requires u.slot < |s.subscriptions|
    ensures r.state == s.state && r.dispatching == s.dispatching && r.reducer == s.reducer
    ensures |r.subscriptions| == |s.subscriptions|
    ensures forall i :: 0 <= i < |s.subscriptions| && i != u.slot ==>
      r.subscriptions[i] == s.subscriptions[i]
    ensures r.subscriptions[u.slot].listener == s.subscriptions[u.slot].listener
    ensures |s.listeners| - 1 <= |r.listeners| <= |s.listeners|
    ensures !s.subscriptions[u.slot].subscribed ==> r == s
    ensures |r.listeners| < |s.listeners| <==> !r.subscriptions[u.slot].subscribed && s.subscriptions[u.slot].subscribed
  {
    var sub := s.subscriptions[u.slot];
    if !sub.subscribed then s
    else
      var pos := IndexOf(s.listeners, sub.listener);
      if pos >= 0 then
        s.(listeners := RemoveAt(s.listeners, pos),
           subscriptions := s.subscriptions[u.slot := sub.(subscribed := false)])
      else s
  }

  // ---------------------------------------------------------------------
  // Properties

  /** Right after construction `getState()` returns the preloaded state. */
  lemma CreateThenGetState(reducer: Reducer, preloadedState: Value)
    ensures GetState(CreateStore(reducer, preloadedState)) == Ok(preloadedState)
  {
  }

  /** While a reducer runs (after `BeginDispatch`), each of `getState`,
      `dispatch` and `subscrible` is rejected with its own error and leaves
      the store exactly as it was. */
  lemma ReentrantCallsRejected(s: Store, action: Action, l: Listener)
    requires !s.dispatching
    ensures BeginDispatch(s).Ok?
    ensures GetState(BeginDispatch(s).value) == Err(GetStateInReducer)
    ensures Dispatch(BeginDispatch(s).value, action) == Failed(BeginDispatch(s).value, DispatchInReducer)
    ensures Subscribe(BeginDispatch(s).value, l) == Err(SubscribeInReducer)
  {
  }

  /** Whatever a reducer throws (including the error of a re-entrant call
      it made), the `finally` block leaves the store exactly as it was
      before the dispatch, Idle again, so the next dispatch is accepted. */
  lemma ThrowingReducerLeavesStoreUsable(s: Store, action: Action, e: Error)
    requires !s.dispatching
    ensures BeginDispatch(s).Ok?
    ensures FinishDispatch(BeginDispatch(s).value, action, Threw(e)) == Failed(s, e)
    ensures BeginDispatch(FinishDispatch(BeginDispatch(s).value, action, Threw(e)).store).Ok?
  {
  }

  /** After a dispatch that starts Idle, whatever the reducer does, the
      store is Idle again and the next dispatch is accepted. */
  lemma DispatchNeverLeavesFlagSet(s: Store, action: Action)
    requires !s.dispatching
    ensures !Dispatch(s, action).store.dispatching
    ensures BeginDispatch(Dispatch(s, action).store).Ok?
  {
  }

  /** Every operation keeps the bookkeeping invariant. */
  lemma DispatchPreservesValid(s: Store, action: Action)
    requires Valid(s)
    ensures Valid(Dispatch(s, action).store)
  {
  }

  lemma {:induction false} SubscribePreservesValid(s: Store, l: Listener)
    requires Valid(s) && !s.dispatching
    ensures Subscribe(s, l).Ok? && Valid(Subscribe(s, l).value.store)
  {
    var s' := Subscribe(s, l).value.store;
    ActiveListenersAppend(s.subscriptions, l);
    SubseqAppend(s.listeners, Registered(s.subscriptions), l);
    assert Registered(s'.subscriptions) == Registered(s.subscriptions) + [l];
  }

  lemma {:induction false} UnsubscribePreservesValid(s: Store, u: Unsubscriber)
    requires Valid(s) && u.slot < |s.subscriptions|
    ensures Valid(Unsubscribe(s, u))
  {
    var sub := s.subscriptions[u.slot];
    if sub.subscribed {
      ArmedIsActive(s.subscriptions, u.slot);
      assert sub.listener in multiset(s.listeners);
      var pos := IndexOf(s.listeners, sub.listener);
      DisarmActive(s.subscriptions, u.slot);
      RegisteredUpdate(s.subscriptions, u.slot, false);
      SubseqRemoveAt(s.listeners, Registered(s.subscriptions), pos);
    }
  }

  /** In a valid store the first call of an armed unsubscriber always
      finds its listener: exactly one entry, the first one holding that
      listener, is removed, the others keep their order, and the
      registration is disarmed. */
  lemma {:induction false} UnsubscribeRemovesExactlyOne(s: Store, u: Unsubscriber)
    requires Valid(s) && u.slot < |s.subscriptions| && s.subscriptions[u.slot].subscribed
    ensures var l := s.subscriptions[u.slot].listener;
      && l in s.listeners
      && Unsubscribe(s, u).listeners == RemoveAt(s.listeners, IndexOf(s.listeners, l))
      && multiset(Unsubscribe(s, u).listeners) == multiset(s.listeners) - multiset{l}
      && !Unsubscribe(s, u).subscriptions[u.slot].subscribed
  {
    ArmedIsActive(s.subscriptions, u.slot);
    assert s.subscriptions[u.slot].listener in multiset(s.listeners);
  }

  /** Calling an unsubscriber a second time changes nothing, so one
      registration never removes more than one entry. */
  lemma UnsubscribeIdempotent(s: Store, u: Unsubscriber)
    requires u.slot < |s.subscriptions|
    ensures Unsubscribe(Unsubscribe(s, u), u) == Unsubscribe(s, u)
  {
  }

  /** Subscribing the same function twice and unsubscribing through the
      first unsubscriber leaves the second registration armed and the
      function in the array exactly as often as before plus one. */
  lemma {:induction false} IndependentRegistrations(s: Store, l: Listener)
    requires Valid(s) && !s.dispatching
    ensures Subscribe(s, l).Ok?
    ensures var first := Subscribe(s, l).value;
      Subscribe(first.store, l).Ok? &&
      var second := Subscribe(first.store, l).value;
      var after := Unsubscribe(second.store, first.unsubscribe);
      && after.subscriptions[second.unsubscribe.slot].subscribed
      && multiset(after.listeners)[l] == multiset(s.listeners)[l] + 1
      && Valid(after)
  {
    SubscribePreservesValid(s, l);
    var first := Subscribe(s, l).value;
    SubscribePreservesValid(first.store, l);
    var second := Subscribe(first.store, l).value;
    UnsubscribeRemovesExactlyOne(second.store, first.unsubscribe);
    UnsubscribePreservesValid(second.store, first.unsubscribe);
  }

  /** A successful dispatch notifies once per armed registration, as a
      subsequence of the registration history, from the published (Idle)
      store. */
  lemma NotifiesEachRegistrationOnce(s: Store, action: Action)
    requires Valid(s)
    requires Dispatch(s, action).Dispatched?
    ensures var r := Dispatch(s, action);
      && multiset(r.notified) == ActiveListeners(s.subscriptions)
      && Subseq(r.notified, Registered(s.subscriptions))
      && !r.store.dispatching
      && r.notified == r.store.listeners
  {
  }

  /** Subscribing the same listener twice and unsubscribing through the
      first unsubscriber: the next successful dispatch still calls the
      listener once more than before the two subscriptions. */
  lemma {:induction false} SecondRegistrationStillNotified(s: Store, l: Listener, action: Action)
    requires Valid(s) && !s.dispatching && s.reducer(s.state, action).Returned?
    ensures Subscribe(s, l).Ok?
    ensures var first := Subscribe(s, l).value;
      Subscribe(first.store, l).Ok? &&
      var second := Subscribe(first.store, l).value;
      var r := Dispatch(Unsubscribe(second.store, first.unsubscribe), action);
      && r.Dispatched?
      && multiset(r.notified)[l] == multiset(s.listeners)[l] + 1
  {
    IndependentRegistrations(s, l);
  }
}

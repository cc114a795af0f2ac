/** `bindActionCreators`, `transform` and `isActionCreator`: wrapping action
    creators so that calling a wrapper dispatches the created action. The
    dispatch function is a parameter; its result type `R` is left open. */
module Bind {
  import opened Values
  import opened Records

  /** The argument list a wrapper is called with, as one opaque value. */
  type Args = Value

  type ActionCreator = Args -> Action

  /** A wrapper `(...args) => dispatch(actionCreator(args))`. */
  type Wrapped<R> = Args -> R

  /** The first argument of `bindActionCreators`: one creator function with
      no enumerable own properties (such as the tests' `addTodo`), or an
      object whose properties are creators. */
  datatype Creators =
    | Creator(fn: ActionCreator)
    | CreatorRecord(creators: WfRecord<ActionCreator>)

  /** What `bindActionCreators` returns: one wrapper, or an object of them. */
  datatype Bound<R> =
    | BoundFn(wrapper: Wrapped<R>)
    | BoundRecord(wrappers: WfRecord<Wrapped<R>>)

  /** `x instanceof Object`: functions and object literals both inherit
      from `Object.prototype`. Null-prototype and cross-realm values, for
      which it is false, are not represented. */
  predicate InstanceOfObject(x: Creators) {
    match x
    case Creator(_) => true
    case CreatorRecord(_) => true
  }

  /** `isActionCreator(x)`, i.e. `!(x instanceof Object)`: it rejects a bare
      creator function too, since a function is an object. */
  function IsActionCreator(x: Creators): (r: bool)
    ensures x.Creator? ==> !r
    ensures x.CreatorRecord? ==> !r
  {
    !InstanceOfObject(x)
  }

  /** The pairs `Object.keys(x)` walks over: none for a creator function
      with no enumerable own properties, the only kind `Creator` stands for. */
  function OwnEntries(x: Creators): (r: WfRecord<ActionCreator>)
    ensures x.Creator? ==> r.keys == [] && r.entries == map[]
    ensures x.CreatorRecord? ==> r == x.creators
  {
    match x
    case Creator(_) => EmptyRecord()
    case CreatorRecord(rec) => rec
  }

  /** `transform(actionCreator, dispatch)`. */
  function Transform<R>(creator: ActionCreator, dispatch: Action -> R): (w: Wrapped<R>)
    ensures forall args :: w(args) == dispatch(creator(args))
  {
    (args: Args) => dispatch(creator(args))
  }

  /** Every wrapper in `out` sits under a key of `rec` and dispatches what
      the creator under that key creates. */
  ghost predicate WrapsEach<R>(rec: WfRecord<ActionCreator>, dispatch: Action -> R, out: WfRecord<Wrapped<R>>) {
    forall k :: k in out.entries ==>
      k in rec.entries && forall args :: out.entries[k](args) == dispatch(rec.entries[k](args))
  }

  /** The `for (const key of keys)` loop from key `i` on, with `acc` the
      result object built from the keys before `i`. */
  function BindFrom<R>(rec: WfRecord<ActionCreator>, dispatch: Action -> R, i: nat, acc: WfRecord<Wrapped<R>>)
    : (r: WfRecord<Wrapped<R>>)
    requires i <= |rec.keys| && acc.keys == rec.keys[..i]
    requires WrapsEach(rec, dispatch, acc)
    ensures r.keys == rec.keys
    ensures WrapsEach(rec, dispatch, r)
    decreases |rec.keys| - i
  {
    if i == |rec.keys| then
      assert rec.keys[..i] == rec.keys;
      acc
    else
      var key := rec.keys[i];
      assert key !in acc.keys by {
        forall j | 0 <= j < i
          ensures rec.keys[j] != key
        {
        }
      }
      assert rec.keys[..i + 1] == acc.keys + [key];
      var acc' := Record(acc.keys + [key], acc.entries[key := Transform(rec.entries[key], dispatch)]);
      BindFrom(rec, dispatch, i + 1, acc')
  }

  /** `bindActionCreators(actionCreators, dispatch)` as written. Because
      `IsActionCreator` holds of no modelled argument, the single-creator
      branch is never taken and every argument goes through the key-by-key loop. */
  function BindActionCreators<R>(x: Creators, dispatch: Action -> R): (r: Bound<R>)
    ensures r.BoundRecord?
    ensures r.wrappers.keys == OwnEntries(x).keys
    ensures forall k :: k in r.wrappers.entries <==> k in OwnEntries(x).entries
    ensures forall k, args :: k in r.wrappers.entries ==>
      r.wrappers.entries[k](args) == dispatch(OwnEntries(x).entries[k](args))
  {
    assert !IsActionCreator(x);
    BoundRecord(BindFrom(OwnEntries(x), dispatch, 0, EmptyRecord()))
  }

  /** Binding one creator function with no enumerable own properties
      yields an empty object: the creator can never be reached through the
      result. */
  lemma SingleCreatorYieldsEmptyRecord<R>(c: ActionCreator, dispatch: Action -> R)
    ensures BindActionCreators(Creator(c), dispatch) == BoundRecord(EmptyRecord())
  {
  }

  // -----------------------------------------------------------------------
  // The discrimination the type guard `actionCreators is ActionCreator`
  // (src/index.ts:150) announces

  /** Whether the argument is callable, the test `isActionCreator` was
      meant to make. */
  predicate IsCallable(x: Creators) {
    x.Creator?
  }

  /** The corrected binder: a bare creator is wrapped itself, an object of
      creators is wrapped key by key. */
  function BindActionCreatorsIntended<R>(x: Creators, dispatch: Action -> R): (r: Bound<R>)
  {
    if IsCallable(x) then BoundFn(Transform(x.fn, dispatch))
    else BoundRecord(BindFrom(OwnEntries(x), dispatch, 0, EmptyRecord()))
  }

  /** With the corrected test a single creator comes back as one wrapper
      that dispatches what the creator creates, and an object of creators
      comes back with the same keys, each wrapper dispatching its own
      creator's action. */
  lemma BindIntendedKeepsShape<R>(x: Creators, dispatch: Action -> R)
    ensures x.Creator? ==>
      && BindActionCreatorsIntended(x, dispatch).BoundFn?
      && forall args :: BindActionCreatorsIntended(x, dispatch).wrapper(args) == dispatch(x.fn(args))
    ensures x.CreatorRecord? ==>
      && BindActionCreatorsIntended(x, dispatch).BoundRecord?
      && BindActionCreatorsIntended(x, dispatch).wrappers.keys == x.creators.keys
      && forall k, args :: k in BindActionCreatorsIntended(x, dispatch).wrappers.entries ==>
           BindActionCreatorsIntended(x, dispatch).wrappers.entries[k](args) == dispatch(x.creators.entries[k](args))
  {
  }
}

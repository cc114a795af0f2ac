/** The values a tudux store holds and passes around: JavaScript values as far
    as the store observes them, actions, the errors it raises, and the outcome
    of calling an opaque user callback (a reducer). */
module Values {

  /** A JavaScript value. Numbers are modelled as integers; every composite
      value (plain object, array, function) is an `Obj`, whose top-level
      frozen mark records whether `Object.freeze` has been applied to it. */
  datatype Value =
    | Undefined
    | Null
    | Bool(b: bool)
    | Num(n: int)
    | Str(s: string)
    | Obj(fields: map<string, Value>, frozen: bool)

  /** `v instanceof Object`: true of composite values, false of primitives,
      `null` and `undefined`. Every modelled composite value inherits from
      `Object.prototype`. */
  predicate IsComposite(v: Value) {
    v.Obj?
  }

  /** `Object.freeze` as the store applies it to a reducer's result: a
      composite value gets its top-level frozen mark, a primitive is left as
      it is. The freeze is shallow, as `Object.freeze` is: nested values keep
      their own marks. */
  function Freeze(v: Value): (r: Value)
    ensures IsComposite(r) <==> IsComposite(v)
    ensures IsComposite(v) ==> r.fields == v.fields && r.frozen
    ensures !IsComposite(v) ==> r == v
  {
    if IsComposite(v) then v.(frozen := true) else v
  }

  /** Freezing a value twice is the same as freezing it once. */
  lemma FreezeIdempotent(v: Value)
    ensures Freeze(Freeze(v)) == Freeze(v)
  {
  }

  /** The freeze only touches the outer object: a nested composite value
      that was not frozen before is still not frozen afterwards. */
  lemma FreezeIsShallow(v: Value, k: string)
    requires IsComposite(v) && k in v.fields
    ensures k in Freeze(v).fields && Freeze(v).fields[k] == v.fields[k]
  {
  }

  /** An action: a `type` tag plus arbitrary payload fields. */
  datatype Action = Action(tag: string, payload: map<string, Value>)

  /** The failures the store raises, plus whatever a user callback throws. */
  datatype Error =
    | GetStateInReducer
    | DispatchInReducer
    | SubscribeInReducer
    | Raised(reason: Value)
    | UndefinedSlice(key: string)

  /** What calling a reducer does: it returns a value or throws. */
  datatype Outcome = Returned(value: Value) | Threw(error: Error)

  /** A reducer is an opaque total function of the previous state and the
      action; any side effects it has are outside this model. */
  type Reducer = (Value, Action) -> Outcome

  /** The result of a store operation that can be rejected. */
  datatype Result<T> = Ok(value: T) | Err(error: Error)
}

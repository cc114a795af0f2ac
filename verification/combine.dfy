/** `combineReducers`: one reducer built from a record of sub-reducers. */
module Combine {
  import opened Values
  import opened Records

  /** How the loop body calls the sub-reducer stored under a key. */
  type Runner = (Reducer, string) -> Outcome

  /** What the loop body produces for the `j`-th key. */
  function Step(rs: WfRecord<Reducer>, run: Runner, j: nat): Outcome
    requires j < |rs.keys|
  {
    run(rs.entries[rs.keys[j]], rs.keys[j])
  }

  /** Keys `i` to `j - 1` all return and key `j` is the first to throw. */
  predicate ThrowsFirstAt(rs: WfRecord<Reducer>, run: Runner, i: nat, j: nat) {
    && i <= j < |rs.keys|
    && Step(rs, run, j).Threw?
    && (forall m :: i <= m < j ==> Step(rs, run, m).Returned?)
  }

  /** The `for (const key of keys)` loop from key `i` on, with `next` the
      record built so far: each key's result is stored under that key; the
      first throw abandons the record and propagates. It returns a fresh,
      unfrozen object exactly when no remaining key throws. */
  function FoldKeys(rs: WfRecord<Reducer>, run: Runner, i: nat, next: map<string, Value>): (r: Outcome)
    requires i <= |rs.keys|
    decreases |rs.keys| - i
    ensures r.Returned? <==> forall j :: i <= j < |rs.keys| ==> Step(rs, run, j).Returned?
    ensures r.Returned? ==> r.value.Obj? && !r.value.frozen
  {
    if i == |rs.keys| then Returned(Obj(next, false))
    else
      match Step(rs, run, i)
      case Threw(e) => Threw(e)
      case Returned(v) => FoldKeys(rs, run, i + 1, next[rs.keys[i] := v])
  }

  /** A returned record holds the keys built so far plus every remaining
      key, each remaining key holding its own sub-reducer's result. */
  lemma {:induction false} FoldKeysFields(rs: WfRecord<Reducer>, run: Runner, i: nat, next: map<string, Value>)
    requires i <= |rs.keys| && FoldKeys(rs, run, i, next).Returned?
    decreases |rs.keys| - i
    ensures var fields := FoldKeys(rs, run, i, next).value.fields;
      && (forall k :: k in fields <==> k in next || k in rs.keys[i..])
      && (forall j :: i <= j < |rs.keys| ==> fields[rs.keys[j]] == Step(rs, run, j).value)
      && (forall k :: k in next && k !in rs.keys[i..] ==> fields[k] == next[k])
  {
    if i < |rs.keys| {
      var key := rs.keys[i];
      var next' := next[key := Step(rs, run, i).value];
      FoldKeysFields(rs, run, i + 1, next');
      assert key !in rs.keys[i + 1..] by {
        forall j | i + 1 <= j < |rs.keys|
          ensures rs.keys[j] != key
        {
        }
      }
      assert rs.keys[i..] == [key] + rs.keys[i + 1..];
    }
  }

  /** A throw comes from the first key, in key order, whose sub-reducer throws. */
  lemma {:induction false} FoldKeysFirstThrow(rs: WfRecord<Reducer>, run: Runner, i: nat, next: map<string, Value>)
    requires i <= |rs.keys| && FoldKeys(rs, run, i, next).Threw?
    decreases |rs.keys| - i
    ensures exists j :: ThrowsFirstAt(rs, run, i, j) && FoldKeys(rs, run, i, next).error == Step(rs, run, j).error
  {
    var r := FoldKeys(rs, run, i, next);
    if Step(rs, run, i).Threw? {
      assert r.error == Step(rs, run, i).error;
      assert ThrowsFirstAt(rs, run, i, i);
    } else {
      var next' := next[rs.keys[i] := Step(rs, run, i).value];
      assert r == FoldKeys(rs, run, i + 1, next');
      FoldKeysFirstThrow(rs, run, i + 1, next');
      var j: nat :| ThrowsFirstAt(rs, run, i + 1, j) && r.error == Step(rs, run, j).error;
      assert ThrowsFirstAt(rs, run, i, j);
    }
  }

  /** Every key of a record sits at some position of its key list. */
  lemma KeyPositions<T>(rs: WfRecord<T>)
    ensures forall k :: k in rs.entries ==> exists j :: 0 <= j < |rs.keys| && rs.keys[j] == k
  {
    forall k | k in rs.entries
      ensures exists j :: 0 <= j < |rs.keys| && rs.keys[j] == k
    {
      assert k in rs.keys;
    }
  }

  /** `combineReducers(reducers)` as written: every sub-reducer is called
      with the whole previous state, and its result is stored whatever it
      is, `undefined` included. */
  function CombineReducers(rs: WfRecord<Reducer>): (r: Reducer)
    ensures forall state, action :: r(state, action).Returned? ==>
      r(state, action).value.Obj? && !r(state, action).value.frozen
  {
    (state: Value, action: Action) =>
      FoldKeys(rs, (f: Reducer, k: string) => f(state, action), 0, map[])
  }

  /** The combined reducer returns iff no sub-reducer throws; it then
      returns a fresh, unfrozen object whose keys are exactly the
      sub-reducers' keys, each holding its sub-reducer's result on the whole
      previous state. */
  lemma {:induction false} CombineReducersFanOut(rs: WfRecord<Reducer>, state: Value, action: Action)
    ensures var r := CombineReducers(rs)(state, action);
      && (r.Returned? <==> forall k :: k in rs.entries ==> rs.entries[k](state, action).Returned?)
      && (r.Returned? ==>
            && r.value.Obj? && !r.value.frozen
            && r.value.fields.Keys == rs.entries.Keys
            && forall k :: k in rs.entries ==> r.value.fields[k] == rs.entries[k](state, action).value)
  {
    var run := (f: Reducer, k: string) => f(state, action);
    var r := FoldKeys(rs, run, 0, map[]);
    assert CombineReducers(rs)(state, action) == r;
    forall j | 0 <= j < |rs.keys|
      ensures Step(rs, run, j) == rs.entries[rs.keys[j]](state, action)
    {
    }
    KeyPositions(rs);
    if r.Returned? {
      FoldKeysFields(rs, run, 0, map[]);
      assert rs.keys[0..] == rs.keys;
    }
  }

  /** Otherwise the combined reducer throws what the first sub-reducer, in
      key order, to throw threw. */
  lemma {:induction false} CombineReducersFirstThrow(rs: WfRecord<Reducer>, state: Value, action: Action)
    requires CombineReducers(rs)(state, action).Threw?
    ensures exists j ::
      (&& 0 <= j < |rs.keys|
       && ReturnsBefore(rs, state, action, j)
       && rs.entries[rs.keys[j]](state, action) == Threw(CombineReducers(rs)(state, action).error))
  {
    var run := (f: Reducer, k: string) => f(state, action);
    var r := FoldKeys(rs, run, 0, map[]);
    assert CombineReducers(rs)(state, action) == r;
    FoldKeysFirstThrow(rs, run, 0, map[]);
    var j: nat :| ThrowsFirstAt(rs, run, 0, j) && r.error == Step(rs, run, j).error;
    assert rs.entries[rs.keys[j]](state, action) == Threw(r.error);
    assert ReturnsBefore(rs, state, action, j) by {
      forall m | 0 <= m < j
        ensures rs.entries[rs.keys[m]](state, action).Returned?
      {
        assert Step(rs, run, m).Returned?;
      }
    }
  }

  /** Every key before position `j` has a sub-reducer that returns. */
  predicate ReturnsBefore(rs: WfRecord<Reducer>, state: Value, action: Action, j: nat)
    requires j <= |rs.keys|
  {
    forall m :: 0 <= m < j ==> rs.entries[rs.keys[m]](state, action).Returned?
  }

  // -----------------------------------------------------------------------
  // The behaviour test/combinReducers.test.ts expects

  /** `state[key]`: the previous value of one slice, `undefined` when the
      state has no such key or is not an object. */
  function Slice(state: Value, key: string): (v: Value)
    ensures state.Obj? && key in state.fields ==> v == state.fields[key]
    ensures !(state.Obj? && key in state.fields) ==> v == Undefined
  {
    if state.Obj? && key in state.fields then state.fields[key] else Undefined
  }

  /** A sub-reducer's result, with `undefined` turned into an error. */
  function RejectUndefined(out: Outcome, key: string): (r: Outcome)
    ensures r.Returned? <==> out.Returned? && out.value != Undefined
    ensures r.Returned? ==> r == out
  {
    if out == Returned(Undefined) then Threw(UndefinedSlice(key)) else out
  }

  /** The corrected combinator: each sub-reducer gets its own slice of the
      previous state, and an `undefined` result aborts the combined call. */
  function CombineReducersIntended(rs: WfRecord<Reducer>): Reducer {
    (state: Value, action: Action) =>
      FoldKeys(rs, (f: Reducer, k: string) => RejectUndefined(f(Slice(state, k), action), k), 0, map[])
  }

  /** The corrected combinator returns iff every sub-reducer returns a
      defined value on its own slice; the record then holds exactly those
      values under exactly the sub-reducers' keys. */
  lemma {:induction false} IntendedFanOut(rs: WfRecord<Reducer>, state: Value, action: Action)
    ensures var r := CombineReducersIntended(rs)(state, action);
      && (r.Returned? <==> forall k :: k in rs.entries ==>
            rs.entries[k](Slice(state, k), action).Returned? &&
            rs.entries[k](Slice(state, k), action).value != Undefined)
      && (r.Returned? ==>
            && r.value.Obj?
            && r.value.fields.Keys == rs.entries.Keys
            && forall k :: k in rs.entries ==>
                 r.value.fields[k] == rs.entries[k](Slice(state, k), action).value)
  {
    var run := (f: Reducer, k: string) => RejectUndefined(f(Slice(state, k), action), k);
    var r := FoldKeys(rs, run, 0, map[]);
    assert CombineReducersIntended(rs)(state, action) == r;
    forall j | 0 <= j < |rs.keys|
      ensures Step(rs, run, j) == RejectUndefined(rs.entries[rs.keys[j]](Slice(state, rs.keys[j]), action), rs.keys[j])
    {
    }
    KeyPositions(rs);
    if r.Returned? {
      FoldKeysFields(rs, run, 0, map[]);
      assert rs.keys[0..] == rs.keys;
    }
  }

  /** In particular a single sub-reducer returning `undefined` on its slice
      makes the corrected combinator fail, whatever the others return. */
  lemma IntendedRejectsUndefined(rs: WfRecord<Reducer>, state: Value, action: Action, k: string)
    requires k in rs.entries && rs.entries[k](Slice(state, k), action) == Returned(Undefined)
    ensures CombineReducersIntended(rs)(state, action).Threw?
  {
    IntendedFanOut(rs, state, action);
  }
}

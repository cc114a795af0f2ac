/** A JavaScript object used as a dictionary: its own enumerable keys in
    `Object.keys` order, and the value under each key. */
module Records {

  datatype Record<T> = Record(keys: seq<string>, entries: map<string, T>)

  /** `Object.keys` lists every key once, and lists exactly the object's keys. */
  ghost predicate WellFormed<T>(r: Record<T>) {
    && (forall i, j :: 0 <= i < j < |r.keys| ==> r.keys[i] != r.keys[j])
    && (forall k :: k in r.entries <==> k in r.keys)
  }

  type WfRecord<T> = r: Record<T> | WellFormed(r) witness Record([], map[])

  /** `{}`. */
  function EmptyRecord<T>(): (r: WfRecord<T>)
    ensures r.keys == [] && r.entries == map[]
  {
    Record([], map[])
  }
}

/** JavaScript values as far as the immutable-class factory can tell them apart. */
module Values {

  /** A JavaScript value. The factory only asks three things of a value: whether
      `typeof` calls it an 'object', which own enumerable properties it has (for
      `Object.assign`), and whether two values are the same (for redefining a
      read-only property). */
  datatype Value =
    | Undefined
    | Null                             // typeof null === 'object', with no own properties
    | Atom(token: int)                 // any value whose typeof is not 'object' and that is not undefined
    | Object(own: map<string, Value>)  // a non-null object, by its own enumerable properties

  /** `typeof v === 'object'` */
  predicate TypeofIsObject(v: Value) {
    v.Null? || v.Object?
  }

  /** The own enumerable properties that `Object.assign` copies out of `v`
      (it skips null; only values whose typeof is 'object' reach it here). */
  function OwnEnumerable(v: Value): map<string, Value> {
    if v.Object? then v.own else map[]
  }

  /** Reading `m[key]`: a missing property reads as undefined. */
  function Lookup(m: map<string, Value>, key: string): Value {
    if key in m then m[key] else Undefined
  }

  /** `Object.assign({}, target, source)`: a fresh object with the properties of
      `target`, each overridden by `source` where `source` has that key. */
  function Assign(target: map<string, Value>, source: map<string, Value>): (r: map<string, Value>)
    ensures r.Keys == target.Keys + source.Keys
    ensures forall k :: k in source ==> r[k] == source[k]
    ensures forall k :: k in target && k !in source ==> r[k] == target[k]
  {
    target + source
  }
}

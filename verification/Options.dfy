/** A nullable column, and the order PostgreSQL comparisons induce on nullable times. */
module Options {

  datatype Option<+T> = None | Some(value: T)

  function Get<K, V>(m: map<K, V>, k: K): Option<V> {
    if k in m then Some(m[k]) else None
  }

  /** `t < bound`, false when the bound is null. */
  predicate Below(t: int, bound: Option<int>) {
    bound.Some? && t < bound.value
  }

  /** `a <= b` where null lies below every time. */
  predicate NoLater(a: Option<int>, b: Option<int>) {
    a.Some? ==> b.Some? && a.value <= b.value
  }

  /** A request field: absent, null, or a value. */
  datatype Field<+T> = Absent | Null | Value(value: T)

  function Filled<T>(f: Field<T>, current: T): T {
    if f.Value? then f.value else current
  }

  /** A nullable column after a request: null clears it. */
  function Assigned<T>(f: Field<T>, current: Option<T>): Option<T> {
    match f
    case Absent => current
    case Null => None
    case Value(v) => Some(v)
  }
}

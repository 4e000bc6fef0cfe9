/** Optional values, standing for Python's `Optional[...]` / `None` and
    TypeScript's `undefined`. */
module Wrappers {

  datatype Option<+T> = None | Some(value: T) {

    /** The value when present, `default` otherwise (Python's `x or d` on non-falsy values). */
    function GetOr(default: T): T {
      match this
      case Some(v) => v
      case None => default
    }
  }

  /** Python's `d.get(k)` on a dictionary. */
  function Lookup<K, V>(m: map<K, V>, k: K): (r: Option<V>)
    ensures r.Some? <==> k in m
    ensures r.Some? ==> r.value == m[k]
  {
    if k in m then Some(m[k]) else None
  }

  /** Truthiness of an optional string in Python and JavaScript: `None`/`undefined`
      and the empty string are falsy, every other string is truthy. */
  predicate Truthy(s: Option<string>) {
    s.Some? && s.value != ""
  }

  /** Truthiness of an optional number in JavaScript and Python: absent and 0 are falsy. */
  predicate TruthyId(n: Option<int>) {
    n.Some? && n.value != 0
  }
}

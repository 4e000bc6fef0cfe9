/** `dict(zip(keys, values))`: correlating the results of an order-preserving
    fan-out (`asyncio.gather`) with the keys that produced them. */
module Keyed {

  /** Index of the last occurrence of `k` in `keys`. */
  function LastIndexOf<K(==)>(keys: seq<K>, k: K): (i: nat)
    requires k in keys
    ensures i < |keys| && keys[i] == k
    ensures forall j :: i < j < |keys| ==> keys[j] != k
    decreases |keys|
  {
    if keys[|keys| - 1] == k then |keys| - 1 else LastIndexOf(keys[..|keys| - 1], k)
  }

  /** `dict(zip(keys, values))`: pairs are inserted left to right, so a later pair
      overrides an earlier one with the same key. */
  function ZipToMap<K(==), V>(keys: seq<K>, values: seq<V>): (m: map<K, V>)
    requires |keys| == |values|
    decreases |keys|
  {
    if keys == [] then map[]
    else ZipToMap(keys[..|keys| - 1], values[..|values| - 1])[keys[|keys| - 1] := values[|values| - 1]]
  }

  /** The key set is exactly the keys given, and each key maps to the value paired
      with its last occurrence. */
  lemma {:induction false} ZipToMapSpec<K, V>(keys: seq<K>, values: seq<V>)
    requires |keys| == |values|
    ensures ZipToMap(keys, values).Keys == set k | k in keys
    ensures forall k :: k in keys ==> ZipToMap(keys, values)[k] == values[LastIndexOf(keys, k)]
    decreases |keys|
  {
    if keys != [] {
      var n := |keys| - 1;
      var ks, vs := keys[..n], values[..n];
      ZipToMapSpec(ks, vs);
      assert keys == ks + [keys[n]];
      forall k | k in keys
        ensures ZipToMap(keys, values)[k] == values[LastIndexOf(keys, k)]
      {
        if k != keys[n] {
          assert k in ks;
          assert LastIndexOf(keys, k) == LastIndexOf(ks, k);
        }
      }
    }
  }

  /** When every value is computed from its own key, each key maps to the value
      computed from it, whatever the repetitions. */
  lemma ZipToMapOfFunction<K, V>(keys: seq<K>, values: seq<V>, f: K -> V)
    requires |keys| == |values|
    requires forall i :: 0 <= i < |keys| ==> values[i] == f(keys[i])
    ensures ZipToMap(keys, values).Keys == set k | k in keys
    ensures forall k :: k in keys ==> ZipToMap(keys, values)[k] == f(k)
  {
    ZipToMapSpec(keys, values);
  }

  /** A map that agrees with every pair of the zip and has no other keys is the zip. */
  lemma ZipToMapEquals<K, V>(keys: seq<K>, values: seq<V>, m: map<K, V>)
    requires |keys| == |values|
    requires forall i :: 0 <= i < |keys| ==> keys[i] in m && values[i] == m[keys[i]]
    requires forall k :: k in m ==> k in keys
    ensures ZipToMap(keys, values) == m
  {
    ZipToMapSpec(keys, values);
    var z := ZipToMap(keys, values);
    forall k | k in z ensures k in m && z[k] == m[k] {
      var i := LastIndexOf(keys, k);
    }
  }
}

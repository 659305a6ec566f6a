/** Optional values, used wherever the source has a nil pointer, an empty string or a missing map key, and
    maps that send every key to the same value. */
module Wrappers {
  datatype Option<+T> = None | Some(value: T)

  ghost predicate IsConstant<K, V>(m: map<K, V>, keys: set<K>, v: V) {
    m.Keys == keys && forall k :: k in keys ==> m[k] == v
  }

  lemma ConstantExists<K, V>(keys: set<K>, v: V)
    ensures exists m: map<K, V> :: IsConstant(m, keys, v)
  {
    var m: map<K, V>, rest := map[], keys;
    while rest != {}
      invariant rest <= keys && IsConstant(m, keys - rest, v)
    {
      var k :| k in rest;
      m := m[k := v];
      rest := rest - {k};
    }
    assert keys - rest == keys;
  }

  /** The map that sends every key to `v`. */
  ghost function Constant<K, V>(keys: set<K>, v: V): (m: map<K, V>)
    ensures IsConstant(m, keys, v)
  {
    ConstantExists(keys, v);
    var m: map<K, V> :| IsConstant(m, keys, v);
    m
  }
}

/** Small things shared by the models: a value that may be missing, and lists and hash sets. */
module Wrappers {
  datatype Option<+T> = None | Some(value: T)

  ghost predicate NoRepeats<T>(s: seq<T>) {
    forall i, j {:trigger s[i], s[j]} | 0 <= i < j < |s| :: s[i] != s[j]
  }

  // The next element of a hash set, in whatever order.
  method AnyOf<T(==)>(s: set<T>) returns (x: T)
    requires s != {}
    ensures x in s
  {
    x :| x in s;
  }

  // A map with some keys, and what it gives for them. Unlike an expression, it says nothing about other keys.
  ghost predicate TableOf<K, V>(m: map<K, V>, keys: set<K>, f: K -> V) {
    m.Keys == keys && forall k {:trigger m[k]} | k in keys :: m[k] == f(k)
  }

  lemma {:induction false} TableExists<K(!new), V(!new)>(keys: set<K>, f: K -> V)
    ensures exists m: map<K, V> {:trigger TableOf(m, keys, f)} :: TableOf(m, keys, f)
    decreases |keys|
  {
    if keys == {} {
      assert TableOf(map[], keys, f);
    } else {
      var k :| k in keys;
      TableExists(keys - {k}, f);
      var m: map<K, V> :| TableOf(m, keys - {k}, f);
      assert TableOf(m[k := f(k)], keys, f);
    }
  }

  ghost function Table<K(!new), V(!new)>(keys: set<K>, f: K -> V): (m: map<K, V>)
    ensures TableOf(m, keys, f)
  {
    TableExists(keys, f);
    var m: map<K, V> :| TableOf(m, keys, f);
    m
  }
}

/** Shared vocabulary: optional values and Python's insertion-ordered dictionary. */
module Prelude {

  datatype Option<+T> = None | Some(value: T)

  function MinReal(a: real, b: real): (r: real)
    ensures r <= a && r <= b && (r == a || r == b)
  {
    if a <= b then a else b
  }

  predicate NoDuplicates<T(==)>(s: seq<T>) {
    forall i, j | 0 <= i < j < |s| :: s[i] != s[j]
  }

  /**
   * A Python `dict` with string keys. Iteration follows `keys`, the order in which the keys
   * were first inserted; overwriting a key keeps its place, deleting it gives the place up.
   */
  datatype Dict<V> = Dict(keys: seq<string>, vals: map<string, V>) {

    ghost predicate Valid() {
      NoDuplicates(keys) && forall k :: k in keys <==> k in vals
    }

    function Put(k: string, v: V): Dict<V> {
      Dict(if k in vals then keys else keys + [k], vals[k := v])
    }

    function Remove(k: string): Dict<V> {
      Dict(Without(keys, k), vals - {k})
    }
  }

  function EmptyDict<V>(): Dict<V> {
    Dict([], map[])
  }

  function Without(keys: seq<string>, k: string): (r: seq<string>)
    ensures forall x :: x in r <==> x in keys && x != k
    ensures NoDuplicates(keys) ==> NoDuplicates(r)
  {
    if keys == [] then []
    else
      var rest := Without(keys[1..], k);
      assert keys == [keys[0]] + keys[1..];
      assert NoDuplicates(keys) ==> NoDuplicates(keys[1..]) && keys[0] !in keys[1..];
      if keys[0] == k then rest else [keys[0]] + rest
  }

  lemma PutValid<V>(d: Dict<V>, k: string, v: V)
    requires d.Valid()
    ensures d.Put(k, v).Valid()
  {
    var r := d.Put(k, v);
    forall x ensures x in r.keys <==> x in r.vals {
      assert x in d.keys <==> x in d.vals;
    }
  }

  lemma RemoveValid<V>(d: Dict<V>, k: string)
    requires d.Valid()
    ensures d.Remove(k).Valid()
  {
    forall x ensures x in d.Remove(k).keys <==> x in d.Remove(k).vals {
      assert x in d.keys <==> x in d.vals;
    }
  }
}

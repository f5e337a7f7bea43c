/** A Python dict: a finite map that remembers the order in which its keys were
    first inserted. Iteration, and therefore every tie that `max` breaks by
    taking the first maximum, follows that order. */
module PyDict {

  datatype Assoc<K(==, !new), V> = Assoc(keys: seq<K>, vals: map<K, V>) {
    ghost predicate Valid() {
      && (forall i, j :: 0 <= i < j < |keys| ==> keys[i] != keys[j])
      && (forall i :: 0 <= i < |keys| ==> keys[i] in vals)
      && (forall k {:trigger k in keys} :: k in vals ==> k in keys)
    }
  }

  type Dict<K(==, !new), V> = d: Assoc<K, V> | d.Valid() witness Assoc([], map[])

  function Empty<K(!new), V>(): Dict<K, V> {
    Assoc([], map[])
  }

  /** `d[k] = v`: an existing key keeps its place. */
  function Put<K(!new), V>(d: Dict<K, V>, k: K, v: V): (r: Dict<K, V>)
    ensures r.vals == d.vals[k := v]
    ensures r.keys == if k in d.vals then d.keys else d.keys + [k]
  {
    Assoc(if k in d.vals then d.keys else d.keys + [k], d.vals[k := v])
  }

  /** `s` without the first `x`. */
  function Without<T(==, !new)>(s: seq<T>, x: T): (r: seq<T>)
    ensures multiset(r) == multiset(s) - multiset{x}
  {
    if s == [] then []
    else
      assert s == [s[0]] + s[1..];
      if s[0] == x then s[1..] else [s[0]] + Without(s[1..], x)
  }

  lemma {:induction false} WithoutDistinct<T(!new)>(s: seq<T>, x: T)
    requires forall i, j :: 0 <= i < j < |s| ==> s[i] != s[j]
    ensures forall y :: y in Without(s, x) <==> y in s && y != x
    ensures forall i, j :: 0 <= i < j < |Without(s, x)| ==> Without(s, x)[i] != Without(s, x)[j]
  {
    if s != [] && s[0] != x {
      WithoutDistinct(s[1..], x);
      assert Without(s, x) == [s[0]] + Without(s[1..], x);
      assert s[0] !in Without(s[1..], x);
    }
  }

  /** `d.pop(k)`. */
  function Pop<K(!new), V>(d: Dict<K, V>, k: K): (r: Dict<K, V>)
    requires k in d.vals
    ensures r.vals == d.vals - {k}
    ensures forall j :: j in r.vals <==> j in d.vals && j != k
  {
    WithoutDistinct(d.keys, k);
    var ks := Without(d.keys, k);
    assert forall i :: 0 <= i < |ks| ==> ks[i] in ks;
    Assoc(ks, d.vals - {k})
  }

  /** `d.values()` in iteration order. */
  function Values<K(!new), V>(d: Dict<K, V>): (r: seq<V>)
    ensures |r| == |d.keys|
    ensures forall i :: 0 <= i < |r| ==> r[i] == d.vals[d.keys[i]]
  {
    seq(|d.keys|, i requires 0 <= i < |d.keys| => d.vals[d.keys[i]])
  }
}

/**
 * PHP's ordered arrays seen as dictionaries: a sequence of key-value pairs in
 * insertion order. `$a[$k] = $v` is Put (it overwrites in place, or appends a
 * new key at the end), `unset($a[$k])` is Remove and `$a[$k] ?? null` is Get.
 */
module Dict {
  import opened Wrappers

  function Keys<K, V>(d: seq<(K, V)>): seq<K> {
    if d == [] then [] else [d[0].0] + Keys(d[1..])
  }

  function Values<K, V>(d: seq<(K, V)>): seq<V> {
    if d == [] then [] else [d[0].1] + Values(d[1..])
  }

  predicate HasKey<K(==), V>(d: seq<(K, V)>, k: K) {
    k in Keys(d)
  }

  /** No key occurs twice: the shape of every PHP array. */
  predicate Distinct<K(==)>(ks: seq<K>) {
    forall i, j :: 0 <= i < j < |ks| ==> ks[i] != ks[j]
  }

  predicate UniqueKeys<K(==), V>(d: seq<(K, V)>) {
    Distinct(Keys(d))
  }

  /** The value stored under k (the first pair with that key). */
  function Get<K(==), V>(d: seq<(K, V)>, k: K): (r: Option<V>)
    ensures r.Some? <==> HasKey(d, k)
  {
    if d == [] then None
    else if d[0].0 == k then Some(d[0].1)
    else Get(d[1..], k)
  }

  /** `$d[$k] = $v`: an existing key keeps its position, a new key goes last. */
  function Put<K(==,!new), V>(d: seq<(K, V)>, k: K, v: V): (r: seq<(K, V)>)
    ensures Get(r, k) == Some(v)
    ensures forall k' :: k' != k ==> Get(r, k') == Get(d, k')
    ensures Keys(r) == if HasKey(d, k) then Keys(d) else Keys(d) + [k]
    ensures UniqueKeys(d) ==> UniqueKeys(r)
  {
    if d == [] then [(k, v)]
    else
      TailUnique(d);
      if d[0].0 == k then
        var r := [(k, v)] + d[1..];
        assert r[1..] == d[1..];
        ConsUnique((k, v), d[1..]);
        r
      else
        var rest := Put(d[1..], k, v);
        var r := [d[0]] + rest;
        assert r[1..] == rest;
        ConsUnique(d[0], rest);
        r
  }

  /** The keys ks with every k taken out, the others in their order. */
  function Without<K(==,!new)>(ks: seq<K>, k: K): (r: seq<K>)
    ensures forall x :: x in r <==> x in ks && x != k
    ensures |r| <= |ks|
  {
    if ks == [] then [] else (if ks[0] == k then [] else [ks[0]]) + Without(ks[1..], k)
  }

  /**
   * `unset($d[$k])`: the other keys keep their order, and removing an absent
   * key changes nothing.
   */
  function Remove<K(==,!new), V>(d: seq<(K, V)>, k: K): (r: seq<(K, V)>)
    ensures !HasKey(r, k)
    ensures forall k' :: k' != k ==> Get(r, k') == Get(d, k')
    ensures !HasKey(d, k) ==> r == d
    ensures UniqueKeys(d) ==> UniqueKeys(r)
    ensures Keys(r) == Without(Keys(d), k)
  {
    if d == [] then []
    else
      TailUnique(d);
      if d[0].0 == k then Remove(d[1..], k)
      else
        var rest := Remove(d[1..], k);
        var r := [d[0]] + rest;
        assert r[1..] == rest;
        assert d[0].0 in Keys(rest) ==> Get(rest, d[0].0).Some?;
        ConsUnique(d[0], rest);
        r
  }

  /** The tail of an array with distinct keys has distinct keys, and not the head's. */
  lemma TailUnique<K, V>(d: seq<(K, V)>)
    requires d != []
    ensures UniqueKeys(d) ==> UniqueKeys(d[1..]) && d[0].0 !in Keys(d[1..])
  {
    if !UniqueKeys(d) {
      return;
    }
    KeysLength(d);
    KeysLength(d[1..]);
    forall a, b | 0 <= a < b < |Keys(d[1..])|
      ensures Keys(d[1..])[a] != Keys(d[1..])[b]
    {
      assert Keys(d[1..])[a] == Keys(d)[a + 1];
      assert Keys(d[1..])[b] == Keys(d)[b + 1];
    }
  }

  /** A new key in front of distinct keys keeps them distinct. */
  lemma ConsUnique<K, V>(p: (K, V), d: seq<(K, V)>)
    ensures UniqueKeys(d) && p.0 !in Keys(d) ==> UniqueKeys([p] + d)
  {
    if !UniqueKeys(d) || p.0 in Keys(d) {
      return;
    }
    var r := [p] + d;
    assert r[1..] == d;
    KeysLength(r);
    KeysLength(d);
    forall a, b | 0 <= a < b < |Keys(r)|
      ensures Keys(r)[a] != Keys(r)[b]
    {
      assert Keys(r)[b] == Keys(d)[b - 1];
      if a > 0 {
        assert Keys(r)[a] == Keys(d)[a - 1];
      }
    }
  }

  /** Storing the same pair twice is storing it once. */
  lemma {:induction false} PutIdempotent<K(!new), V>(d: seq<(K, V)>, k: K, v: V)
    ensures Put(Put(d, k, v), k, v) == Put(d, k, v)
  {
    if d != [] && d[0].0 != k {
      var r := Put(d, k, v);
      assert r == [d[0]] + Put(d[1..], k, v);
      assert r[0] == d[0] && r[1..] == Put(d[1..], k, v);
      PutIdempotent(d[1..], k, v);
    }
  }

  /** The keys of a concatenation are the keys of its parts, in order. */
  lemma {:induction false} KeysAppend<K, V>(a: seq<(K, V)>, b: seq<(K, V)>)
    ensures Keys(a + b) == Keys(a) + Keys(b)
  {
    if a == [] {
      assert a + b == b;
    } else {
      assert (a + b)[0] == a[0];
      assert (a + b)[1..] == a[1..] + b;
      KeysAppend(a[1..], b);
    }
  }

  /** Looking a key up in a concatenation looks in the first part, then the second. */
  lemma {:induction false} GetAppend<K, V>(a: seq<(K, V)>, b: seq<(K, V)>, k: K)
    ensures Get(a + b, k) == if HasKey(a, k) then Get(a, k) else Get(b, k)
  {
    if a == [] {
      assert a + b == b;
    } else {
      assert (a + b)[0] == a[0];
      assert (a + b)[1..] == a[1..] + b;
      GetAppend(a[1..], b, k);
    }
  }

  lemma {:induction false} KeysLength<K, V>(d: seq<(K, V)>)
    ensures |Keys(d)| == |d|
    ensures forall i :: 0 <= i < |d| ==> Keys(d)[i] == d[i].0
  {
    if d != [] {
      KeysLength(d[1..]);
    }
  }

  lemma {:induction false} ValuesLength<K, V>(d: seq<(K, V)>)
    ensures |Values(d)| == |d|
    ensures forall i :: 0 <= i < |d| ==> Values(d)[i] == d[i].1
  {
    if d != [] {
      ValuesLength(d[1..]);
    }
  }

  /** With distinct keys, Get finds the pair at the key's position. */
  lemma {:induction false} GetAt<K, V>(d: seq<(K, V)>, i: nat)
    requires UniqueKeys(d) && i < |d|
    ensures Get(d, d[i].0) == Some(d[i].1)
  {
    KeysLength(d);
    if i > 0 {
      assert d[0].0 != d[i].0 by {
        assert Keys(d)[0] != Keys(d)[i];
      }
      KeysLength(d[1..]);
      assert UniqueKeys(d[1..]) by {
        forall a, b | 0 <= a < b < |Keys(d[1..])|
          ensures Keys(d[1..])[a] != Keys(d[1..])[b]
        {
          assert Keys(d[1..])[a] == Keys(d)[a + 1];
          assert Keys(d[1..])[b] == Keys(d)[b + 1];
        }
      }
      GetAt(d[1..], i - 1);
    }
  }

  /** A literal with one entry more at the front. */
  lemma Cons<K, V>(p: (K, V), d: seq<(K, V)>)
    ensures Keys([p] + d) == [p.0] + Keys(d)
    ensures forall k :: Get([p] + d, k) == if p.0 == k then Some(p.1) else Get(d, k)
  {
    assert ([p] + d)[1..] == d;
  }

  /** Keys and lookups of a two-entry literal `[k1 => v1, k2 => v2]`. */
  lemma Literal2<K, V>(a: (K, V), b: (K, V))
    ensures Keys([a, b]) == [a.0, b.0]
    ensures forall k :: Get([a, b], k) == if a.0 == k then Some(a.1) else if b.0 == k then Some(b.1) else None
  {
    assert [a, b] == [a] + [b];
    Cons(a, [b]);
    Cons(b, []);
    assert [b] == [b] + [];
  }

  /** Keys and lookups of a three-entry literal. */
  lemma Literal3<K, V>(a: (K, V), b: (K, V), c: (K, V))
    ensures Keys([a, b, c]) == [a.0, b.0, c.0]
    ensures forall k :: Get([a, b, c], k) ==
                        if a.0 == k then Some(a.1) else if b.0 == k then Some(b.1) else if c.0 == k then Some(c.1) else None
  {
    assert [a, b, c] == [a] + [b, c];
    Cons(a, [b, c]);
    Literal2(b, c);
  }
}

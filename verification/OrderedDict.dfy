/** Python's dict as the registry uses it: a map whose keys keep their insertion order. */
module OrderedDict {
  datatype Dict<K(==,!new), V> = Dict(keys: seq<K>, items: map<K, V>)
  {
    ghost predicate Valid() {
      && (forall k :: k in keys <==> k in items)
      && forall i, j :: 0 <= i < j < |keys| ==> keys[i] != keys[j]
    }

    /** d[k] = v: a new key goes to the end, an old one keeps its place. */
    function Put(k: K, v: V): (d: Dict<K, V>)
      ensures d.items == items[k := v]
      ensures Valid() ==> d.Valid()
      ensures Valid() ==> |d.keys| == if k in items then |keys| else |keys| + 1
    {
      Dict(if k in items then keys else keys + [k], items[k := v])
    }

    /** d.pop(k, None). */
    function Remove(k: K): (d: Dict<K, V>)
      ensures d.items == items - {k}
      ensures Valid() ==> d.Valid() && |d.keys| <= |keys|
      ensures Valid() && k in items ==> |d.keys| == |keys| - 1
    {
      RemoveFacts(keys, k);
      Dict(Without(keys, k), items - {k})
    }
  }

  function Empty<K(!new), V>(): (d: Dict<K, V>)
    ensures d.Valid()
  {
    Dict([], map[])
  }

  function Without<K(==)>(keys: seq<K>, k: K): (r: seq<K>) {
    if keys == [] then [] else if keys[0] == k then keys[1..] else [keys[0]] + Without(keys[1..], k)
  }

  lemma {:induction false} RemoveFacts<K(!new)>(keys: seq<K>, k: K)
    ensures k !in keys ==> Without(keys, k) == keys
    ensures k in keys ==> |Without(keys, k)| == |keys| - 1
    ensures forall x :: x in Without(keys, k) ==> x in keys
    ensures forall x :: x in keys && x != k ==> x in Without(keys, k)
    ensures (forall i, j :: 0 <= i < j < |keys| ==> keys[i] != keys[j]) ==>
      && k !in Without(keys, k)
      && forall i, j :: 0 <= i < j < |Without(keys, k)| ==> Without(keys, k)[i] != Without(keys, k)[j]
    decreases |keys|
  {
    if keys != [] {
      var tail := keys[1..];
      assert keys == [keys[0]] + tail;
      RemoveFacts(tail, k);
      if forall i, j :: 0 <= i < j < |keys| ==> keys[i] != keys[j] {
        assert forall i, j :: 0 <= i < j < |tail| ==> tail[i] != tail[j] by {
          forall i, j | 0 <= i < j < |tail| ensures tail[i] != tail[j] {
            assert keys[i + 1] != keys[j + 1];
          }
        }
        assert keys[0] !in tail;
      }
    }
  }

  /** As many keys as entries. */
  lemma {:induction false} KeyCount<K(!new), V>(d: Dict<K, V>)
    requires d.Valid()
    ensures |d.keys| == |d.items|
    decreases |d.keys|
  {
    if d.keys == [] {
      assert d.items.Keys == {};
    } else {
      var n := |d.keys| - 1;
      var last := d.keys[n];
      var rest := Dict(d.keys[..n], d.items - {last});
      assert d.keys == rest.keys + [last];
      assert rest.Valid();
      KeyCount(rest);
      assert d.items.Keys == rest.items.Keys + {last};
    }
  }
}

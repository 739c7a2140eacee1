/** Writing a list of keyed values into a map, one after the
    other: what is there afterwards, under which keys, and with
    which values. */
module KeyedMaps {
  import opened Collections

  ghost function PutAll<V>(m: map<string, V>, keys: seq<string>, values: seq<V>): map<string, V>
    requires |keys| == |values|
  {
    if keys == [] then m
    else PutAll(m, keys[..|keys| - 1], values[..|values| - 1])[keys[|keys| - 1] := values[|values| - 1]]
  }

  lemma PutAllStep<V>(m: map<string, V>, keys: seq<string>, values: seq<V>, n: nat)
    requires |keys| == |values| && n < |keys|
    ensures PutAll(m, keys[..n + 1], values[..n + 1]) == PutAll(m, keys[..n], values[..n])[keys[n] := values[n]]
  {
    assert keys[..n + 1][..n] == keys[..n] && values[..n + 1][..n] == values[..n];
  }

  lemma {:induction false} PutAllMerges<V>(m: map<string, V>, keys: seq<string>, values: seq<V>)
    requires |keys| == |values|
    ensures PutAll(m, keys, values) == m + PutAll(map[], keys, values)
  {
    if keys != [] {
      PutAllMerges(m, keys[..|keys| - 1], values[..|values| - 1]);
    }
  }

  lemma {:induction false} PutAllKeys<V>(m: map<string, V>, keys: seq<string>, values: seq<V>)
    requires |keys| == |values|
    ensures forall k :: k in PutAll(m, keys, values) <==> k in m || k in keys
  {
    if keys != [] {
      PutAllKeys(m, keys[..|keys| - 1], values[..|values| - 1]);
      assert keys == keys[..|keys| - 1] + [keys[|keys| - 1]];
    }
  }

  lemma {:induction false} PutAllValues<V>(m: map<string, V>, keys: seq<string>, values: seq<V>, i: nat)
    requires |keys| == |values| && AllDifferent(keys) && i < |keys|
    ensures keys[i] in PutAll(m, keys, values) && PutAll(m, keys, values)[keys[i]] == values[i]
  {
    if i < |keys| - 1 {
      PutAllValues(m, keys[..|keys| - 1], values[..|values| - 1], i);
    }
  }
}

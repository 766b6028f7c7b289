/** PHP's ordered arrays with string keys, as sequences of key/value pairs.
    Writing an existing key overwrites it in place; a new key goes to the end. */
module PhpArray {
  import opened Wrappers

  function Keys<K, V>(m: seq<(K, V)>): (ks: seq<K>)
    ensures |ks| == |m|
    ensures forall i :: 0 <= i < |m| ==> ks[i] == m[i].0
  {
    seq(|m|, i requires 0 <= i < |m| => m[i].0)
  }

  function Values<K, V>(m: seq<(K, V)>): (vs: seq<V>)
    ensures |vs| == |m|
    ensures forall i :: 0 <= i < |m| ==> vs[i] == m[i].1
  {
    seq(|m|, i requires 0 <= i < |m| => m[i].1)
  }

  /** No key occurs twice (what a PHP array guarantees). */
  ghost predicate UniqueKeys<K, V>(m: seq<(K, V)>) {
    forall i, j :: 0 <= i < j < |m| ==> m[i].0 != m[j].0
  }

  /** `$m[$k] ?? null`, for arrays whose keys are unique. */
  function Get<K(==), V>(m: seq<(K, V)>, k: K): (r: Option<V>)
    ensures r.Some? <==> k in Keys(m)
  {
    if m == [] then None
    else if m[0].0 == k then Some(m[0].1)
    else Get(m[1..], k)
  }

  /** `$m[$k] = $v`. */
  function Put<K(==), V>(m: seq<(K, V)>, k: K, v: V): seq<(K, V)>
  {
    if m == [] then [(k, v)]
    else if m[0].0 == k then [(k, v)] + m[1..]
    else [m[0]] + Put(m[1..], k, v)
  }

  /** `unset($m[$k])`. */
  function RemoveKey<K(==), V>(m: seq<(K, V)>, k: K): seq<(K, V)>
  {
    if m == [] then []
    else if m[0].0 == k then RemoveKey(m[1..], k)
    else [m[0]] + RemoveKey(m[1..], k)
  }

  /** The array with every key of `ks` removed, the others kept in order. */
  function Without<K(==), V>(m: seq<(K, V)>, ks: set<K>): seq<(K, V)>
  {
    if m == [] then []
    else if m[0].0 in ks then Without(m[1..], ks)
    else [m[0]] + Without(m[1..], ks)
  }

  /** The key list of a concatenation is the concatenation of the key lists. */
  lemma KeysConcat<K, V>(a: seq<(K, V)>, b: seq<(K, V)>)
    ensures Keys(a + b) == Keys(a) + Keys(b)
  {
    assert forall i :: 0 <= i < |a + b| ==> Keys(a + b)[i] == (Keys(a) + Keys(b))[i];
  }

  /** The first entry, split off. */
  lemma KeysCons<K, V>(m: seq<(K, V)>)
    requires m != []
    ensures m == [m[0]] + m[1..]
    ensures Keys(m) == [m[0].0] + Keys(m[1..])
  {
    KeysConcat([m[0]], m[1..]);
    assert m == [m[0]] + m[1..];
  }

  /** Writing a key leaves it present with the new value and keeps every
      other entry; the key list is unchanged when the key was present, and the
      entry is appended when it was not (so re-adding never duplicates). */
  lemma PutSpec<K, V>(m: seq<(K, V)>, k: K, v: V)
    ensures Get(Put(m, k, v), k) == Some(v)
    ensures forall k' :: k' != k ==> Get(Put(m, k, v), k') == Get(m, k')
    ensures k in Keys(m) ==> Keys(Put(m, k, v)) == Keys(m)
    ensures k !in Keys(m) ==> Put(m, k, v) == m + [(k, v)]
  {
    PutGets(m, k, v);
    PutKeeps(m, k, v);
    PutKeys(m, k, v);
  }

  lemma {:induction false} PutGets<K, V>(m: seq<(K, V)>, k: K, v: V)
    ensures Get(Put(m, k, v), k) == Some(v)
  {
    if m != [] && m[0].0 != k {
      PutGets(m[1..], k, v);
      assert Put(m, k, v)[1..] == Put(m[1..], k, v);
    }
  }

  lemma {:induction false} PutKeeps<K, V>(m: seq<(K, V)>, k: K, v: V)
    ensures forall k' :: k' != k ==> Get(Put(m, k, v), k') == Get(m, k')
  {
    if m != [] {
      var r := Put(m, k, v);
      if m[0].0 != k {
        PutKeeps(m[1..], k, v);
        assert r[0] == m[0] && r[1..] == Put(m[1..], k, v);
      } else {
        assert r[0] == (k, v) && r[1..] == m[1..];
      }
    }
  }

  lemma {:induction false} PutKeys<K, V>(m: seq<(K, V)>, k: K, v: V)
    ensures k in Keys(m) ==> Keys(Put(m, k, v)) == Keys(m)
    ensures k !in Keys(m) ==> Put(m, k, v) == m + [(k, v)]
  {
    if m != [] {
      KeysCons(m);
      var r := Put(m, k, v);
      if m[0].0 != k {
        var r1 := Put(m[1..], k, v);
        PutKeys(m[1..], k, v);
        assert r == [m[0]] + r1;
        KeysConcat([m[0]], r1);
        if k !in Keys(m) {
          assert r == [m[0]] + (m[1..] + [(k, v)]) == ([m[0]] + m[1..]) + [(k, v)];
        }
      } else {
        assert r == [(k, v)] + m[1..];
        KeysConcat([(k, v)], m[1..]);
      }
    }
  }

  /** Writing keeps a duplicate-free array duplicate-free. */
  lemma {:induction false} PutUnique<K, V>(m: seq<(K, V)>, k: K, v: V)
    requires UniqueKeys(m)
    ensures UniqueKeys(Put(m, k, v))
  {
    PutSpec(m, k, v);
    var r := Put(m, k, v);
    if k in Keys(m) {
      assert Keys(r) == Keys(m);
      forall i, j | 0 <= i < j < |r| ensures r[i].0 != r[j].0 {
        assert Keys(r)[i] == Keys(m)[i] && Keys(r)[j] == Keys(m)[j];
      }
    } else {
      forall i, j | 0 <= i < j < |r| ensures r[i].0 != r[j].0 {
        if j == |m| { assert m[i].0 in Keys(m); }
      }
    }
  }

  /** Removing one more key from a filtered array is filtering by one more key. */
  lemma {:induction false} RemoveKeyWithout<K, V>(m: seq<(K, V)>, ks: set<K>, k: K)
    ensures RemoveKey(Without(m, ks), k) == Without(m, ks + {k})
  {
    if m != [] {
      RemoveKeyWithout(m[1..], ks, k);
    }
  }

  /** The keys left after filtering are exactly the keys that were not removed. */
  lemma {:induction false} WithoutKeys<K, V>(m: seq<(K, V)>, ks: set<K>)
    ensures forall k :: k in Keys(Without(m, ks)) <==> k in Keys(m) && k !in ks
  {
    if m != [] {
      var w := Without(m[1..], ks);
      WithoutKeys(m[1..], ks);
      KeysCons(m);
      if m[0].0 !in ks {
        assert Without(m, ks) == [m[0]] + w;
        KeysConcat([m[0]], w);
      } else {
        assert Without(m, ks) == w;
      }
    }
  }

  /** Filtering only keys that all occur in `ks` leaves the empty array. */
  lemma {:induction false} WithoutAll<K, V>(m: seq<(K, V)>, ks: set<K>)
    requires forall i :: 0 <= i < |m| ==> m[i].0 in ks
    ensures Without(m, ks) == []
  {
    if m != [] {
      WithoutAll(m[1..], ks);
    }
  }

  /** Unsetting a missing key changes nothing. */
  lemma {:induction false} RemoveAbsentKey<K, V>(m: seq<(K, V)>, k: K)
    requires k !in Keys(m)
    ensures RemoveKey(m, k) == m
  {
    if m != [] {
      KeysCons(m);
      RemoveAbsentKey(m[1..], k);
    }
  }
}

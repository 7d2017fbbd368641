/**
 * An access-ordered `LinkedHashMap` whose `removeEldestEntry` holds while the size exceeds a
 * bound: the mappings, and the keys from least to most recently accessed.
 */
module LruMap {
  import opened Wrappers

  datatype Lru<K, V> = Lru(values: map<K, V>, order: seq<K>)

  predicate Distinct<K(==)>(s: seq<K>) {
    forall i, j :: 0 <= i < j < |s| ==> s[i] != s[j]
  }

  /** The keys are the mapped ones, each once, and there are at most `max` of them. */
  ghost predicate Valid<K(!new), V>(c: Lru<K, V>, max: int) {
    Distinct(c.order)
    && (forall i :: 0 <= i < |c.order| ==> c.order[i] in c.values)
    && (forall k :: k in c.values ==> k in c.order)
    && |c.order| <= max
  }

  /** `s` without `k`. */
  function Without<K(==, !new)>(s: seq<K>, k: K): (r: seq<K>)
    ensures forall x :: x in r <==> x in s && x != k
    ensures Distinct(s) ==> Distinct(r)
    ensures |r| <= |s|
    ensures k !in s ==> r == s
  {
    if |s| == 0 then []
    else if s[0] == k then Without(s[1..], k)
    else
      var rest := Without(s[1..], k);
      assert Distinct(s) ==> Distinct([s[0]] + rest) by {
        if Distinct(s) {
          assert Distinct(s[1..]) && s[0] !in s[1..];
          forall i, j | 0 <= i < j < |[s[0]] + rest|
            ensures ([s[0]] + rest)[i] != ([s[0]] + rest)[j]
          {
            if i == 0 {
              assert ([s[0]] + rest)[j] == rest[j - 1];
            }
          }
        }
      }
      [s[0]] + rest
  }

  /** `get`: the mapped value, if any; a hit makes the key the most recently accessed. */
  function Get<K(==, !new), V>(c: Lru<K, V>, k: K): (r: (Option<V>, Lru<K, V>))
    ensures k in c.values ==> r.0 == Some(c.values[k]) && r.1.values == c.values
    ensures k !in c.values ==> r.0 == None && r.1 == c
  {
    if k in c.values then (Some(c.values[k]), Lru(c.values, Without(c.order, k) + [k]))
    else (None, c)
  }

  /** `put`: maps `k` to `v` as the most recently accessed key; inserting a new key past the
      bound removes the least recently accessed one. */
  function Put<K(==, !new), V>(c: Lru<K, V>, k: K, v: V, max: int): (r: Lru<K, V>)
  {
    if k in c.values then Lru(c.values[k := v], Without(c.order, k) + [k])
    else
      var order := c.order + [k];
      var values := c.values[k := v];
      if |order| > max then Lru(values - {order[0]}, order[1..]) else Lru(values, order)
  }

  /** The key a `put` of `k` evicts, if any. */
  function Evicted<K(==, !new), V>(c: Lru<K, V>, k: K, max: int): (r: Option<K>)
    ensures r.Some? ==> k !in c.values
  {
    if k !in c.values && |c.order| + 1 > max then Some((c.order + [k])[0]) else None
  }

  lemma DistinctAppend<K>(s: seq<K>, k: K)
    requires Distinct(s) && k !in s
    ensures Distinct(s + [k])
  {
  }

  lemma MappedAppend<K, V>(s: seq<K>, k: K, values: map<K, V>)
    requires forall x :: x in s ==> x in values
    requires k in values
    ensures forall i :: 0 <= i < |s + [k]| ==> (s + [k])[i] in values
  {
    forall i | 0 <= i < |s + [k]|
      ensures (s + [k])[i] in values
    {
      if i < |s| {
        assert (s + [k])[i] == s[i];
      }
    }
  }

  /** A `get` keeps the cache valid and every mapping unchanged. */
  lemma GetValid<K(!new), V>(c: Lru<K, V>, k: K, max: int)
    requires Valid(c, max)
    ensures Valid(Get(c, k).1, max) && Get(c, k).1.values == c.values
  {
    if k in c.values {
      var w := Without(c.order, k);
      DistinctAppend(w, k);
      WithoutShrinks(c.order, k);
      MappedAppend(w, k, c.values);
    }
  }

  lemma {:induction false} WithoutShrinks<K(!new)>(s: seq<K>, k: K)
    requires k in s
    ensures |Without(s, k)| < |s|
  {
    if s[0] != k {
      WithoutShrinks(s[1..], k);
    }
  }

  /** A `put` keeps the cache valid: distinct keys, and no more than `max` of them. */
  lemma PutValid<K(!new), V>(c: Lru<K, V>, k: K, v: V, max: int)
    requires Valid(c, max)
    ensures Valid(Put(c, k, v, max), max)
  {
    if k in c.values {
      var w := Without(c.order, k);
      DistinctAppend(w, k);
      WithoutShrinks(c.order, k);
      MappedAppend(w, k, c.values[k := v]);
    } else {
      DistinctAppend(c.order, k);
      var order := c.order + [k];
      if |order| > max {
        var r := Put(c, k, v, max);
        assert r.order == order[1..];
        forall i | 0 <= i < |r.order|
          ensures r.order[i] in r.values
        {
          assert r.order[i] == order[i + 1] && order[i + 1] != order[0];
        }
        forall x | x in r.values
          ensures x in r.order
        {
          assert x in order && x != order[0];
          var i :| 0 <= i < |order| && order[i] == x;
          assert r.order[i - 1] == x;
        }
      }
    }
  }

  /** After a `put` of `k` with a positive bound, `k` maps to `v`; any other key keeps its
      value unless it was the least recently accessed one and the cache was full. */
  lemma PutLookup<K(!new), V>(c: Lru<K, V>, k: K, v: V, max: int, other: K)
    requires Valid(c, max) && max >= 1 && other != k
    ensures k in Put(c, k, v, max).values && Put(c, k, v, max).values[k] == v
    ensures Evicted(c, k, max) == Some(other) ==> other !in Put(c, k, v, max).values
    ensures Evicted(c, k, max) != Some(other) ==>
      (other in Put(c, k, v, max).values <==> other in c.values)
      && (other in c.values ==> Put(c, k, v, max).values[other] == c.values[other])
  {
    if k !in c.values && |c.order| + 1 > max {
      assert |c.order| >= 1;
      assert (c.order + [k])[0] == c.order[0] != k;
    }
  }

  /** The least recently accessed key is the one a full cache evicts, and only a new key evicts. */
  lemma EvictsEldest<K(!new), V>(c: Lru<K, V>, k: K, v: V, max: int)
    requires Valid(c, max) && max >= 1 && k !in c.values && |c.order| == max
    ensures Evicted(c, k, max) == Some(c.order[0])
    ensures Put(c, k, v, max).order == c.order[1..] + [k]
  {
    assert (c.order + [k])[0] == c.order[0];
    assert (c.order + [k])[1..] == c.order[1..] + [k];
  }

  lemma {:induction false} DistinctCard<K>(s: seq<K>)
    requires Distinct(s)
    ensures |set x | x in s| == |s|
  {
    if |s| > 0 {
      assert Distinct(s[1..]);
      DistinctCard(s[1..]);
      assert (set x | x in s) == {s[0]} + (set x | x in s[1..]);
      assert s[0] !in (set x | x in s[1..]);
    }
  }

  /** A valid cache maps at most `max` keys. */
  lemma SizeBound<K(!new), V>(c: Lru<K, V>, max: int)
    requires Valid(c, max)
    ensures |c.values| <= max
  {
    assert c.values.Keys == set x | x in c.order;
    DistinctCard(c.order);
  }
}

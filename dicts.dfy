/** Python dictionaries as insertion-ordered association lists.

    `Put` is Python's `d[k] = v`: an existing key keeps its position and gets
    the new value, a new key is appended.  `Get` is `d.get(k)`. */
module Dicts {
  import opened Wrappers

  type Dict<K, V> = seq<(K, V)>

  function Get<K(==), V>(d: Dict<K, V>, k: K): Option<V>
  {
    if d == [] then None
    else if d[0].0 == k then Some(d[0].1)
    else Get(d[1..], k)
  }

  function GetOr<K(==), V>(d: Dict<K, V>, k: K, default: V): V
  {
    match Get(d, k)
    case Some(v) => v
    case None => default
  }

  function Put<K(==), V>(d: Dict<K, V>, k: K, v: V): Dict<K, V>
  {
    if d == [] then [(k, v)]
    else if d[0].0 == k then [(k, v)] + d[1..]
    else [d[0]] + Put(d[1..], k, v)
  }

  function Remove<K(==), V>(d: Dict<K, V>, k: K): Dict<K, V>
  {
    if d == [] then []
    else if d[0].0 == k then Remove(d[1..], k)
    else [d[0]] + Remove(d[1..], k)
  }

  function KeySet<K, V>(d: Dict<K, V>): set<K>
  {
    if d == [] then {} else {d[0].0} + KeySet(d[1..])
  }

  lemma KeySetIndex<K, V>(d: Dict<K, V>, k: K)
    ensures k in KeySet(d) <==> exists i :: 0 <= i < |d| && d[i].0 == k
  {
    if d != [] {
      KeySetIndex(d[1..], k);
      if k in KeySet(d[1..]) {
        var i :| 0 <= i < |d| - 1 && d[1..][i].0 == k;
        assert d[i + 1].0 == k;
      }
      if exists i :: 0 <= i < |d| && d[i].0 == k {
        var i :| 0 <= i < |d| && d[i].0 == k;
        if i > 0 { assert d[1..][i - 1].0 == k; }
      }
    }
  }

  /** Looking a key up past entries that do not hold it. */
  lemma {:induction false} GetSkip<K, V>(a: Dict<K, V>, b: Dict<K, V>, k: K)
    requires forall i :: 0 <= i < |a| ==> a[i].0 != k
    ensures Get(a + b, k) == Get(b, k)
  {
    if a == [] {
      assert a + b == b;
    } else {
      assert (a + b)[0] == a[0];
      assert (a + b)[1..] == a[1..] + b;
      GetSkip(a[1..], b, k);
    }
  }

  lemma KeySetAppend<K, V>(d: Dict<K, V>, k: K, v: V)
    ensures KeySet(d + [(k, v)]) == KeySet(d) + {k}
  {
    if d != [] {
      assert (d + [(k, v)])[1..] == d[1..] + [(k, v)];
      KeySetAppend(d[1..], k, v);
    }
  }

  function Keys<K, V>(d: Dict<K, V>): (ks: seq<K>)
    ensures |ks| == |d|
    ensures forall i :: 0 <= i < |d| ==> ks[i] == d[i].0
  {
    if d == [] then [] else [d[0].0] + Keys(d[1..])
  }

  predicate DistinctKeys<K(==), V>(d: Dict<K, V>)
  {
    forall i, j :: 0 <= i < j < |d| ==> d[i].0 != d[j].0
  }

  /** With distinct keys every entry is the one `Get` finds, so the first
      and the last entry under a key are the same entry. */
  lemma {:induction false} GetAt<K, V>(d: Dict<K, V>, i: int)
    requires DistinctKeys(d) && 0 <= i < |d|
    ensures Get(d, d[i].0) == Some(d[i].1)
  {
    if i > 0 {
      assert d[0].0 != d[i].0;
      assert DistinctKeys(d[1..]) by {
        forall a, b | 0 <= a < b < |d| - 1
          ensures d[1..][a].0 != d[1..][b].0
        {
          assert d[1..][a] == d[a + 1] && d[1..][b] == d[b + 1];
        }
      }
      assert d[1..][i - 1] == d[i];
      GetAt(d[1..], i - 1);
    }
  }

  lemma GetIn<K, V>(d: Dict<K, V>, k: K)
    ensures Get(d, k).Some? <==> k in KeySet(d)
    ensures Get(d, k).Some? ==> (k, Get(d, k).value) in d
  {
    if d != [] && d[0].0 != k {
      GetIn(d[1..], k);
    }
  }

  lemma GetPut<K, V>(d: Dict<K, V>, k: K, v: V, q: K)
    ensures Get(Put(d, k, v), q) == if q == k then Some(v) else Get(d, q)
  {
    if d != [] && d[0].0 != k {
      GetPut(d[1..], k, v, q);
    }
  }

  lemma PutKeys<K, V>(d: Dict<K, V>, k: K, v: V)
    ensures KeySet(Put(d, k, v)) == KeySet(d) + {k}
  {
    if d != [] {
      if d[0].0 == k {
        assert ([(k, v)] + d[1..])[1..] == d[1..];
      } else {
        PutKeys(d[1..], k, v);
        assert ([d[0]] + Put(d[1..], k, v))[1..] == Put(d[1..], k, v);
      }
    }
  }

  lemma PutDistinct<K, V>(d: Dict<K, V>, k: K, v: V)
    requires DistinctKeys(d)
    ensures DistinctKeys(Put(d, k, v))
  {
    if d != [] {
      KeySetIndex(d[1..], d[0].0);
      assert d[0].0 !in KeySet(d[1..]);
      if d[0].0 != k {
        PutDistinct(d[1..], k, v);
        PutKeys(d[1..], k, v);
        var t := Put(d[1..], k, v);
        assert d[0].0 !in KeySet(t);
        forall j | 0 <= j < |t| ensures t[j].0 != d[0].0 {
          KeySetIndex(t, t[j].0);
        }
        assert Put(d, k, v) == [d[0]] + t;
      } else {
        assert Put(d, k, v) == [(k, v)] + d[1..];
      }
    }
  }

  lemma PutAbsent<K, V>(d: Dict<K, V>, k: K, v: V)
    requires k !in KeySet(d)
    ensures Put(d, k, v) == d + [(k, v)]
  {
    if d != [] {
      PutAbsent(d[1..], k, v);
      assert [d[0]] + (d[1..] + [(k, v)]) == d + [(k, v)];
    }
  }

  lemma GetRemove<K, V>(d: Dict<K, V>, k: K, q: K)
    ensures Get(Remove(d, k), q) == if q == k then None else Get(d, q)
  {
    if d != [] {
      GetRemove(d[1..], k, q);
    }
  }

  /** A `for x in xs: d[key(x)] = val(x)` loop run on an empty dict. */
  function PutFold<T, K(==), V>(xs: seq<T>, key: T -> K, val: T -> V): Dict<K, V>
  {
    if xs == [] then [] else Put(PutFold(xs[..|xs| - 1], key, val), key(xs[|xs| - 1]), val(xs[|xs| - 1]))
  }

  /** The keys of the result are the keys of the elements. */
  lemma {:induction false} PutFoldKeys<T, K, V>(xs: seq<T>, key: T -> K, val: T -> V, k: K)
    ensures k in KeySet(PutFold(xs, key, val)) <==> exists i :: 0 <= i < |xs| && key(xs[i]) == k
  {
    if xs != [] {
      var init := xs[..|xs| - 1];
      PutFoldKeys(init, key, val, k);
      PutKeys(PutFold(init, key, val), key(xs[|xs| - 1]), val(xs[|xs| - 1]));
      if exists i :: 0 <= i < |xs| && key(xs[i]) == k {
        var i :| 0 <= i < |xs| && key(xs[i]) == k;
        if i < |init| { assert init[i] == xs[i]; }
      }
      if exists i :: 0 <= i < |init| && key(init[i]) == k {
        var i :| 0 <= i < |init| && key(init[i]) == k;
        assert xs[i] == init[i];
      }
    }
  }

  /** A key holds the value of the last element with that key. */
  lemma {:induction false} PutFoldGet<T, K, V>(xs: seq<T>, key: T -> K, val: T -> V, i: int)
    requires 0 <= i < |xs|
    requires forall j :: i < j < |xs| ==> key(xs[j]) != key(xs[i])
    ensures Get(PutFold(xs, key, val), key(xs[i])) == Some(val(xs[i]))
  {
    var init := xs[..|xs| - 1];
    GetPut(PutFold(init, key, val), key(xs[|xs| - 1]), val(xs[|xs| - 1]), key(xs[i]));
    if i < |init| {
      assert init[i] == xs[i];
      forall j | i < j < |init| ensures key(init[j]) != key(init[i]) {
        assert init[j] == xs[j];
      }
      PutFoldGet(init, key, val, i);
    }
  }
}

/**
 * Python's `dict`, which remembers insertion order: a sequence of key/value
 * pairs with distinct keys. Assigning to a present key keeps its position;
 * assigning to a new key appends it.
 */
module PyDicts {
  import opened Options

  type Dict<K(==), V> = seq<(K, V)>

  function Keys<K(==), V>(d: Dict<K, V>): (ks: seq<K>)
    ensures |ks| == |d|
    ensures forall i :: 0 <= i < |d| ==> ks[i] == d[i].0
  {
    if d == [] then [] else [d[0].0] + Keys(d[1..])
  }

  function Values<K(==), V>(d: Dict<K, V>): (vs: seq<V>)
    ensures |vs| == |d|
    ensures forall i :: 0 <= i < |d| ==> vs[i] == d[i].1
  {
    if d == [] then [] else [d[0].1] + Values(d[1..])
  }

  /** No key occurs twice: every dict built by `Set` from `[]` has this shape. */
  ghost predicate Valid<K, V>(d: Dict<K, V>) {
    forall i, j :: 0 <= i < j < |d| ==> d[i].0 != d[j].0
  }

  predicate Contains<K(==), V>(d: Dict<K, V>, k: K) {
    k in Keys(d)
  }

  /** `d.get(k)`. */
  function Get<K(==), V>(d: Dict<K, V>, k: K): (r: Option<V>)
    ensures r.None? <==> !Contains(d, k)
    ensures r.Some? ==> (k, r.value) in d
  {
    if d == [] then None
    else if d[0].0 == k then Some(d[0].1)
    else Get(d[1..], k)
  }

  /** `d[k] = v`. */
  function Set<K(==), V>(d: Dict<K, V>, k: K, v: V): (r: Dict<K, V>)
    ensures Contains(d, k) ==> Keys(r) == Keys(d)
    ensures !Contains(d, k) ==> Keys(r) == Keys(d) + [k]
  {
    if d == [] then [(k, v)]
    else if d[0].0 == k then [(k, v)] + d[1..]
    else [d[0]] + Set(d[1..], k, v)
  }

  /** `del d[k]` when present; the dict unchanged otherwise. */
  function Remove<K(==), V>(d: Dict<K, V>, k: K): (r: Dict<K, V>)
    ensures |r| <= |d|
    ensures forall i :: 0 <= i < |r| ==> r[i] in d && r[i].0 != k
    ensures forall i :: 0 <= i < |d| && d[i].0 != k ==> d[i] in r
  {
    if d == [] then []
    else if d[0].0 == k then Remove(d[1..], k)
    else [d[0]] + Remove(d[1..], k)
  }

  lemma {:induction false} GetSetSame<K, V>(d: Dict<K, V>, k: K, v: V)
    ensures Get(Set(d, k, v), k) == Some(v)
  {
    if d != [] && d[0].0 != k {
      GetSetSame(d[1..], k, v);
    }
  }

  lemma {:induction false} GetSetOther<K, V>(d: Dict<K, V>, k: K, v: V, k': K)
    requires k' != k
    ensures Get(Set(d, k, v), k') == Get(d, k')
  {
    if d != [] && d[0].0 != k {
      GetSetOther(d[1..], k, v, k');
    }
  }

  lemma {:induction false} SetValid<K, V>(d: Dict<K, V>, k: K, v: V)
    requires Valid(d)
    ensures Valid(Set(d, k, v))
    ensures |Set(d, k, v)| == if Contains(d, k) then |d| else |d| + 1
  {
    var r := Set(d, k, v);
    assert Keys(r) == if Contains(d, k) then Keys(d) else Keys(d) + [k];
    forall i, j | 0 <= i < j < |r| ensures r[i].0 != r[j].0 {
      assert r[i].0 == Keys(r)[i] && r[j].0 == Keys(r)[j];
      if j == |d| {
        assert Keys(r)[j] == k && !Contains(d, k);
        assert Keys(d)[i] == Keys(r)[i];
      } else {
        assert Keys(r)[i] == Keys(d)[i] && Keys(r)[j] == Keys(d)[j];
      }
    }
  }

  /** In a valid dict, a present key's value is the one `Get` returns. */
  lemma {:induction false} GetOfMember<K, V>(d: Dict<K, V>, i: nat)
    requires Valid(d) && i < |d|
    ensures Get(d, d[i].0) == Some(d[i].1)
  {
    if i > 0 {
      assert d[0].0 != d[i].0;
      assert Valid(d[1..]) by {
        forall a, b | 0 <= a < b < |d[1..]| ensures d[1..][a].0 != d[1..][b].0 {
          assert d[1..][a] == d[a + 1] && d[1..][b] == d[b + 1];
        }
      }
      GetOfMember(d[1..], i - 1);
    }
  }

  /** Sum of a natural-number measure over the values of a dict. */
  function SumValues<K(==)>(d: Dict<K, nat>): nat {
    if d == [] then 0 else d[0].1 + SumValues(d[1..])
  }

  /** Assigning `v` to `k` replaces `k`'s old value, or nothing, by `v` in the sum of the values. */
  lemma {:induction false} SumValuesSet<K>(d: Dict<K, nat>, k: K, v: nat)
    ensures SumValues(Set(d, k, v)) + Get(d, k).GetOr(0) == SumValues(d) + v
  {
    if d != [] && d[0].0 != k {
      var r := Set(d, k, v);
      assert r[0] == d[0] && r[1..] == Set(d[1..], k, v);
      SumValuesSet(d[1..], k, v);
    }
  }

  /** `d.get(k, 0)` for a dict of counts. */
  function CountOf<K(==)>(d: Dict<K, nat>, k: K): nat {
    Get(d, k).GetOr(0)
  }

  /** `d[k] = d.get(k, 0) + 1`. */
  function Increment<K(==)>(d: Dict<K, nat>, k: K): Dict<K, nat> {
    Set<K, nat>(d, k, CountOf(d, k) + 1)
  }

  /** Incrementing a key adds one to its count. */
  lemma IncrementSame<K>(d: Dict<K, nat>, k: K)
    ensures CountOf(Increment(d, k), k) == CountOf(d, k) + 1
  {
    GetSetSame<K, nat>(d, k, CountOf(d, k) + 1);
  }

  /** Incrementing a key leaves the other keys' counts alone. */
  lemma IncrementOther<K>(d: Dict<K, nat>, k: K, t: K)
    requires k != t
    ensures CountOf(Increment(d, k), t) == CountOf(d, t)
  {
    GetSetOther<K, nat>(d, k, CountOf(d, k) + 1, t);
  }

  /** Incrementing a key adds exactly one to the sum of the values. */
  lemma IncrementSum<K>(d: Dict<K, nat>, k: K)
    ensures SumValues(Increment(d, k)) == SumValues(d) + 1
  {
    SumValuesSet(d, k, CountOf(d, k) + 1);
  }

  /** The counts after incrementing each key of `keys` in turn. */
  function CountKeys<K(==)>(d: Dict<K, nat>, keys: seq<K>): Dict<K, nat> {
    if keys == [] then d else Increment(CountKeys(d, keys[..|keys| - 1]), keys[|keys| - 1])
  }

  /** The number of occurrences of `t` in `keys`. */
  function Occurrences<K(==)>(keys: seq<K>, t: K): nat {
    if keys == [] then 0 else Occurrences(keys[..|keys| - 1], t) + (if keys[|keys| - 1] == t then 1 else 0)
  }

  /** Counting keys adds each key's occurrences to its count. */
  lemma {:induction false} CountKeysGet<K>(d: Dict<K, nat>, keys: seq<K>, t: K)
    ensures CountOf(CountKeys(d, keys), t) == CountOf(d, t) + Occurrences(keys, t)
  {
    if keys != [] {
      var rest := keys[..|keys| - 1];
      var k := keys[|keys| - 1];
      CountKeysGet(d, rest, t);
      if k == t {
        IncrementSame(CountKeys(d, rest), k);
      } else {
        IncrementOther(CountKeys(d, rest), k, t);
      }
    }
  }

  /** Counting keys adds their number to the sum of the counts. */
  lemma {:induction false} CountKeysSum<K>(d: Dict<K, nat>, keys: seq<K>)
    ensures SumValues(CountKeys(d, keys)) == SumValues(d) + |keys|
  {
    if keys != [] {
      var rest := keys[..|keys| - 1];
      CountKeysSum(d, rest);
      IncrementSum(CountKeys(d, rest), keys[|keys| - 1]);
    }
  }

  /** Every entry after `d[k] = v` is the new one or an entry of `d`. */
  lemma {:induction false} SetEntries<K, V>(d: Dict<K, V>, k: K, v: V)
    ensures forall e :: e in Set(d, k, v) ==> e == (k, v) || e in d
  {
    if d != [] && d[0].0 != k {
      SetEntries(d[1..], k, v);
      assert Set(d, k, v) == [d[0]] + Set(d[1..], k, v);
    }
  }

  /** `del d[k]` keeps the remaining keys distinct. */
  lemma {:induction false} RemoveValid<K, V>(d: Dict<K, V>, k: K)
    requires Valid(d)
    ensures Valid(Remove(d, k))
  {
    if d != [] {
      var tail := d[1..];
      assert Valid(tail) by {
        forall a, b | 0 <= a < b < |tail| ensures tail[a].0 != tail[b].0 {
          assert tail[a] == d[a + 1] && tail[b] == d[b + 1];
        }
      }
      RemoveValid(tail, k);
      if d[0].0 != k {
        var r := Remove(d, k);
        forall a | 0 <= a < |Remove(tail, k)| ensures Remove(tail, k)[a].0 != d[0].0 {
          var e := Remove(tail, k)[a];
          var j :| 0 <= j < |tail| && tail[j] == e;
          assert tail[j] == d[j + 1];
        }
        assert r == [d[0]] + Remove(tail, k);
      }
    }
  }

  /** After `del d[k]` the key is gone and every other key keeps its value. */
  lemma {:induction false} RemoveGet<K, V>(d: Dict<K, V>, k: K, other: K)
    requires Valid(d)
    ensures !Contains(Remove(d, k), k)
    ensures other != k ==> Get(Remove(d, k), other) == Get(d, other)
  {
    if d != [] {
      var tail := d[1..];
      assert Valid(tail) by {
        forall a, b | 0 <= a < b < |tail| ensures tail[a].0 != tail[b].0 {
          assert tail[a] == d[a + 1] && tail[b] == d[b + 1];
        }
      }
      RemoveGet(tail, k, other);
      if d[0].0 == k && other != k {
        assert Get(d, other) == Get(tail, other);
      }
    }
  }

  /** A lookup in two dicts laid end to end finds the first one's entry first. */
  lemma {:induction false} GetAppend<K, V>(d: Dict<K, V>, e: Dict<K, V>, k: K)
    ensures Get(d + e, k) == if Contains(d, k) then Get(d, k) else Get(e, k)
  {
    if d != [] {
      assert (d + e)[1..] == d[1..] + e;
      GetAppend(d[1..], e, k);
    } else {
      assert d + e == e;
    }
  }

  /** Assigning a new key appends its entry. */
  lemma {:induction false} SetNewAppends<K, V>(d: Dict<K, V>, k: K, v: V)
    requires !Contains(d, k)
    ensures Set(d, k, v) == d + [(k, v)]
  {
    if d != [] {
      assert d[0].0 == Keys(d)[0] && d[0].0 != k;
      assert Keys(d[1..]) == Keys(d)[1..];
      assert !Contains(d[1..], k);
      SetNewAppends(d[1..], k, v);
      assert Set(d, k, v) == [d[0]] + Set(d[1..], k, v);
      assert d + [(k, v)] == [d[0]] + (d[1..] + [(k, v)]);
    }
  }

  /** After `d[k] = v` the keys are those of `d` and `k`. */
  lemma ContainsSet<K, V>(d: Dict<K, V>, k: K, v: V, t: K)
    ensures Contains(Set(d, k, v), t) <==> Contains(d, t) || t == k
  {
    if !Contains(d, k) {
      assert Keys(Set(d, k, v)) == Keys(d) + [k];
    }
  }

  /** A second assignment to the same key overrides the first. */
  lemma {:induction false} SetTwice<K, V>(d: Dict<K, V>, k: K, v: V, w: V)
    ensures Set(Set(d, k, v), k, w) == Set(d, k, w)
  {
    if d != [] && d[0].0 != k {
      SetTwice(d[1..], k, v, w);
    }
  }

  /** A valid dict is a valid dict followed by one entry whose key it lacks. */
  lemma ValidLast<K, V>(d: Dict<K, V>)
    requires Valid(d) && d != []
    ensures Valid(d[..|d| - 1]) && !Contains(d[..|d| - 1], d[|d| - 1].0)
    ensures Keys(d) == Keys(d[..|d| - 1]) + [d[|d| - 1].0]
  {
    var n := |d| - 1;
    ValidPrefix(d, n);
    LastKeyFresh(d);
    KeysLast(d);
  }

  lemma ValidPrefix<K, V>(d: Dict<K, V>, n: nat)
    requires Valid(d) && n <= |d|
    ensures Valid(d[..n])
  {
    var init := d[..n];
    forall i, j | 0 <= i < j < |init| ensures init[i].0 != init[j].0 {
      assert init[i] == d[i] && init[j] == d[j];
    }
  }

  lemma LastKeyFresh<K, V>(d: Dict<K, V>)
    requires Valid(d) && d != []
    ensures !Contains(d[..|d| - 1], d[|d| - 1].0)
  {
    var n := |d| - 1;
    var init := d[..n];
    forall i | 0 <= i < n ensures Keys(init)[i] != d[n].0 {
      assert Keys(init)[i] == d[i].0;
    }
  }

  lemma KeysLast<K, V>(d: Dict<K, V>)
    requires d != []
    ensures Keys(d) == Keys(d[..|d| - 1]) + [d[|d| - 1].0]
  {
    var a, b := Keys(d), Keys(d[..|d| - 1]) + [d[|d| - 1].0];
    assert |a| == |b|;
    forall i | 0 <= i < |a| ensures a[i] == b[i] {
      if i < |d| - 1 {
        assert b[i] == Keys(d[..|d| - 1])[i] == d[..|d| - 1][i].0;
      }
    }
  }
}

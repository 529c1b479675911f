// A Python dict as the sequence of its items in insertion order.

module Dicts {
  import opened Common

  type Dict<K, V> = seq<(K, V)>

  function Keys<K, V>(d: Dict<K, V>): (r: seq<K>)
    ensures |r| == |d|
    ensures forall i :: 0 <= i < |d| ==> r[i] == d[i].0
  {
    seq(|d|, i requires 0 <= i < |d| => d[i].0)
  }

  function Values<K, V>(d: Dict<K, V>): (r: seq<V>)
    ensures |r| == |d|
    ensures forall i :: 0 <= i < |d| ==> r[i] == d[i].1
  {
    seq(|d|, i requires 0 <= i < |d| => d[i].1)
  }

  /** No key occurs twice, as in every dict. */
  predicate UniqueKeys<K(==), V>(d: Dict<K, V>)
  {
    Distinct(Keys(d))
  }

  lemma KeysTail<K, V>(d: Dict<K, V>)
    requires d != []
    ensures Keys(d) == [d[0].0] + Keys(d[1..])
  {
  }

  /** `d.get(k)`. */
  function Get<K(==), V>(d: Dict<K, V>, k: K): Option<V>
  {
    if d == [] then None
    else if d[0].0 == k then Some(d[0].1)
    else Get(d[1..], k)
  }

  /** `d.get(k, default)`. */
  function GetOr<K(==), V>(d: Dict<K, V>, k: K, default: V): V
  {
    match Get(d, k)
    case Some(v) => v
    case None => default
  }

  lemma {:induction false} GetSpec<K, V>(d: Dict<K, V>, k: K)
    ensures Get(d, k).Some? <==> k in Keys(d)
    ensures Get(d, k).Some? ==> exists i :: 0 <= i < |d| && d[i] == (k, Get(d, k).value)
  {
    if d != [] {
      KeysTail(d);
      GetSpec(d[1..], k);
      if d[0].0 != k && Get(d, k).Some? {
        var i :| 0 <= i < |d[1..]| && d[1..][i] == (k, Get(d, k).value);
        assert d[i + 1] == (k, Get(d, k).value);
      }
    }
  }

  /** With unique keys, `Get` finds the value stored beside the key. */
  lemma {:induction false} GetAt<K, V>(d: Dict<K, V>, i: int)
    requires UniqueKeys(d) && 0 <= i < |d|
    ensures Get(d, d[i].0) == Some(d[i].1)
  {
    if i > 0 {
      KeysTail(d);
      assert Keys(d)[0] != Keys(d)[i];
      assert Keys(d[1..])[i - 1] == Keys(d)[i];
      GetAt(d[1..], i - 1);
    }
  }

  /** Looking up in a dict with one more item at the end. */
  lemma {:induction false} GetAppend<K, V>(d: Dict<K, V>, k: K, v: V, q: K)
    ensures Get(d + [(k, v)], q) == if Get(d, q).Some? then Get(d, q) else if q == k then Some(v) else None
  {
    if d != [] {
      assert (d + [(k, v)])[1..] == d[1..] + [(k, v)];
      GetAppend(d[1..], k, v, q);
    }
  }

  /** The keys of a dict with one more item at the end. */
  lemma KeysAppend<K, V>(d: Dict<K, V>, k: K, v: V)
    ensures Keys(d + [(k, v)]) == Keys(d) + [k]
  {
  }

  /** `d[k] = v`: overwrite in place, or append a new item. */
  function Set<K(==), V>(d: Dict<K, V>, k: K, v: V): (r: Dict<K, V>)
  {
    if d == [] then [(k, v)]
    else if d[0].0 == k then [(k, v)] + d[1..]
    else [d[0]] + Set(d[1..], k, v)
  }

  lemma {:induction false} GetSet<K, V>(d: Dict<K, V>, k: K, v: V, q: K)
    ensures Get(Set(d, k, v), q) == if q == k then Some(v) else Get(d, q)
  {
    if d != [] && d[0].0 != k {
      GetSet(d[1..], k, v, q);
    }
  }

  /** A new key is appended at the end. */
  lemma {:induction false} SetFresh<K, V>(d: Dict<K, V>, k: K, v: V)
    requires k !in Keys(d)
    ensures Set(d, k, v) == d + [(k, v)]
  {
    if d != [] {
      KeysTail(d);
      SetFresh(d[1..], k, v);
    }
  }

  lemma {:induction false} SetKeys<K, V>(d: Dict<K, V>, k: K, v: V)
    ensures Keys(Set(d, k, v)) == if k in Keys(d) then Keys(d) else Keys(d) + [k]
  {
    if d != [] {
      KeysTail(d);
      KeysTail(Set(d, k, v));
      if d[0].0 != k {
        SetKeys(d[1..], k, v);
      }
    }
  }

  lemma SetUnique<K, V>(d: Dict<K, V>, k: K, v: V)
    requires UniqueKeys(d)
    ensures UniqueKeys(Set(d, k, v))
  {
    SetKeys(d, k, v);
    if k !in Keys(d) {
      DistinctAppend(Keys(d), k);
    }
  }

  /** Writing a key from an allowed list keeps every key in that list. */
  lemma SetKeysWithin<K, V>(d: Dict<K, V>, k: K, v: V, allowed: seq<K>)
    requires forall q :: q in Keys(d) ==> q in allowed
    requires k in allowed
    ensures forall q :: q in Keys(Set(d, k, v)) ==> q in allowed
  {
    SetKeys(d, k, v);
  }

  /** Every item after `d[k] = v` is the new item or an item that was there before. */
  lemma {:induction false} SetItems<K, V>(d: Dict<K, V>, k: K, v: V)
    ensures forall x :: x in Set(d, k, v) ==> x == (k, v) || x in d
  {
    if d != [] && d[0].0 != k {
      SetItems(d[1..], k, v);
    }
  }

  /** `del d[k]` for a key that is present; no change for one that is absent. */
  function Remove<K(==), V>(d: Dict<K, V>, k: K): (r: Dict<K, V>)
  {
    if d == [] then []
    else if d[0].0 == k then d[1..]
    else [d[0]] + Remove(d[1..], k)
  }

  lemma {:induction false} RemoveSpec<K, V>(d: Dict<K, V>, k: K)
    requires UniqueKeys(d)
    ensures UniqueKeys(Remove(d, k))
    ensures forall q :: q in Keys(Remove(d, k)) <==> q in Keys(d) && q != k
    ensures forall q :: q != k ==> Get(Remove(d, k), q) == Get(d, q)
    ensures |Remove(d, k)| == if k in Keys(d) then |d| - 1 else |d|
  {
    RemoveUnique(d, k);
    RemoveKeys(d, k);
    RemoveLength(d, k);
    forall q | q != k
      ensures Get(Remove(d, k), q) == Get(d, q)
    {
      RemoveGet(d, k, q);
    }
  }

  lemma {:induction false} RemoveGet<K, V>(d: Dict<K, V>, k: K, q: K)
    requires q != k
    ensures Get(Remove(d, k), q) == Get(d, q)
  {
    if d != [] && d[0].0 != k {
      RemoveGet(d[1..], k, q);
      assert ([d[0]] + Remove(d[1..], k))[1..] == Remove(d[1..], k);
    }
  }

  lemma {:induction false} RemoveLength<K, V>(d: Dict<K, V>, k: K)
    ensures |Remove(d, k)| == if k in Keys(d) then |d| - 1 else |d|
  {
    if d != [] {
      KeysTail(d);
      RemoveLength(d[1..], k);
    }
  }

  lemma {:induction false} RemoveKeys<K, V>(d: Dict<K, V>, k: K)
    ensures forall q :: q in Keys(Remove(d, k)) ==> q in Keys(d)
    ensures forall q :: q != k && q in Keys(d) ==> q in Keys(Remove(d, k))
  {
    if d != [] {
      KeysTail(d);
      RemoveKeys(d[1..], k);
      if d[0].0 != k {
        KeysTail([d[0]] + Remove(d[1..], k));
        assert ([d[0]] + Remove(d[1..], k))[1..] == Remove(d[1..], k);
      }
    }
  }

  lemma {:induction false} RemoveUnique<K, V>(d: Dict<K, V>, k: K)
    requires UniqueKeys(d)
    ensures UniqueKeys(Remove(d, k)) && k !in Keys(Remove(d, k))
  {
    if d != [] {
      KeysTail(d);
      RemoveKeys(d[1..], k);
      if d[0].0 != k {
        var rest := Remove(d[1..], k);
        RemoveUnique(d[1..], k);
        KeysTail([d[0]] + rest);
        assert ([d[0]] + rest)[1..] == rest;
        assert d[0].0 !in Keys(rest);
      }
    }
  }

  lemma UniqueKeysTail<K, V>(d: Dict<K, V>)
    requires d != [] && UniqueKeys(d)
    ensures UniqueKeys(d[1..]) && d[0].0 !in Keys(d[1..])
  {
    var ks, rest := Keys(d), Keys(d[1..]);
    assert forall i :: 0 <= i < |rest| ==> rest[i] == ks[i + 1];
  }

  /** `[q for q in xs if q != k]`. */
  function Without<K(==)>(xs: seq<K>, k: K): (r: seq<K>)
    ensures k !in r
    ensures forall i :: 0 <= i < |r| ==> r[i] in xs
    ensures forall i :: 0 <= i < |xs| && xs[i] != k ==> xs[i] in r
  {
    FilterSpec(xs, q => q != k);
    Filter(xs, q => q != k)
  }

  /** Nothing to leave out, nothing changes. */
  lemma WithoutAbsent<K>(xs: seq<K>, k: K)
    requires k !in xs
    ensures Without(xs, k) == xs
  {
    FilterAll(xs, q => q != k);
  }

  /** With unique keys, `del d[k]` leaves the other keys in their order. */
  lemma {:induction false} RemoveKeysOrder<K, V>(d: Dict<K, V>, k: K)
    requires UniqueKeys(d)
    ensures Keys(Remove(d, k)) == Without(Keys(d), k)
  {
    var p := q => q != k;
    if d != [] {
      var rest := Keys(d[1..]);
      KeysTail(d);
      UniqueKeysTail(d);
      FilterCons(d[0].0, rest, p);
      if d[0].0 == k {
        assert Remove(d, k) == d[1..];
        FilterAll(rest, p);
      } else {
        var r := Remove(d[1..], k);
        assert Remove(d, k) == [d[0]] + r;
        RemoveKeysOrder(d[1..], k);
        KeysTail([d[0]] + r);
        assert ([d[0]] + r)[1..] == r;
      }
    }
    assert Without(Keys(d), k) == Filter(Keys(d), p);
  }

  /** Removing an item keeps the others. */
  lemma {:induction false} RemoveItems<K, V>(d: Dict<K, V>, k: K)
    ensures forall x :: x in Remove(d, k) ==> x in d
  {
    if d != [] && d[0].0 != k {
      RemoveItems(d[1..], k);
    }
  }

  /** `sum(d.values())`. */
  function Sum<K>(d: Dict<K, int>): int
  {
    if d == [] then 0 else d[0].1 + Sum(d[1..])
  }

  /** `d[k] += 1` on a `defaultdict(int)`. */
  function Increment<K(==)>(d: Dict<K, int>, k: K): Dict<K, int>
  {
    Set(d, k, GetOr(d, k, 0) + 1)
  }

  lemma {:induction false} SumSet<K>(d: Dict<K, int>, k: K, v: int)
    ensures Sum(Set(d, k, v)) == Sum(d) - GetOr(d, k, 0) + v
  {
    if d != [] && d[0].0 != k {
      SumSet(d[1..], k, v);
    }
  }

  /** Incrementing one counter raises that counter and the total by one and no other counter. */
  lemma IncrementSpec<K>(d: Dict<K, int>, k: K)
    ensures GetOr(Increment(d, k), k, 0) == GetOr(d, k, 0) + 1
    ensures forall q :: q != k ==> Get(Increment(d, k), q) == Get(d, q)
    ensures Sum(Increment(d, k)) == Sum(d) + 1
  {
    var v := GetOr(d, k, 0) + 1;
    GetSet(d, k, v, k);
    forall q | q != k ensures Get(Increment(d, k), q) == Get(d, q) {
      GetSet(d, k, v, q);
    }
    SumSet(d, k, v);
  }
}

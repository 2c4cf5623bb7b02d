/**
 * Option and Result, used wherever the application can fail or a value can be
 * absent, and Dict, a Python dict with string keys kept in insertion order.
 */
module Basics {

  datatype Option<+T> = None | Some(value: T)

  datatype Result<+T, +E> = Ok(value: T) | Err(error: E)

  /** One key and its value in a dict. */
  datatype Entry<V> = Entry(key: string, value: V)

  /** A dict as its entries in insertion order (the order str() and iteration use). */
  type Dict<V> = seq<Entry<V>>

  ghost predicate DistinctKeys<V>(d: Dict<V>) {
    forall i, j | 0 <= i < j < |d| :: d[i].key != d[j].key
  }

  /** The position of key in d, if any (the first one). */
  function Find<V>(d: Dict<V>, key: string): (k: Option<nat>)
    ensures k.Some? ==> k.value < |d| && d[k.value].key == key
    ensures k.Some? ==> forall j | 0 <= j < k.value :: d[j].key != key
    ensures k.None? <==> forall j | 0 <= j < |d| :: d[j].key != key
  {
    if d == [] then None
    else if d[0].key == key then Some(0)
    else match Find(d[1..], key)
      case None => None
      case Some(k) => Some(k + 1)
  }

  /** d.get(key) as an Option. */
  function Get<V>(d: Dict<V>, key: string): Option<V> {
    match Find(d, key)
    case None => None
    case Some(k) => Some(d[k].value)
  }

  /** The value, or the default when there is none (d.get(key, default) on a Get). */
  function GetOr<V>(x: Option<V>, default: V): V {
    if x.Some? then x.value else default
  }

  /** d[key] = value: an existing key keeps its place, a new key goes last. */
  function Put<V>(d: Dict<V>, key: string, value: V): (r: Dict<V>)
    ensures Get(r, key) == Some(value)
    ensures forall k :: k != key ==> Get(r, k) == Get(d, k)
    ensures DistinctKeys(d) ==> DistinctKeys(r)
    ensures Find(d, key).Some? ==> |r| == |d| && forall j | 0 <= j < |d| :: r[j].key == d[j].key
    ensures Find(d, key).None? ==> r == d + [Entry(key, value)]
  {
    match Find(d, key)
    case Some(k) =>
      var r := d[k := Entry(key, value)];
      assert forall j | 0 <= j < |r| :: r[j].key == d[j].key;
      forall other ensures Find(r, other) == Find(d, other) {
        FindSameKeys(d, r, other);
      }
      r
    case None =>
      var r := d + [Entry(key, value)];
      assert Find(r, key) == Some(|d|) by {
        FindAppended(d, key, value);
      }
      forall k | k != key ensures Get(r, k) == Get(d, k) {
        FindPastAppended(d, key, value, k);
      }
      r
  }

  /** Two dicts with the same keys in the same places find every key at the same place. */
  lemma {:induction false} FindSameKeys<V>(d: Dict<V>, r: Dict<V>, key: string)
    requires |r| == |d| && forall j | 0 <= j < |d| :: r[j].key == d[j].key
    ensures Find(r, key) == Find(d, key)
  {
    if d != [] {
      FindSameKeys(d[1..], r[1..], key);
    }
  }

  lemma {:induction false} FindAppended<V>(d: Dict<V>, key: string, value: V)
    requires Find(d, key).None?
    ensures Find(d + [Entry(key, value)], key) == Some(|d|)
  {
    if d != [] {
      assert (d + [Entry(key, value)])[1..] == d[1..] + [Entry(key, value)];
      FindAppended(d[1..], key, value);
    }
  }

  lemma {:induction false} FindPastAppended<V>(d: Dict<V>, key: string, value: V, other: string)
    requires other != key
    ensures Find(d + [Entry(key, value)], other) == Find(d, other)
  {
    if d != [] {
      assert (d + [Entry(key, value)])[1..] == d[1..] + [Entry(key, value)];
      FindPastAppended(d[1..], key, value, other);
    }
  }
}

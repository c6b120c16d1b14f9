/**
 * A Python `dict` as the sequence of its entries in insertion order.
 * Assigning to a key that is already present replaces its value in place;
 * assigning to a new key appends an entry at the end.
 */
module Dicts {
  import opened Wrappers

  datatype Entry<V> = Entry(key: string, value: V)

  type Dict<V> = seq<Entry<V>>

  /** The keys, in the order `dict.keys()` yields them. */
  function Keys<V>(d: Dict<V>): (ks: seq<string>)
    ensures |ks| == |d|
  {
    if d == [] then [] else [d[0].key] + Keys(d[1..])
  }

  /** No key occurs twice (every dict built by `Put` from `[]` has this). */
  predicate UniqueKeys<V>(d: Dict<V>)
  {
    d == [] || (d[0].key !in Keys(d[1..]) && UniqueKeys(d[1..]))
  }

  /** `d.get(k)`. */
  function Get<V>(d: Dict<V>, k: string): Option<V>
  {
    if d == [] then None
    else if d[0].key == k then Some(d[0].value)
    else Get(d[1..], k)
  }

  /** `d.get(k)` finds a value exactly for the keys of `d`. */
  lemma {:induction false} GetSomeIffKey<V>(d: Dict<V>, k: string)
    ensures Get(d, k).Some? <==> k in Keys(d)
  {
    if d != [] && d[0].key != k {
      GetSomeIffKey(d[1..], k);
    }
  }

  /** `d[k] = v`: overwrites the entry of `k` in place, or appends one. */
  function Put<V>(d: Dict<V>, k: string, v: V): Dict<V>
  {
    if d == [] then [Entry(k, v)]
    else if d[0].key == k then [Entry(k, v)] + d[1..]
    else [d[0]] + Put(d[1..], k, v)
  }

  /** After `d[k] = v`, `k` maps to `v` and every other key maps to what it did. */
  lemma {:induction false} PutGet<V>(d: Dict<V>, k: string, v: V, k': string)
    ensures Get(Put(d, k, v), k') == if k' == k then Some(v) else Get(d, k')
    decreases |d|
  {
    if d != [] && d[0].key != k {
      PutGet(d[1..], k, v, k');
      assert Put(d, k, v)[1..] == Put(d[1..], k, v);
    } else if d != [] {
      assert Put(d, k, v)[1..] == d[1..];
    }
  }

  /** After `d[k] = v`, `k` keeps its place or is appended, and keys stay unique. */
  lemma {:induction false} PutKeys<V>(d: Dict<V>, k: string, v: V)
    ensures Keys(Put(d, k, v)) == if k in Keys(d) then Keys(d) else Keys(d) + [k]
    ensures UniqueKeys(d) ==> UniqueKeys(Put(d, k, v))
    decreases |d|
  {
    if d != [] {
      var r := Put(d, k, v);
      if d[0].key == k {
        assert r[1..] == d[1..];
      } else {
        PutKeys(d[1..], k, v);
        assert r[1..] == Put(d[1..], k, v);
        assert k !in Keys(d[1..]) ==> [d[0].key] + (Keys(d[1..]) + [k]) == Keys(d) + [k];
      }
    }
  }
}

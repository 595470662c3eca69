/**
 * Python's `dict` with string keys: a sequence of (key, value) pairs in insertion
 * order. Assigning `d[k] = v` replaces the value in place when `k` is present and
 * appends the pair otherwise, so iteration order is first-insertion order.
 */
module OrderedDict {
  import opened Wrappers

  type Dict<V> = seq<(string, V)>

  /** The key set, `set(d.keys())`. */
  function Keys<V>(d: Dict<V>): set<string> {
    if d == [] then {} else {d[0].0} + Keys(d[1..])
  }

  /** No key occurs twice: every dict Python builds has this shape. */
  predicate Distinct<V>(d: Dict<V>) {
    d == [] || (d[0].0 !in Keys(d[1..]) && Distinct(d[1..]))
  }

  /** `d.get(k)`, with `None` for a missing key. */
  function Get<V>(d: Dict<V>, k: string): (r: Option<V>)
    ensures r.Some? <==> k in Keys(d)
  {
    if d == [] then None else if d[0].0 == k then Some(d[0].1) else Get(d[1..], k)
  }

  /** `d[k] = v`, on a copy. */
  function Put<V>(d: Dict<V>, k: string, v: V): (r: Dict<V>)
    ensures Keys(r) == Keys(d) + {k}
    ensures Get(r, k) == Some(v)
    ensures forall k' :: k' != k ==> Get(r, k') == Get(d, k')
    ensures k !in Keys(d) ==> r == d + [(k, v)]
    ensures k in Keys(d) ==> |r| == |d| && forall i :: 0 <= i < |d| ==> r[i].0 == d[i].0
    ensures Distinct(d) ==> Distinct(r)
  {
    if d == [] then [(k, v)]
    else if d[0].0 == k then [(k, v)] + d[1..]
    else
      var rest := Put(d[1..], k, v);
      assert d == [d[0]] + d[1..];
      [d[0]] + rest
  }

  /** `for k, v in items: d[k] = v` (what `dict.update` does). */
  function PutAll<V>(d: Dict<V>, items: Dict<V>): (r: Dict<V>)
    ensures Keys(r) == Keys(d) + Keys(items)
    ensures forall k :: k !in Keys(items) ==> Get(r, k) == Get(d, k)
    ensures Distinct(d) ==> Distinct(r)
    decreases |items|
  {
    if items == [] then d else PutAll(Put(d, items[0].0, items[0].1), items[1..])
  }

  /** With distinct keys in `items`, every key of `items` ends up with its value there. */
  lemma {:induction false} PutAllGet<V>(d: Dict<V>, items: Dict<V>, k: string)
    requires Distinct(items) && k in Keys(items)
    ensures Get(PutAll(d, items), k) == Get(items, k)
    decreases |items|
  {
    if items[0].0 == k {
      assert k !in Keys(items[1..]);
    } else {
      PutAllGet(Put(d, items[0].0, items[0].1), items[1..], k);
    }
  }

  /** Updating with one more pair is one more assignment at the end. */
  lemma {:induction false} PutAllSnoc<V>(d: Dict<V>, items: Dict<V>, k: string, v: V)
    ensures PutAll(d, items + [(k, v)]) == Put(PutAll(d, items), k, v)
    decreases |items|
  {
    if items == [] {
      assert [] + [(k, v)] == [(k, v)];
    } else {
      assert (items + [(k, v)])[1..] == items[1..] + [(k, v)];
      PutAllSnoc(Put(d, items[0].0, items[0].1), items[1..], k, v);
    }
  }

  /** `[(k, f(v)) for k, v in d]`: every value mapped, keys and order kept. */
  function MapValues<V, W>(d: Dict<V>, f: V -> W): (r: Dict<W>)
    ensures |r| == |d|
  {
    if d == [] then [] else MapValues(d[..|d| - 1], f) + [(d[|d| - 1].0, f(d[|d| - 1].1))]
  }

  /** Pair `i` of the mapped dict is pair `i` of `d` with its value mapped. */
  lemma {:induction false} MapValuesAt<V, W>(d: Dict<V>, f: V -> W, i: int)
    requires 0 <= i < |d|
    ensures MapValues(d, f)[i] == (d[i].0, f(d[i].1))
  {
    if i < |d| - 1 {
      MapValuesAt(d[..|d| - 1], f, i);
    }
  }

  /** Mapping one more pair appends its image. */
  lemma MapValuesStep<V, W>(d: Dict<V>, f: V -> W, i: int)
    requires 0 <= i < |d|
    ensures MapValues(d[..i + 1], f) == MapValues(d[..i], f) + [(d[i].0, f(d[i].1))]
  {
    assert d[..i + 1][..i] == d[..i];
  }
}

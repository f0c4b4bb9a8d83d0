/**
 * A JavaScript plain object seen as a dictionary: its entries in insertion order.
 * `Put` is property assignment (`o[k] = v`: an existing key keeps its place and
 * takes the new value, a new key goes last), `Remove` is `delete o[k]`, and
 * `Build` is what a loop of assignments over a list of entries leaves behind.
 */
module Dict {
  import opened Wrappers

  type Dict<V> = seq<(string, V)>

  function Keys<V>(d: Dict<V>): set<string> {
    set i | 0 <= i < |d| :: d[i].0
  }

  /** No key appears twice, as in every real object. */
  predicate DistinctKeys<V>(d: Dict<V>) {
    forall i, j :: 0 <= i < j < |d| ==> d[i].0 != d[j].0
  }

  /** The position of the first entry with key `k`, or -1 when there is none. */
  function IndexOf<V>(d: Dict<V>, k: string): (i: int)
    ensures -1 <= i < |d|
    ensures i == -1 <==> k !in Keys(d)
    ensures 0 <= i ==> d[i].0 == k && forall j :: 0 <= j < i ==> d[j].0 != k
  {
    if d == [] then -1
    else if d[0].0 == k then 0
    else
      KeysCons(d[0], d[1..]);
      assert d == [d[0]] + d[1..];
      var i := IndexOf(d[1..], k);
      if i == -1 then -1 else i + 1
  }

  /** `o[k]`: the value of the first entry with key `k`. */
  function Get<V>(d: Dict<V>, k: string): (r: Option<V>)
    ensures r.Some? <==> k in Keys(d)
  {
    var i := IndexOf(d, k);
    if i == -1 then None else Some(d[i].1)
  }

  lemma KeysCons<V>(e: (string, V), d: Dict<V>)
    ensures Keys([e] + d) == {e.0} + Keys(d)
  {
    var c := [e] + d;
    forall k | k in Keys(c) ensures k in {e.0} + Keys(d) {
      var i :| 0 <= i < |c| && c[i].0 == k;
      if i > 0 { assert d[i - 1].0 == k; }
    }
    forall k | k in Keys(d) ensures k in Keys(c) {
      var i :| 0 <= i < |d| && d[i].0 == k;
      assert c[i + 1].0 == k;
    }
    assert c[0].0 == e.0;
  }

  lemma KeysSingle<V>(k: string, v: V)
    ensures Keys([(k, v)]) == {k}
  {
    var one := [(k, v)];
    assert one[0].0 == k;
  }

  lemma KeysConcat<V>(a: Dict<V>, b: Dict<V>)
    ensures Keys(a + b) == Keys(a) + Keys(b)
  {
    var c := a + b;
    forall k | k in Keys(c) ensures k in Keys(a) + Keys(b) {
      var i :| 0 <= i < |c| && c[i].0 == k;
      if i >= |a| { assert b[i - |a|].0 == k; } else { assert a[i].0 == k; }
    }
    forall k | k in Keys(b) ensures k in Keys(c) {
      var i :| 0 <= i < |b| && b[i].0 == k;
      assert c[|a| + i].0 == k;
    }
    forall k | k in Keys(a) ensures k in Keys(c) {
      var i :| 0 <= i < |a| && a[i].0 == k;
      assert c[i].0 == k;
    }
  }

  /** `o[k] = v`. */
  function Put<V>(d: Dict<V>, k: string, v: V): (r: Dict<V>)
    ensures Keys(r) == Keys(d) + {k}
    ensures Get(r, k) == Some(v)
    ensures forall k' :: k' != k ==> Get(r, k') == Get(d, k')
    ensures DistinctKeys(d) ==> DistinctKeys(r)
    ensures k !in Keys(d) ==> r == d + [(k, v)]
  {
    var i := IndexOf(d, k);
    if i == -1 then
      KeysConcat(d, [(k, v)]);
      IndexOfAppend(d, k, v);
      KeysConcat(d, [(k, v)]);
      var one: Dict<V> := [(k, v)];
      assert one[0].0 == k;
      assert Keys(one) == {k};
      d + one
    else
      var r := d[i := (k, v)];
      assert forall j :: 0 <= j < |d| ==> r[j].0 == d[j].0;
      assert Keys(r) == Keys(d);
      IndexOfSameKeys(d, r);
      r
  }

  /** Two dictionaries with the same key at every position find every key at the same place. */
  lemma IndexOfSameKeys<V>(d: Dict<V>, r: Dict<V>)
    requires |d| == |r| && forall j :: 0 <= j < |d| ==> r[j].0 == d[j].0
    ensures Keys(r) == Keys(d)
    ensures forall k :: IndexOf(r, k) == IndexOf(d, k)
  {
    assert Keys(r) == Keys(d);
    forall k ensures IndexOf(r, k) == IndexOf(d, k) {
    }
  }

  /** Appending an entry with key `k` moves no other key. */
  lemma IndexOfAppend<V>(d: Dict<V>, k: string, v: V)
    ensures forall k' :: k' != k ==> IndexOf(d + [(k, v)], k') == IndexOf(d, k')
  {
    var r := d + [(k, v)];
    KeysConcat(d, [(k, v)]);
    forall k' | k' != k ensures IndexOf(r, k') == IndexOf(d, k') {
      var i := IndexOf(r, k');
      if i == -1 {
        assert k' !in Keys(d);
      } else {
        assert i < |d| && d[i].0 == k';
        assert forall j :: 0 <= j < i ==> d[j] == r[j];
        IndexOfIs(d, k', i);
      }
    }
  }

  /** The first position with key `k` is what `IndexOf` finds. */
  lemma IndexOfIs<V>(d: Dict<V>, k: string, i: int)
    requires 0 <= i < |d| && d[i].0 == k && forall j :: 0 <= j < i ==> d[j].0 != k
    ensures IndexOf(d, k) == i
  {
    assert k in Keys(d);
  }

  /** `delete o[k]`: the object without its entries for `k`. */
  function Remove<V>(d: Dict<V>, k: string): (r: Dict<V>)
    ensures Keys(r) == Keys(d) - {k}
  {
    if d == [] then []
    else
      var rest := Remove(d[1..], k);
      KeysCons(d[0], d[1..]);
      assert d == [d[0]] + d[1..];
      if d[0].0 == k then rest
      else
        KeysCons(d[0], rest);
        [d[0]] + rest
  }

  /** The value of the last entry of `e` with key `k`. */
  function LastWith<V>(e: Dict<V>, k: string): (r: Option<V>)
    ensures r.Some? <==> k in Keys(e)
  {
    if e == [] then None
    else
      var n := |e| - 1;
      KeysConcat(e[..n], [e[n]]);
      assert e == e[..n] + [e[n]];
      if e[n].0 == k then Some(e[n].1) else LastWith(e[..n], k)
  }

  /** The entries of `e` whose key passes `keep`, in order. */
  function Filter<V>(e: Dict<V>, keep: string -> bool): (r: Dict<V>)
    ensures forall k :: k in Keys(r) <==> k in Keys(e) && keep(k)
    ensures forall x :: x in r ==> x in e
    ensures forall k :: LastWith(r, k) == if keep(k) then LastWith(e, k) else None
    ensures (forall k :: k in Keys(e) ==> keep(k)) ==> r == e
  {
    if e == [] then []
    else
      var n := |e| - 1;
      KeysConcat(e[..n], [e[n]]);
      assert e == e[..n] + [e[n]];
      var rest := Filter(e[..n], keep);
      if keep(e[n].0) then
        KeysConcat(rest, [e[n]]);
        assert (rest + [e[n]])[..|rest|] == rest;
        rest + [e[n]]
      else rest
  }

  /** The object left by assigning the entries of `e` one after another to `{}`. */
  function Build<V>(e: Dict<V>): (r: Dict<V>)
    ensures Keys(r) == Keys(e)
    ensures DistinctKeys(r)
    ensures forall k :: Get(r, k) == LastWith(e, k)
  {
    if e == [] then []
    else
      var n := |e| - 1;
      KeysConcat(e[..n], [e[n]]);
      assert e == e[..n] + [e[n]];
      Put(Build(e[..n]), e[n].0, e[n].1)
  }

  /** Assignment only ever adds the assigned entry. */
  lemma PutEntries<V>(d: Dict<V>, k: string, v: V)
    ensures forall x :: x in Put(d, k, v) ==> x in d || x == (k, v)
  {
  }

  /** Every entry of a built object is one of the assignments. */
  lemma {:induction false} BuildEntries<V>(e: Dict<V>)
    ensures forall x :: x in Build(e) ==> x in e
  {
    if e != [] {
      var n := |e| - 1;
      BuildEntries(e[..n]);
      PutEntries(Build(e[..n]), e[n].0, e[n].1);
      assert e == e[..n] + [e[n]];
    }
  }

  /** One more assignment after the others. */
  lemma BuildSnoc<V>(e: Dict<V>, k: string, v: V)
    ensures Build(e + [(k, v)]) == Put(Build(e), k, v)
  {
    assert (e + [(k, v)])[..|e|] == e;
  }

  /** Assigning the entries of an object that already has distinct keys reproduces it. */
  lemma {:induction false} BuildDistinct<V>(d: Dict<V>)
    requires DistinctKeys(d)
    ensures Build(d) == d
  {
    if d != [] {
      var n := |d| - 1;
      var p := d[..n];
      assert DistinctKeys(p) by {
        forall i, j | 0 <= i < j < |p|
          ensures p[i].0 != p[j].0
        {
          assert p[i] == d[i] && p[j] == d[j];
        }
      }
      forall j | 0 <= j < |p|
        ensures p[j].0 != d[n].0
      {
        assert p[j] == d[j];
      }
      assert d[n].0 !in Keys(p);
      BuildDistinct(p);
      assert d == p + [(d[n].0, d[n].1)];
      BuildSnoc(p, d[n].0, d[n].1);
    }
  }

  /** In an object with distinct keys, the first entry with a key is also the last. */
  lemma {:induction false} LastWithDistinct<V>(d: Dict<V>, k: string)
    requires DistinctKeys(d)
    ensures LastWith(d, k) == Get(d, k)
  {
    BuildDistinct(d);
  }

  /** The last entry with a key in `a + b` is in `b` when `b` has the key. */
  lemma {:induction false} LastWithConcat<V>(a: Dict<V>, b: Dict<V>, k: string)
    ensures LastWith(a + b, k) == if k in Keys(b) then LastWith(b, k) else LastWith(a, k)
    decreases |b|
  {
    if b == [] {
      assert a + b == a;
    } else {
      var n := |b| - 1;
      KeysConcat(b[..n], [b[n]]);
      assert b == b[..n] + [b[n]];
      assert (a + b)[..|a + b| - 1] == a + b[..n];
      LastWithConcat(a, b[..n], k);
    }
  }

  lemma LastWithConcatAll<V>(a: Dict<V>, b: Dict<V>)
    ensures forall k :: LastWith(a + b, k) == if k in Keys(b) then LastWith(b, k) else LastWith(a, k)
  {
    forall k ensures LastWith(a + b, k) == if k in Keys(b) then LastWith(b, k) else LastWith(a, k) {
      LastWithConcat(a, b, k);
    }
  }

  /** `{...a, ...b}`: the keys of both, a value from `b` wherever `b` has the key. */
  function Spread<V>(a: Dict<V>, b: Dict<V>): (r: Dict<V>)
    ensures Keys(r) == Keys(a) + Keys(b)
    ensures DistinctKeys(r)
    ensures forall k :: Get(r, k) == if k in Keys(b) then LastWith(b, k) else LastWith(a, k)
  {
    KeysConcat(a, b);
    LastWithConcatAll(a, b);
    Build(a + b)
  }
}

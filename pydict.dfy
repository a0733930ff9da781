/**
 * Python dicts with their insertion order: a sequence of (key, value) pairs. The order
 * decides which key a loop over the dict meets first; the mapping it denotes is `ToMap`.
 */
module PyDict {

  /** A Python `dict[str, V]` in insertion order. */
  type Dict<V> = seq<(string, V)>

  /** The keys of `d` in insertion order, as `list(d)`. */
  function Keys<V>(d: Dict<V>): (ks: seq<string>)
    ensures |ks| == |d|
    ensures forall i :: 0 <= i < |d| ==> ks[i] == d[i].0
  {
    seq(|d|, i requires 0 <= i < |d| => d[i].0)
  }

  /** No name occurs twice: what every Python dict satisfies. */
  predicate DistinctKeys<V>(d: Dict<V>)
  {
    forall i, j :: 0 <= i < j < |d| ==> d[i].0 != d[j].0
  }

  /** The keys of a non-empty dict: the first one, then those of the rest. */
  lemma KeysCons<V>(d: Dict<V>)
    requires |d| > 0
    ensures Keys(d) == [d[0].0] + Keys(d[1..])
  {
  }

  /** A dict literal with the distinct names `ks`: the names in order, each with its value. */
  function Zip<V>(ks: seq<string>, vs: seq<V>): (d: Dict<V>)
    requires |ks| == |vs|
    requires forall i, j :: 0 <= i < j < |ks| ==> ks[i] != ks[j]
    ensures Keys(d) == ks
    ensures forall i :: 0 <= i < |d| ==> d[i] == (ks[i], vs[i])
  {
    seq(|ks|, i requires 0 <= i < |ks| => (ks[i], vs[i]))
  }

  /** The mapping a dict denotes: a later pair for the same key wins. */
  function ToMap<V>(d: Dict<V>): map<string, V>
  {
    if |d| == 0 then map[] else map[d[0].0 := d[0].1] + ToMap(d[1..])
  }

  /** The mapping has exactly the dict's keys. */
  lemma {:induction false} ToMapKeys<V>(d: Dict<V>)
    ensures forall k :: k in ToMap(d) <==> k in Keys(d)
  {
    if |d| > 0 {
      ToMapKeys(d[1..]);
      assert Keys(d) == [d[0].0] + Keys(d[1..]);
    }
  }

  /**
   * `d[k] = v`: a present key keeps its position and takes the new value, a new key goes
   * last. A Python dict never holds a key twice; on a sequence that does, the last pair
   * for `k` (the one `ToMap` reads) is the one replaced.
   */
  function Put<V>(d: Dict<V>, k: string, v: V): (r: Dict<V>)
    ensures Keys(r) == if k in Keys(d) then Keys(d) else Keys(d) + [k]
  {
    if |d| == 0 then [(k, v)]
    else
      KeysCons(d);
      if d[0].0 == k && k !in Keys(d[1..]) then
        KeysPrepend((k, v), d[1..]);
        [(k, v)] + d[1..]
      else
        var rest := Put(d[1..], k, v);
        KeysPrepend(d[0], rest);
        assert k !in Keys(d[1..]) ==> ([d[0].0] + Keys(d[1..])) + [k] == [d[0].0] + (Keys(d[1..]) + [k]);
        [d[0]] + rest
  }

  /** The keys of a dict with one pair written in front. */
  lemma KeysPrepend<V>(p: (string, V), d: Dict<V>)
    ensures Keys([p] + d) == [p.0] + Keys(d)
  {
  }

  /** `d[k] = v` changes the mapping at `k` only. */
  lemma {:induction false} PutDenotes<V>(d: Dict<V>, k: string, v: V)
    ensures ToMap(Put(d, k, v)) == ToMap(d)[k := v]
  {
    if |d| > 0 {
      ToMapKeys(d[1..]);
      if d[0].0 == k && k !in Keys(d[1..]) {
        PutFirst(d, v);
      } else {
        PutDenotes(d[1..], k, v);
        PutLater(d, k, v);
      }
    }
  }

  /** Replacing the value of the first key, which the rest of the dict does not hold. */
  lemma PutFirst<V>(d: Dict<V>, v: V)
    requires |d| > 0 && d[0].0 !in ToMap(d[1..])
    requires Put(d, d[0].0, v) == [(d[0].0, v)] + d[1..]
    ensures ToMap(Put(d, d[0].0, v)) == ToMap(d)[d[0].0 := v]
  {
    var k, rest := d[0].0, ToMap(d[1..]);
    var r := [(k, v)] + d[1..];
    assert r[0] == (k, v) && r[1..] == d[1..];
    assert ToMap(r) == map[k := v] + rest;
    UpdateFresh(k, d[0].1, v, rest);
  }

  /** Putting into the rest of the dict leaves the first pair in front. */
  lemma PutLater<V>(d: Dict<V>, k: string, v: V)
    requires |d| > 0 && Put(d, k, v) == [d[0]] + Put(d[1..], k, v)
    requires ToMap(Put(d[1..], k, v)) == ToMap(d[1..])[k := v]
    ensures ToMap(Put(d, k, v)) == ToMap(d)[k := v]
  {
    assert Put(d, k, v)[1..] == Put(d[1..], k, v);
    assert ToMap(Put(d, k, v)) == map[d[0].0 := d[0].1] + ToMap(d[1..])[k := v];
    UnionThenUpdate(map[d[0].0 := d[0].1], ToMap(d[1..]), k, v);
  }

  /** Updating the right operand of a union updates the union. */
  lemma UnionThenUpdate<V>(m: map<string, V>, n: map<string, V>, k: string, v: V)
    ensures m + n[k := v] == (m + n)[k := v]
  {
  }

  /** Changing a key that `n` does not have, under `n`. */
  lemma UpdateFresh<V>(k: string, u: V, v: V, n: map<string, V>)
    requires k !in n
    ensures (map[k := u] + n)[k := v] == map[k := v] + n
  {
  }

  /** Appending a pair to the dict lays it over the mapping. */
  lemma {:induction false} ToMapSnoc<V>(d: Dict<V>, k: string, v: V)
    ensures ToMap(d + [(k, v)]) == ToMap(d)[k := v]
  {
    if |d| > 0 {
      assert (d + [(k, v)])[1..] == d[1..] + [(k, v)];
      ToMapSnoc(d[1..], k, v);
    } else {
      assert d + [(k, v)] == [(k, v)];
    }
  }

  /** `{**a, **b}`: the pairs of `b` put into a copy of `a`, in `b`'s order. */
  function Merge<V>(a: Dict<V>, b: Dict<V>): Dict<V>
    decreases |b|
  {
    if |b| == 0 then a else Merge(Put(a, b[0].0, b[0].1), b[1..])
  }

  /** Updating one key and then laying `n` over the result is laying `{k: v} + n` over `m`. */
  lemma UpdateThenUnion<V>(m: map<string, V>, k: string, v: V, n: map<string, V>)
    ensures m[k := v] + n == m + (map[k := v] + n)
  {
  }

  /** The mapping of `{**a, **b}` is that of `b` laid over that of `a`. */
  lemma {:induction false} MergeDenotes<V>(a: Dict<V>, b: Dict<V>)
    ensures ToMap(Merge(a, b)) == ToMap(a) + ToMap(b)
    decreases |b|
  {
    if |b| > 0 {
      var k, v := b[0].0, b[0].1;
      var a' := Put(a, k, v);
      PutDenotes(a, k, v);
      MergeDenotes(a', b[1..]);
      calc {
        ToMap(Merge(a, b));
        ToMap(Merge(a', b[1..]));
        ToMap(a') + ToMap(b[1..]);
        ToMap(a)[k := v] + ToMap(b[1..]);
        { UpdateThenUnion(ToMap(a), k, v, ToMap(b[1..])); }
        ToMap(a) + (map[k := v] + ToMap(b[1..]));
        ToMap(a) + ToMap(b);
      }
    }
  }

  /** The names of `{**a, **b}`: those of `a` and those of `b`. */
  lemma {:induction false} MergeKeys<V>(a: Dict<V>, b: Dict<V>)
    ensures forall k :: k in Keys(Merge(a, b)) <==> k in Keys(a) || k in Keys(b)
    decreases |b|
  {
    if |b| > 0 {
      MergeKeys(Put(a, b[0].0, b[0].1), b[1..]);
      KeysCons(b);
    }
  }

  /** Laying `c` over `b` and then over `a` is laying it over `b` laid over `a`. */
  lemma UnionAssoc<V>(a: map<string, V>, b: map<string, V>, c: map<string, V>)
    ensures a + (b + c) == (a + b) + c
  {
  }

  /** The value `d` gives a key whose last pair is at index `i`. */
  lemma {:induction false} ToMapAt<V>(d: Dict<V>, i: nat)
    requires i < |d| && d[i].0 !in Keys(d[i + 1..])
    ensures d[i].0 in ToMap(d) && ToMap(d)[d[i].0] == d[i].1
  {
    ToMapKeys(d[i + 1..]);
    if i > 0 {
      assert d[1..][i - 1] == d[i] && d[1..][i..] == d[i + 1..];
      ToMapAt(d[1..], i - 1);
    } else {
      assert d[1..] == d[i + 1..];
    }
  }

  /** A name the dict does not list is not in its mapping. */
  lemma MissingKey<V>(d: Dict<V>, ks: seq<string>, k: string)
    requires Keys(d) == ks && k !in ks
    ensures k !in ToMap(d)
  {
    ToMapKeys(d);
  }

  /** The keys of two dicts written one after the other. */
  lemma KeysAppend<V>(a: Dict<V>, b: Dict<V>)
    ensures Keys(a + b) == Keys(a) + Keys(b)
  {
  }

  /** The value a dict gives a name whose last occurrence is at index `i`. */
  lemma LastLookup<V>(d: Dict<V>, ks: seq<string>, i: nat)
    requires Keys(d) == ks && i < |ks| && ks[i] !in ks[i + 1..]
    ensures ks[i] in ToMap(d) && ToMap(d)[ks[i]] == d[i].1
  {
    assert Keys(d[i + 1..]) == ks[i + 1..];
    ToMapAt(d, i);
  }
}

/**
 * Python dicts with string keys, which remember insertion order: a dict is the
 * list of its (key, value) pairs in the order the keys were first inserted.
 * `items()` is the list itself; assigning to an existing key keeps its place.
 */
module PyDict {

  type Dict<V> = seq<(string, V)>

  /** The keys in iteration order. */
  function Keys<V>(d: Dict<V>): (ks: seq<string>)
    ensures |ks| == |d|
  {
    if d == [] then [] else [d[0].0] + Keys(d[1..])
  }

  /** No key occurs twice, as in every real dict. */
  predicate UniqueKeys<V>(d: Dict<V>) {
    d == [] || (d[0].0 !in Keys(d[1..]) && UniqueKeys(d[1..]))
  }

  /** The mapping a list of pairs denotes, later pairs overriding earlier ones
      (the meaning of `dict(pairs)`). */
  ghost function ToMap<V>(d: Dict<V>): map<string, V>
  {
    if d == [] then map[] else map[d[0].0 := d[0].1] + ToMap(d[1..])
  }

  /** The denoted mapping has exactly the listed keys. */
  lemma {:induction false} ToMapKeys<V>(d: Dict<V>)
    ensures ToMap(d).Keys == set k | k in Keys(d)
  {
    if d != [] {
      ToMapKeys(d[1..]);
    }
  }

  /** `d[k] = v`: a present key keeps its place and takes the new value; a new key goes last. */
  function Set<V>(d: Dict<V>, k: string, v: V): Dict<V>
  {
    if d == [] then [(k, v)]
    else if d[0].0 == k then [(k, v)] + d[1..]
    else [d[0]] + Set(d[1..], k, v)
  }

  /** `d.update(e)`: the pairs of `e` assigned one after the other, in order. */
  function Update<V>(d: Dict<V>, e: Dict<V>): Dict<V>
    decreases |e|
  {
    if e == [] then d else Update(Set(d, e[0].0, e[0].1), e[1..])
  }

  /** Assignment keeps an existing key in its place and appends a new one. */
  lemma {:induction false} SetKeys<V>(d: Dict<V>, k: string, v: V)
    ensures Keys(Set(d, k, v)) == if k in Keys(d) then Keys(d) else Keys(d) + [k]
  {
    if d != [] && d[0].0 != k {
      SetKeys(d[1..], k, v);
    }
  }

  /** Assignment keeps the keys unique. */
  lemma {:induction false} SetUnique<V>(d: Dict<V>, k: string, v: V)
    requires UniqueKeys(d)
    ensures UniqueKeys(Set(d, k, v))
  {
    if d != [] && d[0].0 != k {
      SetUnique(d[1..], k, v);
      SetKeys(d[1..], k, v);
    }
  }

  /** In a dict, assignment means map override. */
  lemma {:induction false} SetToMap<V>(d: Dict<V>, k: string, v: V)
    requires UniqueKeys(d)
    ensures ToMap(Set(d, k, v)) == ToMap(d)[k := v]
  {
    if d == [] {
    } else if d[0].0 == k {
      ToMapKeys(d[1..]);
      assert Set(d, k, v) == [(k, v)] + d[1..];
      assert ([(k, v)] + d[1..])[0] == (k, v) && ([(k, v)] + d[1..])[1..] == d[1..];
      UpdateFresh(k, d[0].1, v, ToMap(d[1..]));
    } else {
      SetToMap(d[1..], k, v);
      assert ([d[0]] + Set(d[1..], k, v))[1..] == Set(d[1..], k, v);
      UpdateRight(map[d[0].0 := d[0].1], ToMap(d[1..]), k, v);
    }
  }

  lemma UpdateFresh<V>(k: string, v0: V, v: V, n: map<string, V>)
    requires k !in n
    ensures (map[k := v0] + n)[k := v] == map[k := v] + n
  {
  }

  lemma UpdateRight<V>(m: map<string, V>, n: map<string, V>, k: string, v: V)
    ensures (m + n)[k := v] == m + n[k := v]
  {
  }

  /** `d.update(e)` keeps the keys unique. */
  lemma {:induction false} UpdateUnique<V>(d: Dict<V>, e: Dict<V>)
    requires UniqueKeys(d)
    ensures UniqueKeys(Update(d, e))
    decreases |e|
  {
    if e != [] {
      SetUnique(d, e[0].0, e[0].1);
      UpdateUnique(Set(d, e[0].0, e[0].1), e[1..]);
    }
  }

  /** In a dict, `d.update(e)` means map override by `e`. */
  lemma {:induction false} UpdateToMap<V>(d: Dict<V>, e: Dict<V>)
    requires UniqueKeys(d)
    ensures ToMap(Update(d, e)) == ToMap(d) + ToMap(e)
    decreases |e|
  {
    if e != [] {
      var (k, v) := e[0];
      SetUnique(d, k, v);
      SetToMap(d, k, v);
      UpdateToMap(Set(d, k, v), e[1..]);
      OverrideAssoc(ToMap(d), k, v, ToMap(e[1..]));
    }
  }

  lemma OverrideAssoc<V>(m: map<string, V>, k: string, v: V, n: map<string, V>)
    ensures m[k := v] + n == m + (map[k := v] + n)
  {
  }

  /** Unique keys are pairwise distinct. */
  lemma {:induction false} UniqueKeysDistinct<V>(d: Dict<V>, i: nat, j: nat)
    requires UniqueKeys(d) && i < j < |d|
    ensures d[i].0 != d[j].0
    decreases i
  {
    if i == 0 {
      assert Keys(d[1..])[j - 1] == d[j].0 by { KeysAt(d[1..], j - 1); }
    } else {
      UniqueKeysDistinct(d[1..], i - 1, j - 1);
    }
  }

  lemma {:induction false} KeysAt<V>(d: Dict<V>, i: nat)
    requires i < |d|
    ensures Keys(d)[i] == d[i].0
    decreases i
  {
    if i > 0 {
      KeysAt(d[1..], i - 1);
    }
  }

  /** A key is listed exactly when some pair carries it. */
  lemma {:induction false} InKeys<V>(d: Dict<V>, k: string)
    ensures k in Keys(d) <==> exists i :: 0 <= i < |d| && d[i].0 == k
    decreases |d|
  {
    if d != [] {
      InKeys(d[1..], k);
      assert forall i :: 1 <= i < |d| ==> d[1..][i - 1] == d[i];
    }
  }
}

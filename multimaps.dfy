/** Guava multimaps as association lists in iteration order. A set multimap
    (HashMultimap, LinkedHashMultimap) holds each value at most once per key; a
    list multimap (ArrayListMultimap) keeps duplicates. Neither holds a key
    with no values. */
module Multimaps {

  type Entries<V> = seq<(string, seq<V>)>

  function Elems<T>(s: seq<T>): set<T> { set x | x in s }

  predicate Distinct<T(==)>(s: seq<T>) {
    forall i, j :: 0 <= i < j < |s| ==> s[i] != s[j]
  }

  function Keys<V>(m: Entries<V>): (ks: seq<string>)
    ensures |ks| == |m|
    ensures forall i {:trigger ks[i]} :: 0 <= i < |m| ==> ks[i] == m[i].0
  {
    if |m| == 0 then [] else [m[0].0] + Keys(m[1..])
  }

  predicate ContainsKey<V>(m: Entries<V>, k: string) {
    k in Keys(m)
  }

  /** Keys are distinct and every key has at least one value. */
  predicate ListValid<V>(m: Entries<V>) {
    Distinct(Keys(m)) && forall i :: 0 <= i < |m| ==> |m[i].1| > 0
  }

  /** A list multimap whose value lists also hold no duplicates. */
  predicate SetValid<V(==)>(m: Entries<V>) {
    ListValid(m) && forall i :: 0 <= i < |m| ==> Distinct(m[i].1)
  }

  /** `get(k)`: the values under `k`, empty when the key is absent. */
  function Get<V>(m: Entries<V>, k: string): (vs: seq<V>)
    ensures !ContainsKey(m, k) ==> vs == []
  {
    if |m| == 0 then []
    else if m[0].0 == k then m[0].1
    else Get(m[1..], k)
  }

  /** In a multimap with distinct keys, the values of the i-th entry are what
      `get` returns for its key. */
  lemma {:induction false} GetEntry<V>(m: Entries<V>, i: nat)
    requires Distinct(Keys(m)) && i < |m|
    ensures Get(m, m[i].0) == m[i].1
  {
    if i > 0 {
      assert Keys(m)[0] != Keys(m)[i];
      assert Keys(m[1..]) == Keys(m)[1..];
      GetEntry(m[1..], i - 1);
    }
  }

  lemma DistinctHead<T>(s: seq<T>)
    requires Distinct(s) && |s| > 0
    ensures s[0] !in s[1..]
  {
  }

  lemma DistinctCons<T>(x: T, s: seq<T>)
    requires Distinct(s) && x !in s
    ensures Distinct([x] + s)
  {
    var t := [x] + s;
    forall i, j | 0 <= i < j < |t| ensures t[i] != t[j] {
      if i > 0 {
        assert t[i] == s[i - 1] && t[j] == s[j - 1];
      } else {
        assert t[j] == s[j - 1];
      }
    }
  }

  /** In a well-formed multimap a key is present iff it has values. */
  lemma ContainsKeyGet<V>(m: Entries<V>, k: string)
    requires ListValid(m)
    ensures ContainsKey(m, k) <==> Get(m, k) != []
  {
    if ContainsKey(m, k) {
      var i :| 0 <= i < |m| && Keys(m)[i] == k;
      GetEntry(m, i);
    }
  }

  /** `values` appended to `xs`, skipping those already there (set semantics). */
  function AddAll<V(==)>(xs: seq<V>, values: seq<V>): (r: seq<V>)
    ensures Elems(r) == Elems(xs) + Elems(values)
    ensures |xs| <= |r| && r[..|xs|] == xs
    ensures Distinct(xs) ==> Distinct(r)
    decreases |values|
  {
    if |values| == 0 then xs
    else AddAll(if values[0] in xs then xs else xs + [values[0]], values[1..])
  }

  /** `Sets.newHashSet(xs)` iterated: each element once, in first-occurrence order. */
  function Dedup<V(==)>(xs: seq<V>): (r: seq<V>)
    ensures Elems(r) == Elems(xs) && Distinct(r)
  {
    AddAll([], xs)
  }

  /** Set multimap `putAll(k, values)`. */
  function PutAll<V(==)>(m: Entries<V>, k: string, values: seq<V>): (r: Entries<V>)
    ensures Keys(r) == Keys(m) + (if ContainsKey(m, k) || values == [] then [] else [k])
  {
    if |m| == 0 then (if |values| == 0 then [] else [(k, AddAll([], values))])
    else if m[0].0 == k then [(k, AddAll(m[0].1, values))] + m[1..]
    else
      var rest := PutAll(m[1..], k, values);
      assert Keys([m[0]] + rest) == [m[0].0] + Keys(rest);
      [m[0]] + rest
  }

  /** `putAll` adds the values under `k` and leaves every other key alone. */
  lemma {:induction false} PutAllGet<V>(m: Entries<V>, k: string, values: seq<V>, j: string)
    ensures Elems(Get(PutAll(m, k, values), k)) == Elems(Get(m, k)) + Elems(values)
    ensures j != k ==> Get(PutAll(m, k, values), j) == Get(m, j)
  {
    if |m| > 0 && m[0].0 != k {
      PutAllGet(m[1..], k, values, j);
    }
  }

  /** `putAll` keeps a set multimap well formed. */
  lemma {:induction false} PutAllValid<V>(m: Entries<V>, k: string, values: seq<V>)
    requires SetValid(m)
    ensures SetValid(PutAll(m, k, values))
  {
    var r := PutAll(m, k, values);
    if |m| > 0 && m[0].0 != k {
      assert Keys(m[1..]) == Keys(m)[1..];
      PutAllValid(m[1..], k, values);
      assert r == [m[0]] + PutAll(m[1..], k, values);
    } else if |m| > 0 {
      assert Keys(r) == Keys(m);
      assert r[1..] == m[1..];
    }
  }

  /** List multimap `putAll(k, values)`: the values are appended as given. */
  function ListPutAll<V>(m: Entries<V>, k: string, values: seq<V>): (r: Entries<V>)
    ensures Keys(r) == Keys(m) + (if ContainsKey(m, k) || values == [] then [] else [k])
  {
    if |m| == 0 then (if |values| == 0 then [] else [(k, values)])
    else if m[0].0 == k then [(k, m[0].1 + values)] + m[1..]
    else
      var rest := ListPutAll(m[1..], k, values);
      assert Keys([m[0]] + rest) == [m[0].0] + Keys(rest);
      [m[0]] + rest
  }

  /** A list multimap's `putAll` appends, duplicates included, and leaves every
      other key alone. */
  lemma {:induction false} ListPutAllGet<V>(m: Entries<V>, k: string, values: seq<V>, j: string)
    ensures Get(ListPutAll(m, k, values), k) == Get(m, k) + values
    ensures j != k ==> Get(ListPutAll(m, k, values), j) == Get(m, j)
  {
    if |m| > 0 && m[0].0 != k {
      ListPutAllGet(m[1..], k, values, j);
    }
  }

  /** `removeAll(k)`. */
  function RemoveAll<V>(m: Entries<V>, k: string): (r: Entries<V>)
    ensures |r| <= |m|
    ensures forall i :: 0 <= i < |r| ==> r[i] in m && r[i].0 != k
  {
    if |m| == 0 then []
    else if m[0].0 == k then RemoveAll(m[1..], k)
    else [m[0]] + RemoveAll(m[1..], k)
  }

  /** `removeAll` drops exactly the key `k`. */
  lemma {:induction false} RemoveAllGet<V>(m: Entries<V>, k: string, j: string)
    ensures !ContainsKey(RemoveAll(m, k), k)
    ensures j != k ==> Get(RemoveAll(m, k), j) == Get(m, j)
  {
    if |m| > 0 {
      RemoveAllGet(m[1..], k, j);
    }
  }

  /** Removing an absent key changes nothing. */
  lemma {:induction false} RemoveAllAbsent<V>(m: Entries<V>, k: string)
    requires !ContainsKey(m, k)
    ensures RemoveAll(m, k) == m
  {
    if |m| > 0 {
      RemoveAllAbsent(m[1..], k);
    }
  }

  /** Removing a key ignores an entry for it appended at the end. */
  lemma {:induction false} RemoveAllAppend<V>(m: Entries<V>, k: string, vs: seq<V>)
    ensures RemoveAll(m + [(k, vs)], k) == RemoveAll(m, k)
  {
    if |m| == 0 {
      assert m + [(k, vs)] == [(k, vs)];
    } else {
      assert (m + [(k, vs)])[1..] == m[1..] + [(k, vs)];
      RemoveAllAppend(m[1..], k, vs);
    }
  }

  /** `putAll` of a new key appends its entry. */
  lemma {:induction false} PutAllAbsent<V>(m: Entries<V>, k: string, values: seq<V>)
    requires !ContainsKey(m, k) && |values| > 0
    ensures PutAll(m, k, values) == m + [(k, AddAll([], values))]
  {
    if |m| > 0 {
      PutAllAbsent(m[1..], k, values);
      assert [m[0]] + (m[1..] + [(k, AddAll([], values))]) == m + [(k, AddAll([], values))];
    }
  }

  /** The values of an entry appended for a new key are what `get` returns. */
  lemma {:induction false} GetAppend<V>(m: Entries<V>, k: string, vs: seq<V>, j: string)
    requires !ContainsKey(m, k)
    ensures Get(m + [(k, vs)], j) == if j == k then vs else Get(m, j)
  {
    if |m| == 0 {
      assert m + [(k, vs)] == [(k, vs)];
    } else {
      assert (m + [(k, vs)])[1..] == m[1..] + [(k, vs)];
      GetAppend(m[1..], k, vs, j);
    }
  }
}

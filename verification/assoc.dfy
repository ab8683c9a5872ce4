/**
 * Insertion-ordered string-keyed dictionaries: Python `dict`s and JavaScript
 * plain objects. Both keep the position of a key that is assigned again and
 * append a key assigned for the first time; `Put` does the same.
 */
module Assoc {
  import opened Common

  type Entries<V> = seq<(string, V)>

  /** The keys in their order. */
  function Keys<V>(m: Entries<V>): (ks: seq<string>)
    ensures |ks| == |m|
    ensures forall i :: 0 <= i < |m| ==> ks[i] == m[i].0
  {
    if m == [] then [] else [m[0].0] + Keys(m[1..])
  }

  /** A dictionary never holds a key twice. */
  ghost predicate UniqueKeys<V>(m: Entries<V>)
  {
    forall i, j :: 0 <= i < j < |m| ==> m[i].0 != m[j].0
  }

  /** `m[k]`, or None when `k` is not a key. */
  function Get<V>(m: Entries<V>, k: string): (r: Option<V>)
    ensures r.Some? <==> k in Keys(m)
    ensures r.Some? ==> (k, r.value) in m
  {
    if m == [] then None
    else if m[0].0 == k then Some(m[0].1)
    else Get(m[1..], k)
  }

  lemma {:induction false} GetAt<V>(m: Entries<V>, i: nat)
    requires UniqueKeys(m) && i < |m|
    ensures Get(m, m[i].0) == Some(m[i].1)
  {
    if i > 0 {
      GetAt(m[1..], i - 1);
    }
  }

  /** `m[k] = v`: an existing key keeps its place, a new key goes last. */
  function Put<V>(m: Entries<V>, k: string, v: V): (r: Entries<V>)
    ensures k in Keys(m) ==> Keys(r) == Keys(m)
    ensures k !in Keys(m) ==> Keys(r) == Keys(m) + [k]
  {
    if m == [] then [(k, v)]
    else if m[0].0 == k then [(k, v)] + m[1..]
    else [m[0]] + Put(m[1..], k, v)
  }

  /** After `m[k] = v`, `k` holds `v` and every other key keeps its value. */
  lemma {:induction false} PutGet<V>(m: Entries<V>, k: string, v: V, k': string)
    ensures Get(Put(m, k, v), k') == if k' == k then Some(v) else Get(m, k')
  {
    if m != [] && m[0].0 != k {
      var r := Put(m, k, v);
      assert r[0] == m[0] && r[1..] == Put(m[1..], k, v);
      PutGet(m[1..], k, v, k');
    }
  }

  lemma PutGetAll<V>(m: Entries<V>, k: string, v: V)
    ensures forall k' :: Get(Put(m, k, v), k') == if k' == k then Some(v) else Get(m, k')
  {
    forall k' ensures Get(Put(m, k, v), k') == if k' == k then Some(v) else Get(m, k') {
      PutGet(m, k, v, k');
    }
  }

  /** Two assignments keep the keys already there in front; new keys follow in assignment order. */
  lemma PutTwiceKeys<V>(m: Entries<V>, k1: string, v1: V, k2: string, v2: V)
    requires k1 != k2
    ensures var keys := Keys(Put(Put(m, k1, v1), k2, v2));
      && |m| <= |keys| && keys[..|m|] == Keys(m)
      && (k1 !in Keys(m) && k2 !in Keys(m) ==> keys == Keys(m) + [k1, k2])
  {
    var once := Put(m, k1, v1);
    var keys := Keys(Put(once, k2, v2));
    PutKeysPrefix(m, k1, v1);
    PutKeysPrefix(once, k2, v2);
    assert keys[..|m|] == keys[..|once|][..|m|];
    if k1 !in Keys(m) && k2 !in Keys(m) {
      assert Keys(once) == Keys(m) + [k1];
      assert k2 !in Keys(once);
      assert keys == Keys(once) + [k2];
    }
  }

  /** `m[k] = v` keeps the keys already present, in their order, at the front. */
  lemma PutKeysPrefix<V>(m: Entries<V>, k: string, v: V)
    ensures |Keys(m)| == |m| <= |Put(m, k, v)| == |Keys(Put(m, k, v))|
    ensures Keys(Put(m, k, v))[..|m|] == Keys(m)
  {
  }

  lemma PutUnique<V>(m: Entries<V>, k: string, v: V)
    requires UniqueKeys(m)
    ensures UniqueKeys(Put(m, k, v))
  {
    var r := Put(m, k, v);
    forall i, j | 0 <= i < j < |r| ensures r[i].0 != r[j].0 {
      assert Keys(r)[i] == r[i].0 && Keys(r)[j] == r[j].0;
      if k in Keys(m) {
        assert Keys(m)[i] == m[i].0 && Keys(m)[j] == m[j].0;
      } else if j < |m| {
        assert Keys(m)[i] == m[i].0 && Keys(m)[j] == m[j].0;
      } else {
        assert Keys(m)[i] == m[i].0;
      }
    }
  }

  /** Assigns every pair in turn, as `for (k, v) in pairs: m[k] = v` does. */
  function PutAll<V>(m: Entries<V>, pairs: Entries<V>): (r: Entries<V>)
  {
    if pairs == [] then m
    else
      var last := pairs[|pairs| - 1];
      Put(PutAll(m, pairs[..|pairs| - 1]), last.0, last.1)
  }

  lemma {:induction false} PutAllUnique<V>(m: Entries<V>, pairs: Entries<V>)
    requires UniqueKeys(m)
    ensures UniqueKeys(PutAll(m, pairs))
    decreases |pairs|
  {
    if pairs != [] {
      var last := pairs[|pairs| - 1];
      PutAllUnique(m, pairs[..|pairs| - 1]);
      PutUnique(PutAll(m, pairs[..|pairs| - 1]), last.0, last.1);
    }
  }

  /** The value the last pair with key `k` carries, if any. */
  function LastGet<V>(pairs: Entries<V>, k: string): (r: Option<V>)
    ensures r.Some? <==> k in Keys(pairs)
  {
    if pairs == [] then None
    else
      var last := pairs[|pairs| - 1];
      assert Keys(pairs) == Keys(pairs[..|pairs| - 1]) + [last.0];
      if last.0 == k then Some(last.1) else LastGet(pairs[..|pairs| - 1], k)
  }

  /** After `PutAll`, a key carries its last assigned value, or keeps its old one. */
  lemma {:induction false} PutAllGet<V>(m: Entries<V>, pairs: Entries<V>, k: string)
    ensures Get(PutAll(m, pairs), k) == if k in Keys(pairs) then LastGet(pairs, k) else Get(m, k)
    decreases |pairs|
  {
    if pairs != [] {
      var init := pairs[..|pairs| - 1];
      var last := pairs[|pairs| - 1];
      assert Keys(pairs) == Keys(init) + [last.0];
      PutAllGet(m, init, k);
      PutGet(PutAll(m, init), last.0, last.1, k);
    }
  }

  /** `PutAll` adds exactly the assigned keys. */
  lemma {:induction false} PutAllKeys<V>(m: Entries<V>, pairs: Entries<V>, k: string)
    ensures k in Keys(PutAll(m, pairs)) <==> k in Keys(m) || k in Keys(pairs)
  {
    PutAllGet(m, pairs, k);
  }

  /** `PutAll` keeps the keys it starts from in front, in their order. */
  lemma {:induction false} PutAllKeepsOrder<V>(m: Entries<V>, pairs: Entries<V>)
    ensures |m| <= |PutAll(m, pairs)|
    ensures Keys(PutAll(m, pairs))[..|m|] == Keys(m)
    decreases |pairs|
  {
    if pairs != [] {
      var init := pairs[..|pairs| - 1];
      var last := pairs[|pairs| - 1];
      PutAllKeepsOrder(m, init);
      var t := PutAll(m, init);
      assert Keys(Put(t, last.0, last.1))[..|t|] == Keys(t);
    }
  }

  /** The last pair carrying a key is the one whose value `LastGet` gives. */
  lemma {:induction false} LastGetAt<V>(pairs: Entries<V>, i: nat)
    requires i < |pairs|
    requires forall j :: i < j < |pairs| ==> pairs[j].0 != pairs[i].0
    ensures LastGet(pairs, pairs[i].0) == Some(pairs[i].1)
    decreases |pairs|
  {
    if i < |pairs| - 1 {
      LastGetAt(pairs[..|pairs| - 1], i);
    }
  }

  /** Keys that are not assigned keep their value. */
  lemma PutAllGetOther<V>(m: Entries<V>, pairs: Entries<V>, k: string)
    requires k !in Keys(pairs)
    ensures Get(PutAll(m, pairs), k) == Get(m, k)
  {
    PutAllGet(m, pairs, k);
  }
}

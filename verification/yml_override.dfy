/**
 * The override merge of the arvbox configuration tool: an override document
 * `b` is merged into a base document `a`. Where both are mappings, every key
 * of `b` is assigned into `a` (recursively merged with `a`'s value under that
 * key); anywhere else `b` replaces `a` outright.
 */
module YmlOverride {
  import opened Common
  import opened Assoc

  /** A YAML node as PyYAML loads it; mappings keep their key order, as Python dicts do. */
  datatype Yaml = Null | Scalar(text: string) | List(items: seq<Yaml>) | Dict(entries: Entries<Yaml>)

  /** `a.get(k)`: a missing key reads as None, that is, as a null node. */
  function Lookup(m: Entries<Yaml>, k: string): (r: Yaml)
    ensures k !in Keys(m) ==> r == Null
    ensures k in Keys(m) ==> Get(m, k) == Some(r)
  {
    match Get(m, k)
    case Some(v) => v
    case None => Null
  }

  /** The value of `recursiveMerge(a, b)`. */
  function Merge(a: Yaml, b: Yaml): (r: Yaml)
    ensures a.Dict? && b.Dict? ==> r.Dict?
    decreases b, 1
  {
    if a.Dict? && b.Dict? then Dict(PutAll(a.entries, MergedPairs(a.entries, b.entries)))
    else b
  }

  /** The assignments `a[k] = recursiveMerge(a.get(k), b[k])`, one per key of `b`, in `b`'s order. */
  function MergedPairs(ae: Entries<Yaml>, be: Entries<Yaml>): (pairs: Entries<Yaml>)
    ensures Keys(pairs) == Keys(be)
    decreases Dict(be), 0
  {
    seq(|be|, i requires 0 <= i < |be| => (be[i].0, Merge(Lookup(ae, be[i].0), be[i].1)))
  }

  /** Two mappings merge by assigning the merged pairs into the base. */
  lemma MergeDicts(a: Entries<Yaml>, b: Entries<Yaml>)
    ensures Merge(Dict(a), Dict(b)) == Dict(PutAll(a, MergedPairs(a, b)))
  {
  }

  /** When either side is not a mapping, the override replaces the base: scalars, lists, and a mapping against a non-mapping. */
  lemma MergeNonDict(a: Yaml, b: Yaml)
    requires !a.Dict? || !b.Dict?
    ensures Merge(a, b) == b
  {
  }

  /** Merging two mappings keeps the base's keys first, in order, and adds exactly the override's new keys. */
  lemma MergeKeys(a: Entries<Yaml>, b: Entries<Yaml>, k: string)
    ensures var r := Merge(Dict(a), Dict(b)).entries;
      && (k in Keys(r) <==> k in Keys(a) || k in Keys(b))
      && |a| <= |r| && Keys(r)[..|a|] == Keys(a)
  {
    MergeDicts(a, b);
    PutAllKeys(a, MergedPairs(a, b), k);
    PutAllKeepsOrder(a, MergedPairs(a, b));
  }

  /** Every key of the override holds the merge of the base's value (None when absent) with the override's value. */
  lemma MergeOverrides(a: Entries<Yaml>, b: Entries<Yaml>, k: string)
    requires UniqueKeys(b) && k in Keys(b)
    ensures Lookup(Merge(Dict(a), Dict(b)).entries, k) == Merge(Lookup(a, k), Lookup(b, k))
  {
    var pairs := MergedPairs(a, b);
    var i :| 0 <= i < |b| && Keys(b)[i] == k;
    assert pairs[i] == (k, Merge(Lookup(a, k), b[i].1));
    assert forall j :: i < j < |pairs| ==> pairs[j].0 != pairs[i].0 by {
      forall j | i < j < |pairs| ensures pairs[j].0 != pairs[i].0 {
        assert Keys(pairs)[j] == Keys(b)[j];
      }
    }
    LastGetAt(pairs, i);
    PutAllGet(a, pairs, k);
    MergeDicts(a, b);
    GetAt(b, i);
  }

  /** A key of the override that the base lacks takes the override's value unchanged. */
  lemma MergeNewKey(a: Entries<Yaml>, b: Entries<Yaml>, k: string)
    requires UniqueKeys(b) && k in Keys(b) && k !in Keys(a)
    ensures Lookup(Merge(Dict(a), Dict(b)).entries, k) == Lookup(b, k)
  {
    MergeOverrides(a, b, k);
  }

  /** Keys of the base that the override lacks keep their value. */
  lemma MergeKeepsBase(a: Entries<Yaml>, b: Entries<Yaml>, k: string)
    requires k !in Keys(b)
    ensures Lookup(Merge(Dict(a), Dict(b)).entries, k) == Lookup(a, k)
  {
    MergeDicts(a, b);
    PutAllGetOther(a, MergedPairs(a, b), k);
  }

  /** Mappings at every depth have unique keys. */
  ghost predicate WellFormed(y: Yaml)
  {
    match y
    case Dict(es) => UniqueKeys(es) && forall i :: 0 <= i < |es| ==> WellFormed(es[i].1)
    case List(xs) => forall i :: 0 <= i < |xs| ==> WellFormed(xs[i])
    case _ => true
  }

  /** The node reached by following the keys of `path` from `y`. */
  function At(y: Yaml, path: seq<string>): Option<Yaml>
  {
    if path == [] then Some(y)
    else if y.Dict? && path[0] in Keys(y.entries) then At(Lookup(y.entries, path[0]), path[1..])
    else None
  }

  /** The override never reaches `path`: some key on the way is missing from one of its mappings. */
  ghost predicate Untouched(b: Yaml, path: seq<string>)
  {
    b.Dict? && path != [] &&
    (path[0] !in Keys(b.entries) || Untouched(Lookup(b.entries, path[0]), path[1..]))
  }

  /** Merging is recursive at every depth: a non-mapping node of the override ends up at the same path. */
  lemma {:induction false} MergeLeafWins(a: Yaml, b: Yaml, path: seq<string>, v: Yaml)
    requires WellFormed(b) && At(b, path) == Some(v) && !v.Dict?
    ensures At(Merge(a, b), path) == Some(v)
    decreases |path|
  {
    if path != [] && a.Dict? {
      var k := path[0];
      var i :| 0 <= i < |b.entries| && Keys(b.entries)[i] == k;
      GetAt(b.entries, i);
      var bk := Lookup(b.entries, k);
      assert bk == b.entries[i].1 && WellFormed(bk);
      assert At(bk, path[1..]) == Some(v);
      var r := Merge(Dict(a.entries), Dict(b.entries));
      MergeOverrides(a.entries, b.entries, k);
      MergeKeys(a.entries, b.entries, k);
      MergeLeafWins(Lookup(a.entries, k), bk, path[1..], v);
      assert At(r, path) == At(Lookup(r.entries, k), path[1..]);
    }
  }

  /** Merging is recursive at every depth: whatever the override does not reach keeps the base's node. */
  lemma {:induction false} MergeKeepsUntouched(a: Yaml, b: Yaml, path: seq<string>, v: Yaml)
    requires WellFormed(b) && At(a, path) == Some(v) && Untouched(b, path)
    ensures At(Merge(a, b), path) == Some(v)
    decreases |path|
  {
    var k := path[0];
    MergeKeys(a.entries, b.entries, k);
    if k in Keys(b.entries) {
      var i :| 0 <= i < |b.entries| && Keys(b.entries)[i] == k;
      GetAt(b.entries, i);
      MergeOverrides(a.entries, b.entries, k);
      MergeKeepsUntouched(Lookup(a.entries, k), Lookup(b.entries, k), path[1..], v);
    } else {
      MergeKeepsBase(a.entries, b.entries, k);
    }
  }

  /** A mapping node that `recursiveMerge` updates in place. */
  class YamlDict {
    var entries: Entries<Yaml>

    constructor (entries: Entries<Yaml>)
      ensures this.entries == entries
    {
      this.entries := entries;
    }

    /** `recursiveMerge(self, b)` for a mapping `b`: assigns each key of `b` in turn and returns this same mapping. */
    method MergeFrom(b: Entries<Yaml>) returns (r: YamlDict)
      requires UniqueKeys(b)
      modifies this
      ensures r == this
      ensures Dict(entries) == Merge(Dict(old(entries)), Dict(b))
    {
      ghost var pairs := MergedPairs(old(entries), b);
      var i := 0;
      while i < |b|
        invariant 0 <= i <= |b|
        invariant entries == PutAll(old(entries), pairs[..i])
      {
        var k := b[i].0;
        assert k !in Keys(pairs[..i]) by {
          forall j | 0 <= j < i ensures Keys(pairs[..i])[j] != k {
            assert Keys(pairs)[j] == Keys(b)[j];
          }
        }
        PutAllGetOther(old(entries), pairs[..i], k);
        assert Lookup(entries, k) == Lookup(old(entries), k);
        entries := Put(entries, k, Merge(Lookup(entries, k), b[i].1));
        assert pairs[..i + 1][..i] == pairs[..i] && pairs[..i + 1][i] == pairs[i];
        assert entries == Put(PutAll(old(entries), pairs[..i]), pairs[i].0, pairs[i].1);
        i := i + 1;
      }
      assert pairs[..|b|] == pairs;
      MergeDicts(old(entries), b);
      r := this;
    }
  }
}

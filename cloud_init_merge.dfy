/**
 * The FreeBSD launcher's deep merge of cloud-init documents
 * (`_merge_cloud_init_config`), on documents as the YAML loader returns them:
 * trees of mappings, lists and scalars.
 */
module CloudInitMerge {

  /** A YAML value: a scalar, a list, or a mapping with string keys. */
  datatype Tree =
    | Str(s: string)
    | Bool(b: bool)
    | Int(i: int)
    | Null
    | List(items: seq<Tree>)
    | Dict(entries: map<string, Tree>)

  /**
   * `src` merged on top of `dest`: the copy of `dest` updated with `src`, then
   * every key in both taking the recursive merge when both values are
   * mappings and the concatenation, `dest`'s items first, when both are lists.
   * A fresh value is built; neither argument changes.
   */
  function Merge(dest: map<string, Tree>, src: map<string, Tree>): (r: map<string, Tree>)
    // the keys are those of either side
    ensures r.Keys == dest.Keys + src.Keys
    // a key on one side only keeps that side's value
    ensures forall k :: k in dest && k !in src ==> r[k] == dest[k]
    ensures forall k :: k in src && k !in dest ==> r[k] == src[k]
    // on shared keys: mappings merge, lists concatenate, anything else is overwritten by `src`
    ensures forall k :: k in dest && k in src && dest[k].Dict? && src[k].Dict? ==>
      r[k] == Dict(Merge(dest[k].entries, src[k].entries))
    ensures forall k :: k in dest && k in src && dest[k].List? && src[k].List? ==>
      r[k] == List(dest[k].items + src[k].items)
    ensures forall k :: k in dest && k in src && !(dest[k].Dict? && src[k].Dict?) && !(dest[k].List? && src[k].List?) ==>
      r[k] == src[k]
    decreases Dict(dest)
  {
    var result := dest + src;
    map k | k in result ::
      if k in dest && k in src && dest[k].Dict? && src[k].Dict? then Dict(Merge(dest[k].entries, src[k].entries))
      else if k in dest && k in src && dest[k].List? && src[k].List? then List(dest[k].items + src[k].items)
      else result[k]
  }

  /** Merging nothing on top of a document gives the document. */
  lemma MergeEmptySource(dest: map<string, Tree>)
    ensures Merge(dest, map[]) == dest
  {
    var r := Merge(dest, map[]);
    assert r.Keys == dest.Keys;
    assert forall k :: k in r ==> r[k] == dest[k];
  }

  /** Merging a document on top of nothing gives the document. */
  lemma MergeEmptyDestination(src: map<string, Tree>)
    ensures Merge(map[], src) == src
  {
    var r := Merge(map[], src);
    assert r.Keys == src.Keys;
    assert forall k :: k in r ==> r[k] == src[k];
  }

  /** With no key in common, the merge is the union, whichever side is on top. */
  lemma MergeDisjoint(dest: map<string, Tree>, src: map<string, Tree>)
    requires dest.Keys !! src.Keys
    ensures Merge(dest, src) == dest + src
    ensures Merge(dest, src) == Merge(src, dest)
  {
    var r, q := Merge(dest, src), Merge(src, dest);
    assert r.Keys == (dest + src).Keys == q.Keys;
    assert forall k :: k in r ==> r[k] == (dest + src)[k] == q[k];
  }

  /** A tree in which no list occurs. */
  predicate ListFree(t: Tree)
    decreases t
  {
    match t
    case List(_) => false
    case Dict(m) => forall k :: k in m ==> ListFree(m[k])
    case _ => true
  }

  /** A list-free document merged on top of itself is itself (lists would be doubled). */
  lemma {:induction false} MergeSelf(m: map<string, Tree>)
    requires ListFree(Dict(m))
    ensures Merge(m, m) == m
    decreases Dict(m)
  {
    var r := Merge(m, m);
    forall k | k in m ensures r[k] == m[k] {
      if m[k].Dict? {
        MergeSelf(m[k].entries);
      }
    }
  }

  /**
   * Applying the same list-free override twice is the same as applying it
   * once: a second merge of `src` changes nothing.
   */
  lemma {:induction false} MergeIdempotent(dest: map<string, Tree>, src: map<string, Tree>)
    requires ListFree(Dict(src))
    ensures Merge(Merge(dest, src), src) == Merge(dest, src)
    decreases Dict(dest)
  {
    var r := Merge(dest, src);
    var r2 := Merge(r, src);
    forall k | k in r ensures r2[k] == r[k] {
      if k in src {
        assert !src[k].List?;
        if src[k].Dict? {
          if k in dest && dest[k].Dict? {
            MergeIdempotent(dest[k].entries, src[k].entries);
          } else {
            assert r[k] == src[k];
            MergeSelf(src[k].entries);
          }
        }
      }
    }
  }

  /** Lists under a shared key concatenate: `{x: [1, 2]}` merged with `{x: [3]}` is `{x: [1, 2, 3]}`. */
  lemma ListConcatExample()
    ensures Merge(map["x" := List([Int(1), Int(2)])], map["x" := List([Int(3)])]) == map["x" := List([Int(1), Int(2), Int(3)])]
  {
    var r := Merge(map["x" := List([Int(1), Int(2)])], map["x" := List([Int(3)])]);
    assert r.Keys == {"x"};
    assert r["x"] == List([Int(1), Int(2)] + [Int(3)]);
    assert [Int(1), Int(2)] + [Int(3)] == [Int(1), Int(2), Int(3)];
  }

  /** Values of different kinds: `{x: {a: 1}}` merged with `{x: [1]}` is `{x: [1]}`. */
  lemma MismatchExample()
    ensures Merge(map["x" := Dict(map["a" := Int(1)])], map["x" := List([Int(1)])]) == map["x" := List([Int(1)])]
  {
    var r := Merge(map["x" := Dict(map["a" := Int(1)])], map["x" := List([Int(1)])]);
    assert r.Keys == {"x"};
  }

  /** Disjoint keys: `{a: 1}` and `{b: 2}` merge to `{a: 1, b: 2}` in either order. */
  lemma DisjointExample()
    ensures Merge(map["a" := Int(1)], map["b" := Int(2)]) == map["a" := Int(1), "b" := Int(2)]
    ensures Merge(map["b" := Int(2)], map["a" := Int(1)]) == map["a" := Int(1), "b" := Int(2)]
  {
    MergeDisjoint(map["a" := Int(1)], map["b" := Int(2)]);
    assert map["a" := Int(1)] + map["b" := Int(2)] == map["a" := Int(1), "b" := Int(2)];
  }
}

/** `_deep_merge`: merging one nested JSON object into another, source winning at the leaves. */
module DeepMerge {
  import opened Wrappers
  import opened Json

  /** The object `dst` becomes after `_deep_merge(dst, src)`. A key present in both whose
      values are both objects is merged recursively; any other key of `src` overwrites (or adds)
      its value; keys found only in `dst` are kept. `deepcopy` of a value is the value itself. */
  function Merge(dst: Object, src: Object): (r: Object)
    ensures forall k :: k in r <==> k in dst || k in src
    ensures forall k :: k in dst && k !in src ==> r[k] == dst[k]
    ensures forall k :: k in src && IsLeaf(src[k]) ==> r[k] == src[k]
    ensures forall k :: k in src ==> (r[k].JObject? <==> src[k].JObject?)
    decreases JObject(src)
  {
    map k | k in dst.Keys + src.Keys ::
      if k in src then
        if k in dst && dst[k].JObject? && src[k].JObject? then JObject(Merge(dst[k].fields, src[k].fields))
        else src[k]
      else dst[k]
  }

  /** The value at a non-empty key path, descending through nested objects. */
  function Get(m: Object, path: seq<string>): Option<Json>
    decreases |path|
  {
    if |path| == 0 || path[0] !in m then None
    else if |path| == 1 then Some(m[path[0]])
    else if m[path[0]].JObject? then Get(m[path[0]].fields, path[1..])
    else None
  }

  /** A leaf is any value that is not an object. */
  predicate IsLeaf(v: Json) { !v.JObject? }

  /** Whether merging `src` can change what sits at `path` in a destination whose value there
      is a leaf: `src` holds the first key, and either stops there with a value that is not an
      object, or is an object there that again touches the rest of the path. */
  predicate Touches(src: Object, path: seq<string>)
    decreases |path|
  {
    |path| > 0 && path[0] in src &&
    (|path| > 1 && src[path[0]].JObject? ==> Touches(src[path[0]].fields, path[1..]))
  }

  /** Pointwise description of the merge: the keys, the untouched keys, the overwritten keys
      and the recursively merged keys. */
  lemma MergeAt(dst: Object, src: Object, k: string)
    ensures Merge(dst, src).Keys == dst.Keys + src.Keys
    ensures k in dst && k !in src ==> Merge(dst, src)[k] == dst[k]
    ensures k in src && !(k in dst && dst[k].JObject? && src[k].JObject?) ==> Merge(dst, src)[k] == src[k]
    ensures k in src && k in dst && dst[k].JObject? && src[k].JObject? ==>
      Merge(dst, src)[k] == JObject(Merge(dst[k].fields, src[k].fields))
  {
  }

  /** Merging into an empty object yields the source. */
  lemma MergeIntoEmpty(src: Object)
    ensures Merge(map[], src) == src
  {
  }

  /** Merging an object into itself changes nothing. */
  lemma {:induction false} MergeSelf(m: Object)
    ensures Merge(m, m) == m
    decreases JObject(m)
  {
    forall k | k in m
      ensures Merge(m, m)[k] == m[k]
    {
      if m[k].JObject? {
        MergeSelf(m[k].fields);
      }
    }
  }

  /** `_deep_merge` is idempotent: merging the same source a second time changes nothing. */
  lemma {:induction false} MergeIdempotent(dst: Object, src: Object)
    ensures Merge(Merge(dst, src), src) == Merge(dst, src)
    decreases JObject(src)
  {
    var once := Merge(dst, src);
    forall k | k in once
      ensures Merge(once, src)[k] == once[k]
    {
      if k in src && src[k].JObject? {
        if k in dst && dst[k].JObject? {
          MergeIdempotent(dst[k].fields, src[k].fields);
        } else {
          MergeSelf(src[k].fields);
        }
      }
    }
  }

  /** A leaf that the source holds at a path is what the merged object holds there. */
  lemma {:induction false} SourceLeafWins(dst: Object, src: Object, path: seq<string>)
    requires Get(src, path).Some? && IsLeaf(Get(src, path).value)
    ensures Get(Merge(dst, src), path) == Get(src, path)
    decreases |path|
  {
    var k := path[0];
    if |path| > 1 && k in dst && dst[k].JObject? {
      SourceLeafWins(dst[k].fields, src[k].fields, path[1..]);
    }
  }

  /** A leaf of the destination that the source does not touch survives the merge. */
  lemma {:induction false} UntouchedLeafKept(dst: Object, src: Object, path: seq<string>)
    requires Get(dst, path).Some? && IsLeaf(Get(dst, path).value)
    requires !Touches(src, path)
    ensures Get(Merge(dst, src), path) == Get(dst, path)
    decreases |path|
  {
    var k := path[0];
    if k in src {
      UntouchedLeafKept(dst[k].fields, src[k].fields, path[1..]);
    }
  }

  /** Re-applying two layers on top of their own result changes nothing:
      `merge(merge(merge(merge(x, a), b), a), b) == merge(merge(x, a), b)`. */
  lemma {:induction false} LayersStable(x: Object, a: Object, b: Object)
    ensures Merge(Merge(Merge(Merge(x, a), b), a), b) == Merge(Merge(x, a), b)
    decreases JObject(a)
  {
    var xa := Merge(x, a);
    var xab := Merge(xa, b);
    var xaba := Merge(xab, a);
    var xabab := Merge(xaba, b);
    forall k | k in xab
      ensures xabab[k] == xab[k]
    {
      if k in a && k in b && a[k].JObject? && b[k].JObject? {
        var x' := if k in x && x[k].JObject? then x[k].fields else map[];
        MergeIntoEmpty(a[k].fields);
        assert xa[k] == JObject(Merge(x', a[k].fields));
        LayersStable(x', a[k].fields, b[k].fields);
      } else if k in a && k !in b && a[k].JObject? {
        if k in x && x[k].JObject? {
          MergeIdempotent(x[k].fields, a[k].fields);
        } else {
          MergeSelf(a[k].fields);
        }
      } else if k !in a && k in b && b[k].JObject? {
        if k in x && x[k].JObject? {
          MergeIdempotent(x[k].fields, b[k].fields);
        } else {
          MergeSelf(b[k].fields);
        }
      }
    }
  }

  /** Merging one more source key into the merge so far: it recurses where both values are
      objects and overwrites otherwise. */
  lemma MergeAddKey(dst: Object, done: Object, key: string, v: Json)
    requires key !in done
    ensures var r := Merge(dst, done);
      Merge(dst, done[key := v]) ==
        if key in r && r[key].JObject? && v.JObject? then r[key := JObject(Merge(r[key].fields, v.fields))]
        else r[key := v]
  {
    var r := Merge(dst, done);
    var expected :=
      if key in r && r[key].JObject? && v.JObject? then r[key := JObject(Merge(r[key].fields, v.fields))]
      else r[key := v];
    var m := Merge(dst, done[key := v]);
    forall k | k in expected
      ensures k in m && m[k] == expected[k]
    {
      MergeAt(dst, done[key := v], k);
      MergeAt(dst, done, k);
    }
    forall k | k in m
      ensures k in expected
    {
      MergeAt(dst, done[key := v], k);
    }
  }

  /** `_deep_merge` as the source runs it: a loop over the source keys that overwrites or
      recurses. Returns the new contents of the destination dictionary. */
  method DeepMergeInto(dst: Object, src: Object) returns (r: Object)
    ensures r == Merge(dst, src)
    decreases JObject(src)
  {
    r := dst;
    var todo := src.Keys;
    while todo != {}
      invariant todo <= src.Keys
      invariant r == Merge(dst, src - todo)
      decreases todo
    {
      var key :| key in todo;
      ghost var done := src - todo;
      ghost var next := src - (todo - {key});
      assert key !in done && next == done[key := src[key]];
      MergeAddKey(dst, done, key, src[key]);
      if key in r && r[key].JObject? && src[key].JObject? {
        var merged := DeepMergeInto(r[key].fields, src[key].fields);
        r := r[key := JObject(merged)];
      } else {
        r := r[key := src[key]];
      }
      todo := todo - {key};
    }
    assert src - {} == src;
  }

  /** A Python dictionary that `_deep_merge` updates in place. */
  class ConfigDict {
    var entries: Object

    constructor (entries: Object)
      ensures this.entries == entries
    {
      this.entries := entries;
    }

    /** `_deep_merge(self, src)`; `src` is read only. */
    method DeepMerge(src: Object)
      modifies this
      ensures entries == Merge(old(entries), src)
    {
      entries := DeepMergeInto(entries, src);
    }
  }
}

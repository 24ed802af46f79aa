/** What the two usage merges do to each counter, told by its path of keys. */
module UsagePaths {
  import opened JsonValue
  import opened UsageMerge

  /** The value at the end of a path of keys. */
  function At(j: Json, path: seq<string>): Option<Json>
    decreases |path|
  {
    if path == [] then Some(j)
    else if j.Obj? && path[0] in j.fields then At(j.fields[path[0]], path[1..])
    else None
  }

  /** A value that reports something on its own: neither null nor an object of further keys. */
  predicate Reported(v: Option<Json>) { v.Some? && !v.value.Null? && !v.value.Obj? }

  /** The object says nothing at the path: a key on the way is missing or null. */
  predicate Silent(j: Json, path: seq<string>)
    decreases |path|
  {
    && path != [] && j.Obj?
    && (path[0] !in j.fields || j.fields[path[0]].Null? || Silent(j.fields[path[0]], path[1..]))
  }

  predicate Nothing(v: Option<Json>) { v.None? || v.value.Null? }

  lemma {:induction false} SilentAt(j: Json, path: seq<string>)
    requires Silent(j, path)
    ensures Nothing(At(j, path))
    decreases |path|
  {
    var k, rest := path[0], path[1..];
    if k in j.fields {
      if j.fields[k].Null? {
        assert rest != [] ==> At(j.fields[k], rest).None?;
      } else {
        SilentAt(j.fields[k], rest);
      }
    }
  }

  /** A reported counter takes the newer value, and one the newer object is silent
      about keeps the older value or stays unreported. */
  lemma {:induction false} MergeAtPath(a: Json, b: Json, path: seq<string>)
    requires a.Obj? && b.Obj?
    ensures Reported(At(b, path)) ==> At(Merge(a, b), path) == At(b, path)
    ensures Silent(b, path) && At(a, path).Some? ==> At(Merge(a, b), path) == At(a, path)
    ensures Silent(b, path) && At(a, path).None? ==> Nothing(At(Merge(a, b), path))
    decreases |path|
  {
    if path != [] && path[0] in b.fields && !b.fields[path[0]].Null? {
      var k, rest := path[0], path[1..];
      if k in a.fields && a.fields[k].Obj? && b.fields[k].Obj? {
        MergeAtPath(a.fields[k], b.fields[k], rest);
      } else if Silent(b, path) {
        SilentAt(b, path);
        assert Silent(b.fields[k], rest) ==> b.fields[k].Obj? && rest != [];
        assert k in a.fields && !a.fields[k].Obj? && rest != [] ==> At(a.fields[k], rest).None?;
      }
    }
  }

  lemma {:induction false} OverlayAtPath(a: Json, b: Json, path: seq<string>)
    requires a.Obj? && b.Obj?
    ensures Reported(At(b, path)) ==> At(Overlay(a, b), path) == At(b, path)
    ensures Silent(b, path) && At(a, path).Some? ==> At(Overlay(a, b), path) == At(a, path)
    ensures Silent(b, path) && At(a, path).None? ==> Nothing(At(Overlay(a, b), path))
    decreases |path|
  {
    if path != [] && path[0] in b.fields {
      var k, rest := path[0], path[1..];
      if k in a.fields && a.fields[k].Obj? && b.fields[k].Obj? {
        OverlayAtPath(a.fields[k], b.fields[k], rest);
      } else if Silent(b, path) {
        SilentAt(b, path);
        assert Silent(b.fields[k], rest) ==> b.fields[k].Obj? && rest != [];
        assert k in a.fields && !a.fields[k].Obj? && rest != [] ==> At(a.fields[k], rest).None?;
      }
    }
  }

  /** What is not an object on both sides is taken from the newer value as it is,
      except that the overlay reads a null patch as no change. */
  lemma OtherRoots(a: Json, b: Json)
    requires !a.Obj? || !b.Obj?
    ensures Merge(a, b) == b
    ensures Overlay(a, b) == if b == Null then a else b
  {
  }

  /** Keys come from either side, and the merge adds none for a null. */
  lemma KeysMerged(a: Json, b: Json, k: string)
    requires a.Obj? && b.Obj?
    ensures k in Merge(a, b).fields <==> k in a.fields || (k in b.fields && b.fields[k] != Null)
    ensures k in Overlay(a, b).fields <==> k in a.fields || k in b.fields
  {
  }
}

/** The two independently written merges of partial `usage` objects.

`Merge` is the record regrouper's rule (a reported field replaces, an omitted or
null field is retained); `Overlay` is the stream mapper's rule for a
`message_delta` patch. Both recurse into nested objects. */
module UsageMerge {
  import opened JsonValue
  import opened Sequences

  // ---- The record regrouper's merge

  function Merge(previous: Json, incoming: Json): (r: Json)
    ensures previous.Obj? && incoming.Obj? ==> r.Obj?
    decreases incoming
  {
    if previous.Obj? && incoming.Obj? then
      var a, b := previous.fields, incoming.fields;
      Obj(map k | k in a.Keys + b.Keys && (k in a || !b[k].Null?) ::
        if k in b && !b[k].Null? then
          if k in a && a[k].Obj? && b[k].Obj? then Merge(a[k], b[k]) else b[k]
        else a[k])
    else incoming
  }

  method MergeUsageFields(previous: Json, incoming: Json) returns (merged: Json)
    ensures merged == Merge(previous, incoming)
    decreases incoming
  {
    if !previous.Obj? || !incoming.Obj? {
      return incoming;
    }
    var reported := incoming.fields;
    var retained := previous.fields;
    var todo := reported.Keys;
    while todo != {}
      invariant todo <= reported.Keys
      invariant forall k :: k in retained <==>
        k in previous.fields || (k in reported && k !in todo && !reported[k].Null?)
      invariant forall k | k in retained ::
        retained[k] == if k in reported && k !in todo && !reported[k].Null? then Merge(previous, incoming).fields[k]
                       else previous.fields[k]
    {
      var key :| key in todo;
      var value := reported[key];
      todo := todo - {key};
      if value.Null? {
        continue;
      }
      var next := value;
      if key in retained && retained[key].Obj? && value.Obj? {
        next := MergeUsageFields(retained[key], value);
      }
      retained := retained[key := next];
    }
    assert retained == Merge(previous, incoming).fields;
    merged := Obj(retained);
  }

  // ---- The stream mapper's overlay

  function Overlay(base: Json, patch: Json): (r: Json)
    ensures base.Obj? && patch.Obj? ==> r.Obj?
    decreases patch
  {
    if base.Obj? && patch.Obj? then
      var a, b := base.fields, patch.fields;
      Obj(map k | k in a.Keys + b.Keys ::
        if k in a && k in b then Overlay(a[k], b[k])
        else if k in b then b[k] else a[k])
    else if patch.Null? then base
    else patch
  }

  method OverlayUsagePatch(base: Json, patch: Json) returns (merged: Json)
    ensures merged == Overlay(base, patch)
    decreases patch
  {
    if base.Obj? && patch.Obj? {
      var fields := base.fields;
      var todo := patch.fields.Keys;
      while todo != {}
        invariant todo <= patch.fields.Keys
        invariant forall k :: k in fields <==> k in base.fields || (k in patch.fields && k !in todo)
        invariant forall k | k in fields ::
          fields[k] == if k in patch.fields && k !in todo then Overlay(base, patch).fields[k] else base.fields[k]
      {
        var key :| key in todo;
        todo := todo - {key};
        var value := patch.fields[key];
        if key in fields {
          value := OverlayUsagePatch(fields[key], value);
        }
        fields := fields[key := value];
      }
      assert fields == Overlay(base, patch).fields;
      return Obj(fields);
    }
    merged := if patch.Null? then base else patch;
  }

  // ---- The two rules agree once nulls are dropped

  /** The value with every null object member removed, at every depth of nesting. */
  function DropNulls(j: Json): Json {
    if j.Obj? then Obj(map k | k in j.fields && !j.fields[k].Null? :: DropNulls(j.fields[k])) else j
  }

  lemma {:induction false} OverlayAgreesWithMerge(base: Json, patch: Json)
    requires base.Obj? && patch.Obj?
    ensures DropNulls(Overlay(base, patch)) == DropNulls(Merge(base, patch))
    decreases patch
  {
    var a, b := base.fields, patch.fields;
    forall k | k in a && k in b && a[k].Obj? && b[k].Obj?
      ensures DropNulls(Overlay(a[k], b[k])) == DropNulls(Merge(a[k], b[k]))
    {
      OverlayAgreesWithMerge(a[k], b[k]);
    }
    assert DropNulls(Overlay(base, patch)).fields == DropNulls(Merge(base, patch)).fields;
  }

  // ---- Idempotence in the patch

  lemma {:induction false} MergeSelf(x: Json)
    ensures Merge(x, x) == x
  {
    if x.Obj? {
      forall k | k in x.fields ensures Merge(x.fields[k], x.fields[k]) == x.fields[k] {
        MergeSelf(x.fields[k]);
      }
      assert Merge(x, x).fields == x.fields;
    }
  }

  lemma {:induction false} MergeIdempotent(previous: Json, patch: Json)
    ensures Merge(Merge(previous, patch), patch) == Merge(previous, patch)
    decreases patch
  {
    if previous.Obj? && patch.Obj? {
      var a, b := previous.fields, patch.fields;
      forall k | k in b
        ensures k in a ==> Merge(Merge(a[k], b[k]), b[k]) == Merge(a[k], b[k])
        ensures Merge(b[k], b[k]) == b[k]
      {
        if k in a {
          MergeIdempotent(a[k], b[k]);
        }
        MergeSelf(b[k]);
      }
      assert Merge(Merge(previous, patch), patch).fields == Merge(previous, patch).fields;
    } else {
      MergeSelf(patch);
    }
  }

  lemma {:induction false} OverlaySelf(x: Json)
    ensures Overlay(x, x) == x
  {
    if x.Obj? {
      forall k | k in x.fields ensures Overlay(x.fields[k], x.fields[k]) == x.fields[k] {
        OverlaySelf(x.fields[k]);
      }
      assert Overlay(x, x).fields == x.fields;
    }
  }

  lemma {:induction false} OverlayIdempotent(base: Json, patch: Json)
    ensures Overlay(Overlay(base, patch), patch) == Overlay(base, patch)
    decreases patch
  {
    if base.Obj? && patch.Obj? {
      var a, b := base.fields, patch.fields;
      forall k | k in b
        ensures k in a ==> Overlay(Overlay(a[k], b[k]), b[k]) == Overlay(a[k], b[k])
        ensures Overlay(b[k], b[k]) == b[k]
      {
        if k in a {
          OverlayIdempotent(a[k], b[k]);
        }
        OverlaySelf(b[k]);
      }
      assert Overlay(Overlay(base, patch), patch).fields == Overlay(base, patch).fields;
    } else {
      OverlaySelf(patch);
    }
  }

  // ---- Associativity, exactly

  /** `y` already reports everything `x` holds, so merging `y` over `x` adds nothing of `x`. */
  predicate MergeCovers(x: Json, y: Json)
    requires x.Obj? && y.Obj?
    decreases y
  {
    && (forall k | k in x.fields :: k in y.fields
         && (y.fields[k].Null? ==> x.fields[k].Null?)
         && (x.fields[k].Obj? && y.fields[k].Obj? ==> MergeCovers(x.fields[k], y.fields[k])))
    && (forall k | k in y.fields :: y.fields[k].Null? ==> k in x.fields)
  }

  lemma {:induction false} MergeCoversExactly(x: Json, y: Json)
    requires x.Obj? && y.Obj?
    ensures MergeCovers(x, y) <==> Merge(x, y) == y
    decreases y
  {
    forall k | k in x.fields && k in y.fields && x.fields[k].Obj? && y.fields[k].Obj?
      ensures MergeCovers(x.fields[k], y.fields[k]) <==> Merge(x.fields[k], y.fields[k]) == y.fields[k]
    {
      MergeCoversExactly(x.fields[k], y.fields[k]);
    }
    if MergeCovers(x, y) {
      assert Merge(x, y).fields == y.fields;
    }
    if Merge(x, y) == y {
      forall k | k in x.fields ensures k in y.fields && (y.fields[k].Null? ==> x.fields[k].Null?) {
        assert k in Merge(x, y).fields;
      }
      forall k | k in y.fields && y.fields[k].Null? ensures k in x.fields {
        assert k in Merge(x, y).fields;
      }
    }
  }

  /** The only way grouping can matter: a key is an object, then a reported
      scalar, then an object again, and the last object does not cover the first. */
  predicate MergeRegroups(a: Json, b: Json, c: Json)
    requires a.Obj? && b.Obj? && c.Obj?
    decreases c
  {
    forall k | k in a.fields && k in b.fields && k in c.fields && a.fields[k].Obj? && c.fields[k].Obj? ::
      if b.fields[k].Obj? then MergeRegroups(a.fields[k], b.fields[k], c.fields[k])
      else b.fields[k].Null? || MergeCovers(a.fields[k], c.fields[k])
  }

  lemma {:induction false} MergeAssociativeExactly(a: Json, b: Json, c: Json)
    requires a.Obj? && b.Obj? && c.Obj?
    ensures Merge(Merge(a, b), c) == Merge(a, Merge(b, c)) <==> MergeRegroups(a, b, c)
    decreases c
  {
    var l, r := Merge(Merge(a, b), c).fields, Merge(a, Merge(b, c)).fields;
    assert l.Keys == r.Keys;
    forall k | k in l
      ensures l[k] == r[k] <==>
        (k in a.fields && k in b.fields && k in c.fields && a.fields[k].Obj? && c.fields[k].Obj? ==>
          if b.fields[k].Obj? then MergeRegroups(a.fields[k], b.fields[k], c.fields[k])
          else b.fields[k].Null? || MergeCovers(a.fields[k], c.fields[k]))
    {
      MergeAssociativeAt(a, b, c, k);
    }
  }

  lemma {:induction false} MergeAssociativeAt(a: Json, b: Json, c: Json, k: string)
    requires a.Obj? && b.Obj? && c.Obj?
    requires k in Merge(Merge(a, b), c).fields
    ensures k in Merge(a, Merge(b, c)).fields
    ensures Merge(Merge(a, b), c).fields[k] == Merge(a, Merge(b, c)).fields[k] <==>
      (k in a.fields && k in b.fields && k in c.fields && a.fields[k].Obj? && c.fields[k].Obj? ==>
        if b.fields[k].Obj? then MergeRegroups(a.fields[k], b.fields[k], c.fields[k])
        else b.fields[k].Null? || MergeCovers(a.fields[k], c.fields[k]))
    decreases c, 0
  {
    if k in a.fields && k in b.fields && k in c.fields && a.fields[k].Obj? && c.fields[k].Obj? {
      if b.fields[k].Obj? {
        MergeAssociativeExactly(a.fields[k], b.fields[k], c.fields[k]);
      } else if !b.fields[k].Null? {
        MergeCoversExactly(a.fields[k], c.fields[k]);
      }
    }
  }

  predicate OverlayCovers(x: Json, y: Json)
    requires x.Obj? && y.Obj?
    decreases y
  {
    forall k | k in x.fields :: k in y.fields
      && (y.fields[k].Null? ==> x.fields[k].Null?)
      && (x.fields[k].Obj? && y.fields[k].Obj? ==> OverlayCovers(x.fields[k], y.fields[k]))
  }

  lemma {:induction false} OverlayCoversExactly(x: Json, y: Json)
    requires x.Obj? && y.Obj?
    ensures OverlayCovers(x, y) <==> Overlay(x, y) == y
    decreases y
  {
    forall k | k in x.fields && k in y.fields && x.fields[k].Obj? && y.fields[k].Obj?
      ensures OverlayCovers(x.fields[k], y.fields[k]) <==> Overlay(x.fields[k], y.fields[k]) == y.fields[k]
    {
      OverlayCoversExactly(x.fields[k], y.fields[k]);
    }
    if OverlayCovers(x, y) {
      assert Overlay(x, y).fields == y.fields;
    }
    if Overlay(x, y) == y {
      forall k | k in x.fields ensures k in y.fields && (y.fields[k].Null? ==> x.fields[k].Null?) {
        assert k in Overlay(x, y).fields;
        assert k in y.fields && Overlay(x.fields[k], y.fields[k]) == Overlay(x, y).fields[k];
      }
    }
  }

  predicate OverlayRegroups(a: Json, b: Json, c: Json)
    requires a.Obj? && b.Obj? && c.Obj?
    decreases c
  {
    forall k | k in a.fields && k in b.fields && k in c.fields && a.fields[k].Obj? && c.fields[k].Obj? ::
      if b.fields[k].Obj? then OverlayRegroups(a.fields[k], b.fields[k], c.fields[k])
      else b.fields[k].Null? || OverlayCovers(a.fields[k], c.fields[k])
  }

  lemma {:induction false} OverlayAssociativeExactly(a: Json, b: Json, c: Json)
    requires a.Obj? && b.Obj? && c.Obj?
    ensures Overlay(Overlay(a, b), c) == Overlay(a, Overlay(b, c)) <==> OverlayRegroups(a, b, c)
    decreases c
  {
    var l, r := Overlay(Overlay(a, b), c).fields, Overlay(a, Overlay(b, c)).fields;
    assert l.Keys == r.Keys;
    forall k | k in l
      ensures l[k] == r[k] <==>
        (k in a.fields && k in b.fields && k in c.fields && a.fields[k].Obj? && c.fields[k].Obj? ==>
          if b.fields[k].Obj? then OverlayRegroups(a.fields[k], b.fields[k], c.fields[k])
          else b.fields[k].Null? || OverlayCovers(a.fields[k], c.fields[k]))
    {
      OverlayAssociativeAt(a, b, c, k);
    }
  }

  lemma {:induction false} OverlayAssociativeAt(a: Json, b: Json, c: Json, k: string)
    requires a.Obj? && b.Obj? && c.Obj?
    requires k in Overlay(Overlay(a, b), c).fields
    ensures k in Overlay(a, Overlay(b, c)).fields
    ensures Overlay(Overlay(a, b), c).fields[k] == Overlay(a, Overlay(b, c)).fields[k] <==>
      (k in a.fields && k in b.fields && k in c.fields && a.fields[k].Obj? && c.fields[k].Obj? ==>
        if b.fields[k].Obj? then OverlayRegroups(a.fields[k], b.fields[k], c.fields[k])
        else b.fields[k].Null? || OverlayCovers(a.fields[k], c.fields[k]))
    decreases c, 0
  {
    if k in a.fields && k in b.fields && k in c.fields && a.fields[k].Obj? && c.fields[k].Obj? {
      if b.fields[k].Obj? {
        OverlayAssociativeExactly(a.fields[k], b.fields[k], c.fields[k]);
      } else if !b.fields[k].Null? {
        OverlayCoversExactly(a.fields[k], c.fields[k]);
      }
    }
  }

  /** Grouping does matter for some usage blobs: object, scalar, object on one key. */
  lemma RegroupingCanMatter() returns (a: Json, b: Json, c: Json)
    ensures a.Obj? && b.Obj? && c.Obj?
    ensures Merge(Merge(a, b), c) != Merge(a, Merge(b, c))
    ensures Overlay(Overlay(a, b), c) != Overlay(a, Overlay(b, c))
  {
    a := Obj(map["cache" := Obj(map["x" := Num(1)])]);
    b := Obj(map["cache" := Num(5)]);
    c := Obj(map["cache" := Obj(map["y" := Num(2)])]);
    assert "x" in a.fields["cache"].fields && "x" !in c.fields["cache"].fields;
    assert !MergeCovers(a.fields["cache"], c.fields["cache"]);
    assert !MergeRegroups(a, b, c);
    MergeAssociativeExactly(a, b, c);
    assert !OverlayCovers(a.fields["cache"], c.fields["cache"]);
    assert !OverlayRegroups(a, b, c);
    OverlayAssociativeExactly(a, b, c);
  }

  // ---- Folding a whole sequence of usage objects

  /** No key is an object in one value and a reported scalar in the other, at any depth. */
  predicate Agree(a: Json, b: Json)
    requires a.Obj? && b.Obj?
    decreases b
  {
    forall k | k in a.fields && k in b.fields && !a.fields[k].Null? && !b.fields[k].Null? ::
      && (a.fields[k].Obj? <==> b.fields[k].Obj?)
      && (a.fields[k].Obj? && b.fields[k].Obj? ==> Agree(a.fields[k], b.fields[k]))
  }

  lemma {:induction false} AgreeSymmetric(a: Json, b: Json)
    requires a.Obj? && b.Obj? && Agree(a, b)
    ensures Agree(b, a)
    decreases b
  {
    forall k | k in a.fields && k in b.fields && a.fields[k].Obj? && b.fields[k].Obj?
      ensures Agree(b.fields[k], a.fields[k])
    {
      AgreeSymmetric(a.fields[k], b.fields[k]);
    }
  }

  lemma {:induction false} AgreeMerge(a: Json, b: Json, c: Json)
    requires a.Obj? && b.Obj? && c.Obj?
    requires Agree(a, c) && Agree(b, c)
    ensures Agree(Merge(a, b), c)
    decreases c
  {
    forall k | k in a.fields && k in b.fields && k in c.fields
               && a.fields[k].Obj? && b.fields[k].Obj? && c.fields[k].Obj?
      ensures Agree(Merge(a.fields[k], b.fields[k]), c.fields[k])
    {
      AgreeMerge(a.fields[k], b.fields[k], c.fields[k]);
    }
  }

  lemma {:induction false} AgreeingMergesRegroup(a: Json, b: Json, c: Json)
    requires a.Obj? && b.Obj? && c.Obj? && Agree(a, b)
    ensures Merge(Merge(a, b), c) == Merge(a, Merge(b, c))
  {
    AgreeRegroups(a, b, c);
    MergeAssociativeExactly(a, b, c);
  }

  lemma {:induction false} AgreeingOverlaysRegroup(a: Json, b: Json, c: Json)
    requires a.Obj? && b.Obj? && c.Obj? && Agree(a, b)
    ensures Overlay(Overlay(a, b), c) == Overlay(a, Overlay(b, c))
  {
    AgreeOverlayRegroups(a, b, c);
    OverlayAssociativeExactly(a, b, c);
  }

  lemma {:induction false} AgreeOverlayRegroups(a: Json, b: Json, c: Json)
    requires a.Obj? && b.Obj? && c.Obj? && Agree(a, b)
    ensures OverlayRegroups(a, b, c)
    decreases c
  {
    forall k | k in a.fields && k in b.fields && k in c.fields
               && a.fields[k].Obj? && b.fields[k].Obj? && c.fields[k].Obj?
      ensures OverlayRegroups(a.fields[k], b.fields[k], c.fields[k])
    {
      AgreeOverlayRegroups(a.fields[k], b.fields[k], c.fields[k]);
    }
  }

  lemma {:induction false} AgreeRegroups(a: Json, b: Json, c: Json)
    requires a.Obj? && b.Obj? && c.Obj? && Agree(a, b)
    ensures MergeRegroups(a, b, c)
    decreases c
  {
    forall k | k in a.fields && k in b.fields && k in c.fields
               && a.fields[k].Obj? && b.fields[k].Obj? && c.fields[k].Obj?
      ensures MergeRegroups(a.fields[k], b.fields[k], c.fields[k])
    {
      AgreeRegroups(a.fields[k], b.fields[k], c.fields[k]);
    }
  }

  predicate AllObjects(us: seq<Json>) { forall i | 0 <= i < |us| :: us[i].Obj? }

  predicate AllAgree(us: seq<Json>)
    requires AllObjects(us)
  {
    forall i, j | 0 <= i < |us| && 0 <= j < |us| :: Agree(us[i], us[j])
  }

  /** Left-to-right merge of a non-empty run of usage objects. */
  function MergeAll(us: seq<Json>): (r: Json)
    requires us != [] && AllObjects(us)
    ensures r.Obj?
  {
    if |us| == 1 then us[0] else Merge(MergeAll(us[..|us| - 1]), us[|us| - 1])
  }

  lemma {:induction false} MergeAllAgrees(us: seq<Json>, c: Json)
    requires us != [] && AllObjects(us) && c.Obj?
    requires forall i | 0 <= i < |us| :: Agree(us[i], c)
    ensures Agree(MergeAll(us), c)
  {
    if |us| > 1 {
      MergeAllAgrees(us[..|us| - 1], c);
      AgreeMerge(MergeAll(us[..|us| - 1]), us[|us| - 1], c);
    }
  }

  /** Cutting a run of agreeing usage objects anywhere does not change their merge. */
  lemma {:induction false} MergeAllConcat(us: seq<Json>, vs: seq<Json>)
    requires us != [] && vs != [] && AllObjects(us + vs) && AllAgree(us + vs)
    ensures AllObjects(us) && AllObjects(vs)
    ensures MergeAll(us + vs) == Merge(MergeAll(us), MergeAll(vs))
    decreases |vs|
  {
    hide Merge, Agree;
    var all := us + vs;
    assert us == all[..|us|] && vs == all[|us|..];
    var n := |vs| - 1;
    var last := vs[n];
    assert all[..|all| - 1] == us + vs[..n];
    if n > 0 {
      MergeAllConcat(us, vs[..n]);
      MergeConcatStep(us, vs[..n], all);
      AgreeingMergesRegroup(MergeAll(us), MergeAll(vs[..n]), last);
    } else {
      assert us + vs[..0] == us;
    }
  }

  lemma {:induction false} MergeConcatStep(us: seq<Json>, vs: seq<Json>, all: seq<Json>)
    requires us != [] && vs != [] && AllObjects(all) && AllAgree(all)
    requires us + vs <= all
    ensures AllObjects(us) && AllObjects(vs) && Agree(MergeAll(us), MergeAll(vs))
  {
    assert forall i | 0 <= i < |us| :: us[i] == all[i];
    assert forall j | 0 <= j < |vs| :: vs[j] == all[|us| + j];
    forall j | 0 <= j < |vs| ensures Agree(vs[j], MergeAll(us)) {
      MergeAllAgrees(us, vs[j]);
      AgreeSymmetric(MergeAll(us), vs[j]);
    }
    MergeAllAgrees(vs, MergeAll(us));
    AgreeSymmetric(MergeAll(vs), MergeAll(us));
  }

  /** Merging each batch first and then the results is the same as merging every
      object in order, wherever the batches are cut. */
  lemma {:induction false} MergeBatches(batches: seq<seq<Json>>, snapshots: seq<Json>)
    requires batches != [] && |snapshots| == |batches|
    requires forall i | 0 <= i < |batches| :: batches[i] != []
    requires AllObjects(Flatten(batches)) && AllAgree(Flatten(batches))
    requires forall i | 0 <= i < |batches| :: AllObjects(batches[i]) && snapshots[i] == MergeAll(batches[i])
    ensures AllObjects(snapshots) && Flatten(batches) != []
    ensures MergeAll(snapshots) == MergeAll(Flatten(batches))
  {
    hide Merge, Agree;
    var n := |batches| - 1;
    FlattenSnoc(batches[..n], batches[n]);
    assert batches == batches[..n] + [batches[n]];
    if n > 0 {
      var front := Flatten(batches[..n]);
      assert Flatten(batches) == front + batches[n];
      assert front == Flatten(batches)[..|front|];
      MergeBatches(batches[..n], snapshots[..n]);
      MergeAllConcat(front, batches[n]);
    }
  }
}

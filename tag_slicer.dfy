/** `extractApiDocForTag` (lib/swagger-utils.ts): the slice of a document
    holding the operations of one tag and the schemas they reference. */
module TagSlicer {
  import opened JsonValues
  import opened SchemaPools
  import opened Slices
  import opened SwaggerUtils

  /** `tags.includes(tagName)`: membership for an array, substring search for
      a string; nothing else has an `includes` the code could call. A string
      includes itself and no longer name. */
  predicate Includes(tags: Json, tagName: string)
    ensures Includes(tags, tagName) ==> tags.JArr? || tags.JStr?
    ensures tags.JArr? ==> (Includes(tags, tagName) <==> exists k :: 0 <= k < |tags.elems| && tags.elems[k] == JStr(tagName))
    ensures tags == JStr(tagName) ==> Includes(tags, tagName)
    ensures tags.JStr? && |tags.s| < |tagName| ==> !Includes(tags, tagName)
  {
    match tags
    case JArr(xs) => JStr(tagName) in xs
    case JStr(s) =>
      assert s == tagName ==> OccursAt(tagName, s, 0);
      exists i :: 0 <= i <= |s| - |tagName| && OccursAt(tagName, s, i)
    case _ => false
  }

  /** `t` occurs in `s` starting at index `i`. */
  predicate OccursAt(t: string, s: string, i: int)
    requires 0 <= i <= |s| - |t|
  {
    s[i..i + |t|] == t
  }

  /** The guard of lines 48 and 61: the operation is present, has truthy
      `tags`, and those include `tagName`. An operation without `tags` is
      never selected; one with a `tags` array is selected exactly when the
      array holds the name. */
  predicate Selected(op: Option<Json>, tagName: string)
    ensures Selected(op, tagName) ==> Truthy(op) && Prop(op, "tags").Some? && Includes(Prop(op, "tags").value, tagName)
    ensures Prop(op, "tags").None? ==> !Selected(op, tagName)
    ensures Truthy(op) && Prop(op, "tags").Some? && Prop(op, "tags").value.JArr? ==>
              (Selected(op, tagName) <==> JStr(tagName) in Prop(op, "tags").value.elems)
  {
    Truthy(op) && Truthy(Prop(op, "tags")) && Includes(Prop(op, "tags").value, tagName)
  }

  /** The operation `pathItem[method]`. */
  function Operation(item: Json, verb: string): Option<Json>
  {
    Prop(Some(item), verb)
  }

  /** The selected operations among the first `c` methods, in method order. */
  function MatchedUpTo(item: Json, tagName: string, c: nat): (ops: seq<(string, Json)>)
    requires c <= |Methods|
  {
    if c == 0 then []
    else
      var op := Operation(item, Methods[c - 1]);
      MatchedUpTo(item, tagName, c - 1) + (if Selected(op, tagName) then [(Methods[c - 1], op.value)] else [])
  }

  /** The output path item: the selected operations, in the order of `Methods`. */
  function Matched(item: Json, tagName: string): seq<(string, Json)>
  {
    MatchedUpTo(item, tagName, |Methods|)
  }

  /** The seeds of the selected operations among the first `c` methods. */
  function SeedsUpTo(item: Json, tagName: string, c: nat): set<string>
    requires c <= |Methods|
  {
    if c == 0 then {}
    else
      var op := Operation(item, Methods[c - 1]);
      SeedsUpTo(item, tagName, c - 1) + OperationSeeds(op, tagName)
  }

  /** The bindings of `swaggerDoc.paths || {}` that `Object.keys` visits. */
  function PathBindings(doc: Json): seq<(string, Json)>
  {
    match Prop(Some(doc), "paths")
    case Some(JObj(fs)) => fs
    case _ => []
  }

  /** The output `paths`: each path with a selected operation, in document
      order, holding only its selected operations. */
  function TaggedPaths(ps: seq<(string, Json)>, tagName: string): seq<(string, seq<(string, Json)>)>
  {
    if ps == [] then []
    else
      var last := ps[|ps| - 1];
      var ops := Matched(last.1, tagName);
      TaggedPaths(ps[..|ps| - 1], tagName) + (if ops != [] then [(last.0, ops)] else [])
  }

  /** The seed names of every selected operation. */
  function TagSeeds(ps: seq<(string, Json)>, tagName: string): set<string>
  {
    if ps == [] then {}
    else TagSeeds(ps[..|ps| - 1], tagName) + SeedsUpTo(ps[|ps| - 1].1, tagName, |Methods|)
  }

  /** The bindings of a source pool object. */
  function PoolOf(o: Option<Json>): Pool
  {
    if o.Some? && o.value.JObj? then o.value.fields else []
  }

  function Definitions(doc: Json): Option<Json>
  {
    Prop(Some(doc), "definitions")
  }

  /** `swaggerDoc.components?.schemas`. */
  function ComponentSchemas(doc: Json): Option<Json>
  {
    Prop(Prop(Some(doc), "components"), "schemas")
  }

  // ---------------------------------------------------------------------------
  // The two passes over one path item (lines 47-54 and 56-65)
  // ---------------------------------------------------------------------------

  /** The first pass: flags the path item when some method is selected and
      adds the seeds of every selected operation. */
  method ScanPathItem(item: Json, tagName: string, used: seq<string>) returns (keep: bool, out: seq<string>)
    requires Distinct(used)
    ensures keep <==> Matched(item, tagName) != []
    ensures Distinct(out) && used <= out
    ensures Elems(out) == Elems(used) + SeedsUpTo(item, tagName, |Methods|)
  {
    keep, out := false, used;
    for c := 0 to |Methods|
      invariant keep <==> MatchedUpTo(item, tagName, c) != []
      invariant Distinct(out) && used <= out
      invariant Elems(out) == Elems(used) + SeedsUpTo(item, tagName, c)
    {
      ghost var before := out;
      var selected;
      selected, out := ScanOperation(Operation(item, Methods[c]), tagName, out);
      keep := keep || selected;
      Accumulate(Elems(used), Elems(before), Elems(out), SeedsUpTo(item, tagName, c),
                 OperationSeeds(Operation(item, Methods[c]), tagName));
    }
  }

  /** The seeds one operation contributes: its names when it is selected. */
  function OperationSeeds(op: Option<Json>, tagName: string): set<string>
  {
    if Selected(op, tagName) then OperationRefs(op.value) else {}
  }

  /** The body of the first pass for one method (lines 48-53). */
  method ScanOperation(op: Option<Json>, tagName: string, used: seq<string>) returns (selected: bool, out: seq<string>)
    requires Distinct(used)
    ensures selected == Selected(op, tagName)
    ensures Distinct(out) && used <= out
    ensures Elems(out) == Elems(used) + OperationSeeds(op, tagName)
  {
    selected, out := false, used;
    if Truthy(op) && Truthy(Prop(op, "tags")) && Includes(Prop(op, "tags").value, tagName) {
      selected := true;
      out := CollectSchemasFromOperation(op.value, out);
    }
  }

  /** The second pass: copies every selected operation, in method order. */
  method CopyPathItem(item: Json, tagName: string) returns (ops: seq<(string, Json)>)
    ensures ops == Matched(item, tagName)
  {
    ops := [];
    for c := 0 to |Methods|
      invariant ops == MatchedUpTo(item, tagName, c)
    {
      var op := Operation(item, Methods[c]);
      if Selected(op, tagName) {
        ops := ops + [(Methods[c], op.value)];
      }
    }
  }

  // ---------------------------------------------------------------------------
  // extractApiDocForTag
  // ---------------------------------------------------------------------------

  /** The `Object.keys(paths).forEach` loop (lines 42-66): the output `paths`
      and the seed names of the selected operations. */
  method SelectPaths(ps: seq<(string, Json)>, tagName: string)
    returns (paths: seq<(string, seq<(string, Json)>)>, used: seq<string>)
    ensures paths == TaggedPaths(ps, tagName)
    ensures Distinct(used) && Elems(used) == TagSeeds(ps, tagName)
  {
    paths, used := [], [];
    for k := 0 to |ps|
      invariant paths == TaggedPaths(ps[..k], tagName)
      invariant Distinct(used) && Elems(used) == TagSeeds(ps[..k], tagName)
    {
      assert ps[..k + 1][..k] == ps[..k];
      var item := ps[k].1;
      var keep;
      keep, used := ScanPathItem(item, tagName, used);
      if keep {
        var ops := CopyPathItem(item, tagName);
        paths := paths + [(ps[k].0, ops)];
      }
    }
    assert ps[..|ps|] == ps;
  }

  /** `extractApiDocForTag(swaggerDoc, tagName)`. The header is copied, `paths`
      holds the selected operations, and exactly one pool is filled: the
      `definitions` when the source has them, otherwise `components.schemas`
      when the source has those. The filled pool is the least sub-pool of the
      source pool that holds every seed name the source pool defines and every
      name the nested walk finds in a schema it holds. */
  method ExtractApiDocForTag(doc: Json, tagName: string) returns (r: Slice)
    ensures r.(paths := [], definitions := map[], components := Header(doc, tagName).components) == Header(doc, tagName)
    ensures r.paths == TaggedPaths(PathBindings(doc), tagName)
    ensures Truthy(Definitions(doc)) ==>
              && LeastClosure(r.definitions, PoolOf(Definitions(doc)), TagSeeds(PathBindings(doc), tagName), NestedLinks)
              && r.components == Header(doc, tagName).components
    ensures !Truthy(Definitions(doc)) && Truthy(ComponentSchemas(doc)) ==>
              && r.definitions == map[]
              && r.components.Some?
              && LeastClosure(r.components.value, PoolOf(ComponentSchemas(doc)), TagSeeds(PathBindings(doc), tagName), NestedLinks)
    ensures !Truthy(Definitions(doc)) && !Truthy(ComponentSchemas(doc)) ==>
              r.definitions == map[] && r.components == Header(doc, tagName).components
  {
    var paths, seeds := SelectPaths(PathBindings(doc), tagName);
    r := Header(doc, tagName).(paths := paths);
    if Truthy(Definitions(doc)) {
      var used, target := AddReferencedSchemas(seeds, PoolOf(Definitions(doc)));
      r := r.(definitions := target);
    } else if Truthy(ComponentSchemas(doc)) {
      var used, target := AddReferencedSchemas(seeds, PoolOf(ComponentSchemas(doc)));
      r := r.(components := Some(target));
    }
  }

  // ---------------------------------------------------------------------------
  // Properties
  // ---------------------------------------------------------------------------

  /** An operation is copied under its method exactly when it is selected. */
  lemma {:induction false} MatchedUpToSpec(item: Json, tagName: string, c: nat, m: string, op: Json)
    requires c <= |Methods|
    ensures (m, op) in MatchedUpTo(item, tagName, c)
            <==> m in Methods[..c] && Selected(Operation(item, m), tagName) && op == Operation(item, m).value
  {
    if c > 0 {
      MatchedUpToSpec(item, tagName, c - 1, m, op);
      assert Methods[..c] == Methods[..c - 1] + [Methods[c - 1]];
    }
  }

  /** The path item the slice holds: the selected operations and only those. */
  lemma MatchedSpec(item: Json, tagName: string, m: string, op: Json)
    ensures (m, op) in Matched(item, tagName)
            <==> m in Methods && Selected(Operation(item, m), tagName) && op == Operation(item, m).value
  {
    MatchedUpToSpec(item, tagName, |Methods|, m, op);
    assert Methods[..|Methods|] == Methods;
  }

  /** A path item is kept exactly when one of its seven methods is selected. */
  lemma MatchedIffSelected(item: Json, tagName: string)
    ensures Matched(item, tagName) != [] <==> exists m :: m in Methods && Selected(Operation(item, m), tagName)
  {
    if Matched(item, tagName) != [] {
      var pair := Matched(item, tagName)[0];
      MatchedSpec(item, tagName, pair.0, pair.1);
    } else {
      forall m | m in Methods && Selected(Operation(item, m), tagName) ensures false {
        MatchedSpec(item, tagName, m, Operation(item, m).value);
      }
    }
  }

  /** A path is in the output `paths`, with operations `ops`, exactly when the
      document has a binding for it whose path item has the selected
      operations `ops`, and there is at least one. */
  lemma {:induction false} TaggedPathsSpec(ps: seq<(string, Json)>, tagName: string, p: string, ops: seq<(string, Json)>)
    ensures (p, ops) in TaggedPaths(ps, tagName)
            <==> exists k :: 0 <= k < |ps| && ps[k].0 == p && ops == Matched(ps[k].1, tagName) && ops != []
  {
    if ps != [] {
      var front := ps[..|ps| - 1];
      TaggedPathsSpec(front, tagName, p, ops);
      if exists k :: 0 <= k < |ps| && ps[k].0 == p && ops == Matched(ps[k].1, tagName) && ops != [] {
        var k :| 0 <= k < |ps| && ps[k].0 == p && ops == Matched(ps[k].1, tagName) && ops != [];
        if k < |front| {
          assert front[k] == ps[k];
        }
      }
      if exists k :: 0 <= k < |front| && front[k].0 == p && ops == Matched(front[k].1, tagName) && ops != [] {
        var k :| 0 <= k < |front| && front[k].0 == p && ops == Matched(front[k].1, tagName) && ops != [];
        assert ps[k] == front[k];
      }
    }
  }

  /** An operation without `tags` is never selected, whatever the tag, even
      `"default"`: a path whose operations all lack `tags` is dropped. */
  lemma UntaggedDropped(item: Json, tagName: string)
    requires forall m :: m in Methods ==> Prop(Operation(item, m), "tags").None?
    ensures Matched(item, tagName) == []
  {
    MatchedIffSelected(item, tagName);
  }

  /** The seeds of a kept path are the deep-walk names of its selected operations. */
  lemma SeedsUpToSpec(item: Json, tagName: string, c: nat, name: string)
    requires c <= |Methods|
    ensures name in SeedsUpTo(item, tagName, c)
            <==> exists i :: 0 <= i < c && Selected(Operation(item, Methods[i]), tagName)
                             && name in OperationRefs(Operation(item, Methods[i]).value)
  {
    if name in SeedsUpTo(item, tagName, c) {
      var i := SeedsUpToFrom(item, tagName, c, name);
      assert name in OperationSeeds(Operation(item, Methods[i]), tagName);
    }
    if exists i :: 0 <= i < c && Selected(Operation(item, Methods[i]), tagName)
                   && name in OperationRefs(Operation(item, Methods[i]).value) {
      var i :| 0 <= i < c && Selected(Operation(item, Methods[i]), tagName)
               && name in OperationRefs(Operation(item, Methods[i]).value);
      SeedsUpToCover(item, tagName, c, i);
      assert name in OperationSeeds(Operation(item, Methods[i]), tagName);
    }
  }

  /** The method a seed of the first `c` methods comes from. */
  lemma {:induction false} SeedsUpToFrom(item: Json, tagName: string, c: nat, name: string) returns (i: nat)
    requires c <= |Methods| && name in SeedsUpTo(item, tagName, c)
    ensures i < c && name in OperationSeeds(Operation(item, Methods[i]), tagName)
  {
    if name in OperationSeeds(Operation(item, Methods[c - 1]), tagName) {
      i := c - 1;
    } else {
      i := SeedsUpToFrom(item, tagName, c - 1, name);
    }
  }

  /** Each of the first `c` methods contributes all its seeds. */
  lemma {:induction false} SeedsUpToCover(item: Json, tagName: string, c: nat, i: nat)
    requires i < c <= |Methods|
    ensures OperationSeeds(Operation(item, Methods[i]), tagName) <= SeedsUpTo(item, tagName, c)
  {
    if i < c - 1 {
      SeedsUpToCover(item, tagName, c - 1, i);
    }
  }

  /** A dropped path contributes no seeds. */
  lemma DroppedPathNoSeeds(item: Json, tagName: string)
    requires Matched(item, tagName) == []
    ensures SeedsUpTo(item, tagName, |Methods|) == {}
  {
    MatchedIffSelected(item, tagName);
    assert Methods[..|Methods|] == Methods;
    forall name | name in SeedsUpTo(item, tagName, |Methods|) ensures false {
      SeedsUpToSpec(item, tagName, |Methods|, name);
    }
  }

  /** A saved slice always carries a truthy `definitions`, even when it was
      cut from an OpenAPI 3 document and filled `components.schemas` instead.
      Slicing such a file again therefore takes the `definitions` branch,
      whose pool is empty, so no schema is copied; `components.schemas`
      comes back empty from the header. */
  lemma ReSliceDropsSchemas(r: Slice, seeds: set<string>, links: Json -> set<string>, target: map<string, Json>)
    requires r.definitions == map[]
    ensures Truthy(Definitions(SliceJson(r)))
    ensures LeastClosure(target, PoolOf(Definitions(SliceJson(r))), seeds, links) ==> target == map[]
    ensures r.components.Some? ==> Truthy(Prop(Some(SliceJson(r)), "components"))
  {
    var front := Front(r);
    var fs := SliceJson(r).fields;
    var m := |front|;
    assert fs[m] == ("definitions", JObj([]));
    GetBinding(fs, "definitions", m);
    assert PoolOf(Definitions(SliceJson(r))) == [];
    if r.components.Some? {
      assert fs[m + 1].0 == "components";
      forall j | 0 <= j < m + 1 ensures fs[j].0 != "components" {
        if j < m { assert fs[j] == front[j]; }
      }
      GetBinding(fs, "components", m + 1);
    }
  }
}

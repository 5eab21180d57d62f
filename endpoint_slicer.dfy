/** `extractApiEndpoint` (components/swagger-viewer.tsx): the slice of a
    document holding one operation, built with the file's own shallower
    `collectSchemasFromOperation` and `collectNestedSchemas`. */
module EndpointSlicer {
  import opened JsonValues
  import opened SchemaPools
  import opened Slices
  import opened SwaggerUtils
  import opened TagSlicer

  /** `schemaName && ...`: a name popped off a `$ref`, when it is not empty. */
  function NameSet(ref: Option<string>): set<string>
  {
    if ref.Some? && ref.value != "" then {ref.value} else {}
  }

  // ---------------------------------------------------------------------------
  // The local collectSchemasFromOperation (lines 494-527)
  // ---------------------------------------------------------------------------

  /** The name of `x.schema.$ref`, when both are truthy and it is not empty. */
  function SchemaRefName(x: Json): set<string>
  {
    NameSet(RefName(Prop(Some(x), "schema")))
  }

  function SchemaRefNames(xs: seq<Json>): set<string>
  {
    if xs == [] then {}
    else SchemaRefNames(xs[..|xs| - 1]) + SchemaRefName(xs[|xs| - 1])
  }

  /** The parameters' names (lines 495-504); only an array has the `forEach`
      the code calls. */
  function ParameterRefNames(op: Json): set<string>
  {
    SchemaRefNames(Elements(Prop(Some(op), "parameters")))
  }

  /** The responses' names (lines 506-515). */
  function ResponseRefNames(op: Json): set<string>
  {
    var responses := Prop(Some(op), "responses");
    if Truthy(responses) then SchemaRefNames(Values(responses.value)) else {}
  }

  /** The request body's media-type names (lines 517-526). */
  function BodyRefNames(op: Json): set<string>
  {
    var content := Prop(Prop(Some(op), "requestBody"), "content");
    if Truthy(content) then SchemaRefNames(Values(content.value)) else {}
  }

  /** The names the local collector records for `operation`: the top-level
      `$ref` names of each parameter's schema, each response's schema and each
      request-body media type's schema. Nothing below a `$ref`-less schema and
      no `response.content` is looked at. Every such name is one the
      library's collector would record from the operation too. */
  function EndpointRefs(op: Json): (r: set<string>)
    ensures r <= OperationRefs(op)
  {
    EndpointNamesWithin(op);
    ParameterRefNames(op) + ResponseRefNames(op) + BodyRefNames(op)
  }

  /** `if (x.schema && x.schema.$ref)`: records the popped name unless empty. */
  method CollectSchemaRefName(x: Json, used: seq<string>) returns (out: seq<string>)
    requires Distinct(used)
    ensures Distinct(out) && used <= out
    ensures Elems(out) == Elems(used) + SchemaRefName(x)
  {
    out := used;
    var ref := RefName(Prop(Some(x), "schema"));
    if ref.Some? && ref.value != "" {
      out := Add(out, ref.value);
    }
  }

  /** One of the three `forEach` loops of the local collector. */
  method CollectSchemaRefNames(xs: seq<Json>, used: seq<string>) returns (out: seq<string>)
    requires Distinct(used)
    ensures Distinct(out) && used <= out
    ensures Elems(out) == Elems(used) + SchemaRefNames(xs)
  {
    out := used;
    for k := 0 to |xs|
      invariant Distinct(out) && used <= out
      invariant Elems(out) == Elems(used) + SchemaRefNames(xs[..k])
    {
      assert xs[..k + 1][..k] == xs[..k];
      ghost var before := out;
      out := CollectSchemaRefName(xs[k], out);
      Accumulate(Elems(used), Elems(before), Elems(out), SchemaRefNames(xs[..k]), SchemaRefName(xs[k]));
    }
    assert xs[..|xs|] == xs;
  }

  /** The local `collectSchemasFromOperation(operation, usedSchemas, swaggerDoc)`. */
  method CollectEndpointRefs(op: Json, used: seq<string>) returns (out: seq<string>)
    requires Distinct(used)
    ensures Distinct(out) && used <= out
    ensures Elems(out) == Elems(used) + EndpointRefs(op)
  {
    out := CollectParameterRefNames(op, used);
    ghost var out1 := out;
    out := CollectResponseRefNames(op, out);
    ghost var out2 := out;
    Accumulate(Elems(used), Elems(out1), Elems(out2), ParameterRefNames(op), ResponseRefNames(op));
    out := CollectBodyRefNames(op, out);
    Accumulate(Elems(used), Elems(out2), Elems(out), ParameterRefNames(op) + ResponseRefNames(op), BodyRefNames(op));
  }

  method CollectParameterRefNames(op: Json, used: seq<string>) returns (out: seq<string>)
    requires Distinct(used)
    ensures Distinct(out) && used <= out
    ensures Elems(out) == Elems(used) + ParameterRefNames(op)
  {
    out := used;
    var params := Prop(Some(op), "parameters");
    if Truthy(params) {
      out := CollectSchemaRefNames(Elements(params), out);
    } else {
      assert Elements(params) == [];
    }
  }

  method CollectResponseRefNames(op: Json, used: seq<string>) returns (out: seq<string>)
    requires Distinct(used)
    ensures Distinct(out) && used <= out
    ensures Elems(out) == Elems(used) + ResponseRefNames(op)
  {
    out := used;
    var responses := Prop(Some(op), "responses");
    if Truthy(responses) {
      out := CollectSchemaRefNames(Values(responses.value), out);
    }
  }

  method CollectBodyRefNames(op: Json, used: seq<string>) returns (out: seq<string>)
    requires Distinct(used)
    ensures Distinct(out) && used <= out
    ensures Elems(out) == Elems(used) + BodyRefNames(op)
  {
    out := used;
    var content := Prop(Prop(Some(op), "requestBody"), "content");
    if Truthy(content) {
      out := CollectSchemaRefNames(Values(content.value), out);
    }
  }

  // ---------------------------------------------------------------------------
  // The local collectNestedSchemas (lines 529-555)
  // ---------------------------------------------------------------------------

  /** The names of the `$ref`s of property values. */
  function PropertyRefNames(vs: seq<Json>): set<string>
  {
    if vs == [] then {}
    else PropertyRefNames(vs[..|vs| - 1]) + NameSet(RefName(Some(vs[|vs| - 1])))
  }

  /** The names the local nested walk follows from a schema: the `$ref` of each
      property value and the `$ref` of the schema's own `items`. Every name it
      follows is one `extractSchemaRefs` would collect from the schema. */
  function EndpointLinks(s: Json): (r: set<string>)
    ensures r <= SchemaRefs(s)
  {
    EndpointLinkNamesWithin(s);
    PropertyRefNames(PropertyValues(s)) + NameSet(RefName(Prop(Some(s), "items")))
  }

  lemma {:induction false} PropertyRefNameIn(vs: seq<Json>, k: nat)
    requires k < |vs|
    ensures NameSet(RefName(Some(vs[k]))) <= PropertyRefNames(vs)
  {
    if k < |vs| - 1 {
      PropertyRefNameIn(vs[..|vs| - 1], k);
    }
  }

  lemma PropertyRefNamesSnoc(vs: seq<Json>, k: nat)
    requires k < |vs|
    ensures PropertyRefNames(vs[..k + 1]) == PropertyRefNames(vs[..k]) + NameSet(RefName(Some(vs[k])))
  {
    assert vs[..k + 1][..k] == vs[..k];
  }

  /** One guarded step (the bodies at lines 533-539 and 546-552): a name not
      yet in `usedSchemas` is recorded and, when the pool defines it, copied
      and walked. */
  method FollowRef(ref: Option<string>, used: seq<string>, source: Pool, target: map<string, Json>)
    returns (used': seq<string>, target': map<string, Json>)
    requires Distinct(used) && SubPool(target, source)
    requires NameSet(ref) <= LinkUniverse(source, EndpointLinks)
    ensures MarksGrow(source, EndpointLinks, used, target, used', target')
    ensures NameSet(ref) <= Elems(used')
    ensures NewCovered(source, EndpointLinks, target.Keys, target'.Keys, Elems(used'))
    ensures BoundedWith(source, EndpointLinks, target.Keys, NameSet(ref), target'.Keys)
    decreases |LinkUniverse(source, EndpointLinks) - Elems(used)|, 0, 0
  {
    if ref.Some? && ref.value != "" && ref.value !in used {
      var name := ref.value;
      var marked := Add(used, name);
      GapShrinks(LinkUniverse(source, EndpointLinks), Elems(used), Elems(marked), name);
      used', target' := CopyAndWalk(name, marked, source, target);
      MarkThenWalk(source, EndpointLinks, used, target, name, used', target');
    } else {
      used', target' := used, target;
      MarksGrowRefl(source, EndpointLinks, used, target);
    }
  }

  /** The copy and walk of a name just recorded in `usedSchemas`. */
  method CopyAndWalk(name: string, used: seq<string>, source: Pool, target: map<string, Json>)
    returns (used': seq<string>, target': map<string, Json>)
    requires Distinct(used) && SubPool(target, source) && name in used
    ensures MarksGrow(source, EndpointLinks, used, target, used', target')
    ensures Has(source, name) ==> name in target'
    ensures NewCovered(source, EndpointLinks, target.Keys, target'.Keys, Elems(used'))
    ensures BoundedWith(source, EndpointLinks, target.Keys, {name}, target'.Keys)
    decreases |LinkUniverse(source, EndpointLinks) - Elems(used)|, 2, 0
  {
    if Has(source, name) {
      var schema := Lookup(source, name).value;
      var copied := target[name := schema];
      assert copied.Keys == target.Keys + {name};
      used', target' := CollectEndpointNested(schema, used, source, copied, name);
      WalkedOwnerCovered(source, name, schema, Elems(used'));
      CopyWalked(source, EndpointLinks, used, target, name, used', target');
    } else {
      used', target' := used, target;
      MarksGrowRefl(source, EndpointLinks, used, target);
    }
  }

  /** The local `collectNestedSchemas(schema, usedSchemas, definitions,
      extractedDefinitions)` for a schema the target holds as `owner`:
      afterwards every name the schema links to is in `usedSchemas`, so is every
      name a schema it copied links to, and nothing was copied that a closed
      set holding the old target would lack. */
  method CollectEndpointNested(schema: Json, used: seq<string>, source: Pool, target: map<string, Json>,
                               ghost owner: string)
    returns (used': seq<string>, target': map<string, Json>)
    requires Distinct(used) && SubPool(target, source)
    requires owner in target && target[owner] == schema
    ensures MarksGrow(source, EndpointLinks, used, target, used', target')
    ensures EndpointLinks(schema) <= Elems(used')
    ensures NewCovered(source, EndpointLinks, target.Keys, target'.Keys, Elems(used'))
    ensures Bounded(source, EndpointLinks, target.Keys, target'.Keys)
    decreases |LinkUniverse(source, EndpointLinks) - Elems(used)|, 1, 0
  {
    var used1, target1 := CollectEndpointProperties(schema, used, source, target, owner);
    assert Elems(used) <= Elems(used1);
    GapMonotone(LinkUniverse(source, EndpointLinks), Elems(used), Elems(used1));
    var items := RefName(Prop(Some(schema), "items"));
    used', target' := FollowFrom(items, used, target, used1, target1, source, schema, owner);
  }

  /** The `properties` loop of the local nested walk (lines 530-543). */
  method CollectEndpointProperties(schema: Json, used: seq<string>, source: Pool, target: map<string, Json>,
                                   ghost owner: string)
    returns (used': seq<string>, target': map<string, Json>)
    requires Distinct(used) && SubPool(target, source)
    requires owner in target && target[owner] == schema
    ensures MarksGrow(source, EndpointLinks, used, target, used', target')
    ensures PropertyRefNames(PropertyValues(schema)) <= Elems(used')
    ensures NewCovered(source, EndpointLinks, target.Keys, target'.Keys, Elems(used'))
    ensures Bounded(source, EndpointLinks, target.Keys, target'.Keys)
    decreases |LinkUniverse(source, EndpointLinks) - Elems(used)|, 0, 2
  {
    used', target' := used, target;
    MarksGrowRefl(source, EndpointLinks, used, target);
    var props := Prop(Some(schema), "properties");
    if Truthy(props) {
      var vs := Values(props.value);
      assert vs == PropertyValues(schema);
      for k := 0 to |vs|
        invariant MarksGrow(source, EndpointLinks, used, target, used', target')
        invariant PropertyRefNames(vs[..k]) <= Elems(used')
        invariant NewCovered(source, EndpointLinks, target.Keys, target'.Keys, Elems(used'))
        invariant Bounded(source, EndpointLinks, target.Keys, target'.Keys)
      {
        var ref := RefName(Some(vs[k]));
        PropertyRefNameIn(vs, k);
        PropertyRefNamesSnoc(vs, k);
        ghost var before := Elems(used');
        used', target' := FollowFrom(ref, used, target, used', target', source, schema, owner);
        assert before <= Elems(used');
      }
      assert vs[..|vs|] == vs;
    } else {
      assert PropertyValues(schema) == [];
    }
  }

  /** `FollowRef` for a name found in the schema of `owner`, carrying the facts
      the enclosing walk keeps about the state it started from. */
  method FollowFrom(ref: Option<string>, ghost used0: seq<string>, ghost target0: map<string, Json>,
                    used: seq<string>, target: map<string, Json>, source: Pool, ghost schema: Json, ghost owner: string)
    returns (used': seq<string>, target': map<string, Json>)
    requires MarksGrow(source, EndpointLinks, used0, target0, used, target)
    requires owner in target0 && target0[owner] == schema && SubPool(target0, source)
    requires NameSet(ref) <= EndpointLinks(schema)
    requires NewCovered(source, EndpointLinks, target0.Keys, target.Keys, Elems(used))
    requires Bounded(source, EndpointLinks, target0.Keys, target.Keys)
    ensures MarksGrow(source, EndpointLinks, used0, target0, used', target')
    ensures Elems(used) <= Elems(used') && target.Keys <= target'.Keys
    ensures NameSet(ref) <= Elems(used')
    ensures NewCovered(source, EndpointLinks, target0.Keys, target'.Keys, Elems(used'))
    ensures Bounded(source, EndpointLinks, target0.Keys, target'.Keys)
    decreases |LinkUniverse(source, EndpointLinks) - Elems(used0)|, 0, 1
  {
    assert Elems(used0) <= Elems(used);
    GapMonotone(LinkUniverse(source, EndpointLinks), Elems(used0), Elems(used));
    assert Lookup(source, owner) == Some(schema);
    LinksInUniverse(source, EndpointLinks, owner);
    used', target' := FollowRef(ref, used, source, target);
    MarksGrowTrans(source, EndpointLinks, used0, target0, used, target, used', target');
    NewCoveredTrans(source, EndpointLinks, target0.Keys, target.Keys, target'.Keys, Elems(used), Elems(used'));
    BoundedFollow(source, EndpointLinks, owner, schema, NameSet(ref), target0.Keys, target.Keys, target'.Keys);
  }

  // ---------------------------------------------------------------------------
  // The usedSchemas.forEach loop (lines 461-489)
  // ---------------------------------------------------------------------------

  /** Every name in `usedSchemas`, including those the walk adds, that the pool
      defines is copied into the initially empty target and walked. The target
      ends as the least closure of the seeds under the local nested walk. */
  method AddEndpointSchemas(seeds: seq<string>, source: Pool) returns (used: seq<string>, target: map<string, Json>)
    requires Distinct(seeds)
    ensures LeastClosure(target, source, Elems(seeds), EndpointLinks)
    ensures Distinct(used) && seeds <= used && target.Keys <= Elems(used)
  {
    used, target := seeds, map[];
    MarkingStart(source, EndpointLinks, seeds);
    var i := 0;
    while i < |used|
      invariant Marking(source, EndpointLinks, seeds, i, used, target)
      decreases |Elems(seeds) + LinkUniverse(source, EndpointLinks)| - i
    {
      MarkingBound(source, EndpointLinks, seeds, i, used, target);
      used, target := VisitMarked(i, seeds, used, source, target);
      i := i + 1;
    }
    MarkingDone(source, EndpointLinks, seeds, used, target);
  }

  /** One turn of that loop. */
  method VisitMarked(i: nat, ghost seeds: seq<string>, used: seq<string>, source: Pool, target: map<string, Json>)
    returns (used': seq<string>, target': map<string, Json>)
    requires Marking(source, EndpointLinks, seeds, i, used, target) && i < |used|
    ensures Marking(source, EndpointLinks, seeds, i + 1, used', target')
  {
    var name := used[i];
    if Has(source, name) {
      var schema := Lookup(source, name).value;
      var copied := target[name := schema];
      assert copied.Keys == target.Keys + {name};
      used', target' := CollectEndpointNested(schema, used, source, copied, name);
      WalkedOwnerCovered(source, name, schema, Elems(used'));
      MarkingStep(source, EndpointLinks, seeds, i, used, target, used', target');
    } else {
      used', target' := used, target;
      MarkingSkip(source, EndpointLinks, seeds, i, used, target);
    }
  }

  lemma WalkedOwnerCovered(source: Pool, name: string, schema: Json, U: set<string>)
    requires Lookup(source, name) == Some(schema) && EndpointLinks(schema) <= U
    ensures Covered(source, EndpointLinks, name, U)
  {
  }

  // ---------------------------------------------------------------------------
  // extractApiEndpoint (lines 430-492)
  // ---------------------------------------------------------------------------

  /** `swaggerDoc.paths[path]`, read only when `swaggerDoc.paths` is truthy. */
  function PathItem(doc: Json, path: string): Option<Json>
  {
    var paths := Prop(Some(doc), "paths");
    if Truthy(paths) then Prop(paths, path) else None
  }

  /** The output `paths`: the one path, holding the one method when present. */
  function EndpointPaths(doc: Json, path: string, verb: string): seq<(string, seq<(string, Json)>)>
  {
    var item := PathItem(doc, path);
    if !Truthy(item) then []
    else
      var op := Prop(item, verb);
      [(path, if Truthy(op) then [(verb, op.value)] else [])]
  }

  /** The seed names: those of the copied operation, if any. */
  function EndpointSeeds(doc: Json, path: string, verb: string): set<string>
  {
    var item := PathItem(doc, path);
    var op := Prop(item, verb);
    if Truthy(item) && Truthy(op) then EndpointRefs(op.value) else {}
  }

  /** `extractApiEndpoint(swaggerDoc, path, method, tag)`. The header is
      copied with `tags` filtered by `tag`, `paths` holds the path and method
      when present, and one pool is filled as the least closure of the seed
      names under the local nested walk. */
  method ExtractApiEndpoint(doc: Json, path: string, verb: string, tag: string) returns (r: Slice)
    ensures r.(paths := [], definitions := map[], components := Header(doc, tag).components) == Header(doc, tag)
    ensures r.paths == EndpointPaths(doc, path, verb)
    ensures Truthy(Definitions(doc)) ==>
              && LeastClosure(r.definitions, PoolOf(Definitions(doc)), EndpointSeeds(doc, path, verb), EndpointLinks)
              && r.components == Header(doc, tag).components
    ensures !Truthy(Definitions(doc)) && Truthy(ComponentSchemas(doc)) ==>
              && r.definitions == map[]
              && r.components.Some?
              && LeastClosure(r.components.value, PoolOf(ComponentSchemas(doc)), EndpointSeeds(doc, path, verb), EndpointLinks)
    ensures !Truthy(Definitions(doc)) && !Truthy(ComponentSchemas(doc)) ==>
              r.definitions == map[] && r.components == Header(doc, tag).components
  {
    var paths, seeds := EndpointSeedList(doc, path, verb);
    r := Header(doc, tag).(paths := paths);
    if Truthy(Definitions(doc)) {
      var used, target := AddEndpointSchemas(seeds, PoolOf(Definitions(doc)));
      r := r.(definitions := target);
    } else if Truthy(ComponentSchemas(doc)) {
      var used, target := AddEndpointSchemas(seeds, PoolOf(ComponentSchemas(doc)));
      r := r.(components := Some(target));
    }
  }

  /** The path and method lookups of `extractApiEndpoint`: the output `paths`
      and the names `collectRefs` gathers from the copied operation. */
  method EndpointSeedList(doc: Json, path: string, verb: string) returns (paths: seq<(string, seq<(string, Json)>)>, seeds: seq<string>)
    ensures paths == EndpointPaths(doc, path, verb)
    ensures Distinct(seeds) && Elems(seeds) == EndpointSeeds(doc, path, verb)
  {
    var item := PathItem(doc, path);
    paths, seeds := [], [];
    if Truthy(item) {
      var op := Prop(item, verb);
      if Truthy(op) {
        paths := [(path, [(verb, op.value)])];
        seeds := CollectEndpointRefs(op.value, seeds);
      } else {
        paths := [(path, [])];
      }
    }
  }

  // ---------------------------------------------------------------------------
  // Properties
  // ---------------------------------------------------------------------------

  /** The output `paths` holds at most the one path asked for, and under it
      at most the one method asked for, with the source operation. */
  lemma EndpointPathsSpec(doc: Json, path: string, verb: string)
    ensures |EndpointPaths(doc, path, verb)| <= 1
    ensures EndpointPaths(doc, path, verb) != [] <==> Truthy(PathItem(doc, path))
    ensures forall p, ms :: (p, ms) in EndpointPaths(doc, path, verb) ==>
              && p == path
              && |ms| <= 1
              && (ms != [] <==> Truthy(Prop(PathItem(doc, path), verb)))
              && forall m, o :: (m, o) in ms ==> m == verb && Prop(PathItem(doc, path), verb) == Some(o)
  {
  }

  /** When the path or the method is missing, no schema is copied. */
  lemma NoOperationEmptyPool(doc: Json, path: string, verb: string, target: map<string, Json>, P: Pool)
    requires !(Truthy(PathItem(doc, path)) && Truthy(Prop(PathItem(doc, path), verb)))
    requires LeastClosure(target, P, EndpointSeeds(doc, path, verb), EndpointLinks)
    ensures target == map[]
    ensures !Truthy(PathItem(doc, path)) ==> EndpointPaths(doc, path, verb) == []
  {
    assert EndpointSeeds(doc, path, verb) == {};
    LeastClosureOfNothing(target, P, EndpointLinks);
  }

  /** The name the local collector records for one node is among the names
      the library's collector gathers from it. */
  lemma SchemaRefNameWithin(x: Json)
    ensures SchemaRefName(x) <= SchemaFieldRefs(x)
  {
    var schema := Prop(Some(x), "schema");
    if RefName(schema).Some? {
      assert OptSet(RefName(Some(schema.value))) <= SchemaRefs(schema.value);
    }
  }

  lemma {:induction false} SchemaRefNamesWithin(xs: seq<Json>)
    ensures SchemaRefNames(xs) <= SchemaFieldsRefs(xs)
  {
    if xs != [] {
      SchemaRefNamesWithin(xs[..|xs| - 1]);
      SchemaRefNameWithin(xs[|xs| - 1]);
    }
  }

  lemma {:induction false} ResponseNamesWithin(rs: seq<Json>)
    ensures SchemaRefNames(rs) <= ResponsesRefs(rs)
  {
    if rs != [] {
      ResponseNamesWithin(rs[..|rs| - 1]);
      SchemaRefNameWithin(rs[|rs| - 1]);
    }
  }

  /** The three parts of `EndpointRefs` lie within `OperationRefs`. */
  lemma EndpointNamesWithin(op: Json)
    ensures ParameterRefNames(op) + ResponseRefNames(op) + BodyRefNames(op) <= OperationRefs(op)
  {
    SchemaRefNamesWithin(Elements(Prop(Some(op), "parameters")));
    var responses := Prop(Some(op), "responses");
    if Truthy(responses) {
      ResponseNamesWithin(Values(responses.value));
    }
    var content := Prop(Prop(Some(op), "requestBody"), "content");
    if Truthy(content) {
      SchemaRefNamesWithin(Values(content.value));
    }
  }

  lemma {:induction false} PropertyRefNamesWithin(s: Json, k: nat)
    requires k <= |PropertyValues(s)|
    ensures PropertyRefNames(PropertyValues(s)[..k]) <= PropertyRefs(s, k)
  {
    if k > 0 {
      var vs := PropertyValues(s);
      var v := vs[k - 1];
      PropertyRefNamesWithin(s, k - 1);
      assert OptSet(RefName(Some(v))) <= SchemaRefs(v);
      assert PropertyRefNames(vs[..k]) == PropertyRefNames(vs[..k - 1]) + NameSet(RefName(Some(v))) by {
        assert vs[..k][..k - 1] == vs[..k - 1];
      }
      assert PropertyRefs(s, k) == PropertyRefs(s, k - 1) + SchemaRefs(v);
      UnionWithin(PropertyRefNames(vs[..k - 1]), NameSet(RefName(Some(v))), PropertyRefs(s, k - 1), SchemaRefs(v));
    }
  }

  /** The two parts of `EndpointLinks` lie within `SchemaRefs`. */
  lemma EndpointLinkNamesWithin(s: Json)
    ensures PropertyRefNames(PropertyValues(s)) + NameSet(RefName(Prop(Some(s), "items"))) <= SchemaRefs(s)
  {
    var vs := PropertyValues(s);
    PropertyRefNamesWithin(s, |vs|);
    assert vs[..|vs|] == vs;
    var items := Prop(Some(s), "items");
    if RefName(items).Some? {
      assert OptSet(RefName(Some(items.value))) <= SchemaRefs(items.value);
    }
  }

  /** Unlike the library's nested walk, the local one follows a schema's own
      `items`: an endpoint slice seeded with `PetList` also holds `Pet`. */
  lemma PetListEndpointLinks()
    ensures EndpointLinks(PetList()) == {"Pet"}
  {
    PetListFields();
    RefNameOfRefTo("Pet");
    assert PropertyValues(PetList()) == [];
  }

  lemma OwnItemsFollowed(target: map<string, Json>)
    requires LeastClosure(target, PetPool(), {"PetList"}, EndpointLinks)
    ensures EndpointLinks(PetList()) == {"Pet"}
    ensures "PetList" in target && "Pet" in target
  {
    PetListEndpointLinks();
    var P := PetPool();
    PetListClosed();
    assert Lookup(P, "Pet") == Some(JObj([("type", JStr("object"))])) by {
      assert Find(P, "Pet") == 1 by {
        assert P[0].0 != "Pet";
      }
    }
    assert "PetList" in target.Keys;
    assert Expanded(P, EndpointLinks, "PetList", target.Keys);
    assert LinksOf(P, EndpointLinks, "PetList") == {"Pet"};
  }
}

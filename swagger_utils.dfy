/** lib/swagger-utils.ts: slicing a document down to the operations of one tag
    and the schema definitions they reference. */
module SwaggerUtils {
  import opened JsonValues
  import opened SchemaPools
  import opened Slices

  /** The composition keywords both walkers look into, in the order they do. */
  const CompositionKeys: seq<string> := ["allOf", "anyOf", "oneOf"]

  /** The HTTP methods tag extraction looks at, in the order it does. */
  const Methods: seq<string> := ["get", "post", "put", "delete", "options", "head", "patch"]

  function OptSet(o: Option<string>): set<string>
  {
    if o.Some? then {o.value} else {}
  }

  // ---------------------------------------------------------------------------
  // extractSchemaRefs: the deep walk over one schema node
  // ---------------------------------------------------------------------------

  /** The values of `schema.properties` the walkers visit. */
  function PropertyValues(s: Json): (vs: seq<Json>)
    ensures Truthy(Prop(Some(s), "properties")) ==> vs == Values(Prop(Some(s), "properties").value)
    ensures !Truthy(Prop(Some(s), "properties")) ==> vs == []
  {
    var p := Prop(Some(s), "properties");
    if Truthy(p) then Values(p.value) else []
  }

  /** The elements of `schema[key]` when it is an array. */
  function Members(s: Json, key: string): (xs: seq<Json>)
    ensures Prop(Some(s), key).Some? && Prop(Some(s), key).value.JArr? ==> xs == Prop(Some(s), key).value.elems
    ensures !(Prop(Some(s), key).Some? && Prop(Some(s), key).value.JArr?) ==> xs == []
  {
    Elements(Prop(Some(s), key))
  }

  /** Every name `extractSchemaRefs(s, usedSchemas)` adds: the last `/`-segment
      of each truthy string `$ref` reachable from `s` through `items`, the values
      of `properties` and the elements of `allOf`, `anyOf` and `oneOf`. A node
      with a `$ref` is still walked further. A node's own `$ref` name is
      always among them. */
  function SchemaRefs(s: Json): (r: set<string>)
    ensures OptSet(RefName(Some(s))) <= r
    decreases s, 2
  {
    if !Truthy(Some(s)) then {}
    else
      OptSet(RefName(Some(s)))
      + ItemRefs(s)
      + PropertyRefs(s, |PropertyValues(s)|)
      + CompositionRefs(s, |CompositionKeys|)
  }

  function ItemRefs(s: Json): set<string>
    decreases s, 0
  {
    var items := Prop(Some(s), "items");
    if Truthy(items) then SchemaRefs(items.value) else {}
  }

  /** The names found under the first `k` property values. */
  function PropertyRefs(s: Json, k: nat): set<string>
    requires k <= |PropertyValues(s)|
    decreases s, 0, k
  {
    if k == 0 then {}
    else PropertyRefs(s, k - 1) + SchemaRefs(PropertyValues(s)[k - 1])
  }

  /** The names found under the first `k` elements of `schema[key]`. */
  function MemberRefs(s: Json, key: string, k: nat): set<string>
    requires k <= |Members(s, key)|
    decreases s, 0, k
  {
    if k == 0 then {}
    else MemberRefs(s, key, k - 1) + SchemaRefs(Members(s, key)[k - 1])
  }

  /** The names found under the first `c` composition keywords. */
  function CompositionRefs(s: Json, c: nat): set<string>
    requires c <= |CompositionKeys|
    decreases s, 1, c
  {
    if c == 0 then {}
    else
      var key := CompositionKeys[c - 1];
      CompositionRefs(s, c - 1) + MemberRefs(s, key, |Members(s, key)|)
  }

  /** `extractSchemaRefs(schema, usedSchemas)`: adds to the set, in walk order,
      every name `SchemaRefs` describes, and nothing else. */
  method ExtractSchemaRefs(schema: Json, used: seq<string>) returns (out: seq<string>)
    requires Distinct(used)
    ensures Distinct(out) && used <= out
    ensures Elems(out) == Elems(used) + SchemaRefs(schema)
    decreases schema, 2
  {
    out := used;
    if !Truthy(Some(schema)) {
      return;
    }
    var ref := RefName(Some(schema));
    if ref.Some? {
      out := Add(out, ref.value);
    }
    ghost var out1 := out;
    var items := Prop(Some(schema), "items");
    if Truthy(items) {
      out := ExtractSchemaRefs(items.value, out);
    }
    ghost var out2 := out;
    Accumulate(Elems(used), Elems(out1), Elems(out2), OptSet(ref), ItemRefs(schema));
    out := ExtractPropertyRefs(schema, out);
    ghost var out3 := out;
    Accumulate(Elems(used), Elems(out2), Elems(out3), OptSet(ref) + ItemRefs(schema),
               PropertyRefs(schema, |PropertyValues(schema)|));
    out := ExtractCompositionRefs(schema, out);
    Accumulate(Elems(used), Elems(out3), Elems(out),
               OptSet(ref) + ItemRefs(schema) + PropertyRefs(schema, |PropertyValues(schema)|),
               CompositionRefs(schema, |CompositionKeys|));
  }

  /** The `properties` step of `extractSchemaRefs`: walks every property value. */
  method ExtractPropertyRefs(schema: Json, used: seq<string>) returns (out: seq<string>)
    requires Distinct(used)
    ensures Distinct(out) && used <= out
    ensures Elems(out) == Elems(used) + PropertyRefs(schema, |PropertyValues(schema)|)
    decreases schema, 1
  {
    out := used;
    var props := Prop(Some(schema), "properties");
    if Truthy(props) {
      var vs := Values(props.value);
      assert vs == PropertyValues(schema);
      for k := 0 to |vs|
        invariant Distinct(out) && used <= out
        invariant Elems(out) == Elems(used) + PropertyRefs(schema, k)
      {
        ghost var before := out;
        out := ExtractSchemaRefs(vs[k], out);
        assert PropertyRefs(schema, k + 1) == PropertyRefs(schema, k) + SchemaRefs(vs[k]);
        Accumulate(Elems(used), Elems(before), Elems(out), PropertyRefs(schema, k), SchemaRefs(vs[k]));
      }
    } else {
      assert PropertyValues(schema) == [];
    }
  }

  /** The `allOf`/`anyOf`/`oneOf` step of `extractSchemaRefs`. */
  method ExtractCompositionRefs(schema: Json, used: seq<string>) returns (out: seq<string>)
    requires Distinct(used)
    ensures Distinct(out) && used <= out
    ensures Elems(out) == Elems(used) + CompositionRefs(schema, |CompositionKeys|)
    decreases schema, 1
  {
    out := used;
    for c := 0 to |CompositionKeys|
      invariant Distinct(out) && used <= out
      invariant Elems(out) == Elems(used) + CompositionRefs(schema, c)
    {
      var key := CompositionKeys[c];
      ghost var before := out;
      out := ExtractMemberRefs(schema, key, out);
      assert CompositionRefs(schema, c + 1) == CompositionRefs(schema, c) + MemberRefs(schema, key, |Members(schema, key)|);
      Accumulate(Elems(used), Elems(before), Elems(out), CompositionRefs(schema, c), MemberRefs(schema, key, |Members(schema, key)|));
    }
  }

  /** One composition keyword of `extractSchemaRefs`: walks every element of
      `schema[key]` when it is an array. */
  method ExtractMemberRefs(schema: Json, key: string, used: seq<string>) returns (out: seq<string>)
    requires Distinct(used)
    ensures Distinct(out) && used <= out
    ensures Elems(out) == Elems(used) + MemberRefs(schema, key, |Members(schema, key)|)
    decreases schema, 0
  {
    out := used;
    var sub := Prop(Some(schema), key);
    if Truthy(sub) && sub.value.JArr? {
      var xs := sub.value.elems;
      assert xs == Members(schema, key);
      for k := 0 to |xs|
        invariant Distinct(out) && used <= out
        invariant Elems(out) == Elems(used) + MemberRefs(schema, key, k)
      {
        ghost var before := out;
        out := ExtractSchemaRefs(xs[k], out);
        assert MemberRefs(schema, key, k + 1) == MemberRefs(schema, key, k) + SchemaRefs(xs[k]);
        Accumulate(Elems(used), Elems(before), Elems(out), MemberRefs(schema, key, k), SchemaRefs(xs[k]));
      }
    } else {
      assert Members(schema, key) == [];
    }
  }

  // ---------------------------------------------------------------------------
  // collectSchemasFromOperation: the seeds of one operation
  // ---------------------------------------------------------------------------

  /** The names under `node.schema`, when that is truthy. */
  function SchemaFieldRefs(node: Json): set<string>
  {
    var schema := Prop(Some(node), "schema");
    if Truthy(schema) then SchemaRefs(schema.value) else {}
  }

  /** The names under the `schema` of each of `xs`. */
  function SchemaFieldsRefs(xs: seq<Json>): set<string>
  {
    if xs == [] then {}
    else SchemaFieldsRefs(xs[..|xs| - 1]) + SchemaFieldRefs(xs[|xs| - 1])
  }

  /** Each element's schema names are among `SchemaFieldsRefs`. */
  lemma {:induction false} SchemaFieldsRefsCover(xs: seq<Json>, k: nat)
    requires k < |xs|
    ensures SchemaFieldRefs(xs[k]) <= SchemaFieldsRefs(xs)
  {
    if k < |xs| - 1 {
      var init := xs[..|xs| - 1];
      SchemaFieldsRefsCover(init, k);
      assert init[k] == xs[k];
    }
  }

  /** Every name in `SchemaFieldsRefs` comes from one element's schema. */
  lemma {:induction false} SchemaFieldsRefsFrom(xs: seq<Json>, n: string)
    requires n in SchemaFieldsRefs(xs)
    ensures exists k :: 0 <= k < |xs| && n in SchemaFieldRefs(xs[k])
  {
    var init := xs[..|xs| - 1];
    if n !in SchemaFieldRefs(xs[|xs| - 1]) {
      SchemaFieldsRefsFrom(init, n);
      var k :| 0 <= k < |init| && n in SchemaFieldRefs(init[k]);
      assert init[k] == xs[k];
    }
  }

  /** The names under the `schema` of each media type of `node.content`. */
  function ContentRefs(node: Json): set<string>
  {
    var content := Prop(Some(node), "content");
    if Truthy(content) then SchemaFieldsRefs(Values(content.value)) else {}
  }

  /** The names under one response: its own `schema`, then its `content`. */
  function ResponseRefs(r: Json): set<string>
  {
    SchemaFieldRefs(r) + ContentRefs(r)
  }

  /** The names under each of the responses `rs`. */
  function ResponsesRefs(rs: seq<Json>): set<string>
  {
    if rs == [] then {}
    else ResponsesRefs(rs[..|rs| - 1]) + ResponseRefs(rs[|rs| - 1])
  }

  /** Each response's names are among `ResponsesRefs`. */
  lemma {:induction false} ResponsesRefsCover(rs: seq<Json>, k: nat)
    requires k < |rs|
    ensures ResponseRefs(rs[k]) <= ResponsesRefs(rs)
  {
    if k < |rs| - 1 {
      var init := rs[..|rs| - 1];
      ResponsesRefsCover(init, k);
      assert init[k] == rs[k];
    }
  }

  /** Every name in `ResponsesRefs` comes from one of the responses. */
  lemma {:induction false} ResponsesRefsFrom(rs: seq<Json>, n: string)
    requires n in ResponsesRefs(rs)
    ensures exists k :: 0 <= k < |rs| && n in ResponseRefs(rs[k])
  {
    var init := rs[..|rs| - 1];
    if n !in ResponseRefs(rs[|rs| - 1]) {
      ResponsesRefsFrom(init, n);
      var k :| 0 <= k < |init| && n in ResponseRefs(init[k]);
      assert init[k] == rs[k];
    }
  }

  /** Each parameter's schema contributes all its names. */
  lemma ParameterCover(op: Json)
    ensures forall p :: p in Elements(Prop(Some(op), "parameters")) ==> SchemaFieldRefs(p) <= ParameterRefs(op)
  {
    var ps := Elements(Prop(Some(op), "parameters"));
    forall p | p in ps ensures SchemaFieldRefs(p) <= ParameterRefs(op) {
      var k :| 0 <= k < |ps| && ps[k] == p;
      SchemaFieldsRefsCover(ps, k);
    }
  }

  /** Each response of a truthy `responses` object contributes all its names. */
  lemma ResponseSectionCover(op: Json)
    ensures Truthy(Prop(Some(op), "responses")) ==>
      forall v :: v in Values(Prop(Some(op), "responses").value) ==> ResponseRefs(v) <= ResponseSectionRefs(op)
  {
    var responses := Prop(Some(op), "responses");
    if Truthy(responses) {
      var rs := Values(responses.value);
      forall v | v in rs ensures ResponseRefs(v) <= ResponseSectionRefs(op) {
        var k :| 0 <= k < |rs| && rs[k] == v;
        ResponsesRefsCover(rs, k);
      }
    }
  }

  /** The names under the request body's media types (lines 107-116). */
  function BodyRefs(op: Json): set<string>
  {
    var body := Prop(Some(op), "requestBody");
    if Truthy(body) then ContentRefs(body.value) else {}
  }

  /** The names under the parameters' schemas (lines 119-125); only an array
      has the `forEach` the code calls. */
  function ParameterRefs(op: Json): set<string>
  {
    SchemaFieldsRefs(Elements(Prop(Some(op), "parameters")))
  }

  /** The names under the responses (lines 128-143). */
  function ResponseSectionRefs(op: Json): set<string>
  {
    var responses := Prop(Some(op), "responses");
    if Truthy(responses) then ResponsesRefs(Values(responses.value)) else {}
  }

  /** Every name `collectSchemasFromOperation(op, usedSchemas, doc)` adds: the
      deep-walk names of the request body's media-type schemas, of each
      parameter's schema, and of each response's schema and media-type schemas. */
  function OperationRefs(op: Json): (r: set<string>)
    ensures forall p :: p in Elements(Prop(Some(op), "parameters")) ==> SchemaFieldRefs(p) <= r
    ensures Truthy(Prop(Some(op), "responses")) ==>
      forall v :: v in Values(Prop(Some(op), "responses").value) ==> ResponseRefs(v) <= r
    ensures Truthy(Prop(Some(op), "requestBody")) ==> ContentRefs(Prop(Some(op), "requestBody").value) <= r
  {
    ParameterCover(op);
    ResponseSectionCover(op);
    BodyRefs(op) + ParameterRefs(op) + ResponseSectionRefs(op)
  }

  /** `if (node.schema) extractSchemaRefs(node.schema, usedSchemas)`. */
  method ExtractSchemaFieldRefs(node: Json, used: seq<string>) returns (out: seq<string>)
    requires Distinct(used)
    ensures Distinct(out) && used <= out
    ensures Elems(out) == Elems(used) + SchemaFieldRefs(node)
  {
    out := used;
    var schema := Prop(Some(node), "schema");
    if Truthy(schema) {
      out := ExtractSchemaRefs(schema.value, out);
    }
  }

  /** The `forEach` over media types or parameters, each walked at its `schema`. */
  method ExtractSchemaFieldsRefs(xs: seq<Json>, used: seq<string>) returns (out: seq<string>)
    requires Distinct(used)
    ensures Distinct(out) && used <= out
    ensures Elems(out) == Elems(used) + SchemaFieldsRefs(xs)
  {
    out := used;
    for k := 0 to |xs|
      invariant Distinct(out) && used <= out
      invariant Elems(out) == Elems(used) + SchemaFieldsRefs(xs[..k])
    {
      assert xs[..k + 1][..k] == xs[..k];
      ghost var before := out;
      out := ExtractSchemaFieldRefs(xs[k], out);
      Accumulate(Elems(used), Elems(before), Elems(out), SchemaFieldsRefs(xs[..k]), SchemaFieldRefs(xs[k]));
    }
    assert xs[..|xs|] == xs;
  }

  /** The media types of `node.content`, when it is truthy. */
  method ExtractContentRefs(node: Json, used: seq<string>) returns (out: seq<string>)
    requires Distinct(used)
    ensures Distinct(out) && used <= out
    ensures Elems(out) == Elems(used) + ContentRefs(node)
  {
    out := used;
    var content := Prop(Some(node), "content");
    if Truthy(content) {
      out := ExtractSchemaFieldsRefs(Values(content.value), out);
    }
  }

  /** The `responses` loop (lines 129-142). */
  method ExtractResponsesRefs(rs: seq<Json>, used: seq<string>) returns (out: seq<string>)
    requires Distinct(used)
    ensures Distinct(out) && used <= out
    ensures Elems(out) == Elems(used) + ResponsesRefs(rs)
  {
    out := used;
    for k := 0 to |rs|
      invariant Distinct(out) && used <= out
      invariant Elems(out) == Elems(used) + ResponsesRefs(rs[..k])
    {
      assert rs[..k + 1][..k] == rs[..k];
      ghost var before := out;
      out := ExtractSchemaFieldRefs(rs[k], out);
      ghost var mid := out;
      out := ExtractContentRefs(rs[k], out);
      Accumulate(Elems(before), Elems(mid), Elems(out), SchemaFieldRefs(rs[k]), ContentRefs(rs[k]));
      Accumulate(Elems(used), Elems(before), Elems(out), ResponsesRefs(rs[..k]), ResponseRefs(rs[k]));
    }
    assert rs[..|rs|] == rs;
  }

  /** `collectSchemasFromOperation(operation, usedSchemas, swaggerDoc)`: adds to
      the set exactly the names `OperationRefs` describes. */
  method CollectSchemasFromOperation(op: Json, used: seq<string>) returns (out: seq<string>)
    requires Distinct(used)
    ensures Distinct(out) && used <= out
    ensures Elems(out) == Elems(used) + OperationRefs(op)
  {
    out := ExtractBodyRefs(op, used);
    ghost var out1 := out;
    out := ExtractParameterRefs(op, out);
    ghost var out2 := out;
    Accumulate(Elems(used), Elems(out1), Elems(out2), BodyRefs(op), ParameterRefs(op));
    out := ExtractResponseSectionRefs(op, out);
    Accumulate(Elems(used), Elems(out2), Elems(out), BodyRefs(op) + ParameterRefs(op), ResponseSectionRefs(op));
  }

  method ExtractBodyRefs(op: Json, used: seq<string>) returns (out: seq<string>)
    requires Distinct(used)
    ensures Distinct(out) && used <= out
    ensures Elems(out) == Elems(used) + BodyRefs(op)
  {
    out := used;
    var body := Prop(Some(op), "requestBody");
    if Truthy(body) {
      out := ExtractContentRefs(body.value, out);
    }
  }

  method ExtractParameterRefs(op: Json, used: seq<string>) returns (out: seq<string>)
    requires Distinct(used)
    ensures Distinct(out) && used <= out
    ensures Elems(out) == Elems(used) + ParameterRefs(op)
  {
    out := used;
    var params := Prop(Some(op), "parameters");
    if Truthy(params) {
      out := ExtractSchemaFieldsRefs(Elements(params), out);
    } else {
      assert Elements(params) == [];
    }
  }

  method ExtractResponseSectionRefs(op: Json, used: seq<string>) returns (out: seq<string>)
    requires Distinct(used)
    ensures Distinct(out) && used <= out
    ensures Elems(out) == Elems(used) + ResponseSectionRefs(op)
  {
    out := used;
    var responses := Prop(Some(op), "responses");
    if Truthy(responses) {
      out := ExtractResponsesRefs(Values(responses.value), out);
    }
  }

  // ---------------------------------------------------------------------------
  // collectNestedSchemas: copying what pool schemas reference
  // ---------------------------------------------------------------------------

  /** The `$ref` of a property value and the `$ref` of its `items`. */
  function PropertyLink(v: Json): set<string>
  {
    OptSet(RefName(Some(v))) + OptSet(RefName(Prop(Some(v), "items")))
  }

  /** The links of a sequence of property values. */
  function PropertyLinks(vs: seq<Json>): set<string>
  {
    if vs == [] then {} else PropertyLinks(vs[..|vs| - 1]) + PropertyLink(vs[|vs| - 1])
  }

  /** The `$ref`s of a sequence of composition members. */
  function MemberLinks(xs: seq<Json>): set<string>
  {
    if xs == [] then {} else MemberLinks(xs[..|xs| - 1]) + OptSet(RefName(Some(xs[|xs| - 1])))
  }

  /** The keys `collectNestedSchemas` reads links under, in the order it does. */
  const NestedKeys: seq<string> := ["properties", "allOf", "anyOf", "oneOf"]

  /** The links a schema has under one of those keys. */
  function KeyLinks(s: Json, key: string): set<string>
  {
    if key == "properties" then PropertyLinks(PropertyValues(s)) else MemberLinks(Members(s, key))
  }

  /** The links under the first `c` of those keys. */
  function LinksUnder(s: Json, c: nat): set<string>
    requires c <= |NestedKeys|
  {
    if c == 0 then {} else LinksUnder(s, c - 1) + KeyLinks(s, NestedKeys[c - 1])
  }

  /** The names `collectNestedSchemas` looks up for one pool schema: the `$ref`
      of each property value and of that value's `items`, and the `$ref` of each
      element of `allOf`, `anyOf` and `oneOf`. Unlike `extractSchemaRefs` it
      looks neither at the schema's own `items` nor any deeper. Every name it
      follows is one `extractSchemaRefs` would collect from the schema. */
  function NestedLinks(s: Json): (r: set<string>)
    ensures r <= SchemaRefs(s)
  {
    LinksUnderWithin(s, |NestedKeys|);
    LinksUnder(s, |NestedKeys|)
  }

  lemma LinksUnderSnoc(s: Json, c: nat)
    requires c < |NestedKeys|
    ensures LinksUnder(s, c + 1) == LinksUnder(s, c) + KeyLinks(s, NestedKeys[c])
  {
  }

  lemma {:induction false} LinksUnderGrow(s: Json, c: nat, c': nat)
    requires c <= c' <= |NestedKeys|
    ensures LinksUnder(s, c) <= LinksUnder(s, c')
    decreases c' - c
  {
    if c < c' {
      LinksUnderGrow(s, c, c' - 1);
    }
  }

  /** The links under one key are among the schema's nested links. */
  lemma KeyLinksNested(s: Json, c: nat)
    requires c < |NestedKeys|
    ensures KeyLinks(s, NestedKeys[c]) <= NestedLinks(s)
  {
    LinksUnderGrow(s, c + 1, |NestedKeys|);
  }

  lemma {:induction false} PropertyLinkIn(vs: seq<Json>, k: nat)
    requires k < |vs|
    ensures PropertyLink(vs[k]) <= PropertyLinks(vs)
  {
    if k < |vs| - 1 {
      PropertyLinkIn(vs[..|vs| - 1], k);
    }
  }

  lemma {:induction false} MemberLinkIn(xs: seq<Json>, k: nat)
    requires k < |xs|
    ensures OptSet(RefName(Some(xs[k]))) <= MemberLinks(xs)
  {
    if k < |xs| - 1 {
      MemberLinkIn(xs[..|xs| - 1], k);
    }
  }

  lemma PropertyLinksSnoc(vs: seq<Json>, k: nat)
    requires k < |vs|
    ensures PropertyLinks(vs[..k + 1]) == PropertyLinks(vs[..k]) + PropertyLink(vs[k])
  {
    assert vs[..k + 1][..k] == vs[..k];
  }

  lemma MemberLinksSnoc(xs: seq<Json>, k: nat)
    requires k < |xs|
    ensures MemberLinks(xs[..k + 1]) == MemberLinks(xs[..k]) + OptSet(RefName(Some(xs[k])))
  {
    assert xs[..k + 1][..k] == xs[..k];
  }

  /** One guarded copy of `collectNestedSchemas` (the bodies at lines 189-199,
      203-213 and 221-231): when the target does not yet have `name` and the
      source does, record it, copy it and walk the copied schema. */
  method Follow(name: string, used: seq<string>, source: Pool, target: map<string, Json>)
    returns (used': seq<string>, target': map<string, Json>)
    requires Distinct(used) && SubPool(target, source)
    ensures Grows(source, used, target, used', target')
    ensures Reached(source, {name}, target'.Keys)
    ensures NewExpanded(source, NestedLinks, target.Keys, target'.Keys)
    ensures BoundedWith(source, NestedLinks, target.Keys, {name}, target'.Keys)
    decreases |Names(source) - target.Keys|, 0, 0
  {
    used', target' := used, target;
    if !Truthy(Entry(target, name)) && Has(source, name) {
      assert name !in target;
      var schema := Lookup(source, name).value;
      CopyGrows(source, used, target, name);
      used' := Add(used', name);
      target' := target'[name := schema];
      GapShrinks(Names(source), target.Keys, target'.Keys, name);
      ghost var used1, target1 := used', target';
      used', target' := CollectNestedSchemas(schema, used', source, target', name);
      GrowsTrans(source, used, target, used1, target1, used', target');
      forall n | n in target'.Keys - target.Keys
        ensures Expanded(source, NestedLinks, n, target'.Keys)
      {
        if n != name {
          assert n in target'.Keys - target1.Keys;
        }
      }
      forall T | target.Keys <= T && Closed(source, NestedLinks, T) && Reached(source, {name}, T)
        ensures target'.Keys <= T
      {
        assert target1.Keys <= T;
      }
    } else {
      GrowsRefl(source, used, target);
    }
  }

  /** `collectNestedSchemas(schema, usedSchemas, sourceSchemas, targetSchemas)`
      for a schema the target already holds as `owner`: afterwards every pool
      name the schema links to is in the target, every schema it copied has been
      walked in turn, and nothing was copied that a closed set holding the old
      target would lack. */
  method CollectNestedSchemas(schema: Json, used: seq<string>, source: Pool, target: map<string, Json>,
                              ghost owner: string)
    returns (used': seq<string>, target': map<string, Json>)
    requires Distinct(used) && SubPool(target, source)
    requires owner in target && target[owner] == schema
    ensures Grows(source, used, target, used', target')
    ensures Expanded(source, NestedLinks, owner, target'.Keys)
    ensures NewExpanded(source, NestedLinks, target.Keys, target'.Keys)
    ensures Bounded(source, NestedLinks, target.Keys, target'.Keys)
    decreases |Names(source) - target.Keys|, 1, 0
  {
    var used1, target1 := CollectPropertyLinks(schema, used, source, target, owner);
    GapMonotone(Names(source), target.Keys, target1.Keys);
    LinksUnderSnoc(schema, 0);
    used', target' := CollectCompositionLinks(schema, used1, source, target1, owner);
    GrowsChain(source, NestedLinks, used, target, used1, target1, used', target');
    assert Lookup(source, owner) == Some(schema);
    ExpandedByReached(source, NestedLinks, owner, schema, target'.Keys);
  }

  /** The `properties` loop of `collectNestedSchemas` (lines 187-216). */
  method CollectPropertyLinks(schema: Json, used: seq<string>, source: Pool, target: map<string, Json>,
                              ghost owner: string)
    returns (used': seq<string>, target': map<string, Json>)
    requires Distinct(used) && SubPool(target, source)
    requires owner in target && target[owner] == schema
    ensures Grows(source, used, target, used', target')
    ensures Reached(source, KeyLinks(schema, "properties"), target'.Keys)
    ensures NewExpanded(source, NestedLinks, target.Keys, target'.Keys)
    ensures Bounded(source, NestedLinks, target.Keys, target'.Keys)
    decreases |Names(source) - target.Keys|, 0, 3
  {
    used', target' := used, target;
    GrowsRefl(source, used, target);
    var props := Prop(Some(schema), "properties");
    if Truthy(props) {
      var vs := Values(props.value);
      assert vs == PropertyValues(schema);
      for k := 0 to |vs|
        invariant Grows(source, used, target, used', target')
        invariant Reached(source, PropertyLinks(vs[..k]), target'.Keys)
        invariant NewExpanded(source, NestedLinks, target.Keys, target'.Keys)
        invariant Bounded(source, NestedLinks, target.Keys, target'.Keys)
      {
        PropertyLinkIn(vs, k);
        KeyLinksNested(schema, 0);
        PropertyLinksSnoc(vs, k);
        ghost var before := target'.Keys;
        used', target' := FollowProperty(vs[k], used, target, used', target', source, schema, owner);
        ReachedStep(source, PropertyLinks(vs[..k]), PropertyLink(vs[k]), before, target'.Keys);
      }
      assert vs[..|vs|] == vs;
    } else {
      assert PropertyValues(schema) == [];
    }
  }

  /** One property value of `collectNestedSchemas`: its `$ref` (lines 188-200),
      then the `$ref` of its `items` (lines 203-214). */
  method FollowProperty(v: Json, ghost used0: seq<string>, ghost target0: map<string, Json>,
                        used: seq<string>, target: map<string, Json>, source: Pool, ghost schema: Json, ghost owner: string)
    returns (used': seq<string>, target': map<string, Json>)
    requires Grows(source, used0, target0, used, target)
    requires owner in target0 && target0[owner] == schema && SubPool(target0, source)
    requires PropertyLink(v) <= NestedLinks(schema)
    requires NewExpanded(source, NestedLinks, target0.Keys, target.Keys)
    requires Bounded(source, NestedLinks, target0.Keys, target.Keys)
    ensures Grows(source, used0, target0, used', target') && target.Keys <= target'.Keys
    ensures Reached(source, PropertyLink(v), target'.Keys)
    ensures NewExpanded(source, NestedLinks, target0.Keys, target'.Keys)
    ensures Bounded(source, NestedLinks, target0.Keys, target'.Keys)
    decreases |Names(source) - target0.Keys|, 0, 2
  {
    used', target' := used, target;
    var name := RefName(Some(v));
    if name.Some? {
      used', target' := FollowFrom(name.value, used0, target0, used', target', source, schema, owner);
    }
    ghost var mid := target'.Keys;
    var itemName := RefName(Prop(Some(v), "items"));
    if itemName.Some? {
      used', target' := FollowFrom(itemName.value, used0, target0, used', target', source, schema, owner);
    }
    ReachedStep(source, OptSet(name), OptSet(itemName), mid, target'.Keys);
  }

  /** The `allOf`/`anyOf`/`oneOf` loop of `collectNestedSchemas` (lines 218-235). */
  method CollectCompositionLinks(schema: Json, used: seq<string>, source: Pool, target: map<string, Json>,
                                 ghost owner: string)
    returns (used': seq<string>, target': map<string, Json>)
    requires Distinct(used) && SubPool(target, source)
    requires owner in target && target[owner] == schema
    requires Reached(source, LinksUnder(schema, 1), target.Keys)
    ensures Grows(source, used, target, used', target')
    ensures Reached(source, NestedLinks(schema), target'.Keys)
    ensures NewExpanded(source, NestedLinks, target.Keys, target'.Keys)
    ensures Bounded(source, NestedLinks, target.Keys, target'.Keys)
    decreases |Names(source) - target.Keys|, 0, 5
  {
    used', target' := used, target;
    GrowsRefl(source, used, target);
    for c := 1 to |NestedKeys|
      invariant Grows(source, used, target, used', target')
      invariant Reached(source, LinksUnder(schema, c), target'.Keys)
      invariant NewExpanded(source, NestedLinks, target.Keys, target'.Keys)
      invariant Bounded(source, NestedLinks, target.Keys, target'.Keys)
    {
      ghost var before := target'.Keys;
      used', target' := CollectMemberLinks(c, used, target, used', target', source, schema, owner);
      ReachedStep(source, LinksUnder(schema, c), KeyLinks(schema, NestedKeys[c]), before, target'.Keys);
      LinksUnderSnoc(schema, c);
    }
  }

  /** One composition keyword of `collectNestedSchemas`: the elements of
      `schema[key]` when it is an array (lines 219-233). */
  method CollectMemberLinks(c: nat, ghost used0: seq<string>, ghost target0: map<string, Json>,
                            used: seq<string>, target: map<string, Json>, source: Pool, schema: Json, ghost owner: string)
    returns (used': seq<string>, target': map<string, Json>)
    requires 1 <= c < |NestedKeys|
    requires Grows(source, used0, target0, used, target)
    requires owner in target0 && target0[owner] == schema && SubPool(target0, source)
    requires NewExpanded(source, NestedLinks, target0.Keys, target.Keys)
    requires Bounded(source, NestedLinks, target0.Keys, target.Keys)
    ensures Grows(source, used0, target0, used', target') && target.Keys <= target'.Keys
    ensures Reached(source, KeyLinks(schema, NestedKeys[c]), target'.Keys)
    ensures NewExpanded(source, NestedLinks, target0.Keys, target'.Keys)
    ensures Bounded(source, NestedLinks, target0.Keys, target'.Keys)
    decreases |Names(source) - target0.Keys|, 0, 4
  {
    var key := NestedKeys[c];
    var sub := Prop(Some(schema), key);
    if Truthy(sub) && sub.value.JArr? {
      assert sub.value.elems == Members(schema, key);
      KeyLinksNested(schema, c);
      used', target' := FollowMembers(sub.value.elems, used0, target0, used, target, source, schema, owner);
    } else {
      assert Members(schema, key) == [];
      used', target' := used, target;
    }
  }

  /** The loop over the elements of a composition array (lines 220-232). */
  method FollowMembers(xs: seq<Json>, ghost used0: seq<string>, ghost target0: map<string, Json>,
                       used: seq<string>, target: map<string, Json>, source: Pool, ghost schema: Json, ghost owner: string)
    returns (used': seq<string>, target': map<string, Json>)
    requires Grows(source, used0, target0, used, target)
    requires owner in target0 && target0[owner] == schema && SubPool(target0, source)
    requires MemberLinks(xs) <= NestedLinks(schema)
    requires NewExpanded(source, NestedLinks, target0.Keys, target.Keys)
    requires Bounded(source, NestedLinks, target0.Keys, target.Keys)
    ensures Grows(source, used0, target0, used', target') && target.Keys <= target'.Keys
    ensures Reached(source, MemberLinks(xs), target'.Keys)
    ensures NewExpanded(source, NestedLinks, target0.Keys, target'.Keys)
    ensures Bounded(source, NestedLinks, target0.Keys, target'.Keys)
    decreases |Names(source) - target0.Keys|, 0, 3
  {
    used', target' := used, target;
    for k := 0 to |xs|
      invariant Grows(source, used0, target0, used', target') && target.Keys <= target'.Keys
      invariant Reached(source, MemberLinks(xs[..k]), target'.Keys)
      invariant NewExpanded(source, NestedLinks, target0.Keys, target'.Keys)
      invariant Bounded(source, NestedLinks, target0.Keys, target'.Keys)
    {
      MemberLinkIn(xs, k);
      MemberLinksSnoc(xs, k);
      ghost var before := target'.Keys;
      used', target' := FollowMember(xs[k], used0, target0, used', target', source, schema, owner);
      ReachedStep(source, MemberLinks(xs[..k]), OptSet(RefName(Some(xs[k]))), before, target'.Keys);
    }
    assert xs[..|xs|] == xs;
  }

  /** One element of a composition array: its `$ref` (lines 221-231). */
  method FollowMember(x: Json, ghost used0: seq<string>, ghost target0: map<string, Json>,
                      used: seq<string>, target: map<string, Json>, source: Pool, ghost schema: Json, ghost owner: string)
    returns (used': seq<string>, target': map<string, Json>)
    requires Grows(source, used0, target0, used, target)
    requires owner in target0 && target0[owner] == schema && SubPool(target0, source)
    requires OptSet(RefName(Some(x))) <= NestedLinks(schema)
    requires NewExpanded(source, NestedLinks, target0.Keys, target.Keys)
    requires Bounded(source, NestedLinks, target0.Keys, target.Keys)
    ensures Grows(source, used0, target0, used', target') && target.Keys <= target'.Keys
    ensures Reached(source, OptSet(RefName(Some(x))), target'.Keys)
    ensures NewExpanded(source, NestedLinks, target0.Keys, target'.Keys)
    ensures Bounded(source, NestedLinks, target0.Keys, target'.Keys)
    decreases |Names(source) - target0.Keys|, 0, 2
  {
    used', target' := used, target;
    var name := RefName(Some(x));
    if name.Some? {
      used', target' := FollowFrom(name.value, used0, target0, used', target', source, schema, owner);
    }
  }

  /** `Follow` for a name found in the schema of `owner`, carrying the facts
      the enclosing walk keeps about the target it started from. */
  method FollowFrom(name: string, ghost used0: seq<string>, ghost target0: map<string, Json>,
                    used: seq<string>, target: map<string, Json>, source: Pool, ghost schema: Json, ghost owner: string)
    returns (used': seq<string>, target': map<string, Json>)
    requires Grows(source, used0, target0, used, target)
    requires owner in target0 && target0[owner] == schema && SubPool(target0, source)
    requires name in NestedLinks(schema)
    requires NewExpanded(source, NestedLinks, target0.Keys, target.Keys)
    requires Bounded(source, NestedLinks, target0.Keys, target.Keys)
    ensures Grows(source, used0, target0, used', target') && target.Keys <= target'.Keys
    ensures Reached(source, {name}, target'.Keys)
    ensures NewExpanded(source, NestedLinks, target0.Keys, target'.Keys)
    ensures Bounded(source, NestedLinks, target0.Keys, target'.Keys)
    decreases |Names(source) - target0.Keys|, 0, 1
  {
    GapMonotone(Names(source), target0.Keys, target.Keys);
    used', target' := Follow(name, used, source, target);
    FollowedFrom(source, name, owner, schema, used0, target0, used, target, used', target');
  }

  lemma FollowedFrom(source: Pool, name: string, owner: string, schema: Json,
                     used0: seq<string>, target0: map<string, Json>, used: seq<string>, target: map<string, Json>,
                     used': seq<string>, target': map<string, Json>)
    requires Grows(source, used0, target0, used, target) && Grows(source, used, target, used', target')
    requires owner in target0 && target0[owner] == schema && SubPool(target0, source)
    requires name in NestedLinks(schema)
    requires NewExpanded(source, NestedLinks, target0.Keys, target.Keys)
    requires NewExpanded(source, NestedLinks, target.Keys, target'.Keys)
    requires Bounded(source, NestedLinks, target0.Keys, target.Keys)
    requires BoundedWith(source, NestedLinks, target.Keys, {name}, target'.Keys)
    ensures Grows(source, used0, target0, used', target') && target.Keys <= target'.Keys
    ensures NewExpanded(source, NestedLinks, target0.Keys, target'.Keys)
    ensures Bounded(source, NestedLinks, target0.Keys, target'.Keys)
  {
    assert Lookup(source, owner) == Some(schema);
    GrowsFollow(source, NestedLinks, owner, schema, {name}, used0, target0, used, target, used', target');
  }

  /** The `usedSchemas.forEach` loop of `extractApiDocForTag` (lines 70-82 and
      84-96): every name in `usedSchemas`, including those added while the loop
      runs, that the source pool defines is copied into the initially empty
      target and walked. The target ends as the least closure of the seeds
      under the nested walk, and `usedSchemas` as the seeds plus the copies. */
  method AddReferencedSchemas(seeds: seq<string>, source: Pool) returns (used: seq<string>, target: map<string, Json>)
    requires Distinct(seeds)
    ensures LeastClosure(target, source, Elems(seeds), NestedLinks)
    ensures Distinct(used) && seeds <= used && Elems(used) == Elems(seeds) + target.Keys
  {
    used, target := seeds, map[];
    WalkingStart(source, NestedLinks, seeds);
    var i := 0;
    while i < |used|
      invariant Walking(source, NestedLinks, seeds, i, used, target)
      decreases |Elems(seeds) + Names(source)| - i
    {
      WalkingBound(source, NestedLinks, seeds, i, used, target);
      used, target := VisitUsed(i, seeds, used, source, target);
      i := i + 1;
    }
    WalkingDone(source, NestedLinks, seeds, used, target);
  }

  /** One turn of that loop: the `i`-th name of `usedSchemas`, when the source
      pool defines it, is copied and its schema walked. */
  method VisitUsed(i: nat, ghost seeds: seq<string>, used: seq<string>, source: Pool, target: map<string, Json>)
    returns (used': seq<string>, target': map<string, Json>)
    requires Walking(source, NestedLinks, seeds, i, used, target) && i < |used|
    ensures Walking(source, NestedLinks, seeds, i + 1, used', target')
  {
    var name := used[i];
    if Has(source, name) {
      var schema := Lookup(source, name).value;
      var copied := target[name := schema];
      assert copied.Keys == target.Keys + {name};
      used', target' := CollectNestedSchemas(schema, used, source, copied, name);
      WalkingStep(source, NestedLinks, seeds, i, used, target, used', target');
    } else {
      used', target' := used, target;
      WalkingSkip(source, NestedLinks, seeds, i, used, target);
    }
  }

  // ---------------------------------------------------------------------------
  // The nested walk against the deep walk
  // ---------------------------------------------------------------------------

  /** What the nested walk follows from one property value, the deep walk
      collects from it. */
  lemma PropertyLinkWithin(v: Json)
    ensures PropertyLink(v) <= SchemaRefs(v)
  {
    assert OptSet(RefName(Some(v))) <= SchemaRefs(v);
    var items := Prop(Some(v), "items");
    if RefName(items).Some? {
      assert OptSet(RefName(Some(items.value))) <= SchemaRefs(items.value);
    }
  }

  /** Proof helper: unions of subsets are subsets of the union. */
  lemma UnionWithin(a: set<string>, b: set<string>, c: set<string>, d: set<string>)
    requires a <= c && b <= d
    ensures a + b <= c + d
  {
  }

  lemma {:induction false} PropertyLinksWithin(s: Json, k: nat)
    requires k <= |PropertyValues(s)|
    ensures PropertyLinks(PropertyValues(s)[..k]) <= PropertyRefs(s, k)
  {
    if k > 0 {
      var vs := PropertyValues(s);
      var v := vs[k - 1];
      PropertyLinksWithin(s, k - 1);
      PropertyLinkWithin(v);
      assert PropertyLinks(vs[..k]) == PropertyLinks(vs[..k - 1]) + PropertyLink(v) by {
        assert vs[..k][..k - 1] == vs[..k - 1];
      }
      assert PropertyRefs(s, k) == PropertyRefs(s, k - 1) + SchemaRefs(v);
      UnionWithin(PropertyLinks(vs[..k - 1]), PropertyLink(v), PropertyRefs(s, k - 1), SchemaRefs(v));
    }
  }

  lemma {:induction false} MemberLinksWithin(s: Json, key: string, k: nat)
    requires k <= |Members(s, key)|
    ensures MemberLinks(Members(s, key)[..k]) <= MemberRefs(s, key, k)
  {
    if k > 0 {
      var xs := Members(s, key);
      var x := xs[k - 1];
      MemberLinksWithin(s, key, k - 1);
      assert OptSet(RefName(Some(x))) <= SchemaRefs(x);
      assert MemberLinks(xs[..k]) == MemberLinks(xs[..k - 1]) + OptSet(RefName(Some(x))) by {
        assert xs[..k][..k - 1] == xs[..k - 1];
      }
      assert MemberRefs(s, key, k) == MemberRefs(s, key, k - 1) + SchemaRefs(x);
      UnionWithin(MemberLinks(xs[..k - 1]), OptSet(RefName(Some(x))), MemberRefs(s, key, k - 1), SchemaRefs(x));
    }
  }

  lemma KeyLinksWithin(s: Json, c: nat)
    requires c < |NestedKeys|
    ensures KeyLinks(s, NestedKeys[c]) <= SchemaRefs(s)
  {
    if c == 0 {
      var vs := PropertyValues(s);
      PropertyLinksWithin(s, |vs|);
      assert vs[..|vs|] == vs;
    } else {
      var key := NestedKeys[c];
      var xs := Members(s, key);
      MemberLinksWithin(s, key, |xs|);
      assert xs[..|xs|] == xs;
      assert MemberRefs(s, key, |xs|) <= CompositionRefs(s, |CompositionKeys|) by {
        assert CompositionKeys[c - 1] == key;
        CompositionRefsGrow(s, c, |CompositionKeys|);
      }
    }
  }

  lemma {:induction false} CompositionRefsGrow(s: Json, c: nat, c': nat)
    requires c <= c' <= |CompositionKeys|
    ensures CompositionRefs(s, c) <= CompositionRefs(s, c')
    decreases c' - c
  {
    if c < c' {
      CompositionRefsGrow(s, c, c' - 1);
    }
  }

  lemma {:induction false} LinksUnderWithin(s: Json, c: nat)
    requires c <= |NestedKeys|
    ensures LinksUnder(s, c) <= SchemaRefs(s)
  {
    if c > 0 {
      LinksUnderWithin(s, c - 1);
      KeyLinksWithin(s, c - 1);
    }
  }

  /** The pool a tag slice fills is a sub-map of the pool a walk following
      every name `extractSchemaRefs` collects would fill from the same seeds. */
  lemma NestedClosureWithinDeep(t: map<string, Json>, deep: map<string, Json>, P: Pool, seeds: set<string>)
    requires LeastClosure(t, P, seeds, NestedLinks) && LeastClosure(deep, P, seeds, SchemaRefs)
    ensures forall n :: n in t ==> n in deep && t[n] == deep[n]
  {
    forall s: Json ensures NestedLinks(s) <= SchemaRefs(s) {
      assert NestedLinks(s) <= SchemaRefs(s);
    }
    LeastClosureMonotone(t, deep, P, seeds, seeds, NestedLinks, SchemaRefs);
  }

  /** An array definition `PetList` whose `items` refers to `Pet`. */
  function PetList(): Json
  {
    JObj([("type", JStr("array")), ("items", RefTo("Pet"))])
  }

  /** A schema with none of `properties`, `allOf`, `anyOf`, `oneOf` gives the
      nested walk nothing to follow. */
  lemma {:induction false} LinksUnderNone(s: Json, c: nat)
    requires c <= |NestedKeys|
    requires forall key :: key in NestedKeys ==> Prop(Some(s), key) == None
    ensures LinksUnder(s, c) == {}
  {
    if c > 0 {
      LinksUnderNone(s, c - 1);
      assert Prop(Some(s), NestedKeys[c - 1]) == None;
    }
  }

  lemma PetListFields()
    ensures forall key :: key in NestedKeys ==> Prop(Some(PetList()), key) == None
    ensures Prop(Some(PetList()), "items") == Some(RefTo("Pet"))
  {
    var fs := PetList().fields;
    forall key | key in NestedKeys ensures Find(fs, key) == -1 {
      assert FindFrom(fs, key, 1) == -1;
    }
    assert Find(fs, "items") == 1 by {
      assert FindFrom(fs, "items", 1) == 1;
    }
  }

  /** The nested walk does not look at a schema's own `items`, although the
      deep walk does. */
  lemma PetListLinks()
    ensures NestedLinks(PetList()) == {} && "Pet" in SchemaRefs(PetList())
  {
    PetListFields();
    LinksUnderNone(PetList(), |NestedKeys|);
    RefNameOfRefTo("Pet");
    assert OptSet(RefName(Some(RefTo("Pet")))) <= SchemaRefs(RefTo("Pet"));
    assert "Pet" in ItemRefs(PetList());
  }

  /** The pool of the example: `PetList` and the `Pet` it refers to. */
  function PetPool(): Pool
  {
    [("PetList", PetList()), ("Pet", JObj([("type", JStr("object"))]))]
  }

  /** `{"PetList"}` holds the seed and is closed under the nested walk. */
  lemma PetListClosed()
    ensures Has(PetPool(), "PetList") && Lookup(PetPool(), "PetList") == Some(PetList())
    ensures SeedsIn(PetPool(), {"PetList"}, {"PetList"}) && Closed(PetPool(), NestedLinks, {"PetList"})
  {
    var P := PetPool();
    assert Find(P, "PetList") == 0;
    PetListLinks();
    assert LinksOf(P, NestedLinks, "PetList") == {};
    assert Expanded(P, NestedLinks, "PetList", {"PetList"});
  }

  /** So a tag slice seeded with an array definition `PetList` keeps
      `PetList`, whose `items` still refers to `Pet`, and leaves `Pet` out. */
  lemma OwnItemsNotFollowed(target: map<string, Json>)
    requires LeastClosure(target, PetPool(), {"PetList"}, NestedLinks)
    ensures "PetList" in target && target["PetList"] == PetList() && "Pet" in SchemaRefs(target["PetList"])
    ensures "Pet" !in target
  {
    PetListClosed();
    PetListLinks();
    assert "PetList" in target.Keys;
    assert target["PetList"] == PetList();
    assert target.Keys <= {"PetList"};
  }
}

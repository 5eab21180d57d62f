/** The small pure helpers of the viewer page (components/swagger-viewer.tsx):
    the description shown for a tag, the type shown for a parameter, and the
    names of the files the page downloads. */
module ViewerHelpers {
  import opened JsonValues
  import opened Slices

  // ---------------------------------------------------------------------------
  // getTagDescription (lines 157-163)
  // ---------------------------------------------------------------------------

  /** The elements of `swaggerDoc.tags` when it is an array (an array is
      always truthy, so the guard reduces to `Array.isArray`). */
  function DeclaredTags(doc: Json): seq<Json>
  {
    Elements(Prop(Some(doc), "tags"))
  }

  /** `tags.find(t => t.name === tagName)` from index `from` on: the index of
      the first tag named `tagName`, or -1 when there is none. */
  function FirstNamed(tags: seq<Json>, tagName: string, from: nat): (i: int)
    requires from <= |tags|
    ensures -1 <= i < |tags|
    ensures 0 <= i ==> from <= i && NamedTag(tags[i], tagName)
    ensures forall j :: from <= j < (if i < 0 then |tags| else i) ==> !NamedTag(tags[j], tagName)
    decreases |tags| - from
  {
    if from == |tags| then -1
    else if NamedTag(tags[from], tagName) then from
    else FirstNamed(tags, tagName, from + 1)
  }

  /** `tagObj?.description || ""` for a found tag object. */
  function DescriptionOf(tag: Json): Json
  {
    var d := Prop(Some(tag), "description");
    if Truthy(d) then d.value else JStr("")
  }

  /** `getTagDescription(swaggerDoc, tagName)`: either "" or the truthy
      description of a declared tag with that name. */
  function TagDescription(doc: Json, tagName: string): (r: Json)
    ensures r == JStr("") || exists k :: 0 <= k < |DeclaredTags(doc)| && NamedTag(DeclaredTags(doc)[k], tagName)
                                  && Truthy(Prop(Some(DeclaredTags(doc)[k]), "description"))
                                  && r == Prop(Some(DeclaredTags(doc)[k]), "description").value
  {
    var tags := DeclaredTags(doc);
    var i := FirstNamed(tags, tagName, 0);
    if i < 0 then JStr("") else DescriptionOf(tags[i])
  }

  /** The description is that of the FIRST declared tag with the name, or ""
      when that tag has no truthy description. */
  lemma TagDescriptionFirst(doc: Json, tagName: string, k: nat)
    requires k < |DeclaredTags(doc)| && NamedTag(DeclaredTags(doc)[k], tagName)
    requires forall j :: 0 <= j < k ==> !NamedTag(DeclaredTags(doc)[j], tagName)
    ensures TagDescription(doc, tagName) == DescriptionOf(DeclaredTags(doc)[k])
    ensures Truthy(Prop(Some(DeclaredTags(doc)[k]), "description")) ==>
              TagDescription(doc, tagName) == Prop(Some(DeclaredTags(doc)[k]), "description").value
  {
    var i := FirstNamed(DeclaredTags(doc), tagName, 0);
    assert 0 <= i <= k;
  }

  /** A tag that is not declared (or a document whose `tags` is not an array)
      has the empty description. */
  lemma TagDescriptionUndeclared(doc: Json, tagName: string)
    requires forall t :: t in DeclaredTags(doc) ==> !NamedTag(t, tagName)
    ensures TagDescription(doc, tagName) == JStr("")
  {
    var tags := DeclaredTags(doc);
    var i := FirstNamed(tags, tagName, 0);
    assert i < 0;
  }

  // ---------------------------------------------------------------------------
  // getParameterType (lines 412-428)
  // ---------------------------------------------------------------------------

  /** The type shown for a parameter: `param.type`, else `param.schema.type`,
      else the last `/`-segment of `param.schema.$ref`, else "object". The
      parameter's own `type` wins; without either `type` the shown type is a
      string holding no '/'. */
  function ParameterType(param: Json): (r: Json)
    ensures Truthy(Prop(Some(param), "type")) ==> r == Prop(Some(param), "type").value
    ensures !Truthy(Prop(Some(param), "type")) && !Truthy(Prop(Prop(Some(param), "schema"), "type")) ==>
              r.JStr? && '/' !in r.s
  {
    var schema := Prop(Some(param), "schema");
    if Truthy(Prop(Some(param), "type")) then Prop(Some(param), "type").value
    else if Truthy(Prop(schema, "type")) then Prop(schema, "type").value
    else match RefName(schema)
      case Some(name) => JStr(name)
      case None => JStr("object")
  }

  /** The whole cascade of `getParameterType`, for every parameter. */
  lemma ParameterTypeCascade(param: Json)
    ensures var t := Prop(Some(param), "type");
            var st := Prop(Prop(Some(param), "schema"), "type");
            var ref := Prop(Prop(Some(param), "schema"), "$ref");
            ParameterType(param)
            == if Truthy(t) then t.value
               else if Truthy(st) then st.value
               else if Truthy(ref) && ref.value.JStr? then JStr(LastSegment(ref.value.s))
               else JStr("object")
  {
  }

  /** A parameter whose schema is only a reference to `#/definitions/Name`
      shows `Name` as its type. */
  lemma ParameterTypeOfRef(name: string)
    requires '/' !in name
    ensures ParameterType(JObj([("schema", RefTo(name))])) == JStr(name)
  {
    var param := JObj([("schema", RefTo(name))]);
    assert Find(param.fields, "type") == -1 by {
      assert FindFrom(param.fields, "type", 1) == -1;
    }
    assert Prop(Some(param), "schema") == Some(RefTo(name)) by {
      assert Find(param.fields, "schema") == 0;
    }
    assert Find(RefTo(name).fields, "type") == -1 by {
      assert FindFrom(RefTo(name).fields, "type", 1) == -1;
    }
    RefNameOfRefTo(name);
  }

  /** The shown type is empty exactly when neither `type` is truthy and the
      schema's `$ref` is a string ending in '/'; otherwise it is a truthy value. */
  lemma ParameterTypeEmpty(param: Json)
    ensures ParameterType(param) == JStr("") <==>
              !Truthy(Prop(Some(param), "type")) && !Truthy(Prop(Prop(Some(param), "schema"), "type"))
              && Truthy(Prop(Prop(Some(param), "schema"), "$ref"))
              && Prop(Prop(Some(param), "schema"), "$ref").value.JStr?
              && EndsWithSlash(Prop(Prop(Some(param), "schema"), "$ref").value.s)
    ensures ParameterType(param) != JStr("") ==> Truthy(Some(ParameterType(param)))
  {
    var schema := Prop(Some(param), "schema");
    if !Truthy(Prop(Some(param), "type")) && !Truthy(Prop(schema, "type")) && RefName(schema).Some? {
      LastSegmentEmpty(Prop(schema, "$ref").value.s);
    }
  }

  predicate EndsWithSlash(s: string)
  {
    s != [] && s[|s| - 1] == '/'
  }

  /** `s.split("/")` ends in an empty segment exactly when `s` is empty or ends in '/'. */
  lemma LastSegmentEmpty(s: string)
    ensures LastSegment(s) == [] <==> s == [] || EndsWithSlash(s)
  {
  }

  // ---------------------------------------------------------------------------
  // Download file names (lines 191 and 278)
  // ---------------------------------------------------------------------------

  /** `s.replace(/\//g, "_")`. */
  function ReplaceSlashes(s: string): (r: string)
    ensures |r| == |s|
    ensures forall i :: 0 <= i < |s| ==> r[i] == (if s[i] == '/' then '_' else s[i])
  {
    if s == [] then []
    else ReplaceSlashes(s[..|s| - 1]) + [if s[|s| - 1] == '/' then '_' else s[|s| - 1]]
  }

  /** `${tag}-api-doc.json`: the tag followed by the fixed suffix. */
  function TagFileName(tag: string): (r: string)
    ensures |r| == |tag| + 13 && r[..|tag|] == tag && r[|tag|..] == "-api-doc.json"
  {
    tag + "-api-doc.json"
  }

  /** `${path.replace(/\//g, "_")}-${method}-api-doc.json`: the path with
      its slashes replaced, a dash, the method and the fixed suffix. */
  function EndpointFileName(path: string, verb: string): (r: string)
    ensures |r| == |path| + |verb| + 14
    ensures forall i :: 0 <= i < |path| ==> r[i] == (if path[i] == '/' then '_' else path[i])
    ensures r[|path|..] == "-" + verb + "-api-doc.json"
  {
    ReplaceSlashes(path) + "-" + verb + "-api-doc.json"
  }

  /** Different tags download to different files. */
  lemma TagFileNameInjective(a: string, b: string)
    requires TagFileName(a) == TagFileName(b)
    ensures a == b
  {
    assert |a| == |b|;
    assert a == TagFileName(a)[..|a|];
    assert b == TagFileName(b)[..|b|];
  }

  /** An endpoint file name holds no '/' (it names a file, not a directory)
      whenever the method name holds none. */
  lemma EndpointFileNameFlat(path: string, verb: string)
    requires '/' !in verb
    ensures '/' !in EndpointFileName(path, verb)
    ensures |EndpointFileName(path, verb)| == |path| + |verb| + 14
  {
    var r := EndpointFileName(path, verb);
    var tail := "-" + verb + "-api-doc.json";
    assert '/' !in tail;
    forall i | 0 <= i < |r|
      ensures r[i] != '/'
    {
      if i >= |path| {
        assert r[i] == r[|path|..][i - |path|];
        assert r[i] in tail;
      }
    }
  }

  /** For paths without '_', the endpoint file name determines the path. */
  lemma EndpointFileNameInjective(p: string, q: string, verb: string)
    requires '_' !in p && '_' !in q
    requires EndpointFileName(p, verb) == EndpointFileName(q, verb)
    ensures p == q
  {
    var rp, rq := ReplaceSlashes(p), ReplaceSlashes(q);
    assert |p| == |q|;
    assert rp == EndpointFileName(p, verb)[..|p|];
    assert rq == EndpointFileName(q, verb)[..|q|];
    forall i | 0 <= i < |p|
      ensures p[i] == q[i]
    {
      assert rp[i] == rq[i];
      assert p[i] != '_' && q[i] != '_' by {
        assert p[i] in p && q[i] in q;
      }
    }
  }

  /** Two distinct paths of one API, `/pets/{id}` and `/pets_{id}`, download
      their `get` operations to the same file name. */
  lemma EndpointFileNameCollision()
    ensures "/pets/{id}" != "/pets_{id}"
    ensures EndpointFileName("/pets/{id}", "get") == EndpointFileName("/pets_{id}", "get")
  {
    var a, b := ReplaceSlashes("/pets/{id}"), ReplaceSlashes("/pets_{id}");
    assert "/pets/{id}"[5] != "/pets_{id}"[5];
    assert a == "_pets_{id}" by {
      assert forall i :: 0 <= i < |a| ==> a[i] == "_pets_{id}"[i];
    }
    assert b == "_pets_{id}" by {
      assert forall i :: 0 <= i < |b| ==> b[i] == "_pets_{id}"[i];
    }
  }
}

/** The document a slicer returns. Both copies of the slicer start from the same
    object literal: the version marker, a shallow copy of `info`, the transport
    fields, the filtered `tags`, empty `paths` and `definitions`, and an empty
    `components.schemas` exactly when the source has `components`. */
module Slices {
  import opened JsonValues

  /** A sliced document. A field the source leaves `undefined` is None, which
      `JSON.stringify` drops; `paths` keeps the insertion order of the output object. */
  datatype Slice = Slice(
    swagger: Option<Json>,
    info: seq<(string, Json)>,
    host: Option<Json>,
    basePath: Option<Json>,
    schemes: Option<Json>,
    consumes: Option<Json>,
    produces: Option<Json>,
    tags: Option<seq<Json>>,
    paths: seq<(string, seq<(string, Json)>)>,
    definitions: map<string, Json>,
    components: Option<map<string, Json>>)

  /** `tag.name === tagName`. */
  predicate NamedTag(tag: Json, tagName: string)
  {
    Prop(Some(tag), "name") == Some(JStr(tagName))
  }

  /** `tags.filter(tag => tag.name === tagName)`. */
  function FilterTags(tags: seq<Json>, tagName: string): (r: seq<Json>)
    ensures |r| <= |tags|
    ensures forall t :: t in r <==> t in tags && NamedTag(t, tagName)
  {
    if tags == [] then []
    else
      var last := tags[|tags| - 1];
      FilterTags(tags[..|tags| - 1], tagName) + (if NamedTag(last, tagName) then [last] else [])
  }

  /** Filtering keeps the source order: it distributes over concatenation. */
  lemma {:induction false} FilterTagsAppend(a: seq<Json>, b: seq<Json>, tagName: string)
    ensures FilterTags(a + b, tagName) == FilterTags(a, tagName) + FilterTags(b, tagName)
    decreases |b|
  {
    if b != [] {
      var last := b[|b| - 1];
      assert (a + b)[..|a + b| - 1] == a + b[..|b| - 1];
      FilterTagsAppend(a, b[..|b| - 1], tagName);
    } else {
      assert a + b == a;
    }
  }

  /** `swaggerDoc.swagger || swaggerDoc.openapi`. */
  function Version(doc: Json): (r: Option<Json>)
    ensures Truthy(Prop(Some(doc), "swagger")) ==> r == Prop(Some(doc), "swagger")
    ensures !Truthy(Prop(Some(doc), "swagger")) ==> r == Prop(Some(doc), "openapi")
  {
    var swagger := Prop(Some(doc), "swagger");
    if Truthy(swagger) then swagger else Prop(Some(doc), "openapi")
  }

  /** The bindings `{ ...v }` gives for an array or string `v`: each element
      under its index key, in index order. */
  function IndexKeyed(vs: seq<Json>): (r: seq<(string, Json)>)
    ensures |r| == |vs|
  {
    seq(|vs|, i requires 0 <= i < |vs| => (Decimal(i), vs[i]))
  }

  /** The one-character strings of `s`, as spreading a string yields them. */
  function Characters(s: string): (r: seq<Json>)
    ensures |r| == |s|
  {
    seq(|s|, i requires 0 <= i < |s| => JStr([s[i]]))
  }

  /** In the spread of a sequence, index key `i` reads element `i`, and no
      other key is defined. */
  lemma IndexKeyedGet(vs: seq<Json>, k: string)
    ensures forall i :: 0 <= i < |vs| && k == Decimal(i) ==> Get(IndexKeyed(vs), k) == Some(vs[i])
    ensures Get(IndexKeyed(vs), k).Some? ==> exists i :: 0 <= i < |vs| && k == Decimal(i)
  {
    var r := IndexKeyed(vs);
    forall i | 0 <= i < |vs| && k == Decimal(i) ensures Get(r, k) == Some(vs[i]) {
      forall j | 0 <= j < i ensures r[j].0 != k {
        DecimalInjective(j, i);
      }
      GetBinding(r, k, i);
    }
    if Get(r, k).Some? {
      var i := Find(r, k);
      assert r[i].0 == Decimal(i);
    }
  }

  /** `{ ...swaggerDoc.info }`: the own enumerable properties of `info`. An
      object gives its bindings, an array its elements and a string its
      characters under their index keys; `undefined` and the other
      primitives give none. */
  function InfoCopy(doc: Json): (r: seq<(string, Json)>)
    ensures var info := Prop(Some(doc), "info");
      (info.Some? && info.value.JArr? ==> |r| == |info.value.elems|) &&
      (info.Some? && info.value.JStr? ==> |r| == |info.value.s|) &&
      (info.None? || !(info.value.JObj? || info.value.JArr? || info.value.JStr?) ==> r == [])
  {
    match Prop(Some(doc), "info")
    case Some(JObj(fs)) => fs
    case Some(JArr(es)) => IndexKeyed(es)
    case Some(JStr(s)) => IndexKeyed(Characters(s))
    case _ => []
  }

  /** The copy reads like the original: every key of an object `info` has
      the same value, and an array or string `info` reads its element or
      character `i` under the key `"i"` and nothing under any other key. */
  lemma InfoCopyReads(doc: Json, k: string)
    ensures var info := Prop(Some(doc), "info");
      info.Some? && info.value.JObj? ==> Get(InfoCopy(doc), k) == Prop(info, k)
    ensures var info := Prop(Some(doc), "info");
      info.Some? && info.value.JArr? ==>
        (forall i :: 0 <= i < |info.value.elems| && k == Decimal(i) ==> Get(InfoCopy(doc), k) == Some(info.value.elems[i])) &&
        (Get(InfoCopy(doc), k).Some? ==> exists i :: 0 <= i < |info.value.elems| && k == Decimal(i))
    ensures var info := Prop(Some(doc), "info");
      info.Some? && info.value.JStr? ==>
        (forall i :: 0 <= i < |info.value.s| && k == Decimal(i) ==> Get(InfoCopy(doc), k) == Some(JStr([info.value.s[i]]))) &&
        (Get(InfoCopy(doc), k).Some? ==> exists i :: 0 <= i < |info.value.s| && k == Decimal(i))
  {
    match Prop(Some(doc), "info")
    case Some(JArr(es)) => IndexKeyedGet(es, k);
    case Some(JStr(s)) => IndexKeyedGet(Characters(s), k);
    case _ =>
  }

  /** `swaggerDoc.tags?.filter(t => t.name === tagName)`. */
  function TagsFor(doc: Json, tagName: string): Option<seq<Json>>
  {
    match Prop(Some(doc), "tags")
    case Some(JArr(ts)) => Some(FilterTags(ts, tagName))
    case _ => None
  }

  /** The object literal both slicers start from. */
  function Header(doc: Json, tagName: string): (r: Slice)
    ensures r.swagger == Version(doc) && r.info == InfoCopy(doc)
    ensures r.host == Prop(Some(doc), "host") && r.basePath == Prop(Some(doc), "basePath")
    ensures r.schemes == Prop(Some(doc), "schemes") && r.consumes == Prop(Some(doc), "consumes")
    ensures r.produces == Prop(Some(doc), "produces")
    ensures r.tags.Some? <==> Prop(Some(doc), "tags").Some? && Prop(Some(doc), "tags").value.JArr?
    ensures r.tags.Some? ==> forall t :: t in r.tags.value <==> t in Prop(Some(doc), "tags").value.elems && NamedTag(t, tagName)
    ensures r.paths == [] && r.definitions == map[]
    ensures r.components == if Truthy(Prop(Some(doc), "components")) then Some(map[]) else None
  {
    Slice(
      swagger := Version(doc),
      info := InfoCopy(doc),
      host := Prop(Some(doc), "host"),
      basePath := Prop(Some(doc), "basePath"),
      schemes := Prop(Some(doc), "schemes"),
      consumes := Prop(Some(doc), "consumes"),
      produces := Prop(Some(doc), "produces"),
      tags := TagsFor(doc, tagName),
      paths := [],
      definitions := map[],
      components := if Truthy(Prop(Some(doc), "components")) then Some(map[]) else None)
  }
  // ---------------------------------------------------------------------------
  // The slice as the JSON document it is saved as
  // ---------------------------------------------------------------------------

  /** A binding `k: v` when the field is defined; `JSON.stringify` drops an
      `undefined` one. */
  function Field(k: string, o: Option<Json>): (r: seq<(string, Json)>)
    ensures |r| <= 1 && forall j :: 0 <= j < |r| ==> r[j].0 == k
  {
    if o.Some? then [(k, o.value)] else []
  }

  /** The bindings of a schema pool. The map keeps no insertion order, so
      this is some listing of its bindings, each once. */
  ghost function Bindings(m: map<string, Json>): (r: seq<(string, Json)>)
    ensures m == map[] ==> r == []
    ensures forall j :: 0 <= j < |r| ==> r[j].0 in m && m[r[j].0] == r[j].1
    decreases |m|
  {
    if m == map[] then []
    else
      var k :| k in m;
      [(k, m[k])] + Bindings(m - {k})
  }

  /** The `paths` object: each path under its key, with its copied methods. */
  function PathsJson(paths: seq<(string, seq<(string, Json)>)>): (r: seq<(string, Json)>)
    ensures |r| == |paths|
  {
    seq(|paths|, i requires 0 <= i < |paths| => (paths[i].0, JObj(paths[i].1)))
  }

  /** The bindings the object literal lists before `definitions`. */
  function Front(r: Slice): (fs: seq<(string, Json)>)
    ensures forall j :: 0 <= j < |fs| ==> fs[j].0 != "definitions" && fs[j].0 != "components"
  {
    Field("swagger", r.swagger) + [("info", JObj(r.info))] + Field("host", r.host)
      + Field("basePath", r.basePath) + Field("schemes", r.schemes)
      + Field("consumes", r.consumes) + Field("produces", r.produces)
      + Field("tags", if r.tags.Some? then Some(JArr(r.tags.value)) else None)
      + [("paths", JObj(PathsJson(r.paths)))]
  }

  /** The slice as the JSON document the viewer saves: the fields in the
      order of the object literal, the undefined ones dropped. */
  ghost function SliceJson(r: Slice): Json
  {
    JObj(Front(r) + [("definitions", JObj(Bindings(r.definitions)))]
         + if r.components.Some? then [("components", JObj([("schemas", JObj(Bindings(r.components.value)))]))] else [])
  }
}

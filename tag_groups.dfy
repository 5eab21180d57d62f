/** How the viewer page (components/swagger-viewer.tsx) organises a document:
    the tag list `SwaggerViewer` derives, and the endpoints `CustomSwaggerUI`
    lists under each tag, with the tags shown in sorted order. */
module TagGroups {
  import opened JsonValues
  import opened SchemaPools
  import opened Slices
  import opened SwaggerUtils
  import opened TagSlicer
  import opened ViewerHelpers

  // ---------------------------------------------------------------------------
  // String order of `Array.prototype.sort()`
  // ---------------------------------------------------------------------------

  /** `a` sorts strictly before `b`: lexicographic on characters, a proper
      prefix first. */
  predicate Below(a: string, b: string)
  {
    if a == [] then b != []
    else b != [] && (a[0] < b[0] || (a[0] == b[0] && Below(a[1..], b[1..])))
  }

  lemma {:induction false} BelowIrreflexive(a: string)
    ensures !Below(a, a)
  {
    if a != [] {
      BelowIrreflexive(a[1..]);
    }
  }

  lemma {:induction false} BelowTransitive(a: string, b: string, c: string)
    requires Below(a, b) && Below(b, c)
    ensures Below(a, c)
  {
    if a != [] && a[0] == b[0] && b[0] == c[0] {
      BelowTransitive(a[1..], b[1..], c[1..]);
    }
  }

  lemma {:induction false} BelowTotal(a: string, b: string)
    requires a != b
    ensures Below(a, b) || Below(b, a)
  {
    if a != [] && b != [] && a[0] == b[0] {
      assert a == [a[0]] + a[1..] && b == [b[0]] + b[1..];
      BelowTotal(a[1..], b[1..]);
    }
  }

  predicate StrictlySorted(s: seq<string>)
  {
    forall i, j :: 0 <= i < j < |s| ==> Below(s[i], s[j])
  }

  /** Inserts `x` before the first element it sorts below. */
  function Insert(x: string, s: seq<string>): (r: seq<string>)
    ensures Elems(r) == Elems(s) + {x} && |r| == |s| + 1
  {
    if s == [] then [x]
    else if Below(s[0], x) then
      var r := Insert(x, s[1..]);
      assert s == [s[0]] + s[1..];
      assert Elems([s[0]] + r) == {s[0]} + Elems(r);
      [s[0]] + r
    else [x] + s
  }

  /** `Array.from(set).sort()` for the distinct strings of a Set. */
  function SortTags(s: seq<string>): (r: seq<string>)
    ensures Elems(r) == Elems(s) && |r| == |s|
  {
    if s == [] then []
    else
      assert s == s[..|s| - 1] + [s[|s| - 1]];
      Insert(s[|s| - 1], SortTags(s[..|s| - 1]))
  }

  lemma {:induction false} InsertSorted(x: string, s: seq<string>)
    requires StrictlySorted(s) && x !in s
    ensures StrictlySorted(Insert(x, s))
  {
    if s != [] {
      if Below(s[0], x) {
        InsertSorted(x, s[1..]);
        var r := Insert(x, s[1..]);
        forall k | 0 <= k < |r|
          ensures Below(s[0], r[k])
        {
          assert r[k] in Elems(r);
          if r[k] != x {
            var j :| 0 <= j < |s[1..]| && s[1..][j] == r[k];
            assert s[j + 1] == r[k];
          }
        }
      } else {
        BelowTotal(x, s[0]);
        forall j | 0 < j < |s|
          ensures Below(x, s[j])
        {
          BelowTransitive(x, s[0], s[j]);
        }
      }
    }
  }

  /** Sorting a Set's strings yields them in strictly increasing order. */
  lemma {:induction false} SortTagsSorted(s: seq<string>)
    requires Distinct(s)
    ensures StrictlySorted(SortTags(s))
  {
    if s != [] {
      SortTagsSorted(s[..|s| - 1]);
      assert s[|s| - 1] !in Elems(s[..|s| - 1]);
      InsertSorted(s[|s| - 1], SortTags(s[..|s| - 1]));
    }
  }

  /** A set of strings has exactly one strictly sorted listing: the displayed
      order depends on which tags there are, never on the order they were met. */
  lemma {:induction false} SortedUnique(a: seq<string>, b: seq<string>)
    requires StrictlySorted(a) && StrictlySorted(b) && Elems(a) == Elems(b)
    ensures a == b
  {
    ElemsEmpty(a);
    ElemsEmpty(b);
    if a != [] && b != [] {
      if a[0] != b[0] {
        assert a[0] in Elems(b);
        var j :| 0 <= j < |b| && b[j] == a[0];
        assert b[0] in Elems(a);
        var i :| 0 <= i < |a| && a[i] == b[0];
        BelowTransitive(a[0], b[0], a[0]);
        BelowIrreflexive(a[0]);
      }
      assert a[0] !in a[1..] by {
        if a[0] in a[1..] {
          var k :| 0 <= k < |a[1..]| && a[1..][k] == a[0];
          assert a[k + 1] == a[0];
          BelowIrreflexive(a[0]);
        }
      }
      assert b[0] !in b[1..] by {
        if b[0] in b[1..] {
          var k :| 0 <= k < |b[1..]| && b[1..][k] == b[0];
          assert b[k + 1] == b[0];
          BelowIrreflexive(b[0]);
        }
      }
      assert a == [a[0]] + a[1..] && b == [b[0]] + b[1..];
      assert Elems(a[1..]) == Elems(a) - {a[0]};
      assert Elems(b[1..]) == Elems(b) - {b[0]};
      SortedUnique(a[1..], b[1..]);
    }
  }

  lemma ElemsEmpty(s: seq<string>)
    ensures Elems(s) == {} <==> s == []
  {
    if s != [] {
      assert s[0] in Elems(s);
    }
  }

  // ---------------------------------------------------------------------------
  // Tags of operations and of the document
  // ---------------------------------------------------------------------------

  /** The string elements of an array, in order. */
  function Strings(xs: seq<Json>): (r: seq<string>)
    ensures forall t :: t in r <==> JStr(t) in xs
  {
    if xs == [] then []
    else
      assert xs == xs[..|xs| - 1] + [xs[|xs| - 1]];
      Strings(xs[..|xs| - 1]) + (match xs[|xs| - 1] case JStr(t) => [t] case _ => [])
  }

  /** `tags.map(tag => tag.name)`, keeping the string names. */
  function TagNames(tags: seq<Json>): seq<string>
  {
    if tags == [] then []
    else
      var last := tags[|tags| - 1];
      TagNames(tags[..|tags| - 1]) + (match Prop(Some(last), "name") case Some(JStr(n)) => [n] case _ => [])
  }

  /** A name is listed exactly when some declared tag has it as its `name`. */
  lemma {:induction false} TagNamesSpec(tags: seq<Json>, n: string)
    ensures n in TagNames(tags) <==> exists t :: t in tags && NamedTag(t, n)
  {
    if tags != [] {
      var front, last := tags[..|tags| - 1], tags[|tags| - 1];
      var named := match Prop(Some(last), "name") case Some(JStr(m)) => [m] case _ => [];
      TagNamesSpec(front, n);
      assert tags == front + [last];
      assert TagNames(tags) == TagNames(front) + named;
      assert n in named <==> NamedTag(last, n);
      if NamedTag(last, n) {
        assert last in tags;
      }
      if exists t :: t in tags && NamedTag(t, n) {
        var t :| t in tags && NamedTag(t, n);
        if t != last {
          assert t in front;
        }
      }
    }
  }

  /** `operation.tags || ["default"]` (line 109), keeping the string tags:
      "default" alone when `tags` is falsy, otherwise exactly the string
      elements of `tags`. */
  function OperationTags(op: Json): (r: seq<string>)
    ensures !Truthy(Prop(Some(op), "tags")) ==> r == ["default"]
    ensures Truthy(Prop(Some(op), "tags")) ==> forall t :: t in r <==> JStr(t) in Elements(Prop(Some(op), "tags"))
  {
    var tags := Prop(Some(op), "tags");
    if Truthy(tags) then Strings(Elements(tags)) else ["default"]
  }

  // ---------------------------------------------------------------------------
  // The endpoints CustomSwaggerUI lists (lines 93-150)
  // ---------------------------------------------------------------------------

  /** The methods the page lists, in its order (line 104). */
  const ListedMethods: seq<string> := ["get", "post", "put", "delete", "patch", "options", "head"]

  /** An entry of `endpointsByTag`. */
  datatype Endpoint = Endpoint(path: string, verb: string, operation: Json)

  /** A present operation together with the tags it is listed under
      (`operationTags`, line 109). */
  datatype Entry = Entry(endpoint: Endpoint, tags: seq<string>)

  /** The present operations among the first `c` listed methods of a path item. */
  function ItemEntries(path: string, item: Json, c: nat): seq<Entry>
    requires c <= |ListedMethods|
  {
    if c == 0 then []
    else
      var op := Operation(item, ListedMethods[c - 1]);
      ItemEntries(path, item, c - 1)
      + (if Truthy(op) then [Entry(Endpoint(path, ListedMethods[c - 1], op.value), OperationTags(op.value))] else [])
  }

  /** Every present operation, in path order and then in `ListedMethods` order. */
  function PathEntries(ps: seq<(string, Json)>): seq<Entry>
  {
    if ps == [] then []
    else PathEntries(ps[..|ps| - 1]) + ItemEntries(ps[|ps| - 1].0, ps[|ps| - 1].1, |ListedMethods|)
  }

  /** `e` once for each occurrence of `tag` among the first `k` tags `ts`. */
  function Pushes(e: Endpoint, ts: seq<string>, k: nat, tag: string): seq<Endpoint>
    requires k <= |ts|
  {
    if k == 0 then [] else Pushes(e, ts, k - 1, tag) + (if ts[k - 1] == tag then [e] else [])
  }

  lemma {:induction false} PushesSpec(e: Endpoint, ts: seq<string>, k: nat, tag: string, x: Endpoint)
    requires k <= |ts|
    ensures x in Pushes(e, ts, k, tag) <==> x == e && tag in ts[..k]
  {
    if k > 0 {
      PushesSpec(e, ts, k - 1, tag, x);
      assert ts[..k] == ts[..k - 1] + [ts[k - 1]];
    }
  }

  /** The list shown under `tag`: the endpoints in listing order, each once per
      occurrence of `tag` among its tags. */
  function ListedUnder(xs: seq<Entry>, tag: string): seq<Endpoint>
  {
    if xs == [] then []
    else
      var x := xs[|xs| - 1];
      ListedUnder(xs[..|xs| - 1], tag) + Pushes(x.endpoint, x.tags, |x.tags|, tag)
  }

  /** The tags some entry of `xs` is listed under. */
  function EntryTags(xs: seq<Entry>): set<string>
  {
    set x, t | x in xs && t in x.tags :: t
  }

  /** `endpointsByTag[tag] || []`. */
  function ListedFor(byTag: map<string, seq<Endpoint>>, tag: string): seq<Endpoint>
  {
    if tag in byTag then byTag[tag] else []
  }

  lemma {:induction false} ListedUnderAppend(a: seq<Entry>, b: seq<Entry>, tag: string)
    ensures ListedUnder(a + b, tag) == ListedUnder(a, tag) + ListedUnder(b, tag)
    decreases |b|
  {
    if b == [] {
      assert a + b == a;
    } else {
      var front, x := b[..|b| - 1], b[|b| - 1];
      var pushed := Pushes(x.endpoint, x.tags, |x.tags|, tag);
      assert (a + b)[..|a + b| - 1] == a + front;
      assert (a + b)[|a + b| - 1] == x;
      ListedUnderAppend(a, front, tag);
      calc {
        ListedUnder(a + b, tag);
        ListedUnder(a + front, tag) + pushed;
        (ListedUnder(a, tag) + ListedUnder(front, tag)) + pushed;
        ListedUnder(a, tag) + (ListedUnder(front, tag) + pushed);
        ListedUnder(a, tag) + ListedUnder(b, tag);
      }
    }
  }

  /** An endpoint is listed under `tag` exactly when one of its entries carries `tag`. */
  lemma {:induction false} ListedUnderSpec(xs: seq<Entry>, tag: string, e: Endpoint)
    ensures e in ListedUnder(xs, tag) <==> exists x :: x in xs && x.endpoint == e && tag in x.tags
  {
    if xs != [] {
      var front, x := xs[..|xs| - 1], xs[|xs| - 1];
      ListedUnderSpec(front, tag, e);
      assert xs == front + [x];
      PushesSpec(x.endpoint, x.tags, |x.tags|, tag, e);
      assert x.tags[..|x.tags|] == x.tags;
    }
  }

  /** The entries are exactly the present operations of the paths, each with
      `operation.tags || ["default"]`. */
  lemma {:induction false} ItemEntriesSpec(path: string, item: Json, c: nat, x: Entry)
    requires c <= |ListedMethods|
    ensures x in ItemEntries(path, item, c) <==>
              x.endpoint.path == path && x.endpoint.verb in ListedMethods[..c]
              && Operation(item, x.endpoint.verb) == Some(x.endpoint.operation)
              && Truthy(Some(x.endpoint.operation)) && x.tags == OperationTags(x.endpoint.operation)
  {
    if c > 0 {
      ItemEntriesSpec(path, item, c - 1, x);
      assert ListedMethods[..c] == ListedMethods[..c - 1] + [ListedMethods[c - 1]];
    }
  }

  /** Some path binding `ps[i]` has `operation` under `verb`. */
  predicate PresentAt(ps: seq<(string, Json)>, i: int, e: Endpoint)
    requires 0 <= i < |ps|
  {
    ps[i].0 == e.path && Operation(ps[i].1, e.verb) == Some(e.operation)
  }

  /** Present somewhere in `ps` means present in its front or in its last binding. */
  lemma PresentSplit(ps: seq<(string, Json)>, front: seq<(string, Json)>, e: Endpoint)
    requires ps != [] && front == ps[..|ps| - 1]
    ensures (exists i :: 0 <= i < |ps| && PresentAt(ps, i, e)) <==>
              (exists i :: 0 <= i < |front| && PresentAt(front, i, e)) || PresentAt(ps, |ps| - 1, e)
  {
    if exists i :: 0 <= i < |ps| && PresentAt(ps, i, e) {
      var i :| 0 <= i < |ps| && PresentAt(ps, i, e);
      if i < |front| {
        assert PresentAt(front, i, e);
      }
    }
    if exists i :: 0 <= i < |front| && PresentAt(front, i, e) {
      var i :| 0 <= i < |front| && PresentAt(front, i, e);
      assert PresentAt(ps, i, e);
    }
  }

  lemma {:induction false} PathEntriesSpec(ps: seq<(string, Json)>, x: Entry)
    ensures x in PathEntries(ps) <==>
              x.endpoint.verb in ListedMethods && Truthy(Some(x.endpoint.operation))
              && x.tags == OperationTags(x.endpoint.operation)
              && exists i :: 0 <= i < |ps| && PresentAt(ps, i, x.endpoint)
  {
    if ps != [] {
      var front, last := ps[..|ps| - 1], ps[|ps| - 1];
      PathEntriesSpec(front, x);
      ItemEntriesSpec(last.0, last.1, |ListedMethods|, x);
      assert ListedMethods[..|ListedMethods|] == ListedMethods;
      PresentSplit(ps, front, x.endpoint);
    }
  }

  /** The page lists an endpoint under `tag` exactly when its operation is
      present under one of the listed methods of some path and `tag` is among
      `operation.tags || ["default"]`. */
  lemma ListedIff(ps: seq<(string, Json)>, tag: string, e: Endpoint)
    ensures e in ListedUnder(PathEntries(ps), tag) <==>
              e.verb in ListedMethods && Truthy(Some(e.operation)) && tag in OperationTags(e.operation)
              && exists i :: 0 <= i < |ps| && PresentAt(ps, i, e)
  {
    ListedUnderSpec(PathEntries(ps), tag, e);
    PathEntriesSpec(ps, Entry(e, OperationTags(e.operation)));
    if e in ListedUnder(PathEntries(ps), tag) {
      var x :| x in PathEntries(ps) && x.endpoint == e && tag in x.tags;
      PathEntriesSpec(ps, x);
    }
  }

  /** An operation without truthy `tags` is listed under "default" and under
      no other tag; one with `tags: []` is listed nowhere. */
  lemma UntaggedUnderDefault(ps: seq<(string, Json)>, tag: string, e: Endpoint)
    requires e.verb in ListedMethods && Truthy(Some(e.operation))
    requires exists i :: 0 <= i < |ps| && PresentAt(ps, i, e)
    ensures !Truthy(Prop(Some(e.operation), "tags")) ==> (e in ListedUnder(PathEntries(ps), tag) <==> tag == "default")
    ensures Prop(Some(e.operation), "tags") == Some(JArr([])) ==> e !in ListedUnder(PathEntries(ps), tag)
  {
    ListedIff(ps, tag, e);
  }

  /** `byTag`/`allTags` grew from `byTag0`/`allTags0` by listing the entries `xs`. */
  ghost predicate Grouped(byTag0: map<string, seq<Endpoint>>, allTags0: seq<string>,
                          byTag: map<string, seq<Endpoint>>, allTags: seq<string>, xs: seq<Entry>)
  {
    && (forall t :: ListedFor(byTag, t) == ListedFor(byTag0, t) + ListedUnder(xs, t))
    && byTag.Keys == byTag0.Keys + EntryTags(xs)
    && Distinct(allTags) && Elems(allTags) == Elems(allTags0) + EntryTags(xs)
  }

  lemma GroupedNone(byTag: map<string, seq<Endpoint>>, allTags: seq<string>)
    requires Distinct(allTags)
    ensures Grouped(byTag, allTags, byTag, allTags, [])
  {
  }

  lemma GroupedTrans(b0: map<string, seq<Endpoint>>, a0: seq<string>, b1: map<string, seq<Endpoint>>, a1: seq<string>,
                     b2: map<string, seq<Endpoint>>, a2: seq<string>, xs: seq<Entry>, ys: seq<Entry>)
    requires Grouped(b0, a0, b1, a1, xs) && Grouped(b1, a1, b2, a2, ys)
    ensures Grouped(b0, a0, b2, a2, xs + ys)
  {
    ListsTrans(b0, b1, b2, xs, ys);
    EntryTagsAppend(xs, ys);
    assert b2.Keys == b0.Keys + EntryTags(xs + ys);
    assert Elems(a2) == Elems(a0) + EntryTags(xs + ys);
  }

  /** The lists part of `GroupedTrans`. */
  lemma ListsTrans(b0: map<string, seq<Endpoint>>, b1: map<string, seq<Endpoint>>, b2: map<string, seq<Endpoint>>,
                   xs: seq<Entry>, ys: seq<Entry>)
    requires forall t :: ListedFor(b1, t) == ListedFor(b0, t) + ListedUnder(xs, t)
    requires forall t :: ListedFor(b2, t) == ListedFor(b1, t) + ListedUnder(ys, t)
    ensures forall t :: ListedFor(b2, t) == ListedFor(b0, t) + ListedUnder(xs + ys, t)
  {
    forall t
      ensures ListedFor(b2, t) == ListedFor(b0, t) + ListedUnder(xs + ys, t)
    {
      var l0, lx, ly := ListedFor(b0, t), ListedUnder(xs, t), ListedUnder(ys, t);
      assert ListedFor(b2, t) == (l0 + lx) + ly;
      ListedUnderAppend(xs, ys, t);
      AppendAssoc(l0, lx, ly);
    }
  }

  lemma EntryTagsAppend(xs: seq<Entry>, ys: seq<Entry>)
    ensures EntryTags(xs + ys) == EntryTags(xs) + EntryTags(ys)
  {
    forall t | t in EntryTags(xs + ys) ensures t in EntryTags(xs) + EntryTags(ys) {
      var x :| x in xs + ys && t in x.tags;
    }
  }

  /** The first `k` tags of `x` have been handled: `x.endpoint` is pushed once
      per occurrence, and the tags met have joined the keys and `allTags`. */
  ghost predicate PushedUpTo(b0: map<string, seq<Endpoint>>, a0: seq<string>,
                             b1: map<string, seq<Endpoint>>, a1: seq<string>, x: Entry, k: nat)
  {
    && k <= |x.tags|
    && (forall t :: ListedFor(b1, t) == ListedFor(b0, t) + Pushes(x.endpoint, x.tags, k, t))
    && b1.Keys == b0.Keys + Elems(x.tags[..k])
    && Distinct(a1) && Elems(a1) == Elems(a0) + Elems(x.tags[..k])
  }

  lemma PushedStep(b0: map<string, seq<Endpoint>>, a0: seq<string>,
                   b1: map<string, seq<Endpoint>>, a1: seq<string>, x: Entry, k: nat)
    requires PushedUpTo(b0, a0, b1, a1, x, k) && k < |x.tags|
    ensures PushedUpTo(b0, a0, b1[x.tags[k] := ListedFor(b1, x.tags[k]) + [x.endpoint]], Add(a1, x.tags[k]), x, k + 1)
  {
    var tag := x.tags[k];
    var b2 := b1[tag := ListedFor(b1, tag) + [x.endpoint]];
    var a2 := Add(a1, tag);
    PushStep(b0, b1, x.endpoint, x.tags, k);
    ElemsSnoc(x.tags, k);
    assert b2.Keys == b1.Keys + {tag};
    assert Elems(a2) == Elems(a1) + {tag};
    assert b2.Keys == b0.Keys + Elems(x.tags[..k + 1]);
    assert Elems(a2) == Elems(a0) + Elems(x.tags[..k + 1]);
  }

  lemma ElemsSnoc(ts: seq<string>, k: nat)
    requires k < |ts|
    ensures Elems(ts[..k + 1]) == Elems(ts[..k]) + {ts[k]}
  {
    assert ts[..k + 1] == ts[..k] + [ts[k]];
  }

  /** Appending `e` to the list of `ts[k]` extends the lists by that occurrence. */
  lemma PushStep(b0: map<string, seq<Endpoint>>, b1: map<string, seq<Endpoint>>, e: Endpoint, ts: seq<string>, k: nat)
    requires k < |ts|
    requires forall t :: ListedFor(b1, t) == ListedFor(b0, t) + Pushes(e, ts, k, t)
    ensures forall t :: ListedFor(b1[ts[k] := ListedFor(b1, ts[k]) + [e]], t) == ListedFor(b0, t) + Pushes(e, ts, k + 1, t)
  {
  }

  lemma PushedDone(b0: map<string, seq<Endpoint>>, a0: seq<string>,
                   b1: map<string, seq<Endpoint>>, a1: seq<string>, x: Entry)
    requires PushedUpTo(b0, a0, b1, a1, x, |x.tags|)
    ensures Grouped(b0, a0, b1, a1, [x])
  {
    assert x.tags[..|x.tags|] == x.tags;
    assert [x][..0] == [];
    assert EntryTags([x]) == Elems(x.tags);
    forall t
      ensures ListedUnder([x], t) == Pushes(x.endpoint, x.tags, |x.tags|, t)
    {
      assert ListedUnder([x], t) == [] + Pushes(x.endpoint, x.tags, |x.tags|, t);
    }
  }

  /** Lines 109-117 for one entry: each of its tags joins `allTags`, and the
      endpoint is appended to that tag's list, created empty when missing. */
  method ListEntry(x: Entry, byTag: map<string, seq<Endpoint>>, allTags: seq<string>)
    returns (byTag': map<string, seq<Endpoint>>, allTags': seq<string>)
    requires Distinct(allTags)
    ensures Grouped(byTag, allTags, byTag', allTags', [x])
  {
    byTag', allTags' := byTag, allTags;
    var k := 0;
    assert x.tags[..0] == [];
    while k < |x.tags|
      invariant PushedUpTo(byTag, allTags, byTag', allTags', x, k)
    {
      var tag := x.tags[k];
      PushedStep(byTag, allTags, byTag', allTags', x, k);
      allTags' := Add(allTags', tag);
      // a missing list starts empty, then the endpoint is pushed
      byTag' := byTag'[tag := ListedFor(byTag', tag) + [x.endpoint]];
      k := k + 1;
    }
    PushedDone(byTag, allTags, byTag', allTags', x);
  }

  /** Lines 104-119 for the method `ListedMethods[c]` of one path item. */
  method ListOperation(path: string, item: Json, c: nat,
                       ghost byTag0: map<string, seq<Endpoint>>, ghost allTags0: seq<string>,
                       byTag: map<string, seq<Endpoint>>, allTags: seq<string>)
    returns (byTag': map<string, seq<Endpoint>>, allTags': seq<string>)
    requires c < |ListedMethods|
    requires Grouped(byTag0, allTags0, byTag, allTags, ItemEntries(path, item, c))
    ensures Grouped(byTag0, allTags0, byTag', allTags', ItemEntries(path, item, c + 1))
  {
    var verb := ListedMethods[c];
    var op := Operation(item, verb);
    if Truthy(op) {
      var operation := op.value;
      var operationTags := OperationTags(operation);
      var x := Entry(Endpoint(path, verb, operation), operationTags);
      byTag', allTags' := ListEntry(x, byTag, allTags);
      GroupedTrans(byTag0, allTags0, byTag, allTags, byTag', allTags', ItemEntries(path, item, c), [x]);
    } else {
      byTag', allTags' := byTag, allTags;
      assert ItemEntries(path, item, c + 1) == ItemEntries(path, item, c);
    }
  }

  /** Lines 102-120 for one path item: its present operations in `ListedMethods` order. */
  method ListPathItem(path: string, item: Json, byTag: map<string, seq<Endpoint>>, allTags: seq<string>)
    returns (byTag': map<string, seq<Endpoint>>, allTags': seq<string>)
    requires Distinct(allTags)
    ensures Grouped(byTag, allTags, byTag', allTags', ItemEntries(path, item, |ListedMethods|))
  {
    byTag', allTags' := byTag, allTags;
    GroupedNone(byTag, allTags);
    var c := 0;
    while c < |ListedMethods|
      invariant 0 <= c <= |ListedMethods|
      invariant Grouped(byTag, allTags, byTag', allTags', ItemEntries(path, item, c))
    {
      byTag', allTags' := ListOperation(path, item, c, byTag, allTags, byTag', allTags');
      c := c + 1;
    }
  }

  /** Lines 101-121: lists every path's present operations, in path order. */
  method ListPaths(ps: seq<(string, Json)>, byTag: map<string, seq<Endpoint>>, allTags: seq<string>)
    returns (byTag': map<string, seq<Endpoint>>, allTags': seq<string>)
    requires Distinct(allTags)
    ensures Grouped(byTag, allTags, byTag', allTags', PathEntries(ps))
  {
    byTag', allTags' := byTag, allTags;
    GroupedNone(byTag, allTags);
    var i := 0;
    while i < |ps|
      invariant 0 <= i <= |ps|
      invariant Grouped(byTag, allTags, byTag', allTags', PathEntries(ps[..i]))
    {
      assert ps[..i + 1][..i] == ps[..i];
      var b, a := ListPathItem(ps[i].0, ps[i].1, byTag', allTags');
      GroupedTrans(byTag, allTags, byTag', allTags', b, a, PathEntries(ps[..i]), ItemEntries(ps[i].0, ps[i].1, |ListedMethods|));
      byTag', allTags' := b, a;
      i := i + 1;
    }
    assert ps[..i] == ps;
  }

  lemma TagNamesSnoc(tags: seq<Json>, k: nat)
    requires k < |tags|
    ensures TagNames(tags[..k + 1]) == TagNames(tags[..k]) + TagNames([tags[k]])
  {
    assert tags[..k + 1][..k] == tags[..k];
  }

  /** Lines 97-99: the names of the declared tags join `allTags`. */
  method AddDeclaredTags(doc: Json) returns (allTags: seq<string>)
    ensures allTags == Dedup(TagNames(DeclaredTags(doc)))
  {
    var tags := DeclaredTags(doc);
    allTags := [];
    var k := 0;
    while k < |tags|
      invariant 0 <= k <= |tags|
      invariant allTags == Dedup(TagNames(tags[..k]))
    {
      TagNamesSnoc(tags, k);
      var name := Prop(Some(tags[k]), "name");
      if name.Some? && name.value.JStr? {
        assert TagNames([tags[k]]) == [name.value.s];
        DedupSnoc(TagNames(tags[..k]), name.value.s);
        allTags := Add(allTags, name.value.s);
      } else {
        assert TagNames([tags[k]]) == [];
        assert TagNames(tags[..k]) + [] == TagNames(tags[..k]);
      }
      k := k + 1;
    }
    assert tags[..k] == tags;
  }

  /** One tag section of the page: the tag, its endpoints and its description. */
  datatype Section = Section(tag: string, endpoints: seq<Endpoint>, description: Json)

  /** The tags the page shows: the declared names and every operation tag. */
  ghost function ShownTags(doc: Json): set<string>
  {
    Elems(TagNames(DeclaredTags(doc))) + EntryTags(PathEntries(PathBindings(doc)))
  }

  /** `CustomSwaggerUI`: one section per tag, declared or used by an operation,
      in sorted order; each lists the endpoints under its tag and shows the
      tag's description. */
  method CustomSwaggerUI(doc: Json) returns (sections: seq<Section>)
    ensures forall i, j :: 0 <= i < j < |sections| ==> Below(sections[i].tag, sections[j].tag)
    ensures forall t :: t in ShownTags(doc) <==> exists k :: 0 <= k < |sections| && sections[k].tag == t
    ensures forall k :: 0 <= k < |sections| ==>
              sections[k].endpoints == ListedUnder(PathEntries(PathBindings(doc)), sections[k].tag)
              && sections[k].description == TagDescription(doc, sections[k].tag)
  {
    var declared := AddDeclaredTags(doc);
    var byTag, allTags := ListPaths(PathBindings(doc), map[], declared);
    var order := SortTags(allTags);
    SortTagsSorted(allTags);
    sections := Sections(doc, order, byTag);
    SectionTags(doc, order, byTag);
    assert Elems(order) == ShownTags(doc);
    var entries := PathEntries(PathBindings(doc));
    forall k | 0 <= k < |sections|
      ensures sections[k].endpoints == ListedUnder(entries, sections[k].tag)
    {
      var t := order[k];
      assert ListedFor(byTag, t) == ListedFor(map[], t) + ListedUnder(entries, t);
    }
  }

  /** The sections carry exactly the tags of `order`. */
  lemma SectionTags(doc: Json, order: seq<string>, byTag: map<string, seq<Endpoint>>)
    ensures var sections := Sections(doc, order, byTag);
      forall t :: t in Elems(order) <==> exists k :: 0 <= k < |sections| && sections[k].tag == t
  {
    var sections := Sections(doc, order, byTag);
    forall t | t in Elems(order)
      ensures exists k :: 0 <= k < |sections| && sections[k].tag == t
    {
      var k :| 0 <= k < |order| && order[k] == t;
      assert sections[k].tag == t;
    }
  }

  /** Lines 141-150: a section per tag of `order`. */
  function Sections(doc: Json, order: seq<string>, byTag: map<string, seq<Endpoint>>): (r: seq<Section>)
    ensures |r| == |order|
    ensures forall k :: 0 <= k < |order| ==> r[k] == Section(order[k], ListedFor(byTag, order[k]), TagDescription(doc, order[k]))
  {
    seq(|order|, k requires 0 <= k < |order| => Section(order[k], ListedFor(byTag, order[k]), TagDescription(doc, order[k])))
  }

  // ---------------------------------------------------------------------------
  // The tag list of SwaggerViewer (lines 33-53)
  // ---------------------------------------------------------------------------

  /** The string tags of an operation that is present and has truthy `tags`. */
  function OperationTagList(op: Option<Json>): (r: seq<string>)
    ensures forall t :: t in r <==> Truthy(op) && Truthy(Prop(op, "tags")) && JStr(t) in Elements(Prop(op, "tags"))
  {
    if Truthy(op) && Truthy(Prop(op, "tags")) then Strings(Elements(Prop(op, "tags"))) else []
  }

  /** The tags of the first `c` methods of a path item, in `Methods` order (lines 41-49). */
  function ItemTags(item: Json, c: nat): seq<string>
    requires c <= |Methods|
  {
    if c == 0 then [] else ItemTags(item, c - 1) + OperationTagList(Operation(item, Methods[c - 1]))
  }

  /** Every operation tag of the path items, in visiting order, repeats included. */
  function AllItemTags(items: seq<Json>): seq<string>
  {
    if items == [] then [] else AllItemTags(items[..|items| - 1]) + ItemTags(items[|items| - 1], |Methods|)
  }

  /** A tag is among a path item's tags exactly when one of its first `c`
      methods holds a present operation whose truthy `tags` contain it. */
  lemma ItemTagsSpec(item: Json, c: nat, t: string)
    requires c <= |Methods|
    ensures t in ItemTags(item, c) <==> exists m :: 0 <= m < c && t in OperationTagList(Operation(item, Methods[m]))
  {
    if t in ItemTags(item, c) {
      var m := ItemTagsFrom(item, c, t);
    }
    if exists m :: 0 <= m < c && t in OperationTagList(Operation(item, Methods[m])) {
      var m :| 0 <= m < c && t in OperationTagList(Operation(item, Methods[m]));
      ItemTagsCover(item, c, m, t);
    }
  }

  /** The method a tag of the first `c` methods comes from. */
  lemma {:induction false} ItemTagsFrom(item: Json, c: nat, t: string) returns (m: nat)
    requires c <= |Methods| && t in ItemTags(item, c)
    ensures m < c && t in OperationTagList(Operation(item, Methods[m]))
  {
    if t in OperationTagList(Operation(item, Methods[c - 1])) {
      m := c - 1;
    } else {
      m := ItemTagsFrom(item, c - 1, t);
    }
  }

  /** Each of the first `c` methods contributes all its tags. */
  lemma {:induction false} ItemTagsCover(item: Json, c: nat, m: nat, t: string)
    requires m < c <= |Methods| && t in OperationTagList(Operation(item, Methods[m]))
    ensures t in ItemTags(item, c)
  {
    if m < c - 1 {
      ItemTagsCover(item, c - 1, m, t);
    }
  }

  /** A tag is among the operation tags of `items` exactly when some item
      holds, under one of `Methods`, a present operation whose truthy `tags`
      contain it. */
  lemma AllItemTagsSpec(items: seq<Json>, t: string)
    ensures t in AllItemTags(items)
            <==> exists i, m :: 0 <= i < |items| && 0 <= m < |Methods|
                                && t in OperationTagList(Operation(items[i], Methods[m]))
  {
    if t in AllItemTags(items) {
      var i := AllItemTagsFrom(items, t);
      ItemTagsSpec(items[i], |Methods|, t);
    }
    if exists i, m :: 0 <= i < |items| && 0 <= m < |Methods|
                      && t in OperationTagList(Operation(items[i], Methods[m])) {
      var i, m :| 0 <= i < |items| && 0 <= m < |Methods|
                  && t in OperationTagList(Operation(items[i], Methods[m]));
      ItemTagsSpec(items[i], |Methods|, t);
      AllItemTagsCover(items, i, t);
    }
  }

  /** The item a tag of `items` comes from. */
  lemma {:induction false} AllItemTagsFrom(items: seq<Json>, t: string) returns (i: nat)
    requires t in AllItemTags(items)
    ensures i < |items| && t in ItemTags(items[i], |Methods|)
  {
    var init := items[..|items| - 1];
    if t in ItemTags(items[|items| - 1], |Methods|) {
      i := |items| - 1;
    } else {
      i := AllItemTagsFrom(init, t);
      assert init[i] == items[i];
    }
  }

  /** Each item contributes all its tags. */
  lemma {:induction false} AllItemTagsCover(items: seq<Json>, i: nat, t: string)
    requires i < |items| && t in ItemTags(items[i], |Methods|)
    ensures t in AllItemTags(items)
  {
    var init := items[..|items| - 1];
    if i < |items| - 1 {
      assert init[i] == items[i];
      AllItemTagsCover(init, i, t);
    }
  }

  lemma DedupSnoc(xs: seq<string>, x: string)
    ensures Dedup(xs + [x]) == Add(Dedup(xs), x)
  {
    assert (xs + [x])[..|xs|] == xs;
  }

  /** A `Set` filled from `xs` in order: the first occurrence of each string. */
  function Dedup(xs: seq<string>): (r: seq<string>)
    ensures Distinct(r) && Elems(r) == Elems(xs)
  {
    if xs == [] then []
    else
      assert xs == xs[..|xs| - 1] + [xs[|xs| - 1]];
      Add(Dedup(xs[..|xs| - 1]), xs[|xs| - 1])
  }

  /** Filling a Set from strings that are already distinct keeps them all, in order. */
  lemma {:induction false} DedupDistinct(xs: seq<string>)
    requires Distinct(xs)
    ensures Dedup(xs) == xs
  {
    if xs != [] {
      var init, x := xs[..|xs| - 1], xs[|xs| - 1];
      assert Distinct(init) && x !in init;
      DedupDistinct(init);
      assert Dedup(xs) == Add(init, x) == init + [x];
      assert init + [x] == xs;
    }
  }

  /** `Object.values(swaggerDoc.paths || {})`. */
  function PathItems(doc: Json): seq<Json>
  {
    var paths := Prop(Some(doc), "paths");
    if Truthy(paths) then Values(paths.value) else []
  }

  lemma DedupStep(seen: seq<string>, ts: seq<string>, k: nat)
    requires k < |ts|
    ensures Dedup(seen + ts[..k + 1]) == Add(Dedup(seen + ts[..k]), ts[k])
  {
    assert seen + ts[..k + 1] == (seen + ts[..k]) + [ts[k]];
    DedupSnoc(seen + ts[..k], ts[k]);
  }

  /** Adds the strings `ts` to the Set `tags`, which so far holds `seen`. */
  method AddTags(ts: seq<string>, ghost seen: seq<string>, tags: seq<string>) returns (tags': seq<string>)
    requires tags == Dedup(seen)
    ensures tags' == Dedup(seen + ts)
  {
    tags' := tags;
    var k := 0;
    ghost var done := seen;
    assert seen + ts[..0] == seen;
    while k < |ts|
      invariant 0 <= k <= |ts|
      invariant done == seen + ts[..k] && tags' == Dedup(done)
    {
      DedupStep(seen, ts, k);
      tags' := Add(tags', ts[k]);
      done := seen + ts[..k + 1];
      k := k + 1;
    }
    assert done == seen + ts by {
      assert ts[..k] == ts;
    }
  }

  /** Lines 42-50 for one path item. */
  method AddItemTags(item: Json, ghost seen: seq<string>, tags: seq<string>) returns (tags': seq<string>)
    requires tags == Dedup(seen)
    ensures tags' == Dedup(seen + ItemTags(item, |Methods|))
  {
    tags' := tags;
    var c := 0;
    assert seen + [] == seen;
    while c < |Methods|
      invariant 0 <= c <= |Methods|
      invariant tags' == Dedup(seen + ItemTags(item, c))
    {
      tags' := AddOperationTags(item, c, seen, tags');
      c := c + 1;
    }
  }

  /** Lines 45-49 for the method `Methods[c]` of one path item. */
  method AddOperationTags(item: Json, c: nat, ghost seen: seq<string>, tags: seq<string>) returns (tags': seq<string>)
    requires c < |Methods| && tags == Dedup(seen + ItemTags(item, c))
    ensures tags' == Dedup(seen + ItemTags(item, c + 1))
  {
    var op := Operation(item, Methods[c]);
    var opTags := OperationTagList(op);
    ghost var before := seen + ItemTags(item, c);
    ItemTagsStep(seen, item, c);
    if Truthy(op) && Truthy(Prop(op, "tags")) {
      tags' := AddTags(opTags, before, tags);
    } else {
      tags' := tags;
      assert before + opTags == before;
    }
  }

  lemma ItemTagsStep(seen: seq<string>, item: Json, c: nat)
    requires c < |Methods|
    ensures seen + ItemTags(item, c + 1) == (seen + ItemTags(item, c)) + OperationTagList(Operation(item, Methods[c]))
  {
    var front := ItemTags(item, c);
    var opTags := OperationTagList(Operation(item, Methods[c]));
    assert ItemTags(item, c + 1) == front + opTags;
    AppendAssoc(seen, front, opTags);
  }

  /** Proof helper: associativity of concatenation, proved once in an empty
      context so that the proofs above, whose contexts hold quantified list
      equations, need not rediscover it. */
  lemma AppendAssoc<T>(a: seq<T>, b: seq<T>, c: seq<T>)
    ensures a + (b + c) == (a + b) + c
  {
  }

  /** The tags `SwaggerViewer` shows: the names of the declared tags when
      `tags` is an array, otherwise the distinct operation tags in the order
      they are first met. */
  method ViewerTags(doc: Json) returns (tags: seq<string>)
    ensures Prop(Some(doc), "tags").Some? && Prop(Some(doc), "tags").value.JArr? ==>
              tags == TagNames(DeclaredTags(doc))
    ensures !(Prop(Some(doc), "tags").Some? && Prop(Some(doc), "tags").value.JArr?) ==>
              tags == Dedup(AllItemTags(PathItems(doc)))
  {
    var declared := Prop(Some(doc), "tags");
    if declared.Some? && declared.value.JArr? {
      tags := TagNames(DeclaredTags(doc));
    } else {
      var items := PathItems(doc);
      tags := [];
      var i := 0;
      while i < |items|
        invariant 0 <= i <= |items|
        invariant tags == Dedup(AllItemTags(items[..i]))
      {
        assert items[..i + 1][..i] == items[..i];
        tags := AddItemTags(items[i], AllItemTags(items[..i]), tags);
        i := i + 1;
      }
      assert items[..i] == items;
    }
  }

  /** Without declared tags, the list holds each operation tag exactly once. */
  lemma ViewerTagsDistinct(doc: Json, t: string)
    ensures t in Dedup(AllItemTags(PathItems(doc))) <==> t in AllItemTags(PathItems(doc))
    ensures Distinct(Dedup(AllItemTags(PathItems(doc))))
  {
    assert t in Elems(AllItemTags(PathItems(doc))) <==> t in AllItemTags(PathItems(doc));
  }
}

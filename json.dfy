/** A parsed JSON/YAML document as the slicer sees it, with the JavaScript
    property access, truthiness and `$ref` parsing the source relies on. */
module JsonValues {

  datatype Option<+T> = None | Some(value: T)

  /** A JSON value. Objects keep their bindings in the order the document
      lists them, which is the order the slicer visits them except for
      integer-like keys (JavaScript enumerates those first, in ascending
      order); numbers are modelled as integers. */
  datatype Json =
    | JNull
    | JBool(b: bool)
    | JNum(n: int)
    | JStr(s: string)
    | JArr(elems: seq<Json>)
    | JObj(fields: seq<(string, Json)>)

  /** Index of the first binding of `k` in `fs`, or -1 when there is none. */
  function Find(fs: seq<(string, Json)>, k: string): (i: int)
    ensures -1 <= i < |fs|
    ensures 0 <= i ==> fs[i].0 == k
  {
    FindFrom(fs, k, 0)
  }

  /** Index of the first binding of `k` at or after `from`, or -1. */
  function FindFrom(fs: seq<(string, Json)>, k: string, from: nat): (i: int)
    requires from <= |fs|
    ensures -1 <= i < |fs| && (0 <= i ==> from <= i && fs[i].0 == k)
    decreases |fs| - from
  {
    if from == |fs| then -1
    else if fs[from].0 == k then from
    else FindFrom(fs, k, from + 1)
  }

  /** `Find` returns the first binding of `k`, and -1 only when there is none. */
  lemma FindFirst(fs: seq<(string, Json)>, k: string, m: int)
    requires 0 <= m < |fs| && fs[m].0 == k
    ensures 0 <= Find(fs, k) <= m
    ensures forall j :: 0 <= j < Find(fs, k) ==> fs[j].0 != k
  {
    FindFromFirst(fs, k, 0, m);
  }

  lemma {:induction false} FindFromFirst(fs: seq<(string, Json)>, k: string, from: nat, m: int)
    requires from <= m < |fs| && fs[m].0 == k
    ensures from <= FindFrom(fs, k, from) <= m
    ensures forall j :: from <= j < FindFrom(fs, k, from) ==> fs[j].0 != k
    decreases |fs| - from
  {
    if fs[from].0 != k {
      FindFromFirst(fs, k, from + 1, m);
    }
  }

  /** `o[k]` where `o` is the object with bindings `fs`: None is `undefined`,
      otherwise the value of the first binding of `k`. */
  function Get(fs: seq<(string, Json)>, k: string): (r: Option<Json>)
    ensures r.Some? ==> 0 <= Find(fs, k) && r.value == fs[Find(fs, k)].1
  {
    var i := Find(fs, k);
    if i < 0 then None else Some(fs[i].1)
  }

  /** A key is defined exactly when the object has a binding for it, and then
      its value is that of the first such binding. */
  lemma GetBinding(fs: seq<(string, Json)>, k: string, m: int)
    requires 0 <= m < |fs| && fs[m].0 == k
    ensures Get(fs, k).Some?
    ensures (forall j :: 0 <= j < m ==> fs[j].0 != k) ==> Get(fs, k) == Some(fs[m].1)
  {
    FindFirst(fs, k, m);
  }

  /** `o?.k`: a property of an optional value. Only objects have the
      properties the slicer reads, so anything else yields `undefined`. */
  function Prop(o: Option<Json>, k: string): (r: Option<Json>)
    ensures r.Some? ==> o.Some? && o.value.JObj? && 0 <= Find(o.value.fields, k)
                        && r.value == o.value.fields[Find(o.value.fields, k)].1
  {
    match o
    case Some(JObj(fs)) => Get(fs, k)
    case _ => None
  }

  /** JavaScript truthiness of a possibly `undefined` value: every object
      and every array is truthy, even when empty. */
  predicate Truthy(o: Option<Json>)
  {
    match o
    case None => false
    case Some(JNull) => false
    case Some(JBool(b)) => b
    case Some(JNum(n)) => n != 0
    case Some(JStr(s)) => s != ""
    case Some(_) => true
  }

  /** `Object.values(v)` for the values the slicer iterates: the values of an
      object's bindings or the elements of an array. The one-character strings
      a string yields carry no properties the slicer reads, so they are left out. */
  function Values(v: Json): (vs: seq<Json>)
    ensures v.JObj? ==> |vs| == |v.fields| && forall m :: 0 <= m < |vs| ==> vs[m] == v.fields[m].1
    ensures v.JArr? ==> vs == v.elems
    ensures !v.JObj? && !v.JArr? ==> vs == []
  {
    match v
    case JObj(fs) => seq(|fs|, m requires 0 <= m < |fs| => fs[m].1)
    case JArr(xs) => xs
    case _ => []
  }

  /** The elements of `o` when `Array.isArray(o)`, otherwise none. */
  function Elements(o: Option<Json>): seq<Json>
  {
    if o.Some? && o.value.JArr? then o.value.elems else []
  }

  /** The character of decimal digit `d`. */
  function Digit(d: nat): (c: char)
    requires d < 10
    ensures '0' <= c <= '9' && c as int - '0' as int == d
  {
    ('0' as int + d) as char
  }

  /** The property key JavaScript gives index `n`: its decimal numeral, with
      no leading zero. */
  function Decimal(n: nat): (r: string)
    ensures |r| >= 1 && forall i :: 0 <= i < |r| ==> '0' <= r[i] <= '9'
    ensures r[0] == '0' ==> n == 0
  {
    if n < 10 then [Digit(n)] else Decimal(n / 10) + [Digit(n % 10)]
  }

  /** The number a string of decimal digits denotes. */
  function Numeral(s: string): nat
    requires forall i :: 0 <= i < |s| ==> '0' <= s[i] <= '9'
  {
    if s == [] then 0
    else Numeral(s[..|s| - 1]) * 10 + (s[|s| - 1] as int - '0' as int)
  }

  /** Reading the numeral of `n` gives `n` back. */
  lemma {:induction false} NumeralOfDecimal(n: nat)
    ensures Numeral(Decimal(n)) == n
  {
    if n >= 10 {
      NumeralOfDecimal(n / 10);
      assert Decimal(n)[..|Decimal(n)| - 1] == Decimal(n / 10);
    }
  }

  /** Distinct indices have distinct keys. */
  lemma DecimalInjective(m: nat, n: nat)
    ensures Decimal(m) == Decimal(n) ==> m == n
  {
    NumeralOfDecimal(m);
    NumeralOfDecimal(n);
  }

  /** The last element of `s.split("/")`: the longest suffix of `s` free of '/'. */
  function LastSegment(s: string): (r: string)
    ensures '/' !in r && |r| <= |s|
  {
    if s == [] || s[|s| - 1] == '/' then []
    else LastSegment(s[..|s| - 1]) + [s[|s| - 1]]
  }

  /** The segment is a suffix of `s`, preceded by '/' unless it is all of `s`. */
  lemma {:induction false} LastSegmentSuffix(s: string)
    ensures LastSegment(s) == s[|s| - |LastSegment(s)|..]
    ensures |LastSegment(s)| < |s| ==> s[|s| - |LastSegment(s)| - 1] == '/'
  {
    if s != [] && s[|s| - 1] != '/' {
      var front := s[..|s| - 1];
      LastSegmentSuffix(front);
      assert s[|s| - |LastSegment(s)|..] == front[|front| - |LastSegment(front)|..] + [s[|s| - 1]];
    }
  }

  /** A pointer `#/definitions/Name` or `#/components/schemas/Name` names `Name`. */
  lemma LastSegmentOfPointer(prefix: string, name: string)
    requires '/' !in name
    ensures LastSegment(prefix + "/" + name) == name
  {
    var s := prefix + "/" + name;
    var r := LastSegment(s);
    LastSegmentSuffix(s);
    assert s[|s| - |name| - 1] == '/';
    assert s[|s| - |name|..] == name;
  }

  /** The schema name a node points to: the last `/`-segment of its `$ref`
      when that is a truthy string. */
  function RefName(node: Option<Json>): (r: Option<string>)
    ensures r.Some? ==> Truthy(Prop(node, "$ref")) && Prop(node, "$ref").value.JStr?
                        && r.value == LastSegment(Prop(node, "$ref").value.s)
  {
    var ref := Prop(node, "$ref");
    if Truthy(ref) && ref.value.JStr? then Some(LastSegment(ref.value.s)) else None
  }

  /** A `$ref` to `#/definitions/<name>`. */
  function RefTo(name: string): Json
  {
    JObj([("$ref", JStr("#/definitions/" + name))])
  }

  lemma RefNameOfRefTo(name: string)
    requires '/' !in name
    ensures RefName(Some(RefTo(name))) == Some(name)
  {
    var pointer := "#/definitions/" + name;
    assert Find([("$ref", JStr(pointer))], "$ref") == 0;
    assert Prop(Some(RefTo(name)), "$ref") == Some(JStr(pointer));
    assert pointer == "#/definitions" + "/" + name;
    LastSegmentOfPointer("#/definitions", name);
  }
}

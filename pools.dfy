/** The schema pools a slice is cut from (`definitions` or `components.schemas`),
    the `usedSchemas` name set, and what it means for an extracted pool to be
    the closure of a set of seed names under a reference walker. */
module SchemaPools {
  import opened JsonValues

  /** The bindings of a source pool object, in document order. */
  type Pool = seq<(string, Json)>

  /** A JavaScript `Set<string>`: distinct names in insertion order. */
  predicate Distinct(s: seq<string>)
  {
    s == [] || (Distinct(s[..|s| - 1]) && s[|s| - 1] !in s[..|s| - 1])
  }

  function Elems(s: seq<string>): set<string>
  {
    set x | x in s
  }

  /** `set.add(x)`: appends `x` unless it is already there. */
  function Add(s: seq<string>, x: string): (r: seq<string>)
    ensures Elems(r) == Elems(s) + {x}
    ensures Distinct(s) ==> Distinct(r)
    ensures s <= r && (x in s <==> r == s)
  {
    if x in s then s
    else
      assert (s + [x])[..|s|] == s;
      s + [x]
  }

  /** Proof helper: names gathered in two steps are the names of both steps. */
  lemma Accumulate(e0: set<string>, e1: set<string>, e2: set<string>, x: set<string>, y: set<string>)
    requires e1 == e0 + x && e2 == e1 + y
    ensures e2 == e0 + (x + y)
  {
  }

  /** A set of distinct names drawn from `u` has at most `|u|` members. */
  lemma {:induction false} DistinctBound(s: seq<string>, u: set<string>)
    requires Distinct(s) && Elems(s) <= u
    ensures |s| <= |u|
  {
    if s != [] {
      var x := s[|s| - 1];
      var front := s[..|s| - 1];
      assert Elems(front) <= u - {x} by {
        forall y | y in Elems(front) ensures y in u - {x} {
          var k :| 0 <= k < |front| && front[k] == y;
          assert s[k] == y;
        }
      }
      DistinctBound(front, u - {x});
    }
  }

  lemma {:induction false} SubsetSize(a: set<string>, b: set<string>)
    requires a <= b
    ensures |a| <= |b|
  {
    if a != {} {
      var x :| x in a;
      SubsetSize(a - {x}, b - {x});
    }
  }

  /** Growing a set shrinks, strictly when by a member of `u`, what of `u` is missing from it. */
  lemma GapShrinks(u: set<string>, a: set<string>, b: set<string>, x: string)
    requires a <= b && x in u && x in b && x !in a
    ensures |u - b| < |u - a|
  {
    SubsetSize(u - b, (u - a) - {x});
  }

  lemma GapMonotone(u: set<string>, a: set<string>, b: set<string>)
    requires a <= b
    ensures |u - b| <= |u - a|
  {
    SubsetSize(u - b, u - a);
  }

  /** `source[name]`, for the source pool's bindings. */
  function Lookup(P: Pool, name: string): Option<Json>
  {
    Get(P, name)
  }

  /** `source[name]` is truthy: the guard every copy into a target checks. */
  predicate Has(P: Pool, name: string)
  {
    Truthy(Lookup(P, name))
  }

  /** The names a pool defines with a truthy schema. */
  function Names(P: Pool): (ns: set<string>)
    ensures forall n :: n in ns <==> Has(P, n)
  {
    var ns := set m | 0 <= m < |P| && Has(P, P[m].0) :: P[m].0;
    assert forall n :: Has(P, n) ==> n in ns by {
      forall n | Has(P, n) ensures n in ns {
        var m := Find(P, n);
        assert P[m].0 == n;
      }
    }
    ns
  }

  /** `target[name]` for an extracted pool. */
  function Entry(target: map<string, Json>, name: string): Option<Json>
  {
    if name in target then Some(target[name]) else None
  }

  /** Every entry of `target` is the source pool's entry of the same name. */
  ghost predicate SubPool(target: map<string, Json>, P: Pool)
  {
    forall n :: n in target ==> Has(P, n) && target[n] == Lookup(P, n).value
  }

  /** The names the walker `links` finds in the schema the pool defines as `n`. */
  function LinksOf(P: Pool, links: Json -> set<string>, n: string): set<string>
  {
    if Lookup(P, n).Some? then links(Lookup(P, n).value) else {}
  }

  /** Every pool name the schema `n` links to is in `T`. */
  ghost predicate Expanded(P: Pool, links: Json -> set<string>, n: string, T: set<string>)
  {
    forall r :: r in LinksOf(P, links, n) && Has(P, r) ==> r in T
  }

  /** `T` is closed under the walker: no member links to a pool name outside it. */
  ghost predicate Closed(P: Pool, links: Json -> set<string>, T: set<string>)
  {
    forall n {:trigger Expanded(P, links, n, T)} :: n in T ==> Expanded(P, links, n, T)
  }

  /** `T` holds every seed the pool defines. */
  ghost predicate SeedsIn(P: Pool, seeds: set<string>, T: set<string>)
  {
    forall n :: n in seeds && Has(P, n) ==> n in T
  }

  /** `target` is the least sub-pool of `P` that holds the seeds and is closed
      under `links`: it has every pool schema reachable from a seed, and nothing else. */
  ghost predicate LeastClosure(target: map<string, Json>, P: Pool, seeds: set<string>, links: Json -> set<string>)
  {
    && SubPool(target, P)
    && SeedsIn(P, seeds, target.Keys)
    && Closed(P, links, target.Keys)
    && forall T :: SeedsIn(P, seeds, T) && Closed(P, links, T) ==> target.Keys <= T
  }

  /** Every pool name in `names` is in `T`. */
  ghost predicate Reached(P: Pool, names: set<string>, T: set<string>)
  {
    forall r :: r in names && Has(P, r) ==> r in T
  }

  /** What was reached before a target grew stays reached, beside what the
      growth reached. */
  lemma ReachedStep(P: Pool, a: set<string>, b: set<string>, t1: set<string>, t2: set<string>)
    requires Reached(P, a, t1) && t1 <= t2 && Reached(P, b, t2)
    ensures Reached(P, a + b, t2)
  {
  }

  /** A schema is expanded once every pool name it links to is reached. */
  lemma ExpandedByReached(P: Pool, links: Json -> set<string>, n: string, schema: Json, T: set<string>)
    requires Lookup(P, n) == Some(schema) && Reached(P, links(schema), T)
    ensures Expanded(P, links, n, T)
  {
  }

  /** Every name added between `t0` and `t1` is expanded within `t1`. */
  ghost predicate NewExpanded(P: Pool, links: Json -> set<string>, t0: set<string>, t1: set<string>)
  {
    forall n {:trigger Expanded(P, links, n, t1)} :: n in t1 - t0 ==> Expanded(P, links, n, t1)
  }

  /** Whatever closed set holds `t0` holds `t1`: nothing in `t1` is forced in
      by anything but `t0` and the walker. */
  ghost predicate Bounded(P: Pool, links: Json -> set<string>, t0: set<string>, t1: set<string>)
  {
    forall T :: t0 <= T && Closed(P, links, T) ==> t1 <= T
  }

  /** Whatever closed set holds `t0` and reaches `extra` holds `t1`. */
  ghost predicate BoundedWith(P: Pool, links: Json -> set<string>, t0: set<string>, extra: set<string>, t1: set<string>)
  {
    forall T :: t0 <= T && Closed(P, links, T) && Reached(P, extra, T) ==> t1 <= T
  }

  /** Following a link of a schema already in `t0` adds nothing a closed set
      holding `t0` lacks. */
  lemma BoundedFollow(P: Pool, links: Json -> set<string>, owner: string, schema: Json, names: set<string>,
                      t0: set<string>, t1: set<string>, t2: set<string>)
    requires owner in t0 && Lookup(P, owner) == Some(schema) && names <= links(schema)
    requires Bounded(P, links, t0, t1) && BoundedWith(P, links, t1, names, t2)
    ensures Bounded(P, links, t0, t2)
  {
    forall T | t0 <= T && Closed(P, links, T)
      ensures t2 <= T
    {
      assert t1 <= T;
      assert Expanded(P, links, owner, T);
    }
  }

  /** What a walk keeps true of `usedSchemas` and the target pool: both only
      grow, the target stays a sub-pool of the source, and the names added to
      `usedSchemas` are exactly the names copied into the target. */
  ghost predicate Grows(P: Pool, used: seq<string>, target: map<string, Json>,
                        used': seq<string>, target': map<string, Json>)
  {
    && Distinct(used') && used <= used'
    && SubPool(target', P) && target.Keys <= target'.Keys
    && Elems(used') == Elems(used) + (target'.Keys - target.Keys)
  }

  lemma GrowsRefl(P: Pool, used: seq<string>, target: map<string, Json>)
    requires Distinct(used) && SubPool(target, P)
    ensures Grows(P, used, target, used, target)
  {
  }

  lemma GrowsTrans(P: Pool, u0: seq<string>, t0: map<string, Json>, u1: seq<string>, t1: map<string, Json>,
                   u2: seq<string>, t2: map<string, Json>)
    requires Grows(P, u0, t0, u1, t1) && Grows(P, u1, t1, u2, t2)
    ensures Grows(P, u0, t0, u2, t2)
  {
    assert t2.Keys - t0.Keys == (t1.Keys - t0.Keys) + (t2.Keys - t1.Keys);
  }

  /** Recording `name` in `usedSchemas` and copying its schema. */
  lemma CopyGrows(P: Pool, used: seq<string>, target: map<string, Json>, name: string)
    requires Distinct(used) && SubPool(target, P) && Has(P, name) && name !in target
    ensures Grows(P, used, target, Add(used, name), target[name := Lookup(P, name).value])
  {
    var v := Lookup(P, name).value;
    var t' := target[name := v];
    assert t'.Keys == target.Keys + {name};
    assert t'.Keys - target.Keys == {name};
    assert SubPool(t', P) by {
      forall n | n in t' ensures Has(P, n) && t'[n] == Lookup(P, n).value {
        if n != name { assert n in target; }
      }
    }
    var u := Add(used, name);
    assert Elems(u) == Elems(used) + {name};
  }

  lemma ExpandedGrows(P: Pool, links: Json -> set<string>, n: string, t1: set<string>, t2: set<string>)
    requires Expanded(P, links, n, t1) && t1 <= t2
    ensures Expanded(P, links, n, t2)
  {
  }

  /** The facts a walk keeps about the target it started from survive one
      more followed name found in the schema of `owner`. */
  lemma GrowsFollow(P: Pool, links: Json -> set<string>, owner: string, schema: Json, names: set<string>,
                    u0: seq<string>, t0: map<string, Json>, u1: seq<string>, t1: map<string, Json>,
                    u2: seq<string>, t2: map<string, Json>)
    requires Grows(P, u0, t0, u1, t1) && Grows(P, u1, t1, u2, t2)
    requires owner in t0 && Lookup(P, owner) == Some(schema) && names <= links(schema)
    requires NewExpanded(P, links, t0.Keys, t1.Keys) && NewExpanded(P, links, t1.Keys, t2.Keys)
    requires Bounded(P, links, t0.Keys, t1.Keys) && BoundedWith(P, links, t1.Keys, names, t2.Keys)
    ensures Grows(P, u0, t0, u2, t2)
    ensures NewExpanded(P, links, t0.Keys, t2.Keys)
    ensures Bounded(P, links, t0.Keys, t2.Keys)
  {
    GrowsTrans(P, u0, t0, u1, t1, u2, t2);
    NewExpandedTrans(P, links, t0.Keys, t1.Keys, t2.Keys);
    BoundedFollow(P, links, owner, schema, names, t0.Keys, t1.Keys, t2.Keys);
  }

  /** Two stretches of a walk, one after the other, are one stretch. */
  lemma GrowsChain(P: Pool, links: Json -> set<string>,
                   u0: seq<string>, t0: map<string, Json>, u1: seq<string>, t1: map<string, Json>,
                   u2: seq<string>, t2: map<string, Json>)
    requires Grows(P, u0, t0, u1, t1) && Grows(P, u1, t1, u2, t2)
    requires NewExpanded(P, links, t0.Keys, t1.Keys) && NewExpanded(P, links, t1.Keys, t2.Keys)
    requires Bounded(P, links, t0.Keys, t1.Keys) && Bounded(P, links, t1.Keys, t2.Keys)
    ensures Grows(P, u0, t0, u2, t2)
    ensures NewExpanded(P, links, t0.Keys, t2.Keys)
    ensures Bounded(P, links, t0.Keys, t2.Keys)
  {
    GrowsTrans(P, u0, t0, u1, t1, u2, t2);
    NewExpandedTrans(P, links, t0.Keys, t1.Keys, t2.Keys);
  }

  lemma NewExpandedTrans(P: Pool, links: Json -> set<string>, t0: set<string>, t1: set<string>, t2: set<string>)
    requires t0 <= t1 <= t2
    requires NewExpanded(P, links, t0, t1) && NewExpanded(P, links, t1, t2)
    ensures NewExpanded(P, links, t0, t2)
  {
    forall n | n in t2 - t0 ensures Expanded(P, links, n, t2) {
      if n in t1 {
        ExpandedGrows(P, links, n, t1, t2);
      }
    }
  }

  /** What holds at the head of the `usedSchemas.forEach` loop that copies
      the seeds and walks them: the first `i` names of `used` have been
      visited, the target is closed and holds nothing the least closure of
      the seeds lacks, and `used` holds the seeds and the copied names. */
  ghost predicate Walking(P: Pool, links: Json -> set<string>, seeds: seq<string>, i: nat,
                          used: seq<string>, target: map<string, Json>)
  {
    && i <= |used| && Distinct(used) && seeds <= used && SubPool(target, P)
    && Elems(used) == Elems(seeds) + target.Keys
    && Closed(P, links, target.Keys)
    && (forall j :: 0 <= j < i && Has(P, used[j]) ==> used[j] in target)
    && (forall T :: SeedsIn(P, Elems(seeds), T) && Closed(P, links, T) ==> target.Keys <= T)
  }

  lemma WalkingStart(P: Pool, links: Json -> set<string>, seeds: seq<string>)
    requires Distinct(seeds)
    ensures Walking(P, links, seeds, 0, seeds, map[])
  {
  }

  /** A name the source pool lacks is passed over. */
  lemma WalkingSkip(P: Pool, links: Json -> set<string>, seeds: seq<string>, i: nat,
                    used: seq<string>, target: map<string, Json>)
    requires Walking(P, links, seeds, i, used, target) && i < |used| && !Has(P, used[i])
    ensures Walking(P, links, seeds, i + 1, used, target)
  {
  }

  /** Copying the `i`-th name and walking its schema keeps the loop's facts. */
  lemma WalkingStep(P: Pool, links: Json -> set<string>, seeds: seq<string>, i: nat,
                    used: seq<string>, target: map<string, Json>, used': seq<string>, target': map<string, Json>)
    requires Walking(P, links, seeds, i, used, target) && i < |used| && Has(P, used[i])
    requires Grows(P, used, target[used[i] := Lookup(P, used[i]).value], used', target')
    requires Expanded(P, links, used[i], target'.Keys)
    requires NewExpanded(P, links, target.Keys + {used[i]}, target'.Keys)
    requires Bounded(P, links, target.Keys + {used[i]}, target'.Keys)
    ensures Walking(P, links, seeds, i + 1, used', target')
  {
    var name := used[i];
    assert target[name := Lookup(P, name).value].Keys == target.Keys + {name};
    assert name in Elems(used);
    StepElems(Elems(seeds), target.Keys, Elems(used), name, target'.Keys, Elems(used'));
    StepClosed(P, links, target.Keys, name, target'.Keys);
    forall j | 0 <= j < i + 1 && Has(P, used'[j]) ensures used'[j] in target' {
      assert used'[j] == used[j];
    }
    StepBounded(P, links, seeds, target.Keys, name, target'.Keys);
  }

  lemma StepElems(seeds: set<string>, t0: set<string>, u0: set<string>, name: string, t1: set<string>, u1: set<string>)
    requires u0 == seeds + t0 && name in u0 && t0 + {name} <= t1
    requires u1 == u0 + (t1 - (t0 + {name}))
    ensures u1 == seeds + t1
  {
  }

  lemma StepClosed(P: Pool, links: Json -> set<string>, t0: set<string>, name: string, t1: set<string>)
    requires Closed(P, links, t0) && t0 + {name} <= t1
    requires Expanded(P, links, name, t1) && NewExpanded(P, links, t0 + {name}, t1)
    ensures Closed(P, links, t1)
  {
    forall n | n in t1 ensures Expanded(P, links, n, t1) {
      if n in t0 {
        ExpandedGrows(P, links, n, t0, t1);
      }
    }
  }

  lemma StepBounded(P: Pool, links: Json -> set<string>, seeds: seq<string>, t0: set<string>, name: string, t1: set<string>)
    requires name in Elems(seeds) + t0 && (name in Elems(seeds) ==> Has(P, name))
    requires forall T :: SeedsIn(P, Elems(seeds), T) && Closed(P, links, T) ==> t0 <= T
    requires Bounded(P, links, t0 + {name}, t1)
    ensures forall T :: SeedsIn(P, Elems(seeds), T) && Closed(P, links, T) ==> t1 <= T
  {
    forall T | SeedsIn(P, Elems(seeds), T) && Closed(P, links, T) ensures t1 <= T {
      assert t0 <= T;
    }
  }

  /** Once every name of `used` has been visited, the target is the least closure. */
  lemma WalkingDone(P: Pool, links: Json -> set<string>, seeds: seq<string>,
                    used: seq<string>, target: map<string, Json>)
    requires Walking(P, links, seeds, |used|, used, target)
    ensures LeastClosure(target, P, Elems(seeds), links)
  {
    forall n | n in Elems(seeds) && Has(P, n) ensures n in target.Keys {
      var k :| 0 <= k < |seeds| && seeds[k] == n;
      assert used[k] == n;
    }
  }

  /** `used` never outgrows the seeds and the names the pool defines. */
  lemma WalkingBound(P: Pool, links: Json -> set<string>, seeds: seq<string>, i: nat,
                     used: seq<string>, target: map<string, Json>)
    requires Walking(P, links, seeds, i, used, target)
    ensures |used| <= |Elems(seeds) + Names(P)|
  {
    DistinctBound(used, Elems(seeds) + Names(P));
  }

  // ---------------------------------------------------------------------------
  // A walk guarded by `usedSchemas` instead of by the target
  // ---------------------------------------------------------------------------

  /** How a walk guarded by `usedSchemas` changes the state: the set grows by
      names some pool schema links to, every copy is of a name in the set, and
      every new name of the set that the pool defines is copied. */
  ghost predicate MarksGrow(P: Pool, links: Json -> set<string>, used: seq<string>, target: map<string, Json>,
                            used': seq<string>, target': map<string, Json>)
  {
    && Distinct(used') && used <= used'
    && SubPool(target', P) && target.Keys <= target'.Keys
    && target'.Keys - target.Keys <= Elems(used')
    && Elems(used') <= Elems(used) + LinkUniverse(P, links)
    && (forall n :: n in Elems(used') - Elems(used) && Has(P, n) ==> n in target'.Keys)
  }

  lemma MarksGrowRefl(P: Pool, links: Json -> set<string>, used: seq<string>, target: map<string, Json>)
    requires Distinct(used) && SubPool(target, P)
    ensures MarksGrow(P, links, used, target, used, target)
  {
  }

  lemma MarksGrowTrans(P: Pool, links: Json -> set<string>, u0: seq<string>, t0: map<string, Json>,
                       u1: seq<string>, t1: map<string, Json>, u2: seq<string>, t2: map<string, Json>)
    requires MarksGrow(P, links, u0, t0, u1, t1) && MarksGrow(P, links, u1, t1, u2, t2)
    ensures MarksGrow(P, links, u0, t0, u2, t2)
  {
    assert Elems(u1) <= Elems(u2);
    forall n | n in Elems(u2) - Elems(u0) && Has(P, n) ensures n in t2.Keys {
      if n in Elems(u1) {
        assert n in t1.Keys;
      }
    }
  }

  /** Every name the schema of `n` links to is in `U`. */
  ghost predicate Covered(P: Pool, links: Json -> set<string>, n: string, U: set<string>)
  {
    LinksOf(P, links, n) <= U
  }

  /** Every name copied from `t0` to `t1` is covered by `U`. */
  ghost predicate NewCovered(P: Pool, links: Json -> set<string>, t0: set<string>, t1: set<string>, U: set<string>)
  {
    forall n {:trigger Covered(P, links, n, U)} :: n in t1 - t0 ==> Covered(P, links, n, U)
  }

  lemma NewCoveredTrans(P: Pool, links: Json -> set<string>, t0: set<string>, t1: set<string>, t2: set<string>,
                        u1: set<string>, u2: set<string>)
    requires t0 <= t1 <= t2 && u1 <= u2
    requires NewCovered(P, links, t0, t1, u1) && NewCovered(P, links, t1, t2, u2)
    ensures NewCovered(P, links, t0, t2, u2)
  {
    forall n | n in t2 - t0 ensures Covered(P, links, n, u2) {
      if n in t1 {
        assert Covered(P, links, n, u1);
      }
    }
  }

  /** Recording a fresh link name in `usedSchemas`, then copying and walking it
      when the pool defines it. */
  lemma MarkThenWalk(P: Pool, links: Json -> set<string>, used: seq<string>, target: map<string, Json>, name: string,
                     used': seq<string>, target': map<string, Json>)
    requires Distinct(used) && name !in used && name in LinkUniverse(P, links)
    requires MarksGrow(P, links, Add(used, name), target, used', target')
    requires Has(P, name) ==> name in target'
    ensures MarksGrow(P, links, used, target, used', target')
  {
    assert Elems(Add(used, name)) == Elems(used) + {name};
  }

  /** Copying a name already in `usedSchemas` and walking its schema. */
  lemma CopyWalked(P: Pool, links: Json -> set<string>, used: seq<string>, target: map<string, Json>, name: string,
                   used': seq<string>, target': map<string, Json>)
    requires SubPool(target, P) && Has(P, name) && name in used
    requires MarksGrow(P, links, used, target[name := Lookup(P, name).value], used', target')
    requires Covered(P, links, name, Elems(used'))
    requires NewCovered(P, links, target.Keys + {name}, target'.Keys, Elems(used'))
    requires Bounded(P, links, target.Keys + {name}, target'.Keys)
    ensures MarksGrow(P, links, used, target, used', target')
    ensures NewCovered(P, links, target.Keys, target'.Keys, Elems(used'))
    ensures BoundedWith(P, links, target.Keys, {name}, target'.Keys)
  {
    assert target[name := Lookup(P, name).value].Keys == target.Keys + {name};
    assert name in Elems(used);
    forall n | n in target'.Keys - target.Keys ensures Covered(P, links, n, Elems(used')) {
      if n != name {
        assert n in target'.Keys - (target.Keys + {name});
      }
    }
    forall T | target.Keys <= T && Closed(P, links, T) && Reached(P, {name}, T) ensures target'.Keys <= T {
      assert target.Keys + {name} <= T;
    }
  }

  /** What holds at the head of the viewer's `usedSchemas.forEach` loop: the
      first `i` names have been visited, every copied schema has all its links
      in the set, every name of the set the pool defines is a seed or copied,
      and the target holds nothing the least closure of the seeds lacks. */
  ghost predicate Marking(P: Pool, links: Json -> set<string>, seeds: seq<string>, i: nat,
                          used: seq<string>, target: map<string, Json>)
  {
    && i <= |used| && Distinct(used) && seeds <= used && SubPool(target, P)
    && target.Keys <= Elems(used)
    && Elems(used) <= Elems(seeds) + LinkUniverse(P, links)
    && (forall n {:trigger Covered(P, links, n, Elems(used))} :: n in target.Keys ==> Covered(P, links, n, Elems(used)))
    && (forall n :: n in Elems(used) && Has(P, n) ==> n in Elems(seeds) || n in target.Keys)
    && (forall j :: 0 <= j < i && Has(P, used[j]) ==> used[j] in target)
    && (forall T :: SeedsIn(P, Elems(seeds), T) && Closed(P, links, T) ==> target.Keys <= T)
  }

  lemma MarkingStart(P: Pool, links: Json -> set<string>, seeds: seq<string>)
    requires Distinct(seeds)
    ensures Marking(P, links, seeds, 0, seeds, map[])
  {
  }

  lemma MarkingSkip(P: Pool, links: Json -> set<string>, seeds: seq<string>, i: nat,
                    used: seq<string>, target: map<string, Json>)
    requires Marking(P, links, seeds, i, used, target) && i < |used| && !Has(P, used[i])
    ensures Marking(P, links, seeds, i + 1, used, target)
  {
  }

  /** Copying the `i`-th name and walking its schema keeps the loop's facts. */
  lemma MarkingStep(P: Pool, links: Json -> set<string>, seeds: seq<string>, i: nat,
                    used: seq<string>, target: map<string, Json>, used': seq<string>, target': map<string, Json>)
    requires Marking(P, links, seeds, i, used, target) && i < |used| && Has(P, used[i])
    requires MarksGrow(P, links, used, target[used[i] := Lookup(P, used[i]).value], used', target')
    requires Covered(P, links, used[i], Elems(used'))
    requires NewCovered(P, links, target.Keys + {used[i]}, target'.Keys, Elems(used'))
    requires Bounded(P, links, target.Keys + {used[i]}, target'.Keys)
    ensures Marking(P, links, seeds, i + 1, used', target')
  {
    var name := used[i];
    assert target[name := Lookup(P, name).value].Keys == target.Keys + {name};
    assert name in Elems(used);
    MarkingStepCovered(P, links, target.Keys, name, target'.Keys, Elems(used), Elems(used'));
    MarkingStepCopied(P, seeds, target.Keys, name, Elems(used), target'.Keys, Elems(used'));
    forall j | 0 <= j < i + 1 && Has(P, used'[j]) ensures used'[j] in target' {
      assert used'[j] == used[j];
    }
    StepBounded(P, links, seeds, target.Keys, name, target'.Keys);
  }

  lemma MarkingStepCovered(P: Pool, links: Json -> set<string>, t0: set<string>, name: string, t1: set<string>,
                           u0: set<string>, u1: set<string>)
    requires u0 <= u1 && t0 + {name} <= t1
    requires forall n {:trigger Covered(P, links, n, u0)} :: n in t0 ==> Covered(P, links, n, u0)
    requires Covered(P, links, name, u1) && NewCovered(P, links, t0 + {name}, t1, u1)
    ensures forall n {:trigger Covered(P, links, n, u1)} :: n in t1 ==> Covered(P, links, n, u1)
  {
    forall n | n in t1 ensures Covered(P, links, n, u1) {
      if n in t0 {
        assert Covered(P, links, n, u0);
      }
    }
  }

  lemma MarkingStepCopied(P: Pool, seeds: seq<string>, t0: set<string>, name: string, u0: set<string>,
                          t1: set<string>, u1: set<string>)
    requires u0 <= u1 && t0 + {name} <= t1
    requires forall n :: n in u0 && Has(P, n) ==> n in Elems(seeds) || n in t0
    requires forall n :: n in u1 - u0 && Has(P, n) ==> n in t1
    ensures forall n :: n in u1 && Has(P, n) ==> n in Elems(seeds) || n in t1
  {
  }

  /** Once every name of `used` has been visited, the target is the least closure. */
  lemma MarkingDone(P: Pool, links: Json -> set<string>, seeds: seq<string>,
                    used: seq<string>, target: map<string, Json>)
    requires Marking(P, links, seeds, |used|, used, target)
    ensures LeastClosure(target, P, Elems(seeds), links)
  {
    forall n | n in Elems(seeds) && Has(P, n) ensures n in target.Keys {
      var k :| 0 <= k < |seeds| && seeds[k] == n;
      assert used[k] == n;
    }
    forall n | n in target.Keys ensures Expanded(P, links, n, target.Keys) {
      assert Covered(P, links, n, Elems(used));
      forall r | r in LinksOf(P, links, n) && Has(P, r) ensures r in target.Keys {
        var k :| 0 <= k < |used| && used[k] == r;
      }
    }
  }

  lemma MarkingBound(P: Pool, links: Json -> set<string>, seeds: seq<string>, i: nat,
                     used: seq<string>, target: map<string, Json>)
    requires Marking(P, links, seeds, i, used, target)
    ensures |used| <= |Elems(seeds) + LinkUniverse(P, links)|
  {
    DistinctBound(used, Elems(seeds) + LinkUniverse(P, links));
  }

  /** With no seeds the closure is empty. */
  lemma LeastClosureOfNothing(target: map<string, Json>, P: Pool, links: Json -> set<string>)
    requires LeastClosure(target, P, {}, links)
    ensures target == map[]
  {
    assert SeedsIn(P, {}, {}) && Closed(P, links, {});
  }

  /** The closure is determined by the pool, the seeds and the walker. */
  lemma LeastClosureUnique(t1: map<string, Json>, t2: map<string, Json>, P: Pool, seeds: set<string>, links: Json -> set<string>)
    requires LeastClosure(t1, P, seeds, links) && LeastClosure(t2, P, seeds, links)
    ensures t1 == t2
  {
    assert t1.Keys <= t2.Keys && t2.Keys <= t1.Keys;
  }

  /** A walker that finds more, started from more seeds, yields a larger closure:
      the smaller closure is a sub-map of the larger one. */
  lemma LeastClosureMonotone(t1: map<string, Json>, t2: map<string, Json>, P: Pool,
                             seeds1: set<string>, seeds2: set<string>,
                             links1: Json -> set<string>, links2: Json -> set<string>)
    requires LeastClosure(t1, P, seeds1, links1) && LeastClosure(t2, P, seeds2, links2)
    requires seeds1 <= seeds2
    requires forall s :: links1(s) <= links2(s)
    ensures t1.Keys <= t2.Keys
    ensures forall n :: n in t1 ==> n in t2 && t1[n] == t2[n]
  {
    assert SeedsIn(P, seeds1, t2.Keys);
    assert Closed(P, links1, t2.Keys) by {
      forall n | n in t2.Keys ensures Expanded(P, links1, n, t2.Keys) {
        assert Expanded(P, links2, n, t2.Keys);
      }
    }
  }

  /** The names any pool schema links to; with the seeds, it bounds every
      name a walker can add to `usedSchemas`. */
  function LinkUniverse(P: Pool, links: Json -> set<string>): set<string>
  {
    set m, r | 0 <= m < |P| && r in links(P[m].1) :: r
  }

  lemma LinksInUniverse(P: Pool, links: Json -> set<string>, n: string)
    ensures LinksOf(P, links, n) <= LinkUniverse(P, links)
  {
    if Lookup(P, n).Some? {
      var m := Find(P, n);
      forall r | r in LinksOf(P, links, n) ensures r in LinkUniverse(P, links) {
        assert r in links(P[m].1);
      }
    }
  }
}

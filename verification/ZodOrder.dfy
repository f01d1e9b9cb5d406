/**
 * The order of generated Zod schemas and their lazy references (zod.go).
 *
 * Schemas are top-level constants: one that names another eagerly must come
 * after it, or loading the module fails. References on a cycle are emitted
 * lazily instead, and the rest are sorted by a three-colour depth-first search.
 */
module ZodOrder {
  import opened Common

  // ---------------------------------------------------------------------------
  // Data
  // ---------------------------------------------------------------------------

  datatype Elem = EnumElem | ScalarElem | StructElem | UnknownElem

  /** The Go kinds whose Zod type mentions an element type, and the rest. */
  datatype Kind = Plain | Slice | FixedArray(len: nat) | Map

  /** literals: a registered enum, or a oneof rule that applies, replaces the whole type by literals. */
  datatype Field = Field(name: string, validated: bool, literals: bool, kind: Kind, elem: Elem, elemTypeName: string)

  datatype Interface = Interface(name: string, fields: seq<Field>)

  /** What a field's Zod expression says of another schema. */
  datatype Ref = NoRef | Eager(target: string) | Lazy(target: string)

  datatype Schema = Schema(name: string, refs: seq<Ref>)

  type Deps = map<string, seq<string>>

  function DepsOf(deps: Deps, n: string): seq<string> { if n in deps then deps[n] else [] }

  // ---------------------------------------------------------------------------
  // Reachability
  // ---------------------------------------------------------------------------

  ghost predicate IsPath(deps: Deps, p: seq<string>) {
    |p| >= 2 && forall i :: 0 <= i < |p| - 1 ==> p[i + 1] in DepsOf(deps, p[i])
  }

  /** A path of at least one edge. */
  ghost predicate Reaches(deps: Deps, from: string, to: string) {
    exists p :: IsPath(deps, p) && p[0] == from && p[|p| - 1] == to
  }

  lemma EdgeReaches(deps: Deps, a: string, b: string)
    requires b in DepsOf(deps, a)
    ensures Reaches(deps, a, b)
  {
    assert IsPath(deps, [a, b]);
  }

  lemma ReachesFurther(deps: Deps, a: string, b: string, c: string)
    requires a == b || Reaches(deps, a, b)
    requires c in DepsOf(deps, b)
    ensures Reaches(deps, a, c)
  {
    if a == b {
      EdgeReaches(deps, a, c);
    } else {
      var p :| IsPath(deps, p) && p[0] == a && p[|p| - 1] == b;
      var p' := p + [c];
      forall i | 0 <= i < |p'| - 1 ensures p'[i + 1] in DepsOf(deps, p'[i]) {
        assert p'[i] == p[i];
      }
      assert IsPath(deps, p') && p'[0] == a && p'[|p'| - 1] == c;
    }
  }

  ghost function Targets(deps: Deps): set<string> { set n, d | n in deps && d in deps[n] :: d }

  /** What depReaches has settled about a node it has expanded. */
  ghost predicate Expanded(deps: Deps, visited: set<string>, to: string, n: string) {
    forall d :: d in DepsOf(deps, n) ==> d in visited && d != to
  }

  /** No path leaves a set that every edge stays in. */
  lemma {:induction false} ClosedHolds(deps: Deps, closed: set<string>, to: string, p: seq<string>)
    requires IsPath(deps, p) && p[0] in closed
    requires forall n :: n in closed ==> Expanded(deps, closed, to, n)
    ensures p[|p| - 1] != to
  {
    assert Expanded(deps, closed, to, p[0]) && p[1] in DepsOf(deps, p[0]);
    if |p| > 2 {
      var rest := p[1..];
      forall i | 0 <= i < |rest| - 1 ensures rest[i + 1] in DepsOf(deps, rest[i]) {
        assert p[i + 1 + 1] in DepsOf(deps, p[i + 1]);
      }
      ClosedHolds(deps, closed, to, rest);
    }
  }

  /** depReaches' inner loop: pushes the dependencies not visited yet, unless `to` is among them. */
  method PushDeps(ds: seq<string>, to: string, visited0: set<string>, stack0: seq<string>)
    returns (hit: bool, visited: set<string>, stack: seq<string>)
    ensures hit <==> to in ds
    ensures !hit ==> visited == visited0 + SetOf(ds)
    ensures !hit ==> stack0 <= stack && forall n :: n in stack <==> n in stack0 || n in visited - visited0
    ensures !hit && visited == visited0 ==> stack == stack0
  {
    visited, stack := visited0, stack0;
    for i := 0 to |ds|
      invariant to !in ds[..i]
      invariant visited == visited0 + SetOf(ds[..i])
      invariant stack0 <= stack && forall n :: n in stack <==> n in stack0 || n in visited - visited0
      invariant visited == visited0 ==> stack == stack0
    {
      var dep := ds[i];
      assert ds[..i + 1] == ds[..i] + [dep];
      if dep == to { return true, visited, stack; }
      if dep !in visited {
        visited := visited + {dep};
        stack := stack + [dep];
      }
    }
    assert ds[..|ds|] == ds;
    hit := false;
  }

  ghost predicate AllReached(deps: Deps, from: string, ns: set<string>) {
    forall n :: n in ns ==> n == from || Reaches(deps, from, n)
  }

  lemma DepsReached(deps: Deps, from: string, ns: set<string>, n: string)
    requires AllReached(deps, from, ns) && (n == from || n in ns)
    ensures AllReached(deps, from, ns + SetOf(DepsOf(deps, n)))
    ensures forall d :: d in DepsOf(deps, n) ==> Reaches(deps, from, d)
  {
    forall d | d in DepsOf(deps, n) ensures Reaches(deps, from, d) {
      ReachesFurther(deps, from, n, d);
    }
  }

  /** The search so far: what is stacked was reached, and what was reached is stacked or expanded. */
  ghost predicate Searched(deps: Deps, from: string, to: string, visited: set<string>, stack: seq<string>) {
    && visited <= Targets(deps)
    && (forall n :: n in stack ==> n == from || n in visited)
    && (from in stack || Expanded(deps, visited, to, from))
    && (forall n :: n in visited ==> n in stack || Expanded(deps, visited, to, n))
  }

  lemma SearchedFurther(deps: Deps, from: string, to: string, visited: set<string>, stack: seq<string>,
                        visited': set<string>, stack': seq<string>)
    requires Searched(deps, from, to, visited, stack) && stack != []
    requires to !in DepsOf(deps, stack[|stack| - 1])
    requires visited' == visited + SetOf(DepsOf(deps, stack[|stack| - 1]))
    requires forall n :: n in stack' <==> n in stack[..|stack| - 1] || n in visited' - visited
    ensures Searched(deps, from, to, visited', stack')
  {
    var n := stack[|stack| - 1];
    assert forall m :: m in stack ==> m in stack[..|stack| - 1] || m == n;
    forall m | m == from || m in visited' ensures m in stack' || Expanded(deps, visited', to, m) {
      if m == from || m in visited {
        assert m in stack || Expanded(deps, visited, to, m);
      }
    }
  }

  lemma SearchedAll(deps: Deps, from: string, to: string, visited: set<string>)
    requires Searched(deps, from, to, visited, [])
    ensures !Reaches(deps, from, to)
  {
    if Reaches(deps, from, to) {
      var p :| IsPath(deps, p) && p[0] == from && p[|p| - 1] == to;
      forall n | n in {from} + visited ensures Expanded(deps, {from} + visited, to, n) {
        assert Expanded(deps, visited, to, n);
      }
      ClosedHolds(deps, {from} + visited, to, p);
    }
  }

  /** depReaches. */
  method DepReaches(deps: Deps, from: string, to: string) returns (r: bool)
    ensures r <==> Reaches(deps, from, to)
  {
    var visited: set<string> := {};
    var stack := [from];
    while |stack| > 0
      invariant AllReached(deps, from, visited) && Searched(deps, from, to, visited, stack)
      decreases |Targets(deps) - visited|, |stack|
    {
      var n := stack[|stack| - 1];
      ghost var stack0, visited0 := stack, visited;
      DepsReached(deps, from, visited, n);
      var hit;
      hit, visited, stack := PushDeps(DepsOf(deps, n), to, visited, stack[..|stack| - 1]);
      if hit { return true; }
      SearchedFurther(deps, from, to, visited0, stack0, visited, stack);
      if visited != visited0 { FewerLeft(Targets(deps), visited0, visited); }
    }
    SearchedAll(deps, from, to, visited);
    r := false;
  }

  // ---------------------------------------------------------------------------
  // Sorting
  // ---------------------------------------------------------------------------

  function Names(ss: seq<Schema>): set<string> { set s | s in ss :: s.name }

  ghost predicate Distinct(ss: seq<Schema>) { forall i, j :: 0 <= i < j < |ss| ==> ss[i].name != ss[j].name }

  /** A relation every edge extends, as reachability is. */
  ghost predicate Extends(deps: Deps, reach: iset<(string, string)>) {
    forall a, b, c :: (a == b || (a, b) in reach) && c in DepsOf(deps, b) ==> (a, c) in reach
  }

  ghost function Reach(deps: Deps): iset<(string, string)> { iset a, b | Reaches(deps, a, b) :: (a, b) }

  lemma ReachExtends(deps: Deps)
    ensures Extends(deps, Reach(deps))
  {
    forall a, b, c | (a == b || (a, b) in Reach(deps)) && c in DepsOf(deps, b) ensures (a, c) in Reach(deps) {
      ReachesFurther(deps, a, b, c);
    }
  }

  /** Every schema is named once, and every dependency comes before its user, except around a cycle. */
  ghost predicate Ordered(deps: Deps, reach: iset<(string, string)>, known: set<string>, ss: seq<Schema>) {
    forall i :: 0 <= i < |ss| ==> PlacedAt(deps, reach, known, ss, i)
  }

  ghost predicate PlacedAt(deps: Deps, reach: iset<(string, string)>, known: set<string>, ss: seq<Schema>, i: nat)
    requires i < |ss|
  {
    ss[i].name !in Names(ss[..i]) && Placeable(deps, reach, known, Names(ss[..i]), ss[i].name)
  }

  ghost predicate Placeable(deps: Deps, reach: iset<(string, string)>, known: set<string>, placed: set<string>,
                            name: string) {
    forall d :: d in DepsOf(deps, name) && d in known && (d, name) !in reach ==> d in placed
  }

  lemma OrderedGrows(deps: Deps, reach: iset<(string, string)>, known: set<string>, ss: seq<Schema>, s: Schema)
    requires Ordered(deps, reach, known, ss) && s.name !in Names(ss)
    requires Placeable(deps, reach, known, Names(ss), s.name)
    ensures Ordered(deps, reach, known, ss + [s]) && Names(ss + [s]) == Names(ss) + {s.name}
  {
    var ss' := ss + [s];
    forall i | 0 <= i < |ss'| ensures PlacedAt(deps, reach, known, ss', i) {
      assert ss'[..i] == ss[..i];
      assert ss[..|ss|] == ss;
      assert i < |ss| ==> PlacedAt(deps, reach, known, ss, i);
    }
  }

  lemma OrderedIsDistinct(deps: Deps, reach: iset<(string, string)>, known: set<string>, ss: seq<Schema>)
    requires Ordered(deps, reach, known, ss)
    ensures Distinct(ss)
  {
    forall i, j | 0 <= i < j < |ss| ensures ss[i].name != ss[j].name {
      assert PlacedAt(deps, reach, known, ss, j) && ss[i] in ss[..j];
    }
  }

  datatype Color = White | Gray | Black

  ghost function Colored(color: map<string, Color>, c: Color): set<string> { set n | n in color && color[n] == c }

  lemma PaintGray(color: map<string, Color>, name: string)
    requires name in Colored(color, White)
    ensures Colored(color[name := Gray], White) == Colored(color, White) - {name}
    ensures Colored(color[name := Gray], Gray) == Colored(color, Gray) + {name}
    ensures Colored(color[name := Gray], Black) == Colored(color, Black)
  {
  }

  lemma PaintBlack(color: map<string, Color>, name: string)
    requires name in Colored(color, Gray)
    ensures Colored(color[name := Black], White) == Colored(color, White)
    ensures Colored(color[name := Black], Gray) == Colored(color, Gray) - {name}
    ensures Colored(color[name := Black], Black) == Colored(color, Black) + {name}
  {
  }

  lemma ThreeColors(color: map<string, Color>)
    ensures color.Keys == Colored(color, White) + Colored(color, Gray) + Colored(color, Black)
    ensures Colored(color, White) !! Colored(color, Gray) !! Colored(color, Black)
  {
  }

  /** The dependencies of name that are schemas, other than name. */
  ghost function Needs(deps: Deps, known: set<string>, name: string): set<string> {
    set d | d in DepsOf(deps, name) && d in known && d != name
  }

  /** The black nodes are those sorted so far, in order. */
  ghost predicate Sorted(deps: Deps, reach: iset<(string, string)>, byName: map<string, Schema>,
                         color: map<string, Color>, out: seq<Schema>) {
    && color.Keys == byName.Keys
    && (forall n :: n in byName ==> byName[n].name == n)
    && Colored(color, Black) == Names(out)
    && (forall s :: s in out ==> s.name in byName && byName[s.name] == s)
    && Ordered(deps, reach, byName.Keys, out)
  }

  lemma FinishKeepsSorted(deps: Deps, reach: iset<(string, string)>, byName: map<string, Schema>,
                          color: map<string, Color>, out: seq<Schema>, name: string)
    requires Sorted(deps, reach, byName, color, out) && name in Colored(color, Gray)
    requires Placeable(deps, reach, byName.Keys, Names(out), name)
    ensures Sorted(deps, reach, byName, color[name := Black], out + [byName[name]])
  {
    PaintBlack(color, name);
    OrderedGrows(deps, reach, byName.Keys, out, byName[name]);
  }

  /** Everything the i-th schema depends on, other than itself, comes before it. */
  ghost predicate NeedsBefore(deps: Deps, ss: seq<Schema>, i: nat)
    requires i < |ss|
  {
    Needs(deps, Names(ss), ss[i].name) <= Names(ss[..i])
  }

  ghost predicate InOrder(deps: Deps, ss: seq<Schema>, n: nat)
    requires n <= |ss|
  {
    forall i :: 0 <= i < n ==> NeedsBefore(deps, ss, i)
  }

  /** A visit that ends with s adds it alone exactly if none of what s needs was white. */
  ghost predicate Adds(deps: Deps, known: set<string>, whites: set<string>, out: seq<Schema>, out': seq<Schema>,
                       s: Schema)
  {
    && |out'| > |out| && out'[|out'| - 1] == s
    && (Needs(deps, known, s.name) !! whites <==> |out'| == |out| + 1)
  }

  /** A needed schema that was white and is sorted by now has made the output longer. */
  lemma SortedMore(needs: set<string>, whites: set<string>, out: seq<Schema>, out': seq<Schema>)
    requires out <= out' && whites !! Names(out) && needs * whites <= Names(out') && !(needs !! whites)
    ensures |out'| > |out|
  {
    var d :| d in needs && d in whites;
    assert d in needs * whites && d in Names(out') && d !in Names(out);
    assert out' != out;
  }

  lemma NotItsOwn(deps: Deps, known: set<string>, name: string, whites: set<string>)
    ensures Needs(deps, known, name) !! whites <==> Needs(deps, known, name) !! whites - {name}
  {
  }

  lemma AddsLast(deps: Deps, known: set<string>, whites: set<string>, out: seq<Schema>, out': seq<Schema>, s: Schema)
    requires out <= out' && (Needs(deps, known, s.name) !! whites <==> out' == out)
    ensures out <= out' + [s] && Adds(deps, known, whites, out, out' + [s], s)
  {
    assert |out'| == |out| ==> out' == out;
  }

  class TopoSorter {
    const deps: Deps
    const byName: map<string, Schema>
    ghost const reach: iset<(string, string)>  // who reaches whom
    var color: map<string, Color>
    var out: seq<Schema>

    ghost predicate Valid()
      reads this
    {
      Extends(deps, reach) && Sorted(deps, reach, byName, color, out)
    }

    constructor (deps: Deps, byName: map<string, Schema>, ghost reach: iset<(string, string)>)
      requires Extends(deps, reach)
      requires forall n :: n in byName ==> byName[n].name == n
      ensures Valid() && this.deps == deps && this.byName == byName && this.reach == reach && out == []
      ensures Colored(color, Gray) == {}
    {
      this.deps, this.byName, this.reach, this.out := deps, byName, reach, [];
      this.color := map n | n in byName :: White;
    }

    method Enter(name: string)
      requires Valid() && name in Colored(color, White)
      modifies this`color
      ensures Valid()
      ensures Colored(color, White) == Colored(old(color), White) - {name}
      ensures Colored(color, Gray) == Colored(old(color), Gray) + {name}
      ensures Colored(color, Black) == Colored(old(color), Black)
    {
      PaintGray(color, name);
      color := color[name := Gray];
    }

    method Finish(name: string)
      requires Valid() && name in Colored(color, Gray) && Placeable(deps, reach, byName.Keys, Names(out), name)
      modifies this`color, this`out
      ensures Valid() && out == old(out) + [byName[name]]
      ensures Colored(color, White) == Colored(old(color), White)
      ensures Colored(color, Gray) == Colored(old(color), Gray) - {name}
      ensures Colored(color, Black) == Colored(old(color), Black) + {name}
    {
      PaintBlack(color, name);
      FinishKeepsSorted(deps, reach, byName, color, out, name);
      color := color[name := Black];
      out := out + [byName[name]];
    }

    /** One round of visit's loop over the dependencies of name. */
    method VisitDep(name: string, dep: string)
      requires Valid() && dep in byName && dep in DepsOf(deps, name)
      requires forall g :: g in Colored(color, Gray) ==> g == name || (g, name) in reach
      requires name in Colored(color, Gray)
      modifies this`color, this`out
      ensures Valid() && old(out) <= out
      ensures Colored(color, Gray) == Colored(old(color), Gray)
      ensures Colored(color, Black) >= Colored(old(color), Black)
      ensures Colored(color, White) <= Colored(old(color), White)
      ensures dep in Colored(color, Black) || ((dep, name) in reach && dep in Colored(old(color), Gray))
      ensures dep !in Colored(old(color), White) ==> out == old(out)
      decreases |Colored(color, White)|, 2
    {
      if color[dep] != Gray { Visit(dep); }
    }

    /** visit's loop over the dependencies of the node it has just made gray. */
    method VisitDeps(name: string)
      requires Valid() && name in Colored(color, Gray)
      requires forall g :: g in Colored(color, Gray) ==> g == name || (g, name) in reach
      modifies this`color, this`out
      ensures Valid() && old(out) <= out
      ensures Colored(color, Gray) == Colored(old(color), Gray)
      ensures Colored(color, Black) >= Colored(old(color), Black)
      ensures Colored(color, White) <= Colored(old(color), White)
      ensures Placeable(deps, reach, byName.Keys, Names(out), name)
      ensures Needs(deps, byName.Keys, name) !! Colored(old(color), White) <==> out == old(out)
      decreases |Colored(color, White)|, 3
    {
      ghost var whites, grays, blacks := Colored(color, White), Colored(color, Gray), Colored(color, Black);
      assert whites !! grays;
      var ds := DepsOf(deps, name);
      for i := 0 to |ds|
        invariant Valid() && old(out) <= out
        invariant Colored(color, Gray) == grays && Colored(color, White) <= whites && Colored(color, Black) >= blacks
        invariant forall j :: 0 <= j < i && ds[j] in byName ==>
          ds[j] in Colored(color, Black) || ((ds[j], name) in reach && ds[j] in grays)
        invariant Needs(deps, byName.Keys, name) !! whites ==> out == old(out)
      {
        if ds[i] in byName {
          SubsetIsNoLarger(Colored(color, White), whites);
          assert ds[i] in whites ==> ds[i] in Needs(deps, byName.Keys, name);
          VisitDep(name, ds[i]);
        }
      }
      ghost var needs := Needs(deps, byName.Keys, name);
      if !(needs !! whites) { SortedMore(needs, whites, old(out), out); }
    }

    /** visit, past its check that the node has not been visited. */
    method VisitWhite(name: string)
      requires Valid() && name in Colored(color, White)
      requires forall g :: g in Colored(color, Gray) ==> (g, name) in reach
      modifies this`color, this`out
      ensures Valid() && old(out) <= out
      ensures Colored(color, Gray) == Colored(old(color), Gray)
      ensures Colored(color, Black) >= Colored(old(color), Black) + {name}
      ensures Colored(color, White) <= Colored(old(color), White)
      ensures Adds(deps, byName.Keys, Colored(old(color), White), old(out), out, byName[name])
      decreases |Colored(color, White)|, 0
    {
      ghost var whites, grays := Colored(color, White), Colored(color, Gray);
      assert name !in grays && byName[name].name == name;
      Enter(name);
      SubsetIsNoLarger(Colored(color, White), whites - {name});
      NotItsOwn(deps, byName.Keys, name, whites);
      VisitDeps(name);
      AddsLast(deps, byName.Keys, whites, old(out), out, byName[name]);
      Finish(name);
      assert grays + {name} - {name} == grays;
    }

    /** visit: the gray nodes are those on the way down to name. */
    method Visit(name: string)
      requires Valid() && name in color
      requires color[name] == White ==> forall g :: g in Colored(color, Gray) ==> (g, name) in reach
      modifies this`color, this`out
      ensures Valid() && old(out) <= out
      ensures Colored(color, Gray) == Colored(old(color), Gray)
      ensures Colored(color, Black) >= Colored(old(color), Black)
      ensures Colored(color, White) <= Colored(old(color), White)
      ensures name in Colored(color, Gray) + Colored(color, Black)
      ensures old(color)[name] != White ==> out == old(out)
      ensures old(color)[name] == White ==>
                Adds(deps, byName.Keys, Colored(old(color), White), old(out), out, byName[name])
      decreases |Colored(color, White)|, 1
    {
      if color[name] != White { return; }
      VisitWhite(name);
    }
  }

  method IndexByName(schemas: seq<Schema>) returns (byName: map<string, Schema>)
    ensures byName.Keys == Names(schemas)
    ensures forall n :: n in byName ==> byName[n].name == n && byName[n] in schemas
    ensures Distinct(schemas) ==> forall s :: s in schemas ==> byName[s.name] == s
  {
    byName := map[];
    for i := 0 to |schemas|
      invariant byName.Keys == Names(schemas[..i])
      invariant forall n :: n in byName ==> byName[n].name == n && byName[n] in schemas[..i]
      invariant Distinct(schemas) ==> forall j :: 0 <= j < i ==> byName[schemas[j].name] == schemas[j]
    {
      assert schemas[..i + 1] == schemas[..i] + [schemas[i]];
      byName := byName[schemas[i].name := schemas[i]];
    }
    assert schemas[..|schemas|] == schemas;
  }

  /** While the list is in order the walk copies it; from the first schema that is not, the two differ for good. */
  ghost predicate Follows(deps: Deps, schemas: seq<Schema>, i: nat, out: seq<Schema>)
    requires i <= |schemas|
  {
    if InOrder(deps, schemas, i) then out == schemas[..i] else !(out <= schemas)
  }

  lemma FollowsOn(deps: Deps, schemas: seq<Schema>, i: nat, out: seq<Schema>, out': seq<Schema>)
    requires Distinct(schemas) && i < |schemas| && Follows(deps, schemas, i, out) && out <= out'
    requires out == schemas[..i] && NeedsBefore(deps, schemas, i) ==> out' == out + [schemas[i]]
    requires out == schemas[..i] && !NeedsBefore(deps, schemas, i) ==> |out'| >= i + 2 && out'[|out'| - 1] == schemas[i]
    ensures Follows(deps, schemas, i + 1, out')
  {
    assert InOrder(deps, schemas, i + 1) <==> InOrder(deps, schemas, i) && NeedsBefore(deps, schemas, i);
    assert schemas[..i + 1] == schemas[..i] + [schemas[i]];
    assert out' != [] && out' <= schemas ==> out'[|out'| - 1] == schemas[|out'| - 1];
  }

  lemma NextFollows(deps: Deps, schemas: seq<Schema>, i: nat, out: seq<Schema>, out': seq<Schema>, whites: set<string>)
    requires Distinct(schemas) && i < |schemas| && Follows(deps, schemas, i, out) && out <= out'
    requires whites == Names(schemas) - Names(out)
    requires schemas[i].name in whites ==> Adds(deps, Names(schemas), whites, out, out', schemas[i])
    ensures Follows(deps, schemas, i + 1, out')
  {
    if out == schemas[..i] {
      assert schemas[i] in schemas && schemas[i].name !in Names(schemas[..i]);
      assert Needs(deps, Names(schemas), schemas[i].name) !! whites <==> NeedsBefore(deps, schemas, i);
    }
    FollowsOn(deps, schemas, i, out, out');
  }

  /** Between two roots, what is not sorted is white. */
  lemma WhiteIsUnsorted(color: map<string, Color>, known: set<string>, out: seq<Schema>)
    requires color.Keys == known && Colored(color, Black) == Names(out) && Colored(color, Gray) == {}
    ensures Colored(color, White) == known - Names(out)
    ensures forall n :: n in color ==> (color[n] == White <==> n in Colored(color, White))
  {
    ThreeColors(color);
  }

  lemma RootsSorted(schemas: seq<Schema>, i: nat, before: set<string>, after: set<string>)
    requires i < |schemas| && Names(schemas[..i]) <= before <= after && schemas[i].name in after
    ensures Names(schemas[..i + 1]) <= after
  {
    assert schemas[..i + 1] == schemas[..i] + [schemas[i]];
  }

  /** One root of the walk. */
  method VisitNext(schemas: seq<Schema>, sorter: TopoSorter, i: nat)
    requires sorter.Valid() && Colored(sorter.color, Gray) == {} && i < |schemas|
    requires sorter.byName.Keys == Names(schemas)
    requires Distinct(schemas) ==> forall s :: s in schemas ==> sorter.byName[s.name] == s
    requires Distinct(schemas) ==> Follows(sorter.deps, schemas, i, sorter.out)
    requires Names(schemas[..i]) <= Colored(sorter.color, Black)
    modifies sorter
    ensures sorter.Valid() && Colored(sorter.color, Gray) == {}
    ensures Names(schemas[..i + 1]) <= Colored(sorter.color, Black)
    ensures Distinct(schemas) ==> Follows(sorter.deps, schemas, i + 1, sorter.out)
  {
    ghost var out, whites, blacks := sorter.out, Colored(sorter.color, White), Colored(sorter.color, Black);
    var s := schemas[i];
    assert s in schemas && s.name in Names(schemas);
    WhiteIsUnsorted(sorter.color, sorter.byName.Keys, out);
    sorter.Visit(s.name);
    RootsSorted(schemas, i, blacks, Colored(sorter.color, Black));
    if Distinct(schemas) {
      assert s.name in whites ==> Adds(sorter.deps, Names(schemas), whites, out, sorter.out, s);
      NextFollows(sorter.deps, schemas, i, out, sorter.out, whites);
    }
  }

  /** topoSortSchemas' walk in original order. */
  method VisitAll(schemas: seq<Schema>, sorter: TopoSorter)
    requires sorter.Valid() && sorter.out == [] && Colored(sorter.color, Gray) == {}
    requires sorter.byName.Keys == Names(schemas)
    requires Distinct(schemas) ==> forall s :: s in schemas ==> sorter.byName[s.name] == s
    modifies sorter
    ensures sorter.Valid() && Names(sorter.out) == Names(schemas)
    ensures Distinct(schemas) ==> Follows(sorter.deps, schemas, |schemas|, sorter.out)
  {
    for i := 0 to |schemas|
      invariant sorter.Valid() && Colored(sorter.color, Gray) == {}
      invariant Names(schemas[..i]) <= Colored(sorter.color, Black)
      invariant Distinct(schemas) ==> Follows(sorter.deps, schemas, i, sorter.out)
    {
      VisitNext(schemas, sorter, i);
    }
    assert schemas[..|schemas|] == schemas;
    assert Names(sorter.out) <= sorter.byName.Keys;
  }

  /** topoSortSchemas. Source order is kept exactly where it already has every dependency before its user. */
  method TopoSortSchemas(schemas: seq<Schema>, deps: Deps) returns (out: seq<Schema>)
    ensures Distinct(out) && Names(out) == Names(schemas)
    ensures forall s :: s in out ==> s in schemas
    ensures Ordered(deps, Reach(deps), Names(schemas), out)
    ensures Distinct(schemas) ==> (out == schemas <==> InOrder(deps, schemas, |schemas|))
  {
    var byName := IndexByName(schemas);
    ReachExtends(deps);
    var sorter := new TopoSorter(deps, byName, Reach(deps));
    VisitAll(schemas, sorter);
    out := sorter.out;
    assert schemas[..|schemas|] == schemas && schemas <= schemas;
    OrderedIsDistinct(deps, Reach(deps), byName.Keys, out);
  }

  /** Two schemas that name each other do not stay in source order. */
  method CyclicPairIsReversed(a: Schema, b: Schema) returns (out: seq<Schema>)
    requires a.name != b.name
    ensures out == [b, a]
  {
    var deps: Deps := map[a.name := [b.name], b.name := [a.name]];
    var schemas := [a, b];
    out := TopoSortSchemas(schemas, deps);
    assert b in schemas && b.name in Names(schemas) && Names(schemas[..0]) == {};
    assert b.name in Needs(deps, Names(schemas), schemas[0].name) && !NeedsBefore(deps, schemas, 0);
    TwoDistinct(out, a, b);
  }

  lemma {:induction false} NamesCount(ss: seq<Schema>)
    requires Distinct(ss)
    ensures |Names(ss)| == |ss|
  {
    if ss != [] {
      var init, last := ss[..|ss| - 1], ss[|ss| - 1];
      NamesCount(init);
      assert ss == init + [last];
      assert Names(ss) == Names(init) + {last.name} && last.name !in Names(init);
    }
  }

  lemma TwoDistinct(out: seq<Schema>, a: Schema, b: Schema)
    requires Distinct(out) && a.name != b.name && Names(out) == {a.name, b.name} && forall s :: s in out ==> s in [a, b]
    ensures out == [a, b] || out == [b, a]
  {
    NamesCount(out);
    assert out[0] in out && out[1] in out && out[0].name != out[1].name;
  }

  // ---------------------------------------------------------------------------
  // Building the schemas
  // ---------------------------------------------------------------------------

  predicate Validated(fields: seq<Field>) { exists f :: f in fields && f.validated }

  /** The interfaces that get a schema. */
  function Known(ifaces: seq<Interface>): set<string> { set i | i in ifaces && Validated(i.fields) :: i.name }

  predicate Depends(f: Field, known: set<string>) { f.elemTypeName != "" && f.elemTypeName in known }

  /** The schemas an interface's elements name, each once, in field order. */
  function DepList(fields: seq<Field>, known: set<string>): seq<string> {
    if fields == [] then []
    else
      var before, f := DepList(fields[..|fields| - 1], known), fields[|fields| - 1];
      if Depends(f, known) && f.elemTypeName !in before then before + [f.elemTypeName] else before
  }

  lemma {:induction false} DepListHolds(fields: seq<Field>, known: set<string>, d: string)
    ensures d in DepList(fields, known) <==> exists f :: f in fields && Depends(f, known) && f.elemTypeName == d
  {
    if fields != [] {
      var init, last := fields[..|fields| - 1], fields[|fields| - 1];
      DepListHolds(init, known, d);
      assert fields == init + [last];
      assert last.elemTypeName in DepList(init, known) ==> d != last.elemTypeName || d in DepList(init, known);
    }
  }

  function DepMap(ifaces: seq<Interface>, known: set<string>): Deps {
    if ifaces == [] then map[]
    else
      var before, i := DepMap(ifaces[..|ifaces| - 1], known), ifaces[|ifaces| - 1];
      if i.name in known then before[i.name := DepList(i.fields, known)] else before
  }

  ghost predicate DistinctNames(ifaces: seq<Interface>) {
    forall i, j :: 0 <= i < j < |ifaces| ==> ifaces[i].name != ifaces[j].name
  }

  lemma {:induction false} DepMapAt(ifaces: seq<Interface>, known: set<string>, k: nat)
    requires DistinctNames(ifaces) && k < |ifaces| && ifaces[k].name in known
    ensures DepsOf(DepMap(ifaces, known), ifaces[k].name) == DepList(ifaces[k].fields, known)
  {
    if k < |ifaces| - 1 {
      DepMapAt(ifaces[..|ifaces| - 1], known, k);
    }
  }

  /** The schema a field's Zod expression names, if any: zodBaseType and zodElemExpr. */
  function FieldRef(f: Field, isLazy: bool, known: set<string>): Ref {
    if f.literals || f.kind.Plain? || f.kind == FixedArray(0) || !f.elem.StructElem? || !Depends(f, known) then NoRef
    else if isLazy then Lazy(f.elemTypeName)
    else Eager(f.elemTypeName)
  }

  /** The references of a schema, lazy where the target reaches back. */
  ghost function RefOf(f: Field, owner: string, known: set<string>, deps: Deps): Ref {
    FieldRef(f, Depends(f, known) && Reaches(deps, f.elemTypeName, owner), known)
  }

  ghost function SchemaOf(i: Interface, known: set<string>, deps: Deps): Schema {
    Schema(i.name, seq(|i.fields|, k requires 0 <= k < |i.fields| => RefOf(i.fields[k], i.name, known, deps)))
  }

  /** The schemas in source order. */
  ghost function Unsorted(ifaces: seq<Interface>, known: set<string>, deps: Deps): seq<Schema> {
    if ifaces == [] then []
    else
      var before, i := Unsorted(ifaces[..|ifaces| - 1], known, deps), ifaces[|ifaces| - 1];
      if i.name in known then before + [SchemaOf(i, known, deps)] else before
  }

  lemma {:induction false} UnsortedHolds(ifaces: seq<Interface>, known: set<string>, deps: Deps, s: Schema)
    ensures s in Unsorted(ifaces, known, deps) <==>
      exists i :: i in ifaces && i.name in known && s == SchemaOf(i, known, deps)
  {
    if ifaces != [] {
      var init, last := ifaces[..|ifaces| - 1], ifaces[|ifaces| - 1];
      UnsortedHolds(init, known, deps, s);
      assert ifaces == init + [last];
    }
  }

  lemma {:induction false} UnsortedIsDistinct(ifaces: seq<Interface>, known: set<string>, deps: Deps)
    requires DistinctNames(ifaces)
    ensures Distinct(Unsorted(ifaces, known, deps))
  {
    if ifaces != [] {
      var init, last := ifaces[..|ifaces| - 1], ifaces[|ifaces| - 1];
      UnsortedIsDistinct(init, known, deps);
      forall s | s in Unsorted(init, known, deps) ensures s.name != last.name {
        UnsortedHolds(init, known, deps, s);
      }
    }
  }

  lemma UnsortedNames(ifaces: seq<Interface>, deps: Deps)
    ensures Names(Unsorted(ifaces, Known(ifaces), deps)) == Known(ifaces)
  {
    var known := Known(ifaces);
    var bySource := Unsorted(ifaces, known, deps);
    forall s | s in bySource ensures s.name in known { UnsortedHolds(ifaces, known, deps, s); }
    forall n | n in known ensures n in Names(bySource) {
      var i :| i in ifaces && Validated(i.fields) && i.name == n;
      UnsortedHolds(ifaces, known, deps, SchemaOf(i, known, deps));
      assert SchemaOf(i, known, deps) in bySource;
    }
  }

  /** Every eager reference is to an earlier schema, and every lazy one to some schema. */
  ghost predicate LoadsSafely(out: seq<Schema>) {
    forall i, k :: 0 <= i < |out| && 0 <= k < |out[i].refs| ==>
      (out[i].refs[k].Eager? ==> out[i].refs[k].target in Names(out[..i])) &&
      (out[i].refs[k].Lazy? ==> out[i].refs[k].target in Names(out))
  }

  lemma EagerIsEarlier(ifaces: seq<Interface>, out: seq<Schema>, i: nat, k: nat)
    requires DistinctNames(ifaces) && i < |out| && k < |out[i].refs| && out[i].refs[k].Eager?
    requires var known, deps := Known(ifaces), DepMap(ifaces, Known(ifaces));
             PlacedAt(deps, Reach(deps), known, out, i) && out[i] in Unsorted(ifaces, known, deps)
    ensures out[i].refs[k].target in Names(out[..i])
  {
    var known, deps := Known(ifaces), DepMap(ifaces, Known(ifaces));
    UnsortedHolds(ifaces, known, deps, out[i]);
    var n :| 0 <= n < |ifaces| && ifaces[n].name in known && out[i] == SchemaOf(ifaces[n], known, deps);
    DepMapAt(ifaces, known, n);
    DepListHolds(ifaces[n].fields, known, ifaces[n].fields[k].elemTypeName);
  }

  lemma LazyIsKnown(ifaces: seq<Interface>, s: Schema, k: nat)
    requires s in Unsorted(ifaces, Known(ifaces), DepMap(ifaces, Known(ifaces))) && k < |s.refs| && s.refs[k].Lazy?
    ensures s.refs[k].target in Known(ifaces)
  {
    UnsortedHolds(ifaces, Known(ifaces), DepMap(ifaces, Known(ifaces)), s);
  }

  lemma OrderedLoadsSafely(ifaces: seq<Interface>, out: seq<Schema>)
    requires DistinctNames(ifaces)
    requires var known, deps := Known(ifaces), DepMap(ifaces, Known(ifaces));
             Ordered(deps, Reach(deps), known, out) && Names(out) == known
             && forall s :: s in out ==> s in Unsorted(ifaces, known, deps)
    ensures LoadsSafely(out)
  {
    forall i, k | 0 <= i < |out| && 0 <= k < |out[i].refs| && out[i].refs[k].Eager?
      ensures out[i].refs[k].target in Names(out[..i])
    {
      EagerIsEarlier(ifaces, out, i, k);
    }
    forall i, k | 0 <= i < |out| && 0 <= k < |out[i].refs| && out[i].refs[k].Lazy?
      ensures out[i].refs[k].target in Names(out)
    {
      LazyIsKnown(ifaces, out[i], k);
    }
  }

  lemma {:induction false} DistinctCounts(ss: seq<Schema>, s: Schema)
    requires Distinct(ss)
    ensures multiset(ss)[s] == if s in ss then 1 else 0
  {
    if ss != [] {
      var init := ss[..|ss| - 1];
      assert ss == init + [ss[|ss| - 1]];
      DistinctCounts(init, s);
    }
  }

  lemma SortedIsPermutation(out: seq<Schema>, ss: seq<Schema>)
    requires Distinct(out) && Distinct(ss) && Names(out) == Names(ss) && forall s :: s in out ==> s in ss
    ensures multiset(out) == multiset(ss)
  {
    forall s ensures multiset(out)[s] == multiset(ss)[s] {
      DistinctCounts(out, s);
      DistinctCounts(ss, s);
      if s in ss {
        assert s.name in Names(out);
        var o :| o in out && o.name == s.name;
        assert o == s;
      }
    }
  }

  /** buildZodSchemas. */
  method BuildZodSchemas(ifaces: seq<Interface>) returns (out: seq<Schema>)
    ensures Distinct(out) && Names(out) == Known(ifaces)
    ensures forall s :: s in out ==> s in Unsorted(ifaces, Known(ifaces), DepMap(ifaces, Known(ifaces)))
    ensures DistinctNames(ifaces) ==>
      LoadsSafely(out) && multiset(out) == multiset(Unsorted(ifaces, Known(ifaces), DepMap(ifaces, Known(ifaces))))
  {
    var known := KnownSchemas(ifaces);
    var deps := Dependencies(ifaces, known);
    var bySource := Schemas(ifaces, known, deps);
    UnsortedNames(ifaces, deps);
    out := TopoSortSchemas(bySource, deps);
    if DistinctNames(ifaces) {
      OrderedLoadsSafely(ifaces, out);
      UnsortedIsDistinct(ifaces, known, deps);
      SortedIsPermutation(out, bySource);
    }
  }

  /** The pre-pass that finds the interfaces with a validated field. */
  method KnownSchemas(ifaces: seq<Interface>) returns (known: set<string>)
    ensures known == Known(ifaces)
  {
    known := {};
    for n := 0 to |ifaces|
      invariant known == Known(ifaces[..n])
    {
      assert ifaces[..n + 1] == ifaces[..n] + [ifaces[n]];
      var fields := ifaces[n].fields;
      for k := 0 to |fields|
        invariant known == Known(ifaces[..n]) && !Validated(fields[..k])
      {
        assert fields[..k + 1] == fields[..k] + [fields[k]];
        if fields[k].validated {
          known := known + {ifaces[n].name};
          assert Validated(fields);
          break;
        }
        assert k + 1 == |fields| ==> fields[..k + 1] == fields;
      }
    }
    assert ifaces[..|ifaces|] == ifaces;
  }

  /** The loop that collects each schema's dependencies. */
  method Dependencies(ifaces: seq<Interface>, known: set<string>) returns (deps: Deps)
    ensures deps == DepMap(ifaces, known)
  {
    deps := map[];
    for n := 0 to |ifaces|
      invariant deps == DepMap(ifaces[..n], known)
    {
      assert ifaces[..n + 1][..n] == ifaces[..n];
      if ifaces[n].name in known {
        var fields := ifaces[n].fields;
        var schemaDeps: seq<string> := [];
        var seen: set<string> := {};
        for k := 0 to |fields|
          invariant schemaDeps == DepList(fields[..k], known) && seen == SetOf(schemaDeps)
        {
          assert fields[..k + 1][..k] == fields[..k];
          var f := fields[k];
          if f.elemTypeName != "" && f.elemTypeName in known && f.elemTypeName !in seen {
            schemaDeps := schemaDeps + [f.elemTypeName];
            seen := seen + {f.elemTypeName};
          }
        }
        assert fields[..|fields|] == fields;
        deps := deps[ifaces[n].name := schemaDeps];
      }
    }
    assert ifaces[..|ifaces|] == ifaces;
  }

  /** The loop that builds the schemas in source order, marking cyclic references lazy. */
  method Schemas(ifaces: seq<Interface>, known: set<string>, deps: Deps) returns (bySource: seq<Schema>)
    ensures bySource == Unsorted(ifaces, known, deps)
  {
    bySource := [];
    for n := 0 to |ifaces|
      invariant bySource == Unsorted(ifaces[..n], known, deps)
    {
      assert ifaces[..n + 1][..n] == ifaces[..n];
      if ifaces[n].name in known {
        var fields := ifaces[n].fields;
        var refs: seq<Ref> := [];
        for k := 0 to |fields|
          invariant |refs| == k
          invariant forall j :: 0 <= j < k ==> refs[j] == RefOf(fields[j], ifaces[n].name, known, deps)
        {
          var isLazy := false;
          if fields[k].elemTypeName != "" && fields[k].elemTypeName in known {
            isLazy := DepReaches(deps, fields[k].elemTypeName, ifaces[n].name);
          }
          refs := refs + [FieldRef(fields[k], isLazy, known)];
        }
        assert refs == SchemaOf(ifaces[n], known, deps).refs;
        bySource := bySource + [Schema(ifaces[n].name, refs)];
      }
    }
    assert ifaces[..|ifaces|] == ifaces;
  }

  /** Laziness is needed where it is used: no order puts both ends of an edge on a cycle after what they need. */
  lemma {:induction false} PathGoesBack(deps: Deps, order: seq<string>, p: seq<string>, a: nat, b: nat)
    requires IsPath(deps, p) && a < |order| && b < |order| && order[a] == p[0] && order[b] == p[|p| - 1]
    requires forall i, j :: 0 <= i < j < |order| ==> order[i] != order[j]
    requires forall i, d :: 0 <= i < |order| && d in DepsOf(deps, order[i]) ==> d in order[..i]
    ensures b < a
  {
    assert p[1] in DepsOf(deps, order[a]);
    var c :| 0 <= c < a && order[c] == p[1];
    if |p| > 2 {
      var rest := p[1..];
      forall i | 0 <= i < |rest| - 1 ensures rest[i + 1] in DepsOf(deps, rest[i]) {
        assert p[i + 1 + 1] in DepsOf(deps, p[i + 1]);
      }
      PathGoesBack(deps, order, rest, c, b);
    }
  }

  /** With any cycle, some dependency comes after its user in every order; without lazy references none would load. */
  lemma CyclesHaveNoOrder(deps: Deps, order: seq<string>, n: string)
    requires Reaches(deps, n, n) && n in order
    requires forall i, j :: 0 <= i < j < |order| ==> order[i] != order[j]
    ensures exists i, d :: 0 <= i < |order| && d in DepsOf(deps, order[i]) && d !in order[..i]
  {
    if forall i, d :: 0 <= i < |order| && d in DepsOf(deps, order[i]) ==> d in order[..i] {
      var p :| IsPath(deps, p) && p[0] == n && p[|p| - 1] == n;
      var a :| 0 <= a < |order| && order[a] == n;
      PathGoesBack(deps, order, p, a, a);
    }
  }
}

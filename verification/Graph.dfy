/** The import graph of internal/graph/graph.go: topological order, positions and reverse closures. */
module Graph {
  import opened Paths
  import opened Kahn

  /** A loaded package; `testImports` holds what its in-package tests import beyond `imports`. */
  datatype Package = Package(imports: seq<Path>, testImports: seq<Path>, root: bool, hasGoFiles: bool,
                             dir: string, forTest: Path)

  type Packages = map<Path, Package>

  function BothImports(pkgs: Packages): Edges {
    map p | p in pkgs :: pkgs[p].imports + pkgs[p].testImports
  }

  function ProductionImports(pkgs: Packages): Edges {
    map p | p in pkgs :: pkgs[p].imports
  }

  // ------------------------------------------------------------- topological order

  /** Position `i` of `order` holds `p`. */
  ghost predicate At(order: seq<Path>, p: Path, i: int) {
    0 <= i < |order| && order[i] == p
  }

  /** Every path of the map once, and nothing else. */
  ghost predicate Permutes(order: seq<Path>, pkgs: Packages) {
    Elements(order) == pkgs.Keys && Distinct(order)
  }

  /** Every edge that stays in the graph leads to an earlier position. */
  ghost predicate Forward(order: seq<Path>, pkgs: Packages, edges: Edges)
    requires edges.Keys == pkgs.Keys
  {
    forall p, d, j | p in pkgs && d in edges[p] && d in pkgs && At(order, p, j) :: exists i :: i < j && At(order, d, i)
  }

  /** The outcome of the two passes: a second one, over production imports alone, for what the first leaves over. */
  ghost predicate IsTopoOrder(pkgs: Packages, order: seq<Path>) {
    exists first, rest ::
      && IsPass(pkgs.Keys, BothImports(pkgs), first)
      && order == first + rest
      && if |first| == |pkgs.Keys| then rest == []
         else IsPass(pkgs.Keys - Elements(first), ProductionImports(pkgs), rest)
  }

  /** The order does not depend on how Go iterates its maps. */
  lemma TopoOrderUnique(pkgs: Packages, s: seq<Path>, t: seq<Path>)
    requires IsTopoOrder(pkgs, s) && IsTopoOrder(pkgs, t)
    ensures s == t
  {
    var all, both := pkgs.Keys, BothImports(pkgs);
    var f1, r1 :| IsPass(all, both, f1) && s == f1 + r1
                  && if |f1| == |pkgs.Keys| then r1 == [] else IsPass(all - Elements(f1), ProductionImports(pkgs), r1);
    var f2, r2 :| IsPass(all, both, f2) && t == f2 + r2
                  && if |f2| == |pkgs.Keys| then r2 == [] else IsPass(all - Elements(f2), ProductionImports(pkgs), r2);
    PassUnique(all, both, f1, f2);
    if |f1| != |pkgs.Keys| {
      PassUnique(all - Elements(f1), ProductionImports(pkgs), r1, r2);
    }
  }

  method TopoOrder(pkgs: Packages) returns (order: seq<Path>)
    ensures IsTopoOrder(pkgs, order)
  {
    var first, placed := KahnPass(pkgs.Keys, BothImports(pkgs));
    if |first| == |pkgs.Keys| {
      assert first == first + [];
      return first;
    }
    var rest, _ := KahnPass(pkgs.Keys - placed, ProductionImports(pkgs));
    return first + rest;
  }

  lemma PassWithin(scope: set<Path>, edges: Edges, order: seq<Path>)
    requires scope <= edges.Keys && IsPass(scope, edges, order)
    ensures Elements(order) <= scope && Distinct(order)
  {
    forall i | 0 <= i < |order| ensures order[i] in scope {
      assert Least(scope, edges, Elements(order[..i]), order[i]);
    }
    forall i, j | 0 <= i < j < |order| ensures order[i] != order[j] {
      GreedyDistinct(scope, edges, order, i, j);
    }
  }

  /** The two passes behind an order; the second one has nothing to do if the first placed everything. */
  lemma TwoPasses(pkgs: Packages, order: seq<Path>) returns (first: seq<Path>, rest: seq<Path>)
    requires IsTopoOrder(pkgs, order)
    ensures order == first + rest && IsPass(pkgs.Keys, BothImports(pkgs), first)
    ensures IsPass(pkgs.Keys - Elements(first), ProductionImports(pkgs), rest)
  {
    first, rest :| IsPass(pkgs.Keys, BothImports(pkgs), first) && order == first + rest
                   && if |first| == |pkgs.Keys| then rest == []
                      else IsPass(pkgs.Keys - Elements(first), ProductionImports(pkgs), rest);
    if |first| == |pkgs.Keys| {
      PassWithin(pkgs.Keys, BothImports(pkgs), first);
      DistinctCard(first);
      SubsetCard(Elements(first), pkgs.Keys);
    }
  }

  lemma TwoPassPermutes(pkgs: Packages, first: seq<Path>, rest: seq<Path>, rank: Path -> nat)
    requires IsPass(pkgs.Keys, BothImports(pkgs), first)
    requires IsPass(pkgs.Keys - Elements(first), ProductionImports(pkgs), rest)
    requires Ranked(pkgs.Keys, ProductionImports(pkgs), rank)
    ensures Permutes(first + rest, pkgs)
  {
    var left := pkgs.Keys - Elements(first);
    PassWithin(pkgs.Keys, BothImports(pkgs), first);
    PassWithin(left, ProductionImports(pkgs), rest);
    PassComplete(left, ProductionImports(pkgs), rest, rank);
    Joined(first, rest);
  }

  lemma Joined(first: seq<Path>, rest: seq<Path>)
    requires Distinct(first)
    requires Distinct(rest)
    requires Elements(first) !! Elements(rest)
    ensures Elements(first + rest) == Elements(first) + Elements(rest)
    ensures Distinct(first + rest)
  {
    assert forall i | 0 <= i < |first| :: first[i] in Elements(first);
    assert forall i | 0 <= i < |rest| :: rest[i] in Elements(rest);
  }

  /**
   With production imports acyclic, the order is a permutation that puts every production import first, even when
   test imports stall the first pass.
   */
  lemma TopoOrderForward(pkgs: Packages, order: seq<Path>, rank: Path -> nat)
    requires IsTopoOrder(pkgs, order) && Ranked(pkgs.Keys, ProductionImports(pkgs), rank)
    ensures Permutes(order, pkgs) && Forward(order, pkgs, ProductionImports(pkgs))
  {
    var first, rest := TwoPasses(pkgs, order);
    TwoPassPermutes(pkgs, first, rest, rank);
    TwoPassForward(pkgs, first, rest);
  }

  lemma TwoPassForward(pkgs: Packages, first: seq<Path>, rest: seq<Path>)
    requires IsPass(pkgs.Keys, BothImports(pkgs), first)
    requires IsPass(pkgs.Keys - Elements(first), ProductionImports(pkgs), rest)
    ensures Forward(first + rest, pkgs, ProductionImports(pkgs))
  {
    var order, left := first + rest, pkgs.Keys - Elements(first);
    forall p, d, j | p in pkgs && d in pkgs[p].imports && d in pkgs && At(order, p, j)
      ensures exists i :: i < j && At(order, d, i)
    {
      if j < |first| {
        GreedyForward(pkgs.Keys, BothImports(pkgs), first, j, d);
        var i :| 0 <= i < j && first[i] == d;
        assert At(order, d, i);
      } else if d in Elements(first) {
        var i :| 0 <= i < |first| && first[i] == d;
        assert At(order, d, i);
      } else {
        var k := j - |first|;
        PassWithin(left, ProductionImports(pkgs), rest);
        assert rest[k] in Elements(rest);
        GreedyForward(left, ProductionImports(pkgs), rest, k, d);
        var i :| 0 <= i < k && rest[i] == d;
        assert At(order, d, |first| + i);
      }
    }
  }

  /** With production and test imports acyclic together, the order puts both first. */
  lemma TopoOrderForwardBoth(pkgs: Packages, order: seq<Path>, rank: Path -> nat)
    requires IsTopoOrder(pkgs, order) && Ranked(pkgs.Keys, BothImports(pkgs), rank)
    ensures Permutes(order, pkgs) && Forward(order, pkgs, BothImports(pkgs))
  {
    var first, rest := TwoPasses(pkgs, order);
    PassComplete(pkgs.Keys, BothImports(pkgs), first, rank);
    PassWithin(pkgs.Keys, BothImports(pkgs), first);
    PassWithin(pkgs.Keys - Elements(first), ProductionImports(pkgs), rest);
    DistinctCard(rest);
    assert order == first;
    OnePassForward(pkgs, first);
  }

  lemma OnePassForward(pkgs: Packages, order: seq<Path>)
    requires IsPass(pkgs.Keys, BothImports(pkgs), order)
    ensures Forward(order, pkgs, BothImports(pkgs))
  {
    var both := BothImports(pkgs);
    forall p, d, j | p in pkgs && d in both[p] && d in pkgs && At(order, p, j)
      ensures exists i :: i < j && At(order, d, i)
    {
      GreedyForward(pkgs.Keys, both, order, j, d);
      var i :| 0 <= i < j && order[i] == d;
      assert At(order, d, i);
    }
  }

  // -------------------------------------------------------------------- snapshots

  /** `pos` gives each path's place in `order`; `revDeps` lists who imports it, in production or in tests. */
  datatype Snapshot = Snapshot(pkgs: Packages, order: seq<Path>, pos: map<Path, nat>, revDeps: map<Path, seq<Path>>)

  /** `p` imports `d`, in production or in an in-package test, and both are in the graph. */
  predicate DependsOn(pkgs: Packages, p: Path, d: Path) {
    p in pkgs && d in pkgs && (d in pkgs[p].imports || d in pkgs[p].testImports)
  }

  /** Everything a package imports, in production and then in its in-package tests. */
  function ImportsOf(pkgs: Packages, p: Path): seq<Path>
    requires p in pkgs
  {
    pkgs[p].imports + pkgs[p].testImports
  }

  lemma ImportsAreDependencies(pkgs: Packages, p: Path)
    requires p in pkgs
    ensures forall d | d in pkgs :: d in ImportsOf(pkgs, p) <==> DependsOn(pkgs, p, d)
  {
  }

  /** Imports are deduplicated, and test imports are those not among the others. */
  ghost predicate UniqueImports(pkgs: Packages) {
    forall p | p in pkgs :: Distinct(ImportsOf(pkgs, p))
  }

  ghost predicate Valid(s: Snapshot) {
    && IsTopoOrder(s.pkgs, s.order) && (exists rank :: Ranked(s.pkgs.Keys, ProductionImports(s.pkgs), rank))
    && s.pos.Keys == s.pkgs.Keys && (forall p | p in s.pos :: At(s.order, p, s.pos[p]))
    && (forall d, p :: p in ListAt(s.revDeps, d) <==> DependsOn(s.pkgs, p, d))
  }

  /** Whether `a` is processed strictly before `b`. */
  predicate Before(s: Snapshot, a: Path, b: Path) {
    a in s.pos && b in s.pos && s.pos[a] < s.pos[b]
  }

  /** A production import is always before its importer. */
  lemma ImportsBefore(s: Snapshot, p: Path, d: Path)
    requires Valid(s) && p in s.pkgs && d in s.pkgs[p].imports && d in s.pkgs
    ensures Before(s, d, p)
  {
    var rank :| Ranked(s.pkgs.Keys, ProductionImports(s.pkgs), rank);
    TopoOrderForward(s.pkgs, s.order, rank);
    PositionsBefore(s, ProductionImports(s.pkgs), p, d);
  }

  /** So is a test import, when there is no test-only cycle. */
  lemma TestImportsBefore(s: Snapshot, p: Path, d: Path, rank: Path -> nat)
    requires Valid(s) && Ranked(s.pkgs.Keys, BothImports(s.pkgs), rank) && DependsOn(s.pkgs, p, d)
    ensures Before(s, d, p)
  {
    InBoth(s.pkgs, p, d);
    TopoOrderForwardBoth(s.pkgs, s.order, rank);
    PositionsBefore(s, BothImports(s.pkgs), p, d);
  }

  lemma InBoth(pkgs: Packages, p: Path, d: Path)
    requires DependsOn(pkgs, p, d)
    ensures d in BothImports(pkgs)[p]
  {
  }

  lemma PositionsBefore(s: Snapshot, edges: Edges, p: Path, d: Path)
    requires s.pos.Keys == s.pkgs.Keys == edges.Keys && forall p | p in s.pos :: At(s.order, p, s.pos[p])
    requires Permutes(s.order, s.pkgs) && Forward(s.order, s.pkgs, edges) && p in edges && d in edges[p] && d in s.pkgs
    ensures Before(s, d, p)
  {
    assert At(s.order, p, s.pos[p]);
    var i :| i < s.pos[p] && At(s.order, d, i);
    assert At(s.order, d, s.pos[d]);
  }

  /** Build a snapshot: the order, each path's position in it, and the reverse edges. */
  method NewSnapshot(pkgs: Packages, ghost rank: Path -> nat) returns (s: Snapshot)
    requires Ranked(pkgs.Keys, ProductionImports(pkgs), rank)
    ensures Valid(s) && s.pkgs == pkgs && forall d :: Ascending(ListAt(s.revDeps, d))
  {
    var order := TopoOrder(pkgs);
    TopoOrderForward(pkgs, order, rank);
    var pos := Positions(order);
    var unsorted := ReverseEdges(pkgs);
    var revDeps := SortLists(unsorted);
    s := Snapshot(pkgs, order, pos, revDeps);
    assert pos.Keys == Elements(order);
  }

  /** Sort every list. */
  method SortLists(lists: map<Path, seq<Path>>) returns (sorted: map<Path, seq<Path>>)
    ensures forall d :: Ascending(ListAt(sorted, d))
    ensures forall d, p :: p in ListAt(sorted, d) <==> p in ListAt(lists, d)
  {
    sorted := map[];
    var todo := lists.Keys;
    while todo != {}
      invariant todo <= lists.Keys && sorted.Keys == lists.Keys - todo
      invariant forall d | d in sorted :: Ascending(sorted[d]) && multiset(sorted[d]) == multiset(lists[d])
      decreases todo
    {
      var d :| d in todo;
      var list := SortList(lists[d]);
      sorted, todo := sorted[d := list], todo - {d};
    }
    forall d, p ensures p in ListAt(sorted, d) <==> p in ListAt(lists, d) {
      assert p in ListAt(sorted, d) <==> p in multiset(ListAt(sorted, d));
      assert p in ListAt(lists, d) <==> p in multiset(ListAt(lists, d));
    }
  }

  method Positions(order: seq<Path>) returns (pos: map<Path, nat>)
    requires Distinct(order)
    ensures pos.Keys == Elements(order) && forall p | p in pos :: At(order, p, pos[p])
  {
    pos := map[];
    for i := 0 to |order|
      invariant forall p :: p in pos <==> p in order[..i]
      invariant forall p | p in pos :: At(order, p, pos[p])
    {
      assert order[..i + 1] == order[..i] + [order[i]];
      pos := pos[order[i] := i];
    }
    assert order[..|order|] == order;
  }

  method ReverseEdges(pkgs: Packages) returns (revDeps: map<Path, seq<Path>>)
    ensures forall d, p :: p in ListAt(revDeps, d) <==> DependsOn(pkgs, p, d)
  {
    revDeps := map[];
    var todo := pkgs.Keys;
    while todo != {}
      invariant todo <= pkgs.Keys
      invariant forall d, p :: p in ListAt(revDeps, d) <==> p !in todo && DependsOn(pkgs, p, d)
      decreases todo
    {
      var path :| path in todo;
      var imports := pkgs[path].imports + pkgs[path].testImports;
      ghost var before := revDeps;
      revDeps := AddReverse(pkgs, path, imports, revDeps);
      todo := todo - {path};
      forall d, p ensures p in ListAt(revDeps, d) <==> p !in todo && DependsOn(pkgs, p, d) {
        assert p in ListAt(before, d) <==> p !in todo + {path} && DependsOn(pkgs, p, d);
      }
    }
  }

  method AddReverse(pkgs: Packages, path: Path, imports: seq<Path>, revDeps0: map<Path, seq<Path>>)
    returns (revDeps: map<Path, seq<Path>>)
    ensures forall d, p ::
              p in ListAt(revDeps, d) <==> p in ListAt(revDeps0, d) || (p == path && d in imports && d in pkgs)
  {
    revDeps := revDeps0;
    for i := 0 to |imports|
      invariant forall d, p ::
                  p in ListAt(revDeps, d) <==> p in ListAt(revDeps0, d) || (p == path && d in imports[..i] && d in pkgs)
    {
      assert imports[..i + 1] == imports[..i] + [imports[i]];
      if imports[i] in pkgs {
        revDeps := AppendTo(revDeps, imports[i], path);
      }
    }
    assert imports[..|imports|] == imports;
  }

  // --------------------------------------------------------------- reverse closure

  /** Each path of the chain imports the one before it. */
  ghost predicate Chain(pkgs: Packages, c: seq<Path>) {
    c != [] && forall i | 0 <= i < |c| - 1 :: DependsOn(pkgs, c[i + 1], c[i])
  }

  /** `p` is `target`, or imports it through a chain of production and test imports. */
  ghost predicate Reaches(pkgs: Packages, p: Path, target: Path) {
    exists c :: Chain(pkgs, c) && c[0] == target && c[|c| - 1] == p
  }

  lemma ReachesSelf(pkgs: Packages, p: Path)
    ensures Reaches(pkgs, p, p)
  {
    assert Chain(pkgs, [p]);
  }

  lemma ReachesStep(pkgs: Packages, p: Path, d: Path, target: Path)
    requires Reaches(pkgs, d, target) && DependsOn(pkgs, p, d)
    ensures Reaches(pkgs, p, target)
  {
    var c :| Chain(pkgs, c) && c[0] == target && c[|c| - 1] == d;
    var c' := c + [p];
    assert Chain(pkgs, c') && c'[0] == target && c'[|c'| - 1] == p;
  }

  /** A set that holds the target and every importer of its members holds whatever reaches the target. */
  lemma {:induction false} ClosedHolds(pkgs: Packages, s: set<Path>, target: Path, c: seq<Path>)
    requires target in s && forall d, p | d in s && DependsOn(pkgs, p, d) :: p in s
    requires Chain(pkgs, c) && c[0] == target
    ensures c[|c| - 1] in s
    decreases |c|
  {
    if |c| > 1 {
      var init := c[..|c| - 1];
      ClosedHolds(pkgs, s, target, init);
      assert DependsOn(pkgs, c[|c| - 1], init[|init| - 1]);
    }
  }

  /** The state of the breadth-first search: importers of what has left the queue have been seen. */
  ghost predicate Searching(pkgs: Packages, target: Path, seen: set<Path>, queue: seq<Path>) {
    && target in seen && seen <= pkgs.Keys + {target}
    && (forall p | p in seen :: Reaches(pkgs, p, target))
    && (forall p | p in queue :: p in seen)
    && (forall d, p | d in seen && d !in queue && DependsOn(pkgs, p, d) :: p in seen)
  }

  method Visit(importers: seq<Path>, seen0: set<Path>, queue0: seq<Path>) returns (seen: set<Path>, queue: seq<Path>)
    ensures seen == seen0 + Elements(importers)
    ensures forall p :: p in queue <==> p in queue0 || (p in importers && p !in seen0)
    ensures seen == seen0 ==> queue == queue0
  {
    seen, queue := seen0, queue0;
    for i := 0 to |importers|
      invariant seen == seen0 + Elements(importers[..i])
      invariant forall p :: p in queue <==> p in queue0 || (p in importers[..i] && p !in seen0)
      invariant seen == seen0 ==> queue == queue0
    {
      assert importers[..i + 1] == importers[..i] + [importers[i]];
      if importers[i] !in seen {
        seen := seen + {importers[i]};
        queue := queue + [importers[i]];
      }
    }
    assert importers[..|importers|] == importers;
  }

  lemma Visited(s: Snapshot, target: Path, seen0: set<Path>, queue0: seq<Path>, seen: set<Path>, queue: seq<Path>)
    requires Valid(s) && queue0 != [] && Searching(s.pkgs, target, seen0, queue0)
    requires seen == seen0 + Elements(ListAt(s.revDeps, queue0[0]))
    requires forall p :: p in queue <==> p in queue0[1..] || (p in ListAt(s.revDeps, queue0[0]) && p !in seen0)
    ensures Searching(s.pkgs, target, seen, queue)
  {
    var path, importers := queue0[0], ListAt(s.revDeps, queue0[0]);
    assert path in queue0;
    assert forall p :: p in queue0 <==> p == path || p in queue0[1..];
    forall p | p in importers ensures Reaches(s.pkgs, p, target) && p in s.pkgs {
      ReachesStep(s.pkgs, p, path, target);
    }
    forall d, p | d in seen && d !in queue && DependsOn(s.pkgs, p, d) ensures p in seen {
      if d == path {
        assert p in importers;
      }
    }
  }

  /** Exactly the paths that reach the target, sorted. */
  method ClosureUnits(s: Snapshot, target: Path) returns (out: seq<Path>)
    requires Valid(s)
    ensures Sorted(out) && forall p :: p in out <==> Reaches(s.pkgs, p, target)
  {
    var seen, queue := {target}, [target];
    ReachesSelf(s.pkgs, target);
    while queue != []
      invariant Searching(s.pkgs, target, seen, queue)
      decreases s.pkgs.Keys + {target} - seen, |queue|
    {
      var seen', queue' := Visit(ListAt(s.revDeps, queue[0]), seen, queue[1..]);
      Visited(s, target, seen, queue, seen', queue');
      seen, queue := seen', queue';
    }
    out := SortedMembers(seen);
    forall p ensures p in out <==> Reaches(s.pkgs, p, target) {
      assert p in out <==> p in Elements(out);
      if Reaches(s.pkgs, p, target) {
        var c :| Chain(s.pkgs, c) && c[0] == target && c[|c| - 1] == p;
        ClosedHolds(s.pkgs, seen, target, c);
      }
    }
  }
}

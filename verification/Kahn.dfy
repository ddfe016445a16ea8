/** One pass of Kahn's algorithm: kahnPass of internal/graph/graph.go. */
module Kahn {
  import opened Paths

  type Edges = map<Path, seq<Path>>

  // ---------------------------------------------------------------- specification

  /** Every dependency of `p` inside the scope has been placed, and `p` has not. */
  ghost predicate Ready(scope: set<Path>, edges: Edges, placed: set<Path>, p: Path)
    requires scope <= edges.Keys
  {
    p in scope && p !in placed && forall d | d in edges[p] && d in scope :: d in placed
  }

  /** `p` is the lexicographically least of the ready paths. */
  ghost predicate Least(scope: set<Path>, edges: Edges, placed: set<Path>, p: Path)
    requires scope <= edges.Keys
  {
    Ready(scope, edges, placed, p) && forall q | Ready(scope, edges, placed, q) :: q == p || Less(p, q)
  }

  /** At every position stands the least path ready there. */
  ghost predicate Greedy(scope: set<Path>, edges: Edges, order: seq<Path>)
    requires scope <= edges.Keys
  {
    forall i | 0 <= i < |order| :: Least(scope, edges, Elements(order[..i]), order[i])
  }

  /** The whole pass: greedy, and nothing is ready at the end. */
  ghost predicate IsPass(scope: set<Path>, edges: Edges, order: seq<Path>)
    requires scope <= edges.Keys
  {
    Greedy(scope, edges, order) && forall p :: !Ready(scope, edges, Elements(order), p)
  }

  /** Two greedy orders agree as far as both go, so a pass has one outcome only, whatever order maps are iterated in. */
  lemma {:induction false} GreedyAgree(scope: set<Path>, edges: Edges, s: seq<Path>, t: seq<Path>, n: nat)
    requires scope <= edges.Keys && Greedy(scope, edges, s) && Greedy(scope, edges, t) && n <= |s| && n <= |t|
    ensures s[..n] == t[..n]
  {
    if n > 0 {
      GreedyAgree(scope, edges, s, t, n - 1);
      var placed := Elements(s[..n - 1]);
      assert Least(scope, edges, placed, s[n - 1]) && Least(scope, edges, placed, t[n - 1]);
      LessTotal(s[n - 1], t[n - 1]);
      assert s[..n] == s[..n - 1] + [s[n - 1]] && t[..n] == t[..n - 1] + [t[n - 1]];
    }
  }

  lemma PassUnique(scope: set<Path>, edges: Edges, s: seq<Path>, t: seq<Path>)
    requires scope <= edges.Keys && IsPass(scope, edges, s) && IsPass(scope, edges, t)
    ensures s == t
  {
    if |s| <= |t| {
      GreedyAgree(scope, edges, s, t, |s|);
      NoLonger(scope, edges, s, t);
    } else {
      GreedyAgree(scope, edges, s, t, |t|);
      NoLonger(scope, edges, t, s);
    }
  }

  /** Where nothing is ready, no greedy order goes on. */
  lemma NoLonger(scope: set<Path>, edges: Edges, s: seq<Path>, t: seq<Path>)
    requires scope <= edges.Keys && IsPass(scope, edges, s) && Greedy(scope, edges, t)
    requires |s| <= |t| && s[..|s|] == t[..|s|]
    ensures s == t
  {
    assert s[..|s|] == s;
    if |s| == |t| {
      assert t[..|t|] == t;
    }
  }

  /** No path appears twice, and only paths of the scope do. */
  lemma GreedyDistinct(scope: set<Path>, edges: Edges, order: seq<Path>, i: nat, j: nat)
    requires scope <= edges.Keys && Greedy(scope, edges, order) && i < j < |order|
    ensures order[i] != order[j] && order[i] in scope && order[j] in scope
  {
    assert Least(scope, edges, Elements(order[..i]), order[i]);
    assert Least(scope, edges, Elements(order[..j]), order[j]);
    assert order[..j][i] == order[i];
  }

  /** A placed path comes after each of its dependencies in the scope. */
  lemma GreedyForward(scope: set<Path>, edges: Edges, order: seq<Path>, j: nat, d: Path)
    requires scope <= edges.Keys && Greedy(scope, edges, order) && j < |order|
    requires order[j] in scope && d in edges[order[j]] && d in scope
    ensures exists i :: 0 <= i < j && order[i] == d
  {
    assert Least(scope, edges, Elements(order[..j]), order[j]);
    assert d in order[..j];
  }

  /** Dependencies inside the scope have smaller ranks: the edges are acyclic there. */
  ghost predicate Ranked(scope: set<Path>, edges: Edges, rank: Path -> nat)
    requires scope <= edges.Keys
  {
    forall p, d | p in scope && d in edges[p] && d in scope :: rank(d) < rank(p)
  }

  lemma {:induction false} LeastRank(s: set<Path>, rank: Path -> nat) returns (p: Path)
    requires s != {}
    ensures p in s && forall q | q in s :: rank(p) <= rank(q)
    decreases s
  {
    p :| p in s;
    if s != {p} {
      var q := LeastRank(s - {p}, rank);
      p := if rank(q) < rank(p) then q else p;
    }
  }

  lemma LeastRankReady(scope: set<Path>, edges: Edges, placed: set<Path>, rank: Path -> nat, p: Path)
    requires scope <= edges.Keys && Ranked(scope, edges, rank) && p in scope - placed
    requires forall q | q in scope - placed :: rank(p) <= rank(q)
    ensures Ready(scope, edges, placed, p)
  {
  }

  /** A pass over acyclic edges places everything. */
  lemma PassComplete(scope: set<Path>, edges: Edges, order: seq<Path>, rank: Path -> nat)
    requires scope <= edges.Keys && IsPass(scope, edges, order) && Ranked(scope, edges, rank)
    ensures Elements(order) == scope
  {
    forall p | p in Elements(order) ensures p in scope {
      var i :| 0 <= i < |order| && order[i] == p;
      assert Least(scope, edges, Elements(order[..i]), order[i]);
    }
    var left := scope - Elements(order);
    if left != {} {
      var p := LeastRank(left, rank);
      LeastRankReady(scope, edges, Elements(order), rank, p);
    }
    assert forall p | p in scope :: p in left || p in Elements(order);
  }

  // -------------------------------------------------------------------- counting

  /** How many entries of the list are in the set, with repetitions. */
  ghost function CountIn(s: seq<Path>, among: set<Path>): nat {
    if s == [] then 0 else CountIn(s[..|s| - 1], among) + (if s[|s| - 1] in among then 1 else 0)
  }

  lemma {:induction false} CountWithout(s: seq<Path>, among: set<Path>, p: Path)
    requires p in among
    ensures CountIn(s, among) == CountIn(s, among - {p}) + multiset(s)[p]
  {
    if s != [] {
      CountWithout(s[..|s| - 1], among, p);
      assert s == s[..|s| - 1] + [s[|s| - 1]];
    }
  }

  lemma {:induction false} CountZero(s: seq<Path>, among: set<Path>)
    ensures CountIn(s, among) == 0 <==> forall d | d in s :: d !in among
  {
    if s != [] {
      CountZero(s[..|s| - 1], among);
      assert s == s[..|s| - 1] + [s[|s| - 1]];
    }
  }

  // -------------------------------------------------------------------- the pass

  function Degree(indegree: map<Path, int>, p: Path): int {
    if p in indegree then indegree[p] else 0
  }

  function ListAt(lists: map<Path, seq<Path>>, p: Path): seq<Path> {
    if p in lists then lists[p] else []
  }

  function AddDegree(indegree: map<Path, int>, p: Path, change: int): map<Path, int> {
    indegree[p := Degree(indegree, p) + change]
  }

  function AppendTo(lists: map<Path, seq<Path>>, p: Path, q: Path): map<Path, seq<Path>> {
    lists[p := ListAt(lists, p) + [q]]
  }

  function Grown(seen: Edges, p: Path, d: Path): Edges
    requires p in seen
  {
    seen[p := seen[p] + [d]]
  }

  /** Each path's in-degree counts its edges seen so far that stay in the scope. */
  ghost predicate Degrees(scope: set<Path>, seen: Edges, indegree: map<Path, int>)
    requires scope <= seen.Keys
  {
    forall p | p in scope :: Degree(indegree, p) == CountIn(seen[p], scope)
  }

  /** The edge from `p` to `d`, as often as it is among those seen and in the scope. */
  ghost function EdgeCount(scope: set<Path>, seen: Edges, d: Path, p: Path): nat {
    if d in scope && p in scope && p in seen then multiset(seen[p])[d] else 0
  }

  /** Each path's dependents list the edges seen so far in reverse. */
  ghost predicate Reversed(scope: set<Path>, seen: Edges, dependents: map<Path, seq<Path>>) {
    forall d, p :: multiset(ListAt(dependents, d))[p] == EdgeCount(scope, seen, d, p)
  }

  lemma DegreesGrow(scope: set<Path>, seen: Edges, indegree: map<Path, int>, path: Path, d: Path)
    requires scope <= seen.Keys && path in scope && Degrees(scope, seen, indegree)
    ensures Degrees(scope, Grown(seen, path, d), if d in scope then AddDegree(indegree, path, 1) else indegree)
  {
    assert (seen[path] + [d])[..|seen[path]|] == seen[path];
  }

  lemma ReversedGrow(scope: set<Path>, seen: Edges, dependents: map<Path, seq<Path>>, path: Path, d: Path)
    requires path in scope && path in seen && Reversed(scope, seen, dependents)
    ensures Reversed(scope, Grown(seen, path, d), if d in scope then AppendTo(dependents, d, path) else dependents)
  {
    var lists := if d in scope then AppendTo(dependents, d, path) else dependents;
    forall d', p ensures multiset(ListAt(lists, d'))[p] == EdgeCount(scope, Grown(seen, path, d), d', p) {
      EdgeGrows(scope, seen, path, d, d', p);
      ListGrows(scope, dependents, path, d, d', p);
      assert multiset(ListAt(dependents, d'))[p] == EdgeCount(scope, seen, d', p);
    }
  }

  lemma EdgeGrows(scope: set<Path>, seen: Edges, path: Path, d: Path, d': Path, p: Path)
    requires path in scope && path in seen
    ensures EdgeCount(scope, Grown(seen, path, d), d', p)
         == EdgeCount(scope, seen, d', p) + if d' == d && p == path && d in scope then 1 else 0
  {
  }

  lemma ListGrows(scope: set<Path>, dependents: map<Path, seq<Path>>, path: Path, d: Path, d': Path, p: Path)
    ensures multiset(ListAt(if d in scope then AppendTo(dependents, d, path) else dependents, d'))[p]
         == multiset(ListAt(dependents, d'))[p] + if d' == d && p == path && d in scope then 1 else 0
  {
  }

  method CountEdges(scope: set<Path>, edges: Edges) returns (indegree: map<Path, int>, dependents: map<Path, seq<Path>>)
    requires scope <= edges.Keys
    ensures Degrees(scope, edges, indegree) && Reversed(scope, edges, dependents)
  {
    indegree, dependents := map[], map[];
    var todo := scope;
    ghost var seen: Edges := map p | p in scope :: [];
    while todo != {}
      invariant todo <= scope == seen.Keys && Degrees(scope, seen, indegree) && Reversed(scope, seen, dependents)
      invariant forall p | p in scope :: seen[p] == if p in todo then [] else edges[p]
      decreases todo
    {
      var path :| path in todo;
      indegree, dependents, seen := CountEdgesOf(scope, path, edges[path], indegree, dependents, seen);
      todo := todo - {path};
    }
    SeenAll(scope, seen, edges, indegree, dependents);
  }

  lemma SeenAll(scope: set<Path>, seen: Edges, edges: Edges, indegree: map<Path, int>, dependents: map<Path, seq<Path>>)
    requires scope == seen.Keys <= edges.Keys && forall p | p in scope :: seen[p] == edges[p]
    requires Degrees(scope, seen, indegree) && Reversed(scope, seen, dependents)
    ensures Degrees(scope, edges, indegree) && Reversed(scope, edges, dependents)
  {
    forall d, p ensures multiset(ListAt(dependents, d))[p] == EdgeCount(scope, edges, d, p) {
      assert EdgeCount(scope, seen, d, p) == EdgeCount(scope, edges, d, p);
    }
  }

  method CountEdgesOf(scope: set<Path>, path: Path, es: seq<Path>,
                      indegree0: map<Path, int>, dependents0: map<Path, seq<Path>>, ghost seen0: Edges)
    returns (indegree: map<Path, int>, dependents: map<Path, seq<Path>>, ghost seen: Edges)
    requires scope == seen0.Keys && path in scope && seen0[path] == []
    requires Degrees(scope, seen0, indegree0) && Reversed(scope, seen0, dependents0)
    ensures seen == seen0[path := es]
    ensures Degrees(scope, seen, indegree) && Reversed(scope, seen, dependents)
  {
    indegree, dependents, seen := indegree0, dependents0, seen0;
    for n := 0 to |es|
      invariant seen == seen0[path := es[..n]]
      invariant Degrees(scope, seen, indegree) && Reversed(scope, seen, dependents)
    {
      DegreesGrow(scope, seen, indegree, path, es[n]);
      ReversedGrow(scope, seen, dependents, path, es[n]);
      assert es[..n + 1] == es[..n] + [es[n]];
      seen := Grown(seen, path, es[n]);
      if es[n] in scope {
        indegree := AddDegree(indegree, path, 1);
        dependents := AppendTo(dependents, es[n], path);
      }
    }
    assert es[..|es|] == es;
  }

  /** Each in-degree counts the dependencies that are still to be placed, less the first `j` entries of `list`. */
  ghost predicate Counting(scope: set<Path>, edges: Edges, placed: set<Path>, list: seq<Path>, j: nat,
                           indegree: map<Path, int>)
    requires scope <= edges.Keys && j <= |list|
  {
    forall p | p in scope :: Degree(indegree, p) == CountIn(edges[p], scope - placed) - multiset(list[..j])[p]
  }

  /** The paths that became ready among the first `j` entries, each once. */
  ghost predicate Newly(indegree: map<Path, int>, list: seq<Path>, j: nat, newly: seq<Path>)
    requires j <= |list|
  {
    && (forall i, k | 0 <= i < k < |newly| :: newly[i] != newly[k])
    && (forall p :: p in newly <==> p in list[..j] && Degree(indegree, p) == 0)
  }

  /** Entry `j` of the dependents of `path` loses one dependency. */
  lemma LoseOne(scope: set<Path>, edges: Edges, placed: set<Path>, path: Path, list: seq<Path>, j: nat,
                indegree: map<Path, int>)
    requires scope <= edges.Keys && path in scope - placed && j < |list|
    requires forall p :: multiset(list)[p] == EdgeCount(scope, edges, path, p)
    requires Counting(scope, edges, placed, list, j, indegree)
    ensures list[j] in scope && 0 < Degree(indegree, list[j])
    ensures Counting(scope, edges, placed, list, j + 1, AddDegree(indegree, list[j], -1))
  {
    var q := list[j];
    assert list[..j + 1] == list[..j] + [q];
    assert list == list[..j + 1] + list[j + 1..];
    assert q in multiset(list);
    CountWithout(edges[q], scope - placed, path);
  }

  lemma NewlyNext(indegree: map<Path, int>, list: seq<Path>, j: nat, newly: seq<Path>)
    requires j < |list| && Newly(indegree, list, j, newly) && 0 < Degree(indegree, list[j])
    ensures
      var indegree' := AddDegree(indegree, list[j], -1);
      Newly(indegree', list, j + 1, if Degree(indegree', list[j]) == 0 then newly + [list[j]] else newly)
  {
    var q := list[j];
    assert q !in newly;
    assert forall p :: p in list[..j + 1] <==> p in list[..j] || p == q;
    assert forall p :: p in newly + [q] <==> p in newly || p == q;
  }

  /** Placing `path` releases its dependents; those left with no dependency become ready. */
  method ReleaseDependents(scope: set<Path>, edges: Edges, ghost placed: set<Path>, path: Path, list: seq<Path>,
                           indegree0: map<Path, int>)
    returns (indegree: map<Path, int>, newly: seq<Path>)
    requires scope <= edges.Keys && path in scope - placed
    requires forall p :: multiset(list)[p] == EdgeCount(scope, edges, path, p)
    requires Counting(scope, edges, placed, [], 0, indegree0)
    ensures Counting(scope, edges, placed, list, |list|, indegree) && Newly(indegree, list, |list|, newly)
  {
    indegree, newly := indegree0, [];
    assert list[..0] == [];
    for j := 0 to |list|
      invariant Counting(scope, edges, placed, list, j, indegree) && Newly(indegree, list, j, newly)
    {
      LoseOne(scope, edges, placed, path, list, j, indegree);
      NewlyNext(indegree, list, j, newly);
      indegree := AddDegree(indegree, list[j], -1);
      if Degree(indegree, list[j]) == 0 {
        newly := newly + [list[j]];
      }
    }
  }

  /** Everything a placed path depends on in the scope is placed. */
  ghost predicate Downward(scope: set<Path>, edges: Edges, placed: set<Path>)
    requires scope <= edges.Keys
  {
    placed <= scope && forall q, d | q in placed && d in edges[q] && d in scope :: d in placed
  }

  /** After placing `path`, the counts are those of the larger placed set, and what is ready is known. */
  lemma Placed(scope: set<Path>, edges: Edges, placed: set<Path>, path: Path, list: seq<Path>,
               indegree: map<Path, int>, newly: seq<Path>, p: Path)
    requires scope <= edges.Keys && Downward(scope, edges, placed) && Ready(scope, edges, placed, path)
    requires forall p :: multiset(list)[p] == EdgeCount(scope, edges, path, p)
    requires Counting(scope, edges, placed, list, |list|, indegree) && Newly(indegree, list, |list|, newly)
    ensures p in scope ==> Degree(indegree, p) == CountIn(edges[p], scope - (placed + {path}))
    ensures Ready(scope, edges, placed + {path}, p) <==> p in newly || (p != path && Ready(scope, edges, placed, p))
    ensures p in newly ==> !Ready(scope, edges, placed, p)
  {
    assert list[..|list|] == list;
    assert p in list <==> 0 < multiset(list)[p];
    if p in scope {
      assert path in edges[p] <==> 0 < multiset(edges[p])[path];
      CountWithout(edges[p], scope - placed, path);
      assert scope - placed - {path} == scope - (placed + {path});
      CountZero(edges[p], scope - placed);
      CountZero(edges[p], scope - (placed + {path}));
      CountZero(edges[path], scope - placed);
    }
  }

  /** The state of the main loop. */
  ghost predicate Underway(scope: set<Path>, edges: Edges, order: seq<Path>, ready: seq<Path>, indegree: map<Path, int>)
    requires scope <= edges.Keys
  {
    && Greedy(scope, edges, order) && Downward(scope, edges, Elements(order))
    && Counting(scope, edges, Elements(order), [], 0, indegree)
    && Sorted(ready) && forall p :: p in ready <==> Ready(scope, edges, Elements(order), p)
  }

  /** The first of the sorted ready list is the least path ready, so the order stays greedy. */
  lemma PlaceFirst(scope: set<Path>, edges: Edges, order: seq<Path>, ready: seq<Path>, indegree: map<Path, int>)
    requires scope <= edges.Keys && Underway(scope, edges, order, ready, indegree) && ready != []
    ensures Ready(scope, edges, Elements(order), ready[0])
    ensures Elements(order + [ready[0]]) == Elements(order) + {ready[0]}
    ensures Greedy(scope, edges, order + [ready[0]])
    ensures Downward(scope, edges, Elements(order) + {ready[0]})
  {
    var order' := order + [ready[0]];
    assert ready[0] in ready;
    assert Least(scope, edges, Elements(order), ready[0]);
    forall i | 0 <= i < |order'| ensures Least(scope, edges, Elements(order'[..i]), order'[i]) {
      assert order'[..i] == order[..i];
      assert order[..|order|] == order;
    }
  }

  /** What is ready once `path`, the first of the list, is placed: the others and the newly ready. */
  lemma PlacedAll(scope: set<Path>, edges: Edges, order: seq<Path>, ready: seq<Path>, list: seq<Path>,
                  indegree0: map<Path, int>, indegree: map<Path, int>, newly: seq<Path>)
    requires scope <= edges.Keys && Underway(scope, edges, order, ready, indegree0) && ready != []
    requires forall p :: multiset(list)[p] == EdgeCount(scope, edges, ready[0], p)
    requires Counting(scope, edges, Elements(order), list, |list|, indegree) && Newly(indegree, list, |list|, newly)
    ensures Counting(scope, edges, Elements(order) + {ready[0]}, [], 0, indegree)
    ensures forall i, j | 0 <= i < j < |ready[1..] + newly| :: (ready[1..] + newly)[i] != (ready[1..] + newly)[j]
    ensures forall p :: p in ready[1..] + newly <==> Ready(scope, edges, Elements(order) + {ready[0]}, p)
  {
    var placed, path := Elements(order), ready[0];
    assert path in ready;
    forall p
      ensures p in scope ==> Degree(indegree, p) == CountIn(edges[p], scope - (placed + {path}))
      ensures Ready(scope, edges, placed + {path}, p) <==> p in newly || (p != path && p in ready)
      ensures p in newly ==> p !in ready
    {
      Placed(scope, edges, placed, path, list, indegree, newly, p);
    }
    TailElements(ready);
    assert forall p :: p in ready[1..] <==> p in Elements(ready[1..]);
    LessTotal(path, path);
    forall i, j | 0 <= i < j < |ready| ensures ready[i] != ready[j] {
      LessTotal(ready[i], ready[j]);
    }
    assert forall k | 0 <= k < |newly| :: newly[k] in newly;
    assert forall k | 0 <= k < |ready| - 1 :: ready[1..][k] in ready;
  }

  /** One pass: the order is the greedy one, however the maps behind it are iterated. */
  method KahnPass(scope: set<Path>, edges: Edges) returns (order: seq<Path>, placed: set<Path>)
    requires scope <= edges.Keys
    ensures IsPass(scope, edges, order) && placed == Elements(order)
  {
    var indegree, dependents := CountEdges(scope, edges);
    var ready := InitiallyReady(scope, edges, indegree);
    order, placed := [], {};
    while ready != []
      invariant Underway(scope, edges, order, ready, indegree) && placed == Elements(order)
      decreases scope - placed
    {
      var path := ready[0];
      PlaceFirst(scope, edges, order, ready, indegree);
      var list := ListAt(dependents, path);
      ghost var indegree0 := indegree;
      var newly;
      indegree, newly := ReleaseDependents(scope, edges, placed, path, list, indegree);
      PlacedAll(scope, edges, order, ready, list, indegree0, indegree, newly);
      ghost var all := ready[1..] + newly;
      ready := SortPaths(ready[1..] + newly);
      assert forall p :: p in ready <==> p in Elements(all);
      order := order + [path];
      placed := placed + {path};
    }
  }

  method InitiallyReady(scope: set<Path>, edges: Edges, indegree: map<Path, int>) returns (ready: seq<Path>)
    requires scope <= edges.Keys && Degrees(scope, edges, indegree)
    ensures Underway(scope, edges, [], ready, indegree)
  {
    var found: seq<Path> := [];
    var todo := scope;
    while todo != {}
      invariant todo <= scope && forall i, j | 0 <= i < j < |found| :: found[i] != found[j]
      invariant forall p :: p in found <==> p in scope - todo && Degree(indegree, p) == 0
      decreases todo
    {
      var path :| path in todo;
      todo := todo - {path};
      if Degree(indegree, path) == 0 {
        assert forall p :: p in found + [path] <==> p in found || p == path;
        found := found + [path];
      }
    }
    ready := SortPaths(found);
    assert forall p :: p in ready <==> p in Elements(found);
    assert scope - Elements([]) == scope;
    forall p ensures p in ready <==> Ready(scope, edges, Elements([]), p) {
      if p in scope {
        CountZero(edges[p], scope);
      }
    }
  }
}

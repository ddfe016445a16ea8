/** Import paths and their lexicographic order, as Go compares strings. */
module Paths {
  type Path = string

  predicate Less(a: Path, b: Path) {
    b != [] && (a == [] || a[0] < b[0] || (a[0] == b[0] && Less(a[1..], b[1..])))
  }

  /** `a` and `b` agree up to `n`, and there `a` ends first or has the smaller character. */
  ghost predicate DiffersAt(a: Path, b: Path, n: int) {
    0 <= n <= |a| && n < |b| && a[..n] == b[..n] && (n == |a| || a[n] < b[n])
  }

  lemma SameHead(a: Path, b: Path, n: int)
    requires DiffersAt(a, b, n)
    ensures n > 0 ==> a[0] == b[0]
  {
    if n > 0 {
      assert a[..n][0] == b[..n][0];
    }
  }

  /** Less is lexicographic order: the first difference decides, and a proper prefix comes first. */
  lemma {:induction false} LessMeans(a: Path, b: Path)
    ensures Less(a, b) <==> exists n :: DiffersAt(a, b, n)
  {
    if a == [] || b == [] || a[0] != b[0] {
      assert b != [] && (a == [] || a[0] < b[0]) ==> DiffersAt(a, b, 0);
      forall n | DiffersAt(a, b, n) ensures n == 0 {
        SameHead(a, b, n);
      }
    } else {
      LessMeans(a[1..], b[1..]);
      if Less(a, b) {
        var n :| DiffersAt(a[1..], b[1..], n);
        assert a[..n + 1] == [a[0]] + a[1..][..n] && b[..n + 1] == [b[0]] + b[1..][..n];
        assert DiffersAt(a, b, n + 1);
      }
      forall n | DiffersAt(a, b, n) ensures Less(a, b) {
        assert a[1..][..n - 1] == a[..n][1..] && b[1..][..n - 1] == b[..n][1..];
        assert DiffersAt(a[1..], b[1..], n - 1);
      }
    }
  }

  /** Exactly one of two different paths is the smaller. */
  lemma {:induction false} LessTotal(a: Path, b: Path)
    ensures a == b || Less(a, b) || Less(b, a)
    ensures !(Less(a, b) && Less(b, a)) && !Less(a, a)
  {
    if a != [] && b != [] && a[0] == b[0] {
      LessTotal(a[1..], b[1..]);
      assert a[1..] == b[1..] ==> a == b;
    }
    if a != [] {
      LessTotal(a[1..], a[1..]);
    }
  }

  lemma {:induction false} LessTransitive(a: Path, b: Path, c: Path)
    requires Less(a, b) && Less(b, c)
    ensures Less(a, c)
  {
    if a != [] && a[0] == b[0] == c[0] {
      LessTransitive(a[1..], b[1..], c[1..]);
    }
  }

  /** In strictly ascending order. */
  ghost predicate Sorted(s: seq<Path>) {
    forall i, j | 0 <= i < j < |s| :: Less(s[i], s[j])
  }

  ghost function Elements(s: seq<Path>): set<Path> {
    set p | p in s
  }

  ghost predicate Distinct(s: seq<Path>) {
    forall i, j | 0 <= i < j < |s| :: s[i] != s[j]
  }

  lemma {:induction false} DistinctCard(s: seq<Path>)
    requires Distinct(s)
    ensures |Elements(s)| == |s|
  {
    if s != [] {
      var init, last := s[..|s| - 1], s[|s| - 1];
      DistinctCard(init);
      assert s == init + [last];
      assert Elements(s) == Elements(init) + {last} && last !in Elements(init);
    }
  }

  lemma SubsetCard(s: set<Path>, t: set<Path>)
    requires s <= t
    ensures |s| <= |t| && (|s| == |t| ==> s == t)
  {
    assert t == s + (t - s);
  }

  /** Insert a new path into a sorted list. */
  function Inserted(s: seq<Path>, p: Path): seq<Path> {
    if s == [] || Less(p, s[0]) then [p] + s else [s[0]] + Inserted(s[1..], p)
  }

  lemma {:induction false} InsertedSorted(s: seq<Path>, p: Path)
    requires Sorted(s) && p !in s
    ensures Sorted(Inserted(s, p)) && Elements(Inserted(s, p)) == Elements(s) + {p}
  {
    if s != [] {
      LessTotal(s[0], p);
      if Less(p, s[0]) {
        forall j | 0 < j < |s| ensures Less(p, s[j]) {
          LessTransitive(p, s[0], s[j]);
        }
      } else {
        InsertedSorted(s[1..], p);
        var r := Inserted(s[1..], p);
        assert s == [s[0]] + s[1..];
        forall j | 0 <= j < |r| ensures Less(s[0], r[j]) {
          assert r[j] in Elements(r);
        }
      }
    }
  }

  /** In order, with equal paths allowed. */
  ghost predicate Ascending(s: seq<Path>) {
    forall i, j | 0 <= i < j < |s| :: !Less(s[j], s[i])
  }

  ghost predicate NoneBelow(s: seq<Path>, p: Path) {
    forall j | 0 <= j < |s| :: !Less(s[j], p)
  }

  lemma AscendingCons(h: Path, t: seq<Path>)
    requires Ascending(t) && NoneBelow(t, h)
    ensures Ascending([h] + t)
  {
  }

  lemma {:induction false} InsertedSame(s: seq<Path>, p: Path)
    ensures multiset(Inserted(s, p)) == multiset(s) + multiset{p}
  {
    if s != [] && !Less(p, s[0]) {
      InsertedSame(s[1..], p);
      assert s == [s[0]] + s[1..];
    }
  }

  lemma {:induction false} InsertedAscending(s: seq<Path>, p: Path)
    requires Ascending(s)
    ensures Ascending(Inserted(s, p))
  {
    if s != [] {
      if Less(p, s[0]) {
        forall j | 0 <= j < |s| ensures !Less(s[j], p) {
          NotLess(s, j, p);
        }
        AscendingCons(p, s);
      } else {
        InsertedAscending(s[1..], p);
        NoneLess(s, p);
        AscendingCons(s[0], Inserted(s[1..], p));
      }
    }
  }

  lemma NoneLess(s: seq<Path>, p: Path)
    requires Ascending(s) && s != [] && !Less(p, s[0])
    ensures NoneBelow(Inserted(s[1..], p), s[0])
  {
    InsertedSame(s[1..], p);
    var r := Inserted(s[1..], p);
    forall j | 0 <= j < |r| ensures !Less(r[j], s[0]) {
      assert r[j] in multiset(r);
      assert r[j] == p || r[j] in s[1..];
    }
  }

  lemma NotLess(s: seq<Path>, j: nat, p: Path)
    requires Ascending(s) && j < |s| && Less(p, s[0])
    ensures !Less(s[j], p)
  {
    LessTotal(p, s[0]);
    LessTotal(s[j], s[0]);
    if Less(s[j], p) {
      LessTransitive(s[j], p, s[0]);
    }
  }

  /** sort.Strings, for any list. */
  method SortList(s: seq<Path>) returns (r: seq<Path>)
    ensures Ascending(r) && multiset(r) == multiset(s)
  {
    r := [];
    for i := 0 to |s|
      invariant Ascending(r) && multiset(r) == multiset(s[..i])
    {
      InsertedAscending(r, s[i]);
      InsertedSame(r, s[i]);
      assert s[..i + 1] == s[..i] + [s[i]];
      r := Inserted(r, s[i]);
    }
    assert s[..|s|] == s;
  }

  /** The members of a set in order. */
  ghost function SortedOf(s: set<Path>): (r: seq<Path>)
    ensures Sorted(r) && Elements(r) == s
  {
    if s == {} then [] else
      var p :| p in s;
      var rest := SortedOf(s - {p});
      assert p !in Elements(rest);
      InsertedSorted(rest, p);
      Inserted(rest, p)
  }

  /** sort.Strings, for a list without duplicates. */
  method SortPaths(s: seq<Path>) returns (r: seq<Path>)
    requires Distinct(s)
    ensures Sorted(r) && Elements(r) == Elements(s)
  {
    r := [];
    for i := 0 to |s|
      invariant Sorted(r) && Elements(r) == Elements(s[..i])
    {
      assert s[i] !in s[..i];
      assert s[i] !in r by { assert s[i] !in Elements(r); }
      InsertedSorted(r, s[i]);
      r := Inserted(r, s[i]);
      assert s[..i + 1] == s[..i] + [s[i]];
    }
    assert s[..|s|] == s;
  }

  /** The members of a set, collected in any order and then sorted. */
  method SortedMembers(s: set<Path>) returns (r: seq<Path>)
    ensures Sorted(r) && Elements(r) == s
  {
    var found: seq<Path> := [];
    var todo := s;
    while todo != {}
      invariant todo <= s && Elements(found) == s - todo
      invariant Distinct(found)
      decreases todo
    {
      var p :| p in todo;
      assert p !in Elements(found);
      assert Elements(found + [p]) == Elements(found) + {p};
      todo := todo - {p};
      found := found + [p];
    }
    r := SortPaths(found);
  }

  /** A sorted list is determined by its elements. */
  lemma {:induction false} SortedUnique(s: seq<Path>, t: seq<Path>)
    requires Sorted(s) && Sorted(t) && Elements(s) == Elements(t)
    ensures s == t
    decreases |s|
  {
    if s != [] || t != [] {
      assert s != [] by { assert t != [] ==> t[0] in Elements(t); }
      assert t != [] by { assert s[0] in Elements(s); }
      FirstSame(s, t);
      assert Elements(s[1..]) == Elements(s) - {s[0]} by { TailElements(s); }
      assert Elements(t[1..]) == Elements(t) - {t[0]} by { TailElements(t); }
      SortedUnique(s[1..], t[1..]);
      assert s == [s[0]] + s[1..] && t == [t[0]] + t[1..];
    }
  }

  lemma TailElements(s: seq<Path>)
    requires Sorted(s) && s != []
    ensures Elements(s[1..]) == Elements(s) - {s[0]}
  {
    assert s == [s[0]] + s[1..];
    LessTotal(s[0], s[0]);
    assert forall i | 0 <= i < |s| - 1 :: s[1..][i] == s[i + 1];
  }

  lemma FirstSame(s: seq<Path>, t: seq<Path>)
    requires Sorted(s) && Sorted(t) && Elements(s) == Elements(t) && s != [] && t != []
    ensures s[0] == t[0]
  {
    assert s[0] in Elements(t) && t[0] in Elements(s);
    var i :| 0 <= i < |t| && t[i] == s[0];
    var j :| 0 <= j < |s| && s[j] == t[0];
    LessTotal(s[0], t[0]);
  }

  // -------------------------------------------------------------------------- sums

  ghost function Sum(units: set<Path>, f: Path -> nat): nat {
    if units == {} then 0 else
      var p :| p in units;
      f(p) + Sum(units - {p}, f)
  }

  lemma {:induction false} SumWithout(units: set<Path>, f: Path -> nat, p: Path)
    requires p in units
    ensures Sum(units, f) == f(p) + Sum(units - {p}, f)
  {
    var q :| q in units && Sum(units, f) == f(q) + Sum(units - {q}, f);
    if q != p {
      SumWithout(units - {q}, f, p);
      SumWithout(units - {p}, f, q);
      assert units - {q} - {p} == units - {p} - {q};
    }
  }

  lemma {:induction false} SumAtMost(units: set<Path>, f: Path -> nat, g: Path -> nat)
    requires forall p | p in units :: f(p) <= g(p)
    ensures Sum(units, f) <= Sum(units, g)
  {
    if units != {} {
      var p :| p in units && Sum(units, f) == f(p) + Sum(units - {p}, f);
      SumAtMost(units - {p}, f, g);
      SumWithout(units, g, p);
    }
  }

  lemma SumGrows(units: set<Path>, f: Path -> nat, g: Path -> nat, p: Path)
    requires p in units && f(p) < g(p) && forall q | q in units && q != p :: f(q) <= g(q)
    ensures Sum(units, f) < Sum(units, g)
  {
    SumWithout(units, f, p);
    SumWithout(units, g, p);
    SumAtMost(units - {p}, f, g);
  }

  /** Changing one summand changes the sum by as much. */
  lemma SumChange(units: set<Path>, f: Path -> nat, g: Path -> nat, p: Path)
    requires p in units && forall q | q in units && q != p :: f(q) == g(q)
    ensures Sum(units, g) + f(p) == Sum(units, f) + g(p)
  {
    SumWithout(units, f, p);
    SumWithout(units, g, p);
    SumAtMost(units - {p}, f, g);
    SumAtMost(units - {p}, g, f);
  }
}

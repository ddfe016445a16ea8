/**
 Myers' greedy search of internal/diff/diff.go and the backtrack over its saved snapshots.
 The search works on any type of line that has an equality test.
 */
module Myers {
  import opened EditGraph

  // ------------------------------------------------------------------ the search

  /** A complete run of the search: its last round is the first to reach the far corner, and stops exactly there. */
  ghost predicate IsTrace<T>(a: seq<T>, b: seq<T>, trace: seq<seq<int>>, offset: nat) {
    && offset == |a| + |b|
    && 1 <= |trace| <= offset + 1
    && (forall d | 0 <= d < |trace| :: Before(a, b, trace[d], offset, d))
    && Furthest(a, b, |trace| - 1, |a| - |b|, |a|)
    && NotYet(a, b, |trace| - 1)
  }

  /** Rounds before `d` found no path to the far corner. */
  ghost predicate NotYet<T>(a: seq<T>, b: seq<T>, d: int) {
    forall e :: e < d ==> !ReachCorner(a, b, e)
  }

  /** The column round `d` records for diagonal `k`: enter it, then slide to the first mismatch. */
  method FollowDiagonal<T(==)>(a: seq<T>, b: seq<T>, v: seq<int>, offset: nat, d: int, k: int, ghost was: seq<int>)
    returns (x: int)
    requires OnRound(d, k) && Before(a, b, was, offset, d) && |v| == |was|
    requires k != -d ==> v[offset + k - 1] == was[offset + k - 1]
    requires k != d || d == 0 ==> v[offset + k + 1] == was[offset + k + 1]
    ensures Furthest(a, b, d, k, x)
  {
    if k == -d || (k != d && v[offset + k - 1] < v[offset + k + 1]) {
      x := v[offset + k + 1];
    } else {
      x := v[offset + k - 1] + 1;
    }
    EntryReached(a, b, was, offset, d, k);
    var y := x - k;
    while x < |a| && y < |b| && a[x] == b[y]
      invariant y == x - k && Entry(was, offset, d, k) <= x
      invariant Reach(a, b, d, k, x)
    {
      x := x + 1;
      y := y + 1;
    }
    forall x' | Reach(a, b, d, k, x') ensures x' <= x {
      SlideIsFurthest(a, b, was, offset, d, k, x, x');
    }
  }

  /** One round of the search, updating `v` in place; it stops early only at the far corner. */
  method SearchRound<T(==)>(a: seq<T>, b: seq<T>, v: array<int>, offset: nat, d: int) returns (found: bool)
    requires 0 <= d && Before(a, b, v[..], offset, d) && NotYet(a, b, d)
    modifies v
    ensures found ==> Furthest(a, b, d, |a| - |b|, |a|)
    ensures !found ==> Layer(a, b, v[..], offset, d) && NotYet(a, b, d + 1)
  {
    ghost var was := v[..];
    var k := -d;
    while k <= d
      invariant -d <= k <= d + 2 && (d - k) % 2 == 0
      invariant forall j :: OnRound(d, j) && j < k ==>
                  Furthest(a, b, d, j, v[offset + j]) && !(|a| <= v[offset + j] && |b| <= v[offset + j] - j)
      invariant forall i | 0 <= i < v.Length :: !OnRound(d, i - offset) ==> v[i] == was[i]
    {
      var x := FollowDiagonal(a, b, v[..], offset, d, k, was);
      v[offset + k] := x;
      if |a| <= x && |b| <= x - k {
        CornerWithin(a, b, d, k, x);
        return true;
      }
      k := k + 2;
    }
    if ReachCorner(a, b, d) {
      ReachOnRound(a, b, d, |a| - |b|, |a|);
      assert false;
    }
    return false;
  }

  method ShortestEditTrace<T(==)>(a: seq<T>, b: seq<T>) returns (trace: seq<seq<int>>, offset: nat)
    ensures |a| + |b| == 0 ==> trace == [] && offset == 0
    ensures |a| + |b| > 0 ==> IsTrace(a, b, trace, offset)
  {
    var n, m := |a|, |b|;
    var maxD := n + m;
    if maxD == 0 {
      return [], 0;
    }
    trace, offset := [], maxD;
    var v := new int[2 * maxD + 1](_ => 0);
    var d := 0;
    while d <= maxD
      invariant 0 <= d <= maxD + 1 && |trace| == d
      invariant forall e | 0 <= e < d :: Before(a, b, trace[e], offset, e)
      invariant d <= maxD ==> Before(a, b, v[..], offset, d)
      invariant NotYet(a, b, d)
    {
      trace := trace + [v[..]];
      var found := SearchRound(a, b, v, offset, d);
      if found {
        return;
      }
      d := d + 1;
    }
    // Round n + m always finds a path, so the loop never runs out of rounds.
    AllEdits(a, b, n, m);
    assert ReachCorner(a, b, maxD);
    assert false;
  }

  // --------------------------------------------------------------- the backtrack

  ghost function Reversed<T>(s: seq<T>): (r: seq<T>)
    ensures |r| == |s|
  {
    if s == [] then [] else [s[|s| - 1]] + Reversed(s[..|s| - 1])
  }

  lemma {:induction false} ReversedAt<T>(s: seq<T>, i: nat)
    requires i < |s|
    ensures Reversed(s)[i] == s[|s| - 1 - i]
  {
    if 0 < i {
      ReversedAt(s[..|s| - 1], i - 1);
    }
  }

  lemma ReversedPush<T>(s: seq<T>, t: T)
    ensures Reversed(s + [t]) == [t] + Reversed(s)
  {
    assert (s + [t])[..|s|] == s;
  }

  /** Swap from both ends until the indices meet. */
  method Reverse<T>(s: seq<T>) returns (r: seq<T>)
    ensures r == Reversed(s)
  {
    r := s;
    var i, j := 0, |r| - 1;
    while i < j
      invariant 0 <= i && j == |s| - 1 - i && i <= j + 1 && |r| == |s|
      invariant forall h | 0 <= h < i :: r[h] == s[|s| - 1 - h] && r[|s| - 1 - h] == s[h]
      invariant forall h | i <= h <= j :: r[h] == s[h]
    {
      r := r[i := r[j]][j := r[i]];
      i, j := i + 1, j - 1;
    }
    forall h | 0 <= h < |s| ensures r[h] == Reversed(s)[h] {
      ReversedAt(s, h);
      assert h < i || i <= h <= j || r[|s| - 1 - (|s| - 1 - h)] == s[|s| - 1 - h];
    }
  }

  /** `rest`, read backwards, turns `a[x..]` into `b[y..]` at the given cost. */
  ghost predicate Remaining<T>(a: seq<T>, b: seq<T>, rest: seq<Op>, x: int, y: int, cost: int) {
    Transforms(a, b, Reversed(rest), x, y) && Cost(Reversed(rest)) == cost
  }

  lemma Prepend<T>(a: seq<T>, b: seq<T>, rest: seq<Op>, x: int, y: int, cost: int, op: Op)
    requires Remaining(a, b, rest, x, y, cost) && x <= |a| && y <= |b|
    ensures op == Insert(y - 1) ==> Remaining(a, b, rest + [op], x, y - 1, cost + 1)
    ensures op == Delete(x - 1) ==> Remaining(a, b, rest + [op], x - 1, y, cost + 1)
    ensures op == Equal(x - 1, y - 1) && Match(a, b, x - 1, y - 1) ==> Remaining(a, b, rest + [op], x - 1, y - 1, cost)
  {
    ReversedPush(rest, op);
    assert ([op] + Reversed(rest))[1..] == Reversed(rest);
  }

  /** Walk the diagonal of (x, y) back to (prevX, prevY)'s row or column, recording the kept lines. */
  method WalkSnake<T>(ghost a: seq<T>, ghost b: seq<T>, ghost v: seq<int>, ghost offset: nat, ghost d: nat,
                      rest: seq<Op>, x0: nat, y0: nat, prevX: int, prevY: int, ghost cost: int)
    returns (rest': seq<Op>, x: nat, y: nat)
    requires Remaining(a, b, rest, x0, y0, cost) && x0 <= |a| && y0 <= |b|
    requires OnRound(d, x0 - y0) && Before(a, b, v, offset, d) && Furthest(a, b, d, x0 - y0, x0)
    requires if Down(v, offset, d, x0 - y0) then prevX == Entry(v, offset, d, x0 - y0) && prevX - prevY == x0 - y0 + 1
             else prevX == Entry(v, offset, d, x0 - y0) - 1 && prevX - prevY == x0 - y0 - 1
    ensures x == Entry(v, offset, d, x0 - y0) <= |a| && x - y == x0 - y0 && y <= |b|
    ensures Remaining(a, b, rest', x, y, cost)
  {
    ghost var k := x0 - y0;
    EntryReached(a, b, v, offset, d, k);
    rest', x, y := rest, x0, y0;
    while x > prevX && y > prevY
      invariant x - y == k && Entry(v, offset, d, k) <= x <= |a| && y <= |b|
      invariant Reach(a, b, d, k, x)
      invariant Remaining(a, b, rest', x, y, cost)
    {
      BeyondEntry(a, b, v, offset, d, k, x);
      Prepend(a, b, rest', x, y, cost, Equal(x - 1, y - 1));
      rest' := rest' + [Equal(x - 1, y - 1)];
      x, y := x - 1, y - 1;
    }
  }

  /** One round of the backtrack: the kept lines of a diagonal, then the edit that entered it. */
  method BacktrackRound<T>(ghost a: seq<T>, ghost b: seq<T>, v: seq<int>, offset: nat, d: nat,
                           rest: seq<Op>, x0: nat, y0: nat, ghost cost: int)
    returns (rest': seq<Op>, x: nat, y: nat)
    requires Remaining(a, b, rest, x0, y0, cost) && x0 <= |a| && y0 <= |b|
    requires Before(a, b, v, offset, d) && Furthest(a, b, d, x0 - y0, x0)
    ensures d == 0 ==> x == y == 0 && Remaining(a, b, rest', x, y, cost)
    ensures d > 0 ==> x <= |a| && y <= |b| && Furthest(a, b, d - 1, x - y, x)
    ensures d > 0 ==> Remaining(a, b, rest', x, y, cost + 1)
  {
    var k := x0 - y0;
    ReachOnRound(a, b, d, k, x0);
    var prevK: int;
    if k + d == 0 || (k != d && v[offset + k - 1] < v[offset + k + 1]) {
      prevK := k + 1;
    } else {
      prevK := k - 1;
    }
    var prevX := v[offset + prevK];
    var prevY := prevX - prevK;
    rest', x, y := WalkSnake(a, b, v, offset, d, rest, x0, y0, prevX, prevY, cost);
    if d > 0 {
      assert OnRound(d - 1, prevK);
      if x == prevX {
        Prepend(a, b, rest', x, y, cost, Insert(y - 1));
        rest' := rest' + [Insert(y - 1)];
      } else {
        Prepend(a, b, rest', x, y, cost, Delete(x - 1));
        rest' := rest' + [Delete(x - 1)];
      }
      x, y := prevX, prevY;
    }
  }

  method Backtrack<T>(ghost a: seq<T>, ghost b: seq<T>, n: nat, m: nat, trace: seq<seq<int>>, offset: nat)
    returns (ops: seq<Op>)
    requires n == |a| && m == |b|
    requires if n + m == 0 then trace == [] else IsTrace(a, b, trace, offset)
    ensures Transforms(a, b, ops, 0, 0)
    ensures Cost(ops) == if n + m == 0 then 0 else |trace| - 1
  {
    var x: nat, y: nat := n, m;
    var rest: seq<Op> := [];
    var d := |trace| - 1;
    while d >= 0
      invariant -1 <= d < |trace| && x <= n && y <= m
      invariant d >= 0 ==> Furthest(a, b, d, x - y, x) && Remaining(a, b, rest, x, y, |trace| - 1 - d)
      invariant d < 0 ==> x == y == 0 && Remaining(a, b, rest, 0, 0, if n + m == 0 then 0 else |trace| - 1)
    {
      rest, x, y := BacktrackRound(a, b, trace[d], offset, d, rest, x, y, |trace| - 1 - d);
      d := d - 1;
    }
    ops := Reverse(rest);
  }

  /** The edit script of two line sequences, and it is a shortest one. */
  method DiffLines<T(==)>(a: seq<T>, b: seq<T>) returns (ops: seq<Op>)
    ensures Transforms(a, b, ops, 0, 0)
    ensures forall other :: Transforms(a, b, other, 0, 0) ==> Cost(ops) <= Cost(other)
  {
    var trace, offset := ShortestEditTrace(a, b);
    ops := Backtrack(a, b, |a|, |b|, trace, offset);
    forall other | Transforms(a, b, other, 0, 0) ensures Cost(ops) <= Cost(other) {
      ScriptReaches(a, b, other, 0, 0, 0);
    }
  }
}

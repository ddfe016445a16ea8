/**
 The edit graph of two sequences, as internal/diff/diff.go searches it.

 A point is written in diagonal coordinates: diagonal `k` and column `x`, so its row is `x - k`.
 The search lets a path run past the grid (`x > |a|` or `x - k > |b|`) on the diagonals it does
 not stop on, so reachability is defined on the whole quadrant; only diagonal moves need a match.
 */
module EditGraph {

  /** One step of an edit script, in document order. */
  datatype Op = Equal(aIdx: int, bIdx: int) | Delete(aIdx: int) | Insert(bIdx: int)

  /** The script `ops` turns `a[x..]` into `b[y..]`. */
  ghost predicate Transforms<T>(a: seq<T>, b: seq<T>, ops: seq<Op>, x: int, y: int) {
    if ops == [] then x == |a| && y == |b|
    else match ops[0]
      case Equal(i, j) => i == x && j == y && Match(a, b, x, y) && Transforms(a, b, ops[1..], x + 1, y + 1)
      case Delete(i) => i == x < |a| && Transforms(a, b, ops[1..], x + 1, y)
      case Insert(j) => j == y < |b| && Transforms(a, b, ops[1..], x, y + 1)
  }

  /** The number of deletions plus insertions. */
  ghost function Cost(ops: seq<Op>): nat {
    if ops == [] then 0 else (if ops[0].Equal? then 0 else 1) + Cost(ops[1..])
  }

  ghost predicate Match<T>(a: seq<T>, b: seq<T>, x: int, y: int) {
    0 <= x < |a| && 0 <= y < |b| && a[x] == b[y]
  }

  /** Some path of exactly `d` insertions and deletions leads from the origin to column `x` of diagonal `k`. */
  ghost predicate Reach<T>(a: seq<T>, b: seq<T>, d: int, k: int, x: int)
    decreases if x < 0 || x < k then 0 else 2 * x - k + 1
  {
    && 0 <= x && k <= x && 0 <= d
    && (|| (d == 0 && k == 0 && x == 0)
        || (Match(a, b, x - 1, x - 1 - k) && Reach(a, b, d, k, x - 1))
        || Reach(a, b, d - 1, k - 1, x - 1)
        || Reach(a, b, d - 1, k + 1, x))
  }

  /** `d` insertions and deletions turn all of `a` into all of `b`. */
  ghost predicate ReachCorner<T>(a: seq<T>, b: seq<T>, d: int) {
    Reach(a, b, d, |a| - |b|, |a|)
  }

  /** `x` is the furthest column of diagonal `k` that `d` insertions and deletions reach. */
  ghost predicate Furthest<T>(a: seq<T>, b: seq<T>, d: int, k: int, x: int) {
    Reach(a, b, d, k, x) && forall x' :: Reach(a, b, d, k, x') ==> x' <= x
  }

  /** Diagonal `k` is one of those round `d` of the search visits. */
  predicate OnRound(d: int, k: int) {
    -d <= k <= d && (d - k) % 2 == 0
  }

  /** `v` holds the furthest column of every diagonal of round `d`. */
  ghost predicate Layer<T>(a: seq<T>, b: seq<T>, v: seq<int>, offset: nat, d: int) {
    && d <= offset && |v| == 2 * offset + 1
    && forall k :: OnRound(d, k) ==> Furthest(a, b, d, k, v[offset + k])
  }

  /** What round `d` starts from: zeros at first, then the layer of round `d - 1`. */
  ghost predicate Before<T>(a: seq<T>, b: seq<T>, v: seq<int>, offset: nat, d: nat) {
    && 0 < offset && d <= offset && |v| == 2 * offset + 1
    && (d == 0 ==> v[offset + 1] == 0)
    && (d > 0 ==> Layer(a, b, v, offset, d - 1))
  }

  /** The test both the search and the backtrack use to choose the move into diagonal `k`. */
  predicate Down(v: seq<int>, offset: nat, d: int, k: int)
    requires |v| == 2 * offset + 1 && d <= offset && OnRound(d, k)
  {
    k == -d || (k != d && v[offset + k - 1] < v[offset + k + 1])
  }

  /** The column where the chosen move enters diagonal `k`. */
  function Entry(v: seq<int>, offset: nat, d: int, k: int): int
    requires |v| == 2 * offset + 1 && 0 < offset && d <= offset && OnRound(d, k)
  {
    if Down(v, offset, d, k) then v[offset + k + 1] else v[offset + k - 1] + 1
  }

  /** A path of `d` edits stays within `d` diagonals and keeps their parity. */
  lemma {:induction false} ReachOnRound<T>(a: seq<T>, b: seq<T>, d: int, k: int, x: int)
    requires Reach(a, b, d, k, x)
    ensures OnRound(d, k)
    decreases 2 * x - k
  {
    if Match(a, b, x - 1, x - 1 - k) && Reach(a, b, d, k, x - 1) {
      ReachOnRound(a, b, d, k, x - 1);
    } else if Reach(a, b, d - 1, k - 1, x - 1) {
      ReachOnRound(a, b, d - 1, k - 1, x - 1);
    } else if Reach(a, b, d - 1, k + 1, x) {
      ReachOnRound(a, b, d - 1, k + 1, x);
    }
  }

  /** Every path of `d` edits that lies beyond the entry column of its diagonal got there by a diagonal move. */
  lemma BeyondEntry<T>(a: seq<T>, b: seq<T>, v: seq<int>, offset: nat, d: nat, k: int, x: int)
    requires Before(a, b, v, offset, d) && OnRound(d, k)
    requires Reach(a, b, d, k, x) && Entry(v, offset, d, k) < x
    ensures Match(a, b, x - 1, x - 1 - k) && Reach(a, b, d, k, x - 1)
  {
    if Reach(a, b, d - 1, k - 1, x - 1) {
      ReachOnRound(a, b, d - 1, k - 1, x - 1);
    }
    if Reach(a, b, d - 1, k + 1, x) {
      ReachOnRound(a, b, d - 1, k + 1, x);
    }
  }

  /** The entry column is itself reached with `d` edits. */
  lemma EntryReached<T>(a: seq<T>, b: seq<T>, v: seq<int>, offset: nat, d: nat, k: int)
    requires Before(a, b, v, offset, d) && OnRound(d, k)
    ensures Reach(a, b, d, k, Entry(v, offset, d, k))
  {
    if d > 0 {
      if Down(v, offset, d, k) {
        assert OnRound(d - 1, k + 1);
      } else {
        assert OnRound(d - 1, k - 1);
      }
    }
  }

  /** Sliding from the entry to the first mismatch gives the furthest column. */
  lemma {:induction false} SlideIsFurthest<T>(
    a: seq<T>, b: seq<T>, v: seq<int>, offset: nat, d: nat, k: int, x: int, x': int)
    requires Before(a, b, v, offset, d) && OnRound(d, k)
    requires Entry(v, offset, d, k) <= x && !Match(a, b, x, x - k)
    requires Reach(a, b, d, k, x')
    ensures x' <= x
    decreases x'
  {
    if x < x' {
      BeyondEntry(a, b, v, offset, d, k, x');
      SlideIsFurthest(a, b, v, offset, d, k, x, x' - 1);
    }
  }

  /** Past the right edge of the grid a deletion can be dropped. */
  lemma {:induction false} DropDelete<T>(a: seq<T>, b: seq<T>, d: int, k: int, x: int)
    requires Reach(a, b, d, k, x) && |a| < x
    ensures Reach(a, b, d - 1, k - 1, x - 1)
    decreases 2 * x - k
  {
    if !Reach(a, b, d - 1, k - 1, x - 1) {
      DropDelete(a, b, d - 1, k + 1, x);
    }
  }

  /** Past the bottom edge of the grid an insertion can be dropped. */
  lemma {:induction false} DropInsert<T>(a: seq<T>, b: seq<T>, d: int, k: int, x: int)
    requires Reach(a, b, d, k, x) && |b| < x - k
    ensures Reach(a, b, d - 1, k + 1, x)
    decreases 2 * x - k
  {
    if !Reach(a, b, d - 1, k + 1, x) {
      DropInsert(a, b, d - 1, k - 1, x - 1);
    }
  }

  /** A path that leaves the grid on both sides passes the far corner with that many edits to spare. */
  lemma {:induction false} CornerWithin<T>(a: seq<T>, b: seq<T>, d: int, k: int, x: int)
    requires Reach(a, b, d, k, x) && |a| <= x && |b| <= x - k
    ensures ReachCorner(a, b, d - (x - |a|) - (x - k - |b|))
    decreases 2 * x - k
  {
    if |a| < x {
      DropDelete(a, b, d, k, x);
      CornerWithin(a, b, d - 1, k - 1, x - 1);
    } else if |b| < x - k {
      DropInsert(a, b, d, k, x);
      CornerWithin(a, b, d - 1, k + 1, x);
    }
  }

  /** Deleting and inserting everything always works. */
  lemma {:induction false} AllEdits<T>(a: seq<T>, b: seq<T>, x: nat, y: nat)
    ensures Reach(a, b, x + y, x - y, x)
    decreases x + y
  {
    if x > 0 {
      AllEdits(a, b, x - 1, y);
    } else if y > 0 {
      AllEdits(a, b, x, y - 1);
    }
  }

  /** A script is a path: it reaches the far corner with its own cost in edits. */
  lemma {:induction false} ScriptReaches<T>(a: seq<T>, b: seq<T>, ops: seq<Op>, d: int, x: int, y: int)
    requires Reach(a, b, d, x - y, x) && Transforms(a, b, ops, x, y)
    ensures ReachCorner(a, b, d + Cost(ops))
    decreases |ops|
  {
    if ops != [] {
      match ops[0] {
        case Equal(_, _) => ScriptReaches(a, b, ops[1..], d, x + 1, y + 1);
        case Delete(_) => ScriptReaches(a, b, ops[1..], d + 1, x + 1, y);
        case Insert(_) => ScriptReaches(a, b, ops[1..], d + 1, x, y + 1);
      }
    }
  }
}

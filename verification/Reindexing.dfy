/** Reindex, internal/index/reindex.go: one package changed, and its reverse closure is walked in topological order. */
module Reindexing {
  import opened Options
  import opened Paths
  import opened UnitKeys
  import opened Units
  import opened Processing
  import opened Building
  import G = Graph
  import S = Scheduler
  import Kahn

  // ----------------------------------------------------------- what one change affects

  /** The two differ in the content of `x` only (and in stats). */
  ghost predicate OnlyChanged(env0: Env, env: Env, x: Path) {
    && env.w == env0.w && env.snap == env0.snap && env.fingerprint == env0.fingerprint
    && forall p | p != x :: env.content(p) == env0.content(p)
  }

  ghost predicate SameUnit(env0: Env, env: Env, p: Path) {
    Scratch(env, p) == Scratch(env0, p) && ScratchKey(env, p) == ScratchKey(env0, p)
  }

  ghost predicate SameExports(env0: Env, env: Env, deps: set<Path>) {
    forall d | d in deps :: Scratch(env, d).exported == Scratch(env0, d).exported
  }

  /** The same content over the same exports makes the same unit. */
  lemma SameInputs(env0: Env, env: Env, x: Path, p: Path)
    requires OnlyChanged(env0, env, x) && p != x && SameExports(env0, env, DirectDeps(env.snap, p))
    ensures SameUnit(env0, env, p)
  {
    assert ScratchDeps(env, p) == ScratchDeps(env0, p);
  }

  lemma DepReaches(env: Env, p: Path, d: Path, x: Path)
    requires d in DirectDeps(env.snap, p) && G.Reaches(env.snap.pkgs, d, x)
    ensures G.Reaches(env.snap.pkgs, p, x)
  {
    G.ReachesStep(env.snap.pkgs, p, d, x);
  }

  /** Outside the reverse closure nothing changes. */
  lemma {:induction false} Unaffected(env0: Env, env: Env, x: Path, p: Path)
    requires OnlyChanged(env0, env, x) && !G.Reaches(env.snap.pkgs, p, x)
    ensures SameUnit(env0, env, p)
    decreases if p in env.snap.pos then env.snap.pos[p] else 0
  {
    forall d | d in DirectDeps(env.snap, p) ensures Scratch(env, d).exported == Scratch(env0, d).exported {
      if G.Reaches(env.snap.pkgs, d, x) {
        DepReaches(env, p, d, x);
      } else {
        Unaffected(env0, env, x, d);
      }
    }
    G.ReachesSelf(env.snap.pkgs, x);
    SameInputs(env0, env, x, p);
  }

  /** Early cutoff: when the export data of the changed package stays the same, nothing else changes. */
  lemma {:induction false} EarlyCutoff(env0: Env, env: Env, x: Path, p: Path)
    requires OnlyChanged(env0, env, x) && Scratch(env, x).exported == Scratch(env0, x).exported && p != x
    ensures SameUnit(env0, env, p)
    decreases if p in env.snap.pos then env.snap.pos[p] else 0
  {
    forall d | d in DirectDeps(env.snap, p) ensures Scratch(env, d).exported == Scratch(env0, d).exported {
      if d != x {
        EarlyCutoff(env0, env, x, d);
      }
    }
    SameInputs(env0, env, x, p);
  }

  /** A key changes exactly if the content does or the export data of a dependency does. */
  lemma KeyChanges(env0: Env, env: Env, p: Path)
    requires env.w == env0.w && env.snap == env0.snap && GoodWorld(env)
    ensures ScratchKey(env, p) == ScratchKey(env0, p)
       <==> env.content(p) == env0.content(p) && SameExports(env0, env, DirectDeps(env.snap, p))
  {
    if SameExports(env0, env, DirectDeps(env.snap, p)) {
      assert ScratchDeps(env, p) == ScratchDeps(env0, p);
    }
    if ScratchKey(env, p) == ScratchKey(env0, p) {
      ScratchOrigin(env, p);
      ScratchOrigin(env0, p);
      OriginUnique(env.w, ScratchKey(env, p), env.content(p), ScratchDeps(env, p),
                   env0.content(p), ScratchDeps(env0, p));
      forall d | d in DirectDeps(env.snap, p) ensures Scratch(env, d).exported == Scratch(env0, d).exported {
        assert ScratchDeps(env, p)[d] == ScratchDeps(env0, p)[d];
      }
    }
  }

  /**
   Without cycles, a key changes exactly if the content or the export data of some import does, test imports
   included.
   */
  lemma KeyFollowsImports(env0: Env, env: Env, p: Path)
    requires env.w == env0.w && env.snap == env0.snap && GoodWorld(env) && InOrder(env.snap) && p in env.snap.pkgs
    ensures ScratchKey(env, p) == ScratchKey(env0, p) <==>
              && env.content(p) == env0.content(p)
              && forall d |
                   (d in env.snap.pkgs[p].imports || d in env.snap.pkgs[p].testImports) && Indexed(env.snap, d) ::
                   Scratch(env, d).exported == Scratch(env0, d).exported
  {
    KeyChanges(env0, env, p);
    forall d ensures d in DirectDeps(env.snap, p) <==>
                       (d in env.snap.pkgs[p].imports || d in env.snap.pkgs[p].testImports) && Indexed(env.snap, d)
    {
      DirectDepsAre(env.snap, p, d);
      assert G.DependsOn(env.snap.pkgs, p, d) ==> G.Before(env.snap, d, p);
    }
  }

  // ------------------------------------------------------------------ the walk's order

  /** Everything else that reaches `x`, once each, in the order of the snapshot. */
  ghost predicate ClosureOrder(snap: G.Snapshot, x: Path, ordered: seq<Path>) {
    && Distinct(ordered)
    && (forall p :: p in ordered <==> p in snap.pkgs && p != x && G.Reaches(snap.pkgs, p, x))
    && (forall i {:trigger EarlierFirst(snap, ordered, i)} | 0 <= i < |ordered| :: EarlierFirst(snap, ordered, i))
  }

  /** Whoever of the list is before its element `i` in the snapshot is before it in the list. */
  ghost predicate EarlierFirst(snap: G.Snapshot, ordered: seq<Path>, i: nat) {
    i < |ordered| && forall d | d in ordered && G.Before(snap, d, ordered[i]) :: d in ordered[..i]
  }

  /** Every package has one place in the order, and its position says where. */
  ghost predicate Placed(snap: G.Snapshot) {
    && Distinct(snap.order) && snap.pos.Keys == snap.pkgs.Keys == Elements(snap.order)
    && forall p | p in snap.pos :: G.At(snap.order, p, snap.pos[p])
  }

  lemma ValidIsPlaced(snap: G.Snapshot)
    requires G.Valid(snap)
    ensures Placed(snap)
  {
    var rank :| Kahn.Ranked(snap.pkgs.Keys, G.ProductionImports(snap.pkgs), rank);
    G.TopoOrderForward(snap.pkgs, snap.order, rank);
  }

  ghost predicate Picks(snap: G.Snapshot, x: Path, n: nat, ordered: seq<Path>)
    requires n <= |snap.order|
  {
    && Distinct(ordered)
    && (forall p :: p in ordered <==> p in snap.order[..n] && p != x && G.Reaches(snap.pkgs, p, x))
    && (forall i {:trigger EarlierFirst(snap, ordered, i)} | 0 <= i < |ordered| :: EarlierFirst(snap, ordered, i))
  }

  lemma PicksNext(snap: G.Snapshot, x: Path, n: nat, ordered: seq<Path>)
    requires Placed(snap) && n < |snap.order| && Picks(snap, x, n, ordered)
    ensures var q := snap.order[n];
            Picks(snap, x, n + 1, if q != x && G.Reaches(snap.pkgs, q, x) then ordered + [q] else ordered)
  {
    var q := snap.order[n];
    assert snap.order[..n + 1] == snap.order[..n] + [q];
    assert q !in snap.order[..n];
    if q != x && G.Reaches(snap.pkgs, q, x) {
      S.DistinctPush(ordered, q);
      forall i | 0 <= i < |ordered + [q]| ensures EarlierFirst(snap, ordered + [q], i) {
        if i < |ordered| {
          KeepsEarlier(snap, n, ordered, i);
        } else {
          LastEarlier(snap, n, ordered);
        }
      }
    }
  }

  /** Appending what comes later in the snapshot keeps the list in order. */
  lemma KeepsEarlier(snap: G.Snapshot, n: nat, ordered: seq<Path>, i: nat)
    requires Placed(snap) && n < |snap.order| && i < |ordered| && ordered[i] in snap.order[..n]
    requires EarlierFirst(snap, ordered, i)
    ensures EarlierFirst(snap, ordered + [snap.order[n]], i)
  {
    var q, more := snap.order[n], ordered + [snap.order[n]];
    assert more[i] == ordered[i] && more[..i] == ordered[..i];
    var k :| 0 <= k < n && snap.order[k] == ordered[i];
    assert G.At(snap.order, q, snap.pos[q]) && G.At(snap.order, ordered[i], snap.pos[ordered[i]]);
    assert snap.pos[q] == n && snap.pos[ordered[i]] == k;
  }

  lemma LastEarlier(snap: G.Snapshot, n: nat, ordered: seq<Path>)
    requires n < |snap.order|
    ensures EarlierFirst(snap, ordered + [snap.order[n]], |ordered|)
  {
    var more := ordered + [snap.order[n]];
    assert more[..|ordered|] == ordered;
  }

  method OrderedReverseClosure(snap: G.Snapshot, x: Path) returns (ordered: seq<Path>)
    requires G.Valid(snap)
    ensures ClosureOrder(snap, x, ordered)
  {
    var closure := G.ClosureUnits(snap, x);
    ValidIsPlaced(snap);
    ordered := [];
    for n := 0 to |snap.order|
      invariant Picks(snap, x, n, ordered)
    {
      PicksNext(snap, x, n, ordered);
      if snap.order[n] != x && snap.order[n] in closure {
        ordered := ordered + [snap.order[n]];
      }
    }
    AllPicked(snap, x, ordered);
  }

  lemma AllPicked(snap: G.Snapshot, x: Path, ordered: seq<Path>)
    requires Placed(snap) && Picks(snap, x, |snap.order|, ordered)
    ensures ClosureOrder(snap, x, ordered)
  {
    assert snap.order[..|snap.order|] == snap.order;
    assert forall p :: p in snap.order <==> p in Elements(snap.order);
  }

  // ----------------------------------------------------------------------- the walk

  ghost predicate IsUnit(env: Env, p: Path) {
    S.SchedulableRoot(env.snap.pkgs, p) && HasFiles(env, p)
  }

  /** Every import leads to an earlier package. */
  ghost predicate InOrder(snap: G.Snapshot) {
    forall p, d | G.DependsOn(snap.pkgs, p, d) :: G.Before(snap, d, p)
  }

  /** Before: everything agreed, and then the content of `x` changed, on disk or only in the editor. */
  ghost predicate Prior(env0: Env, env: Env, x: Path, db0: map<Path, Pointer>, cas0: map<nat, Blob>) {
    && OnlyChanged(env0, env, x) && GoodWorld(env) && InOrder(env.snap) && (forall p | p != x :: Honest(env, p))
    && GoodDb(env, db0) && GoodCas(env.w, cas0)
    && forall p | IsUnit(env, p) :: Agrees(env0, db0, cas0, p)
  }

  ghost predicate RightInDb(env: Env, s: State, p: Path) {
    p in s.db && RightPointer(env, p, s.db[p])
  }

  ghost predicate ExportChanged(env0: Env, env: Env, p: Path) {
    ScratchRecord(env, p).exportHash != ScratchRecord(env0, p).exportHash
  }

  ghost predicate WalkInv(env0: Env, env: Env, done: set<Path>, s: State, db0: map<Path, Pointer>, cas0: map<nat,
                          Blob>) {
    && Untouched(done, s, map[], db0) && Settled(env, done, s) && RunInv(env, s) && Grows(cas0, s.cas)
    && s.failed <= done && (forall p | p in done && HasFiles(env, p) && p !in s.failed :: RightInDb(env, s, p))
  }

  ghost predicate KeyChanged(env0: Env, env: Env, p: Path) {
    ScratchKey(env, p) != ScratchKey(env0, p)
  }

  /** What is listed so far is exactly the units whose key changed. */
  ghost predicate Listed(env0: Env, env: Env, done: set<Path>, failed: set<Path>, changed: seq<Path>) {
    && Elements(changed) <= done
    && (forall p {:trigger KeyChanged(env0, env, p)} | p in done && IsUnit(env, p) && p !in failed ::
          p in changed <==> KeyChanged(env0, env, p))
  }

  ghost predicate ClosureDone(env: Env, x: Path, done: set<Path>, p: Path) {
    forall d | d in DirectDeps(env.snap, p) && G.Reaches(env.snap.pkgs, d, x) :: d in done
  }

  /** An old record outside the closure is still right. */
  lemma OldRecordRight(env0: Env, env: Env, x: Path, db0: map<Path, Pointer>, cas0: map<nat, Blob>, d: Path)
    requires Prior(env0, env, x, db0, cas0) && IsUnit(env, d) && !G.Reaches(env.snap.pkgs, d, x)
    ensures d in db0 && RightPointer(env, d, db0[d]) && ScratchKey(env, d) in cas0
  {
    Unaffected(env0, env, x, d);
    G.ReachesSelf(env.snap.pkgs, x);
    assert Agrees(env0, db0, cas0, d);
  }

  lemma InOrderDropsNone(env: Env, p: Path)
    requires InOrder(env.snap) && p in env.snap.pkgs
    ensures NoneDropped(env.snap, p)
  {
    forall d | G.DependsOn(env.snap.pkgs, p, d) && Indexed(env.snap, d) ensures G.Before(env.snap, d, p) {
    }
  }

  lemma WalkReady(env0: Env, env: Env, x: Path, done: set<Path>, s: State, db0: map<Path, Pointer>, cas0: map<nat,
                  Blob>, p: Path)
    requires Prior(env0, env, x, db0, cas0) && WalkInv(env0, env, done, s, db0, cas0) && ClosureDone(env, x, done, p)
    ensures Ready(env, s, p)
  {
    forall d | d in DirectDeps(env.snap, p) && Find(s, d).Some? ensures Resolved(env, s.cas, d, Find(s, d).value) {
      if d in s.m {
        assert Resolved(env, s.cas, d, s.m[d]);
      } else {
        assert HasFiles(env, d) && IsUnit(env, d);
        assert d !in done;
        OldRecordRight(env0, env, x, db0, cas0, d);
      }
    }
  }

  function Written(db: map<Path, Pointer>, p: Path, r: Processed): map<Path, Pointer> {
    if r.Done? && !r.outcome.Nothing? then db[p := r.outcome.pointer] else db
  }

  lemma GoodPut(env: Env, db: map<Path, Pointer>, p: Path, ptr: Pointer)
    requires GoodDb(env, db) && GoodPointer(env.w, ptr)
    ensures GoodDb(env, db[p := ptr])
  {
    var db' := db[p := ptr];
    forall q | q in db' && db'[q].fingerprint == env.fingerprint ensures GoodPointer(env.w, db'[q]) {
      assert q != p ==> q in db && db'[q] == db[q];
    }
  }

  lemma GoodWritten(env: Env, db: map<Path, Pointer>, p: Path, r: Processed)
    requires GoodWorld(env) && GoodDb(env, db) && r.Done?
    requires Recorded(db, p, r.outcome).Some? && RightPointer(env, p, Recorded(db, p, r.outcome).value)
    ensures GoodDb(env, Written(db, p, r)) && p in Written(db, p, r) && RightPointer(env, p, Written(db, p, r)[p])
  {
    if !r.outcome.Nothing? {
      RightIsGood(env, p, r.outcome.pointer);
      GoodPut(env, db, p, r.outcome.pointer);
    }
  }

  /** The state once the outcome for `p` is written. */
  ghost function AfterOne(after: State, p: Path, r: Processed): State {
    Recovered(after, p, r).(db := Written(after.db, p, r))
  }

  lemma UntouchedWritten(done: set<Path>, s: State, s': State, p: Path, r: Processed, db0: map<Path, Pointer>)
    requires Untouched(done, s, map[], db0) && s'.db == Written(s.db, p, r)
    ensures Untouched(done + {p}, s', map[], db0)
  {
  }

  lemma InvWritten(env: Env, after: State, p: Path, r: Processed)
    requires RunInv(env, after) && GoodDb(env, Written(after.db, p, r))
    ensures RunInv(env, AfterOne(after, p, r))
  {
  }

  lemma SettledWritten(env: Env, done: set<Path>, s: State, db: map<Path, Pointer>)
    requires Settled(env, done, s)
    ensures Settled(env, done, s.(db := db))
  {
  }

  lemma RightWritten(env: Env, done: set<Path>, s: State, s': State, p: Path, r: Processed)
    requires p !in done && s'.db == Written(s.db, p, r) && s'.failed == Recovered(s, p, r).failed
    requires forall q | q in done && HasFiles(env, q) && q !in s.failed :: RightInDb(env, s, q)
    requires r.Done? && HasFiles(env, p) ==> RightInDb(env, s', p)
    ensures forall q | q in done + {p} && HasFiles(env, q) && q !in s'.failed :: RightInDb(env, s', q)
  {
    forall q | q in done + {p} && HasFiles(env, q) && q !in s'.failed ensures RightInDb(env, s', q) {
      if q != p {
        assert RightInDb(env, s, q);
      }
    }
  }

  lemma WalkNext(env0: Env, env: Env, x: Path, done: set<Path>, s: State, db0: map<Path, Pointer>, cas0: map<nat, Blob>,
                 trustStat: bool, p: Path, r: Processed, after: State)
    requires Prior(env0, env, x, db0, cas0) && WalkInv(env0, env, done, s, db0, cas0) && ClosureDone(env, x, done, p)
    requires p in env.snap.pkgs && p !in done && (trustStat ==> p != x) && Processes(env, s, trustStat, p, r, after)
    ensures WalkInv(env0, env, done + {p}, AfterOne(after, p, r), db0, cas0)
  {
    WalkReady(env0, env, x, done, s, db0, cas0, p);
    InOrderDropsNone(env, p);
    ProcessesSound(env, s, trustStat, p, r, after);
    SettledGrows(env, done, s, trustStat, p, r, after);
    SettledWritten(env, done + {p}, Recovered(after, p, r), Written(after.db, p, r));
    if r.Done? && HasFiles(env, p) {
      GoodWritten(env, s.db, p, r);
    }
    InvWritten(env, after, p, r);
    UntouchedWritten(done, s, AfterOne(after, p, r), p, r, db0);
    RightWritten(env, done, s, AfterOne(after, p, r), p, r);
  }

  /** A unit that agreed before is skipped exactly if its key is still the same. */
  lemma SkippedIfSameKey(env0: Env, env: Env, s: State, db0: map<Path, Pointer>, cas0: map<nat, Blob>,
                         trustStat: bool, p: Path)
    requires env.fingerprint == env0.fingerprint && Agrees(env0, db0, cas0, p) && p in s.db && s.db[p] == db0[p]
    requires Grows(cas0, s.cas) && GoodDb(env, s.db) && (trustStat ==> Honest(env, p)) && Ready(env, s, p)
    requires AllFound(s, DirectDeps(env.snap, p))
    ensures Unchanged(env, s, trustStat, p) <==> !KeyChanged(env0, env, p)
  {
    CombinedIsScratch(env, s, trustStat, p);
  }

  lemma UnitNext(env0: Env, env: Env, x: Path, done: set<Path>, s: State, db0: map<Path, Pointer>, cas0: map<nat, Blob>,
                 p: Path, r: Processed, after: State)
    requires Prior(env0, env, x, db0, cas0) && WalkInv(env0, env, done, s, db0, cas0) && ClosureDone(env, x, done, p)
    requires p in env.snap.pkgs && p !in done && Processes(env, s, p != x, p, r, after) && IsUnit(env, p) && r.Done?
    ensures r.skipped <==> !KeyChanged(env0, env, p)
  {
    WalkReady(env0, env, x, done, s, db0, cas0, p);
    assert Agrees(env0, db0, cas0, p);
    SkippedIfSameKey(env0, env, s, db0, cas0, p != x, p);
  }

  function NowChanged(changed: seq<Path>, p: Path, r: Processed): seq<Path> {
    if r.Done? && !r.skipped then changed + [p] else changed
  }

  lemma ListedNext(env0: Env, env: Env, done: set<Path>, failed: set<Path>, changed: seq<Path>, p: Path, r: Processed)
    requires Listed(env0, env, done, failed, changed) && p !in done
    requires IsUnit(env, p) && r.Done? ==> (r.skipped <==> !KeyChanged(env0, env, p))
    ensures Listed(env0, env, done + {p}, if r.Failed? then failed + {p} else failed, NowChanged(changed, p, r))
  {
    var changed', failed' := NowChanged(changed, p, r), if r.Failed? then failed + {p} else failed;
    assert p !in changed by { assert p !in Elements(changed); }
    assert Elements(changed + [p]) == Elements(changed) + {p};
    forall q | q in done + {p} && IsUnit(env, q) && q !in failed' ensures q in changed' <==> KeyChanged(env0, env, q) {
      assert q != p ==> (q in changed <==> KeyChanged(env0, env, q));
    }
  }

  /** A unit whose export data changed has another key, and is therefore listed. */
  lemma ExportChangeRekeys(env0: Env, env: Env, p: Path)
    requires env.w == env0.w && env.snap == env0.snap && GoodWorld(env) && ExportChanged(env0, env, p)
    ensures KeyChanged(env0, env, p)
  {
    if !KeyChanged(env0, env, p) {
      SameKeySameUnit(env0, env, p);
    }
  }

  lemma SameKeySameUnit(env0: Env, env: Env, p: Path)
    requires env.w == env0.w && env.snap == env0.snap && GoodWorld(env) && ScratchKey(env, p) == ScratchKey(env0, p)
    ensures Scratch(env, p) == Scratch(env0, p)
  {
    ScratchOrigin(env, p);
    ScratchOrigin(env0, p);
    OriginUnique(env.w, ScratchKey(env, p), env.content(p), ScratchDeps(env, p),
                 env0.content(p), ScratchDeps(env0, p));
  }

  lemma SameExportHash(env0: Env, env: Env, x: Path)
    requires CollisionFree(env.w) && env.w == env0.w && !ExportChanged(env0, env, x)
    ensures Scratch(env, x).exported == Scratch(env0, x).exported
  {
    assert env.w.hash(Scratch(env, x).exported) == env.w.hash(Scratch(env0, x).exported);
  }

  // ------------------------------------------------------------------------ reindex

  datatype Stats = Stats(changed: seq<Path>, errors: set<Path>)

  ghost predicate Walking(env0: Env, env: Env, x: Path, done: set<Path>, s: State, stats: Stats,
                          db0: map<Path, Pointer>, cas0: map<nat, Blob>) {
    && WalkInv(env0, env, done, s, db0, cas0) && Listed(env0, env, done, s.failed, stats.changed)
    && s.failed == stats.errors
  }

  function Counted(stats: Stats, p: Path, r: Processed): Stats {
    Stats(NowChanged(stats.changed, p, r), if r.Failed? then stats.errors + {p} else stats.errors)
  }

  lemma ListedStep(env0: Env, env: Env, x: Path, done: set<Path>, s: State, changed: seq<Path>,
                   db0: map<Path, Pointer>, cas0: map<nat, Blob>, p: Path, r: Processed, after: State)
    requires p in env.snap.pkgs && p !in done && Processes(env, s, p != x, p, r, after) && after.failed == s.failed
    requires Prior(env0, env, x, db0, cas0) && ClosureDone(env, x, done, p)
    requires WalkInv(env0, env, done, s, db0, cas0) && Listed(env0, env, done, s.failed, changed)
    ensures Listed(env0, env, done + {p}, AfterOne(after, p, r).failed, NowChanged(changed, p, r))
  {
    if IsUnit(env, p) && r.Done? {
      UnitNext(env0, env, x, done, s, db0, cas0, p, r, after);
    }
    ListedNext(env0, env, done, s.failed, changed, p, r);
  }

  lemma WalkStep(env0: Env, env: Env, x: Path, done: set<Path>, s: State, stats: Stats,
                 db0: map<Path, Pointer>, cas0: map<nat, Blob>, p: Path, r: Processed, after: State)
    requires p in env.snap.pkgs && p !in done && Processes(env, s, p != x, p, r, after)
    requires Prior(env0, env, x, db0, cas0) && ClosureDone(env, x, done, p)
    requires Walking(env0, env, x, done, s, stats, db0, cas0)
    ensures Walking(env0, env, x, done + {p}, AfterOne(after, p, r), Counted(stats, p, r), db0, cas0)
    ensures after.db == s.db
  {
    SettledGrows(env, done, s, p != x, p, r, after);
    WalkNext(env0, env, x, done, s, db0, cas0, p != x, p, r, after);
    ListedStep(env0, env, x, done, s, stats.changed, db0, cas0, p, r, after);
  }

  lemma StoresGood(env0: Env, env: Env, done: set<Path>, s: State, db0: map<Path, Pointer>, cas0: map<nat, Blob>)
    requires WalkInv(env0, env, done, s, db0, cas0)
    ensures GoodDb(env, s.db) && GoodCas(env.w, s.cas)
  {
  }

  /** At most `p` is a new error, and then something of its own went wrong or a dependency has an error. */
  ghost predicate NewError(env: Env, before: set<Path>, after: set<Path>, p: Path, wrong: bool) {
    || after == before
    || (after == before + {p} && (wrong || exists d :: d in DirectDeps(env.snap, p) && d in before))
  }

  /** No dependency is out of order: it is through, or its old record is still good. */
  lemma FoundOrFailed(env0: Env, env: Env, x: Path, done: set<Path>, s: State, db0: map<Path, Pointer>,
                      cas0: map<nat, Blob>,
                      p: Path, d: Path)
    requires Prior(env0, env, x, db0, cas0) && WalkInv(env0, env, done, s, db0, cas0) && ClosureDone(env, x, done, p)
    requires d in DirectDeps(env.snap, p)
    ensures Find(s, d).Some? || d in s.failed
  {
    assert HasFiles(env, d) && IsUnit(env, d);
    if d !in done {
      OldRecordRight(env0, env, x, db0, cas0, d);
    }
  }

  lemma FailureHasCause(env0: Env, env: Env, x: Path, done: set<Path>, s: State, db0: map<Path, Pointer>,
                        cas0: map<nat, Blob>, p: Path, r: Processed, after: State, faults: Faults)
    requires Prior(env0, env, x, db0, cas0) && WalkInv(env0, env, done, s, db0, cas0) && ClosureDone(env, x, done, p)
    requires p in env.snap.pkgs && Processes(env, s, p != x, p, r, after) && r.Failed? && Caused(r.error, faults)
    ensures Faulty(faults) || exists d :: d in DirectDeps(env.snap, p) && d in s.failed
  {
    if r.error.OutOfOrder? || r.error.DependencyFailed? {
      FoundOrFailed(env0, env, x, done, s, db0, cas0, p, r.error.dep);
      assert r.error.dep in DirectDeps(env.snap, p) && r.error.dep in s.failed;
    }
  }

  /** Every error has a fault or a failing write of its own package behind it, or the error of a dependency. */
  ghost predicate ErrorsTraced(env: Env, errors: set<Path>, faults: Path -> Faults, writeFails: Path -> bool) {
    forall p {:trigger ErrorCause(env, errors, faults, writeFails, p)} | p in errors ::
      ErrorCause(env, errors, faults, writeFails, p)
  }

  ghost predicate ErrorCause(env: Env, errors: set<Path>, faults: Path -> Faults, writeFails: Path -> bool, p: Path) {
    Faulty(faults(p)) || writeFails(p) || exists d :: d in DirectDeps(env.snap, p) && d in errors
  }

  lemma TracedMore(env: Env, before: set<Path>, after: set<Path>, p: Path,
                   faults: Path -> Faults, writeFails: Path -> bool)
    requires ErrorsTraced(env, before, faults, writeFails)
    requires NewError(env, before, after, p, Faulty(faults(p)) || writeFails(p))
    ensures ErrorsTraced(env, after, faults, writeFails)
  {
    forall q | q in after ensures ErrorCause(env, after, faults, writeFails, q) {
      if q in before {
        assert ErrorCause(env, before, faults, writeFails, q);
        if !Faulty(faults(q)) && !writeFails(q) {
          var d :| d in DirectDeps(env.snap, q) && d in before;
          assert d in after;
        }
      } else if !Faulty(faults(q)) && !writeFails(q) {
        var d :| d in DirectDeps(env.snap, p) && d in before;
        assert d in after;
      }
    }
  }

  /** So without faults and failing writes there is no error. */
  lemma {:induction false} NoCauseNoError(env: Env, errors: set<Path>,
                                          faults: Path -> Faults, writeFails: Path -> bool, p: Path)
    requires ErrorsTraced(env, errors, faults, writeFails) && NoFaults(faults) && forall q :: !writeFails(q)
    ensures p !in errors
    decreases if p in env.snap.pos then env.snap.pos[p] else 0
  {
    if p in errors {
      assert ErrorCause(env, errors, faults, writeFails, p);
      var d :| d in DirectDeps(env.snap, p) && d in errors;
      NoCauseNoError(env, errors, faults, writeFails, d);
    }
  }

  /** Resolve one package of the walk and write its outcome; a failing write is fatal, except that of a stat refresh. */
  method ReindexOne(run: Run, p: Path, faults: Faults, writeFails: bool, stats0: Stats, ghost env0: Env, x: Path,
                    ghost done: set<Path>,
                    ghost db0: map<Path, Pointer>, ghost cas0: map<nat, Blob>)
    returns (stats: Stats, fatal: bool)
    requires p in run.env.snap.pkgs && p !in done && Distinct(G.ImportsOf(run.env.snap.pkgs, p))
    requires Prior(env0, run.env, x, db0, cas0) ==>
               ClosureDone(run.env, x, done, p) && Walking(env0, run.env, x, done, run.S(), stats0, db0, cas0)
    modifies run`db, run`cas, run`exports, run.keys
    ensures fatal ==> stats.errors != {}
    ensures Prior(env0, run.env, x, db0, cas0) ==>
              && (!fatal ==> Walking(env0, run.env, x, done + {p}, run.S(), stats, db0, cas0))
              && GoodDb(run.env, run.db) && GoodCas(run.env.w, run.cas)
              && NewError(run.env, stats0.errors, stats.errors, p, Faulty(faults) || writeFails)
  {
    ghost var s, after := run.S(), run.S();
    var r: Processed;
    r, after := run.ProcessUnitRecovered(p, p != x, faults);
    RefreshMayBeLost(run.env, s, p != x, p, r, after, writeFails);
    r := WithoutRefresh(r, writeFails);
    if Prior(env0, run.env, x, db0, cas0) {
      HopKeeps(env0, run.env, x, done, s, stats0, db0, cas0, p, r, after);
      if r.Failed? {
        FailureHasCause(env0, run.env, x, done, s, db0, cas0, p, r, after, faults);
      }
    }
    stats := Counted(stats0, p, r);
    fatal := r.Done? && r.outcome.Entry? && writeFails;
    if fatal {
      stats := stats.(errors := stats.errors + {p});
    } else {
      run.db := Written(run.db, p, r);
      assert run.S() == AfterOne(after, p, r);
    }
  }

  /** Written or not, the outcome of one hop leaves the stores consistent; written, it keeps the walk going. */
  lemma HopKeeps(env0: Env, env: Env, x: Path, done: set<Path>, s: State, stats: Stats,
                 db0: map<Path, Pointer>, cas0: map<nat, Blob>, p: Path, r: Processed, after: State)
    requires p in env.snap.pkgs && p !in done && Processes(env, s, p != x, p, r, after)
    requires Prior(env0, env, x, db0, cas0) && ClosureDone(env, x, done, p)
    requires Walking(env0, env, x, done, s, stats, db0, cas0)
    ensures Walking(env0, env, x, done + {p}, AfterOne(after, p, r), Counted(stats, p, r), db0, cas0)
    ensures GoodDb(env, after.db) && GoodDb(env, AfterOne(after, p, r).db) && GoodCas(env.w, after.cas)
  {
    WalkStep(env0, env, x, done, s, stats, db0, cas0, p, r, after);
    StoresGood(env0, env, done, s, db0, cas0);
    StoresGood(env0, env, done + {p}, AfterOne(after, p, r), db0, cas0);
  }

  /** The walk takes its dependencies in order. */
  lemma WalkOrder(env: Env, x: Path, ordered: seq<Path>, n: nat)
    requires ClosureOrder(env.snap, x, ordered) && n < |ordered|
    ensures ordered[n] in env.snap.pkgs && ordered[n] !in {x} + Elements(ordered[..n])
    ensures ClosureDone(env, x, {x} + Elements(ordered[..n]), ordered[n])
    ensures {x} + Elements(ordered[..n + 1]) == {x} + Elements(ordered[..n]) + {ordered[n]}
  {
    assert ordered[n] in ordered;
    assert EarlierFirst(env.snap, ordered, n);
    assert ordered[..n + 1] == ordered[..n] + [ordered[n]];
    forall d | d in DirectDeps(env.snap, ordered[n]) && G.Reaches(env.snap.pkgs, d, x)
      ensures d in {x} + Elements(ordered[..n])
    {
      assert d != x ==> d in ordered;
    }
  }

  lemma AcyclicInOrder(snap: G.Snapshot, rank: Path -> nat)
    requires G.Valid(snap) && Kahn.Ranked(snap.pkgs.Keys, G.BothImports(snap.pkgs), rank)
    ensures InOrder(snap)
  {
    forall p, d | G.DependsOn(snap.pkgs, p, d) ensures G.Before(snap, d, p) {
      G.TestImportsBefore(snap, p, d, rank);
    }
  }

  lemma {:induction false} ChainLater(snap: G.Snapshot, c: seq<Path>)
    requires InOrder(snap) && G.Chain(snap.pkgs, c) && |c| > 1
    ensures G.Before(snap, c[0], c[|c| - 1])
  {
    var init := c[..|c| - 1];
    assert G.DependsOn(snap.pkgs, c[|c| - 1], c[|c| - 2]);
    if |init| > 1 {
      ChainLater(snap, init);
    }
  }

  /** What comes before `x` does not depend on it. */
  lemma EarlierNotReaching(snap: G.Snapshot, x: Path, d: Path)
    requires InOrder(snap) && G.Before(snap, d, x)
    ensures !G.Reaches(snap.pkgs, d, x)
  {
    if G.Reaches(snap.pkgs, d, x) {
      var c :| G.Chain(snap.pkgs, c) && c[0] == x && c[|c| - 1] == d;
      if |c| > 1 {
        ChainLater(snap, c);
      }
    }
  }

  lemma StartOrder(env: Env, x: Path)
    requires InOrder(env.snap)
    ensures ClosureDone(env, x, {}, x)
  {
    forall d | d in DirectDeps(env.snap, x) ensures !G.Reaches(env.snap.pkgs, d, x) {
      EarlierNotReaching(env.snap, x, d);
    }
  }

  /** Whatever was walked is right, and so is what was not. */
  lemma WalkedAgrees(env0: Env, env: Env, x: Path, done: set<Path>, s: State, db0: map<Path, Pointer>, cas0: map<nat,
                     Blob>, p: Path)
    requires Prior(env0, env, x, db0, cas0) && WalkInv(env0, env, done, s, db0, cas0) && s.failed == {}
    requires IsUnit(env, p) && (p in done <==> G.Reaches(env.snap.pkgs, p, x))
    ensures Agrees(env, s.db, s.cas, p)
  {
    if p in done {
      assert RightInDb(env, s, p);
      assert Resolved(env, s.cas, p, s.m[p]);
    } else {
      OldRecordRight(env0, env, x, db0, cas0, p);
    }
    BlobIsScratch(env, s.cas, p);
  }

  lemma WalkStart(env0: Env, env: Env, x: Path, db0: map<Path, Pointer>, cas0: map<nat, Blob>)
    requires Prior(env0, env, x, db0, cas0)
    ensures Walking(env0, env, x, {}, Start(db0, cas0), Stats([], {}), db0, cas0)
  {
  }

  /** Everything agrees, and what is listed is exactly the units whose key changed. */
  ghost predicate Restored(env0: Env, env: Env, db: map<Path, Pointer>, cas: map<nat, Blob>, stats: Stats) {
    && (forall p | IsUnit(env, p) :: Agrees(env, db, cas, p))
    && (forall p {:trigger KeyChanged(env0, env, p)} | IsUnit(env, p) ::
          p in stats.changed <==> KeyChanged(env0, env, p))
  }

  /** Every unit whose export data changed is listed; and if that of `x` did not, no other unit is. */
  lemma ListsExportChanges(env0: Env, env: Env, x: Path, db: map<Path, Pointer>, cas: map<nat, Blob>, stats: Stats,
                           p: Path)
    requires OnlyChanged(env0, env, x) && GoodWorld(env) && Restored(env0, env, db, cas, stats) && IsUnit(env, p)
    ensures ExportChanged(env0, env, p) ==> p in stats.changed
    ensures !ExportChanged(env0, env, x) && p != x ==> p !in stats.changed
  {
    if ExportChanged(env0, env, p) {
      ExportChangeRekeys(env0, env, p);
    }
    if !ExportChanged(env0, env, x) && p != x {
      SameExportHash(env0, env, x);
      EarlyCutoff(env0, env, x, p);
      assert !KeyChanged(env0, env, p);
    }
  }

  /**
   Reindex `x` and its reverse closure.

   Suppose everything agreed with a from-scratch build and then only the content of `x` changed, in the
   editor or on disk. Every error has a fault or a failing write behind it. Unless there is an error, everything
   agrees again, and the units listed as changed are exactly those whose key changed.
   */
  method Reindex(env: Env, db0: map<Path, Pointer>, cas0: map<nat, Blob>, x: Path,
                 faults: Path -> Faults, writeFails: Path -> bool, ghost env0: Env)
    returns (known: bool, stats: Stats, db: map<Path, Pointer>, cas: map<nat, Blob>)
    requires G.Valid(env.snap) && G.UniqueImports(env.snap.pkgs)
    ensures known == (x in env.snap.pkgs)
    ensures !known ==> stats == Stats([], {}) && db == db0 && cas == cas0
    ensures Prior(env0, env, x, db0, cas0) ==>
              && GoodDb(env, db) && GoodCas(env.w, cas) && ErrorsTraced(env, stats.errors, faults, writeFails)
              && (known && stats.errors == {} ==> Restored(env0, env, db, cas, stats))
    ensures Prior(env0, env, x, db0, cas0) && known && NoFaults(faults) && (forall p :: !writeFails(p)) ==>
              stats.errors == {} && Restored(env0, env, db, cas, stats)
  {
    known := x in env.snap.pkgs;
    if !known {
      return known, Stats([], {}), db0, cas0;
    }
    var run := new Run(env, db0, cas0);
    if Prior(env0, env, x, db0, cas0) {
      WalkStart(env0, env, x, db0, cas0);
      StartOrder(env, x);
    }
    stats := ReindexClosure(run, x, faults, writeFails, env0, db0, cas0);
    db, cas := run.db, run.cas;
    if Prior(env0, env, x, db0, cas0) && NoFaults(faults) && forall p :: !writeFails(p) {
      forall p ensures p !in stats.errors {
        NoCauseNoError(env, stats.errors, faults, writeFails, p);
      }
      assert stats.errors == {};
    }
  }

  method ReindexClosure(run: Run, x: Path, faults: Path -> Faults, writeFails: Path -> bool,
                        ghost env0: Env, ghost db0: map<Path, Pointer>, ghost cas0: map<nat, Blob>)
    returns (stats: Stats)
    requires G.Valid(run.env.snap) && G.UniqueImports(run.env.snap.pkgs) && x in run.env.snap.pkgs
    requires Prior(env0, run.env, x, db0, cas0) ==>
               ClosureDone(run.env, x, {}, x) && Walking(env0, run.env, x, {}, run.S(), Stats([], {}), db0, cas0)
    modifies run`db, run`cas, run`exports, run.keys
    ensures Prior(env0, run.env, x, db0, cas0) ==>
              && GoodDb(run.env, run.db) && GoodCas(run.env.w, run.cas)
              && ErrorsTraced(run.env, stats.errors, faults, writeFails)
              && (stats.errors == {} ==> Restored(env0, run.env, run.db, run.cas, stats))
  {
    var fatal: bool;
    stats, fatal := ReindexOne(run, x, faults(x), writeFails(x), Stats([], {}), env0, x, {}, db0, cas0);
    if Prior(env0, run.env, x, db0, cas0) {
      TracedMore(run.env, {}, stats.errors, x, faults, writeFails);
    }
    if stats.errors != {} {
      return;
    }
    var ordered := OrderedReverseClosure(run.env.snap, x);
    assert {x} + Elements(ordered[..0]) == {} + {x};
    stats := Walk(run, x, ordered, faults, writeFails, stats, env0, db0, cas0);
    if Prior(env0, run.env, x, db0, cas0) && stats.errors == {} {
      WalkEnds(env0, run.env, x, ordered, run.S(), stats, db0, cas0);
    }
  }

  method Walk(run: Run, x: Path, ordered: seq<Path>, faults: Path -> Faults, writeFails: Path -> bool, stats0: Stats,
              ghost env0: Env, ghost db0: map<Path, Pointer>, ghost cas0: map<nat, Blob>)
    returns (stats: Stats)
    requires ClosureOrder(run.env.snap, x, ordered) && G.UniqueImports(run.env.snap.pkgs)
    requires Prior(env0, run.env, x, db0, cas0) ==>
               && Walking(env0, run.env, x, {x} + Elements(ordered[..0]), run.S(), stats0, db0, cas0)
               && ErrorsTraced(run.env, stats0.errors, faults, writeFails)
    modifies run`db, run`cas, run`exports, run.keys
    ensures Prior(env0, run.env, x, db0, cas0) ==>
              && (stats.errors == {} ==>
                    Walking(env0, run.env, x, {x} + Elements(ordered[..|ordered|]), run.S(), stats, db0, cas0))
              && GoodDb(run.env, run.db) && GoodCas(run.env.w, run.cas)
              && ErrorsTraced(run.env, stats.errors, faults, writeFails)
  {
    ghost var prior := Prior(env0, run.env, x, db0, cas0);
    stats := stats0;
    var n, fatal := 0, false;
    while n < |ordered| && !fatal
      invariant n <= |ordered| && (fatal ==> stats.errors != {})
      invariant prior ==> GoodDb(run.env, run.db) && GoodCas(run.env.w, run.cas)
      invariant prior ==> ErrorsTraced(run.env, stats.errors, faults, writeFails)
      invariant prior && !fatal ==> Walking(env0, run.env, x, {x} + Elements(ordered[..n]), run.S(), stats, db0, cas0)
      decreases |ordered| - n
    {
      WalkOrder(run.env, x, ordered, n);
      ghost var before := stats.errors;
      stats, fatal := ReindexOne(run, ordered[n], faults(ordered[n]), writeFails(ordered[n]), stats, env0, x,
                                 {x} + Elements(ordered[..n]), db0, cas0);
      if prior {
        TracedMore(run.env, before, stats.errors, ordered[n], faults, writeFails);
      }
      n := n + 1;
    }
  }

  lemma UnitEnds(env0: Env, env: Env, x: Path, done: set<Path>, s: State, stats: Stats,
                 db0: map<Path, Pointer>, cas0: map<nat, Blob>, p: Path)
    requires Prior(env0, env, x, db0, cas0) && Walking(env0, env, x, done, s, stats, db0, cas0) && stats.errors == {}
    requires IsUnit(env, p) && (p in done <==> G.Reaches(env.snap.pkgs, p, x))
    ensures Agrees(env, s.db, s.cas, p) && (p in stats.changed <==> KeyChanged(env0, env, p))
  {
    WalkedAgrees(env0, env, x, done, s, db0, cas0, p);
    if p !in done {
      Unaffected(env0, env, x, p);
      assert p !in Elements(stats.changed);
    }
  }

  lemma WalkEnds(env0: Env, env: Env, x: Path, ordered: seq<Path>, s: State, stats: Stats,
                 db0: map<Path, Pointer>, cas0: map<nat, Blob>)
    requires Prior(env0, env, x, db0, cas0) && ClosureOrder(env.snap, x, ordered) && stats.errors == {}
    requires Walking(env0, env, x, {x} + Elements(ordered[..|ordered|]), s, stats, db0, cas0)
    ensures Restored(env0, env, s.db, s.cas, stats)
  {
    var done := {x} + Elements(ordered[..|ordered|]);
    assert ordered[..|ordered|] == ordered;
    G.ReachesSelf(env.snap.pkgs, x);
    forall p | IsUnit(env, p)
      ensures Agrees(env, s.db, s.cas, p) && (p in stats.changed <==> KeyChanged(env0, env, p))
    {
      assert p in done <==> G.Reaches(env.snap.pkgs, p, x);
      UnitEnds(env0, env, x, done, s, stats, db0, cas0, p);
    }
  }
}

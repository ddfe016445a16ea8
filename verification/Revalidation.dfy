/** Revalidate, internal/index/revalidate.go: would a Build have anything to do? */
module Revalidation {
  import opened Options
  import opened Paths
  import opened UnitKeys
  import opened Units
  import opened Processing
  import opened Building
  import opened Reindexing
  import G = Graph
  import S = Scheduler

  /** Only lookups have happened since the start of the run. */
  ghost predicate OnlyLooked(s: State) {
    s == Start(s.db, s.cas).(m := s.m) && forall q :: Find(s, q) == Find(Start(s.db, s.cas), q)
  }

  /** What `packageChanged` goes by; a missing blob counts only where there is a blob store. */
  ghost predicate Stale(env: Env, db: map<Path, Pointer>, cas: map<nat, Blob>, haveCas: bool, p: Path) {
    var s := Start(db, cas);
    if !AllFound(s, DirectDeps(env.snap, p)) then true
    else
      var key := Combined(env, s, true, p);
      !Trusted(env, db, p) || key != db[p].blobKey || (haveCas && key !in cas)
  }

  /** With a blob store, stale is the opposite of current. */
  lemma StaleIsNotCurrent(env: Env, db: map<Path, Pointer>, cas: map<nat, Blob>, p: Path)
    ensures Stale(env, db, cas, true, p) <==> !Current(env, db, cas, p)
  {
  }

  lemma StillLooked(s: State, s': State, among: set<Path>)
    requires OnlyLooked(s) && Looked(s, s', among)
    ensures OnlyLooked(s')
  {
    forall q ensures Find(s', q) == Find(Start(s.db, s.cas), q) {
      assert Find(s', q) == Find(s, q);
    }
  }

  lemma SameCombined(env: Env, s: State, p: Path)
    requires OnlyLooked(s)
    ensures AllFound(s, DirectDeps(env.snap, p)) <==> AllFound(Start(s.db, s.cas), DirectDeps(env.snap, p))
    ensures AllFound(s, DirectDeps(env.snap, p)) ==>
              Combined(env, s, true, p) == Combined(env, Start(s.db, s.cas), true, p)
  {
    if AllFound(s, DirectDeps(env.snap, p)) {
      assert DepHashes(s, DirectDeps(env.snap, p)) == DepHashes(Start(s.db, s.cas), DirectDeps(env.snap, p));
    }
  }

  /** What fails while a revalidation reads: the build fingerprint, database records, files. */
  datatype ReadFaults = ReadFaults(fingerprint: bool, record: Path -> bool, files: Path -> bool)

  /** `p` cannot be judged: its record cannot be read, or its files have to be and cannot. */
  ghost predicate Blocked(env: Env, db: map<Path, Pointer>, faults: ReadFaults, p: Path) {
    faults.record(p) || (Trusted(env, db, p) && !StatMatches(env, db[p].files, p) && faults.files(p))
  }

  /** Whether `p` is stale; none exactly if it cannot be judged. */
  method PackageChanged(run: Run, p: Path, haveCas: bool, faults: ReadFaults) returns (changed: Option<bool>)
    requires p in run.env.snap.pkgs && Distinct(G.ImportsOf(run.env.snap.pkgs, p)) && OnlyLooked(run.S())
    modifies run.keys`m
    ensures OnlyLooked(run.S())
    ensures changed.None? <==> Blocked(run.env, run.db, faults, p)
    ensures changed.Some? ==> (changed.value <==> Stale(run.env, run.db, run.cas, haveCas, p))
  {
    if faults.record(p) {
      return None;
    }
    if p !in run.db || run.db[p].fingerprint != run.env.fingerprint {
      return Some(true);
    }
    var statOK := run.db[p].files != map[] && run.env.stat(p) == Some(run.db[p].files);
    if !statOK && faults.files(p) {
      return None;
    }
    var own := if statOK then run.db[p].contentHash else run.env.w.contentHash(run.env.content(p));
    ghost var s := run.S();
    var combined, error := run.CombinedKey(p, true, own);
    StillLooked(s, run.S(), Imported(run.env, p));
    SameCombined(run.env, s, p);
    if error.Some? {
      return Some(true);
    }
    changed := Some(combined != run.db[p].blobKey || (haveCas && combined !in run.cas));
  }

  /** The units of `done` that are stale. */
  ghost predicate Collects(env: Env, db: map<Path, Pointer>, cas: map<nat, Blob>, haveCas: bool, done: set<Path>,
                           stale: seq<Path>) {
    Distinct(stale) && forall p :: p in stale <==> p in done && IsUnit(env, p) && Stale(env, db, cas, haveCas, p)
  }

  lemma CollectsNext(env: Env, db: map<Path, Pointer>, cas: map<nat, Blob>, haveCas: bool, done: set<Path>,
                     stale: seq<Path>, p: Path)
    requires Collects(env, db, cas, haveCas, done, stale) && p !in done
    ensures Collects(env, db, cas, haveCas, done + {p},
                     if IsUnit(env, p) && Stale(env, db, cas, haveCas, p) then stale + [p] else stale)
  {
    if IsUnit(env, p) && Stale(env, db, cas, haveCas, p) {
      S.DistinctPush(stale, p);
    }
  }

  /** Some unit of `done` cannot be judged. */
  ghost predicate AnyBlocked(env: Env, db: map<Path, Pointer>, faults: ReadFaults, done: set<Path>) {
    exists p :: p in done && IsUnit(env, p) && Blocked(env, db, faults, p)
  }

  lemma AnyBlockedNext(env: Env, db: map<Path, Pointer>, faults: ReadFaults, done: set<Path>, p: Path)
    ensures AnyBlocked(env, db, faults, done + {p})
       <==> AnyBlocked(env, db, faults, done) || (IsUnit(env, p) && Blocked(env, db, faults, p))
  {
    if AnyBlocked(env, db, faults, done) {
      var q :| q in done && IsUnit(env, q) && Blocked(env, db, faults, q);
      assert q in done + {p};
    }
  }

  /** Examine every unit, in any order. */
  method Examine(run: Run, haveCas: bool, faults: ReadFaults) returns (stale: seq<Path>, failed: bool)
    requires G.UniqueImports(run.env.snap.pkgs) && OnlyLooked(run.S())
    modifies run.keys`m
    ensures failed <==> AnyBlocked(run.env, run.db, faults, run.env.snap.pkgs.Keys)
    ensures !failed ==> Collects(run.env, run.db, run.cas, haveCas, run.env.snap.pkgs.Keys, stale)
  {
    stale, failed := [], false;
    var todo := run.env.snap.pkgs.Keys;
    while todo != {}
      invariant todo <= run.env.snap.pkgs.Keys && OnlyLooked(run.S())
      invariant failed <==> AnyBlocked(run.env, run.db, faults, run.env.snap.pkgs.Keys - todo)
      invariant !failed ==> Collects(run.env, run.db, run.cas, haveCas, run.env.snap.pkgs.Keys - todo, stale)
      decreases todo
    {
      var p :| p in todo;
      ghost var done := run.env.snap.pkgs.Keys - todo;
      if !failed {
        CollectsNext(run.env, run.db, run.cas, haveCas, done, stale, p);
      }
      AnyBlockedNext(run.env, run.db, faults, done, p);
      todo := todo - {p};
      assert run.env.snap.pkgs.Keys - todo == done + {p};
      if S.SchedulableRoot(run.env.snap.pkgs, p) && run.env.snap.pkgs[p].hasGoFiles {
        var changed := PackageChanged(run, p, haveCas, faults);
        if changed.None? {
          failed := true;
        } else if changed.value {
          stale := stale + [p];
        }
      }
    }
  }

  /** Exactly the stale units, sorted; or the whole database; or an error, and then nothing is reported. */
  method RevalidateStale(env: Env, db: map<Path, Pointer>, cas: map<nat, Blob>, haveCas: bool,
                         buildFingerprint: Option<nat>, faults: ReadFaults)
    returns (stale: seq<Path>, wholeDBStale: bool, failed: bool)
    requires G.UniqueImports(env.snap.pkgs)
    ensures wholeDBStale <==> !faults.fingerprint && buildFingerprint != Some(env.fingerprint)
    ensures failed <==> faults.fingerprint || (!wholeDBStale && AnyBlocked(env, db, faults, env.snap.pkgs.Keys))
    ensures wholeDBStale || failed ==> stale == []
    ensures !wholeDBStale && !failed ==>
              Sorted(stale) && forall p :: p in stale <==> IsUnit(env, p) && Stale(env, db, cas, haveCas, p)
  {
    if faults.fingerprint {
      return [], false, true;
    }
    if buildFingerprint != Some(env.fingerprint) {
      return [], true, false;
    }
    wholeDBStale := false;
    var run := new Run(env, db, cas);
    var collected;
    collected, failed := Examine(run, haveCas, faults);
    if failed {
      return [], false, true;
    }
    stale := SortPaths(collected);
    assert forall p :: p in stale <==> p in Elements(stale);
    assert forall p :: p in collected <==> p in Elements(collected);
  }

  method Revalidate(env: Env, db: map<Path, Pointer>, cas: map<nat, Blob>, buildFingerprint: Option<nat>,
                    faults: ReadFaults)
    returns (changed: bool, failed: bool)
    requires G.UniqueImports(env.snap.pkgs)
    ensures failed ==> !changed
    ensures !faults.fingerprint && buildFingerprint != Some(env.fingerprint) ==> changed
    ensures buildFingerprint == Some(env.fingerprint) && !failed ==>
              (!changed <==> AllCurrent(env, S.Units(env.snap.pkgs), db, cas))
    ensures !faults.fingerprint && !AnyBlocked(env, db, faults, env.snap.pkgs.Keys) ==> !failed
  {
    var stale, whole;
    stale, whole, failed := RevalidateStale(env, db, cas, true, buildFingerprint, faults);
    if failed {
      return false, true;
    }
    changed := whole || stale != [];
    if !whole {
      NoneStale(env, db, cas, stale);
    }
  }

  /**
   Under a matching fingerprint, Revalidate says no exactly when a Build that meets no error, under any
   schedule, skips every package.

   That is not what its own documentation says, which is about packages that need a parse or type-check. From
   consistent stores it never misses one, but it also reports a package whose unit the blob store already has.
   Its answer is the documented one exactly if every package is current or some unit is not in the store.
   */
  method RevalidateThenBuild(env: Env, db0: map<Path, Pointer>, cas0: map<nat, Blob>, readFaults: ReadFaults,
                             ghost plan: S.Plan, ghost start: S.State, schedule: seq<S.Action>,
                             faults: Path -> Faults, writes: Writes)
    returns (changed: bool, failed: bool, results: Results)
    requires G.UniqueImports(env.snap.pkgs) && Scheduled(env.snap, plan, start, schedule)
    ensures !failed && results.errors == map[] ==> (!changed <==> results.skipped == S.Units(env.snap.pkgs))
    ensures !failed && results.errors == map[] && results.typeChecked != {} ==> changed
    ensures !failed && results.errors == map[] && Consistent(env, db0, cas0) ==>
              ((changed <==> results.typeChecked != {}) <==>
               AllCurrent(env, S.Units(env.snap.pkgs), db0, cas0) || !AllStored(env, cas0))
    ensures !readFaults.fingerprint && !AnyBlocked(env, db0, readFaults, env.snap.pkgs.Keys) ==> !failed
    ensures NoFaults(faults) ==> results.errors == map[]
  {
    changed, failed := Revalidate(env, db0, cas0, Some(env.fingerprint), readFaults);
    var db, cas;
    results, db, cas := Build(env, db0, cas0, plan, start, schedule, faults, writes);
    if NoFaults(faults) {
      forall p ensures p !in results.errors {
        NoFaultsNoError(env, results.errors, faults, p);
      }
    }
  }

  lemma NoneStale(env: Env, db: map<Path, Pointer>, cas: map<nat, Blob>, stale: seq<Path>)
    requires forall p :: p in stale <==> IsUnit(env, p) && Stale(env, db, cas, true, p)
    ensures stale == [] <==> AllCurrent(env, S.Units(env.snap.pkgs), db, cas)
  {
    forall p ensures Stale(env, db, cas, true, p) <==> !Current(env, db, cas, p) {
      StaleIsNotCurrent(env, db, cas, p);
    }
    if stale != [] {
      assert stale[0] in stale;
    }
  }
}

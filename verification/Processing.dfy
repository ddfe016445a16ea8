/** Resolving one package: internal/index/unit.go, and the recovery around it in internal/index/index.go. */
module Processing {
  import opened Options
  import opened Paths
  import opened UnitKeys
  import opened Units
  import G = Graph

  datatype Error =
    | ReadFailed
    | DependencyFailed(dep: Path)
    | OutOfOrder(dep: Path)
    | BlobUnreadable
    | CheckFailed
    | StoreFailed

  /** What is to be written to the database. */
  datatype Outcome = Nothing | Entry(pointer: Pointer) | Refresh(pointer: Pointer)

  datatype Processed = Done(outcome: Outcome, skipped: bool, typeChecked: bool) | Failed(error: Error)

  /** What goes wrong outside the index's own logic while one package is processed; a panic counts as a failed check. */
  datatype Faults = Faults(read: bool, blob: bool, check: bool, store: bool)

  predicate Faulty(f: Faults) {
    f.read || f.blob || f.check || f.store
  }

  /** The fault behind an error, unless a dependency is to blame. */
  predicate Caused(e: Error, f: Faults) {
    match e
    case ReadFailed => f.read
    case BlobUnreadable => f.blob
    case CheckFailed => f.check
    case StoreFailed => f.store
    case DependencyFailed(_) => true
    case OutOfOrder(_) => true
  }

  // ---------------------------------------------------------------------- lookups

  /** Only lookups of paths among these happened between the two states. */
  ghost predicate Looked(s: State, s': State, among: set<Path>) {
    && s' == s.(m := s'.m) && s.m.Keys <= s'.m.Keys
    && (forall q :: Find(s', q) == Find(s, q))
    && (forall q | q in s'.m :: q in s.m || q in among)
  }

  lemma LookedUp(s: State, s': State, among: set<Path>, p: Path)
    requires p in among && s' == s.(m := s'.m) && s'.m == if Find(s, p).Some? then s.m[p := Find(s, p).value] else s.m
    ensures Looked(s, s', among)
  {
  }

  lemma LookedTwice(s: State, s': State, s'': State, among: set<Path>)
    requires Looked(s, s', among) && Looked(s', s'', among)
    ensures Looked(s, s'', among)
  {
  }

  /** The workspace imports of `p`, in order or not. */
  ghost function Imported(env: Env, p: Path): set<Path>
    requires p in env.snap.pkgs
  {
    set d | d in env.snap.pkgs && G.DependsOn(env.snap.pkgs, p, d) && Indexed(env.snap, d)
  }

  ghost function VisibleFirst(env: Env, s: State, imports: seq<Path>, n: nat): map<Path, Export>
    requires n <= |imports|
  {
    map d | d in imports[..n] && Indexed(env.snap, d) && ExportData(s, d).Some? :: ExportData(s, d).value
  }

  lemma SameExport(s: State, s': State, among: set<Path>, d: Path)
    requires Looked(s, s', among)
    ensures ExportData(s', d) == ExportData(s, d)
  {
  }

  /** The first `n` dependencies and the export hashes found for them. */
  ghost predicate FoundFirst(s: State, deps: seq<Path>, n: nat, out: seq<DepExport>) {
    && n <= |deps| && |out| == n
    && forall i | 0 <= i < n ::
         Find(s, deps[i]).Some? && out[i] == DepExport(deps[i], Find(s, deps[i]).value.exportHash)
  }

  lemma VisibleNext(env: Env, s: State, imports: seq<Path>, n: nat)
    requires n < |imports|
    ensures var d, first := imports[n], VisibleFirst(env, s, imports, n);
            VisibleFirst(env, s, imports, n + 1) ==
            if Indexed(env.snap, d) && ExportData(s, d).Some? then first[d := ExportData(s, d).value] else first
  {
    assert imports[..n + 1] == imports[..n] + [imports[n]];
  }

  lemma VisibleAll(env: Env, s: State, p: Path)
    requires p in env.snap.pkgs
    ensures var imports := G.ImportsOf(env.snap.pkgs, p); VisibleFirst(env, s, imports, |imports|) == Visible(env, s, p)
  {
    var imports := G.ImportsOf(env.snap.pkgs, p);
    G.ImportsAreDependencies(env.snap.pkgs, p);
    assert imports[..|imports|] == imports;
  }

  lemma FoundAll(s: State, deps: seq<Path>, out: seq<DepExport>)
    requires Distinct(deps) && FoundFirst(s, deps, |deps|, out)
    ensures AllFound(s, Elements(deps)) && Lists(out, DepHashes(s, Elements(deps)))
  {
    forall d | d in Elements(deps)
      ensures Find(s, d).Some? && exists i :: 0 <= i < |out| && out[i].path == d
    {
      var i :| 0 <= i < |deps| && deps[i] == d;
      assert out[i].path == d;
    }
    forall i | 0 <= i < |out|
      ensures out[i].path in Elements(deps) && DepHashes(s, Elements(deps))[out[i].path] == out[i].exportHash
    {
      assert deps[i] in Elements(deps);
    }
  }

  // ------------------------------------------------------------- one step, on values

  /** The stat recorded for `p` when it may be trusted. */
  function StatFiles(env: Env, trustStat: bool, p: Path): Files {
    if trustStat && env.stat(p).Some? then env.stat(p).value else map[]
  }

  /** The recorded key still holds: the record stands, except that its stat may be refreshed. */
  ghost predicate Skips(env: Env, s: State, p: Path, outcome: Outcome, s': State) {
    && s'.cas == s.cas && s'.exports == s.exports
    && p in s.db && p in s'.m && s'.m[p] == RecordOf(s.db[p])
    && (outcome == Nothing
        || (env.stat(p).Some? && outcome == Refresh(s.db[p].(files := env.stat(p).value))))
  }

  /** The blob store already has the key: everything comes from its blob. */
  ghost predicate Hits(env: Env, s: State, key: nat, own: nat, p: Path, outcome: Outcome, s': State) {
    && key in s.cas && s'.cas == s.cas
    && var blob := s.cas[key];
    && s'.exports == s.exports[p := blob.exported]
    && p in s'.m && s'.m[p] == Record(key, env.w.hash(blob.exported))
    && outcome == Entry(Pointer(key, own, env.w.hash(blob.exported), env.fingerprint, blob.files))
  }

  /** A miss: `p` is type-checked against what it sees of its imports, and stored under the key. */
  ghost predicate Checks(env: Env, s: State, key: nat, own: nat, trustStat: bool, p: Path, outcome: Outcome,
                         s': State) {
    && p in env.snap.pkgs
    && var checked := env.w.check(env.content(p), Visible(env, s, p));
    && var files := StatFiles(env, trustStat, p);
    && s'.cas == s.cas[key := Blob(checked.facts, checked.exported, files)]
    && s'.exports == s.exports[p := checked.exported]
    && p in s'.m && s'.m[p] == Record(key, env.w.hash(checked.exported))
    && outcome == Entry(Pointer(key, own, env.w.hash(checked.exported), env.fingerprint, files))
  }

  /** Apart from `p` itself, the key table only remembers what lookups of its workspace imports found. */
  ghost predicate Remembers(env: Env, s: State, p: Path, s': State)
    requires p in env.snap.pkgs
  {
    && s'.failed == s.failed && s'.db == s.db && s.m.Keys <= s'.m.Keys
    && (forall q | q in s'.m && q != p :: q in s.m || q in Imported(env, p))
    && (forall q | q != p :: Find(s', q) == Find(s, q))
  }

  /** A failure names a dependency that is not found, failed this run or never indexed. */
  ghost predicate Blames(env: Env, s: State, p: Path, e: Error) {
    && (e.DependencyFailed? ==> e.dep in DirectDeps(env.snap, p) && Find(s, e.dep) == None && e.dep in s.failed)
    && (e.OutOfOrder? ==> e.dep in DirectDeps(env.snap, p) && Find(s, e.dep) == None && e.dep !in s.failed)
  }

  ghost predicate BlamesDep(env: Env, s: State, p: Path, e: Error) {
    (e.DependencyFailed? || e.OutOfOrder?) && Blames(env, s, p, e)
  }

  /** What processing `p` does to the state, and how it ends. */
  ghost predicate Processes(env: Env, s: State, trustStat: bool, p: Path, r: Processed, s': State)
    requires p in env.snap.pkgs
  {
    if !env.snap.pkgs[p].hasGoFiles then r == Done(Nothing, true, false) && s' == s
    else
      match r
      case Failed(e) => Looked(s, s', Imported(env, p)) && Blames(env, s, p, e)
      case Done(outcome, skipped, typeChecked) =>
        && Remembers(env, s, p, s') && AllFound(s, DirectDeps(env.snap, p))
        && skipped == Unchanged(env, s, trustStat, p)
        && var key, own := Combined(env, s, trustStat, p), OwnHash(env, s.db, trustStat, p);
        if skipped then !typeChecked && (outcome.Refresh? ==> trustStat) && Skips(env, s, p, outcome, s')
        else if key in s.cas then !typeChecked && Hits(env, s, key, own, p, outcome, s')
        else typeChecked && Checks(env, s, key, own, trustStat, p, outcome, s')
  }

  /** The recorded stat of `p` may be trusted and matches. */
  ghost predicate StatOK(env: Env, db: map<Path, Pointer>, trustStat: bool, p: Path) {
    trustStat && Trusted(env, db, p) && StatMatches(env, db[p].files, p)
  }

  /** What is recorded for a package that was skipped or type-checked has the stat just read, if it may be trusted. */
  ghost predicate StatKept(env: Env, s: State, trustStat: bool, p: Path, r: Processed) {
    r.Done? && (r.skipped || r.typeChecked) && trustStat && env.stat(p).Some? ==>
      var recorded := Recorded(s.db, p, r.outcome);
      recorded.Some? && recorded.value.files == env.stat(p).value
  }

  /** A fault stops `p` exactly if processing gets that far. */
  ghost predicate Fails(env: Env, s: State, trustStat: bool, p: Path, faults: Faults) {
    || (faults.read && !StatOK(env, s.db, trustStat, p))
    || !AllFound(s, DirectDeps(env.snap, p))
    || (!Unchanged(env, s, trustStat, p)
        && (faults.blob || (Combined(env, s, trustStat, p) !in s.cas && (faults.check || faults.store))))
  }

  /** The state after a failure has been recorded. */
  ghost function Recovered(s: State, p: Path, r: Processed): State {
    if r.Failed? then s.(failed := s.failed + {p}) else s
  }

  /** A stat refresh that is lost in writing, which nobody reports, leaves nothing to be written. */
  function WithoutRefresh(r: Processed, lost: bool): Processed {
    if lost && r.Done? && r.outcome.Refresh? then r.(outcome := Nothing) else r
  }

  lemma RefreshMayBeLost(env: Env, s: State, trustStat: bool, p: Path, r: Processed, s': State, lost: bool)
    requires p in env.snap.pkgs && Processes(env, s, trustStat, p, r, s')
    ensures Processes(env, s, trustStat, p, WithoutRefresh(r, lost), s')
  {
  }

  // -------------------------------------------------- steps after lookups are steps

  lemma StoredAfterLooking(env: Env, s: State, looked: State, p: Path, s': State)
    requires p in env.snap.pkgs && Looked(s, looked, Imported(env, p))
    requires s'.failed == looked.failed && s'.db == looked.db && p in s'.m && s'.m == looked.m[p := s'.m[p]]
    ensures Remembers(env, s, p, s')
  {
    forall q | q != p ensures Find(s', q) == Find(s, q) {
      assert Find(looked, q) == Find(s, q);
    }
  }

  lemma RemembersTwice(env: Env, s: State, looked: State, p: Path, s': State)
    requires p in env.snap.pkgs && Looked(s, looked, Imported(env, p)) && Remembers(env, looked, p, s')
    ensures Remembers(env, s, p, s')
  {
    forall q | q != p ensures Find(s', q) == Find(s, q) {
      assert Find(looked, q) == Find(s, q);
    }
  }

  lemma SameVisible(env: Env, s: State, looked: State, p: Path)
    requires p in env.snap.pkgs && Looked(s, looked, Imported(env, p))
    ensures Visible(env, looked, p) == Visible(env, s, p)
  {
    forall d ensures ExportData(looked, d) == ExportData(s, d) {
      SameExport(s, looked, Imported(env, p), d);
    }
  }

  lemma MoreLooked(s: State, s': State, among: set<Path>, more: set<Path>)
    requires Looked(s, s', among) && among <= more
    ensures Looked(s, s', more)
  {
  }

  lemma DepsImported(env: Env, p: Path)
    requires p in env.snap.pkgs
    ensures DirectDeps(env.snap, p) <= Imported(env, p)
  {
  }

  // ----------------------------------------------------------------------- soundness

  /** What the database is left with for `p`. */
  function Recorded(db: map<Path, Pointer>, p: Path, outcome: Outcome): Option<Pointer> {
    match outcome
    case Nothing => if p in db then Some(db[p]) else None
    case Entry(ptr) => Some(ptr)
    case Refresh(ptr) => Some(ptr)
  }

  ghost predicate Grows(cas: map<nat, Blob>, cas': map<nat, Blob>) {
    forall key | key in cas :: key in cas'
  }

  /** What holds after `p` was processed without an error. */
  ghost predicate Sound(env: Env, s: State, p: Path, outcome: Outcome, s': State) {
    && GoodCas(env.w, s'.cas) && Grows(s.cas, s'.cas)
    && p in s'.m && Resolved(env, s'.cas, p, s'.m[p])
    && (forall d | d in s'.exports :: s'.exports[d] == Scratch(env, d).exported)
    && Recorded(s.db, p, outcome).Some? && RightPointer(env, p, Recorded(s.db, p, outcome).value)
  }

  lemma SkipSound(env: Env, s: State, p: Path, outcome: Outcome, s': State)
    requires GoodWorld(env) && RunInv(env, s) && (outcome.Refresh? ==> Honest(env, p))
    requires Trusted(env, s.db, p) && s.db[p].blobKey == ScratchKey(env, p) && ScratchKey(env, p) in s.cas
    requires Skips(env, s, p, outcome, s')
    ensures Sound(env, s, p, outcome, s')
  {
    assert GoodPointer(env.w, s.db[p]);
    GoodIsRight(env, p, s.db[p]);
  }

  lemma HitSound(env: Env, s: State, p: Path, outcome: Outcome, s': State)
    requires GoodWorld(env) && RunInv(env, s)
    requires Hits(env, s, ScratchKey(env, p), env.w.contentHash(env.content(p)), p, outcome, s')
    ensures Sound(env, s, p, outcome, s')
  {
    BlobIsScratch(env, s.cas, p);
  }

  lemma CheckSound(env: Env, s: State, trustStat: bool, p: Path, outcome: Outcome, s': State)
    requires p in env.snap.pkgs && GoodWorld(env) && RunInv(env, s)
    requires StatOf(env.w, StatFiles(env, trustStat, p), env.content(p)) && Visible(env, s, p) == ScratchDeps(env, p)
    requires Checks(env, s, ScratchKey(env, p), env.w.contentHash(env.content(p)), trustStat, p, outcome, s')
    ensures Sound(env, s, p, outcome, s')
  {
    var key := ScratchKey(env, p);
    ScratchOrigin(env, p);
    BlobStored(env.w, s.cas, key, s'.cas[key], env.content(p), ScratchDeps(env, p));
  }

  lemma TrustedStatOf(env: Env, trustStat: bool, p: Path)
    requires trustStat ==> Honest(env, p)
    ensures StatOf(env.w, StatFiles(env, trustStat, p), env.content(p))
  {
  }

  lemma BlobStored(w: World, cas: map<nat, Blob>, key: nat, blob: Blob, c: Content, exports: map<Path, Export>)
    requires GoodCas(w, cas) && BlobOf(w, key, blob, c, exports)
    ensures GoodCas(w, cas[key := blob])
  {
  }

  lemma DoneSound(env: Env, s: State, trustStat: bool, p: Path, r: Processed, s': State)
    requires p in env.snap.pkgs && env.snap.pkgs[p].hasGoFiles && NoneDropped(env.snap, p)
    requires GoodWorld(env) && RunInv(env, s) && Ready(env, s, p) && (trustStat ==> Honest(env, p))
    requires r.Done? && Processes(env, s, trustStat, p, r, s')
    ensures Sound(env, s, p, r.outcome, s')
  {
    CombinedIsScratch(env, s, trustStat, p);
    OwnHashIsContentHash(env, s.db, trustStat, p);
    if r.skipped {
      SkipSound(env, s, p, r.outcome, s');
    } else if ScratchKey(env, p) in s.cas {
      HitSound(env, s, p, r.outcome, s');
    } else {
      VisibleIsScratch(env, s, p);
      TrustedStatOf(env, trustStat, p);
      CheckSound(env, s, trustStat, p, r.outcome, s');
    }
  }

  /** What lookups remembered along the way is right too. */
  lemma RememberedSound(env: Env, s: State, p: Path, s': State)
    requires p in env.snap.pkgs && NoneDropped(env.snap, p)
    requires RunInv(env, s) && Ready(env, s, p) && Remembers(env, s, p, s') && Grows(s.cas, s'.cas)
    requires GoodCas(env.w, s'.cas) && (forall d | d in s'.exports :: s'.exports[d] == Scratch(env, d).exported)
    requires p in s'.m ==> Resolved(env, s'.cas, p, s'.m[p])
    ensures RunInv(env, s')
  {
    forall d | d in s'.m ensures Resolved(env, s'.cas, d, s'.m[d]) {
      if d != p {
        assert Find(s', d) == Find(s, d) == Some(s'.m[d]);
        if d in s.m {
          assert Resolved(env, s.cas, d, s.m[d]);
        } else {
          assert Resolved(env, s.cas, d, Find(s, d).value);
        }
      }
    }
  }

  /**
   Whichever way `p` is resolved, the state stays right; and if it is resolved, its record and what is to be written
   are the from-scratch ones.
   */
  lemma ProcessesSound(env: Env, s: State, trustStat: bool, p: Path, r: Processed, s': State)
    requires p in env.snap.pkgs && NoneDropped(env.snap, p)
    requires GoodWorld(env) && RunInv(env, s) && Ready(env, s, p) && (trustStat ==> Honest(env, p))
    requires Processes(env, s, trustStat, p, r, s')
    ensures RunInv(env, s') && Grows(s.cas, s'.cas)
    ensures r.Done? && env.snap.pkgs[p].hasGoFiles ==> Sound(env, s, p, r.outcome, s')
  {
    if env.snap.pkgs[p].hasGoFiles {
      if r.Done? {
        DoneSound(env, s, trustStat, p, r, s');
        RememberedSound(env, s, p, s');
      } else {
        LookedSound(env, s, p, s');
      }
    }
  }

  lemma LookedSound(env: Env, s: State, p: Path, s': State)
    requires p in env.snap.pkgs && NoneDropped(env.snap, p)
    requires RunInv(env, s) && Ready(env, s, p) && Looked(s, s', Imported(env, p))
    ensures RunInv(env, s')
  {
    forall d | d in s'.m ensures Resolved(env, s'.cas, d, s'.m[d]) {
      assert Find(s', d) == Find(s, d) == Some(s'.m[d]);
      if d !in s.m {
        assert Resolved(env, s.cas, d, Find(s, d).value);
      }
    }
  }

  // ------------------------------------------------------------------- in place

  /** What one Build or Reindex run works with. */
  class Run {
    const env: Env
    const keys: KeyTable
    var db: map<Path, Pointer>
    var cas: map<nat, Blob>
    var exports: map<Path, Export>

    constructor (env: Env, db: map<Path, Pointer>, cas: map<nat, Blob>)
      ensures this.env == env && fresh(keys) && S() == State(map[], {}, db, cas, map[])
    {
      this.env, this.db, this.cas, this.exports := env, db, cas, map[];
      this.keys := new KeyTable();
    }

    ghost function S(): State
      reads this, keys
    {
      State(keys.m, keys.failed, db, cas, exports)
    }

    method DirectDepImports(p: Path) returns (out: seq<Path>)
      requires p in env.snap.pkgs && Distinct(G.ImportsOf(env.snap.pkgs, p))
      ensures Distinct(out) && Elements(out) == DirectDeps(env.snap, p)
    {
      out := [];
      var imports := G.ImportsOf(env.snap.pkgs, p);
      for i := 0 to |imports|
        invariant Distinct(out)
        invariant forall d :: d in out <==> d in imports[..i] && Indexed(env.snap, d) && G.Before(env.snap, d, p)
      {
        assert imports[..i + 1] == imports[..i] + [imports[i]];
        if Indexed(env.snap, imports[i]) && G.Before(env.snap, imports[i], p) {
          assert imports[i] !in imports[..i];
          out := out + [imports[i]];
        }
      }
      G.ImportsAreDependencies(env.snap.pkgs, p);
      assert imports[..|imports|] == imports;
    }

    /** The dependencies' export hashes, or which of them has none. */
    method DirectDepExports(p: Path) returns (deps: seq<DepExport>, error: Option<Error>)
      requires p in env.snap.pkgs && Distinct(G.ImportsOf(env.snap.pkgs, p))
      modifies keys`m
      ensures Looked(old(S()), S(), DirectDeps(env.snap, p))
      ensures error.Some? ==> BlamesDep(env, old(S()), p, error.value) && !AllFound(old(S()), DirectDeps(env.snap, p))
      ensures error.None? ==> AllFound(old(S()), DirectDeps(env.snap, p))
                              && Lists(deps, DepHashes(old(S()), DirectDeps(env.snap, p)))
    {
      deps := [];
      var imports := DirectDepImports(p);
      ghost var s := S();
      for n := 0 to |imports|
        invariant Looked(s, S(), DirectDeps(env.snap, p)) && FoundFirst(s, imports, n, deps)
      {
        assert imports[n] in Elements(imports);
        ghost var before := S();
        var rec := keys.Get(imports[n], db);
        LookedUp(before, S(), DirectDeps(env.snap, p), imports[n]);
        LookedTwice(s, before, S(), DirectDeps(env.snap, p));
        assert Find(s, imports[n]) == rec;
        if rec.None? {
          error := Some(if imports[n] in keys.failed then DependencyFailed(imports[n]) else OutOfOrder(imports[n]));
          return;
        }
        deps := deps + [DepExport(imports[n], rec.value.exportHash)];
      }
      error := None;
      FoundAll(s, imports, deps);
    }

    /** Export data put this run comes first, then the blob of the current record. */
    method ExportDataOf(d: Path, ghost among: set<Path>) returns (data: Option<Export>)
      requires d in among
      modifies keys`m
      ensures Looked(old(S()), S(), among) && data == ExportData(old(S()), d)
    {
      if d in exports {
        return if exports[d] == [] then None else Some(exports[d]);
      }
      ghost var s := S();
      var rec := keys.Get(d, db);
      LookedUp(s, S(), among, d);
      if rec.None? || rec.value.blobKey !in cas || cas[rec.value.blobKey].exported == [] {
        return None;
      }
      data := Some(cas[rec.value.blobKey].exported);
    }

    /** What the type-checker sees of the workspace imports. */
    method VisibleExports(p: Path) returns (visible: map<Path, Export>)
      requires p in env.snap.pkgs
      modifies keys`m
      ensures Looked(old(S()), S(), Imported(env, p)) && visible == Visible(env, old(S()), p)
    {
      visible := map[];
      var imports := G.ImportsOf(env.snap.pkgs, p);
      ghost var s := S();
      for n := 0 to |imports|
        invariant Looked(s, S(), Imported(env, p))
        invariant visible == VisibleFirst(env, s, imports, n)
      {
        VisibleNext(env, s, imports, n);
        if Indexed(env.snap, imports[n]) {
          ghost var before := S();
          var data := ExportDataOf(imports[n], Imported(env, p));
          LookedTwice(s, before, S(), Imported(env, p));
          SameExport(s, before, Imported(env, p), imports[n]);
          if data.Some? {
            visible := visible[imports[n] := data.value];
          }
        }
      }
      VisibleAll(env, s, p);
    }

    method UnchangedOutcome(p: Path, old': Pointer, statOK: bool, trustStat: bool) returns (outcome: Outcome)
      requires p in db && db[p] == old'
      modifies keys`m
      ensures Skips(env, old(S()), p, outcome, S())
      ensures outcome.Refresh? <==> !statOK && trustStat && env.stat(p).Some?
      ensures S() == old(S()).(m := old(keys.m)[p := RecordOf(old')])
    {
      keys.Set(p, RecordOf(old'));
      if statOK || !trustStat || env.stat(p).None? {
        return Nothing;
      }
      outcome := Refresh(old'.(files := env.stat(p).value));
    }

    method CasHitOutcome(p: Path, combined: nat, own: nat) returns (outcome: Outcome)
      requires combined in cas
      modifies this`exports, keys`m
      ensures Hits(env, old(S()), combined, own, p, outcome, S())
      ensures S() == old(S()).(m := old(keys.m)[p := S().m[p]], exports := exports)
    {
      var blob := cas[combined];
      exports := exports[p := blob.exported];
      var hash := env.w.hash(blob.exported);
      keys.Set(p, Record(combined, hash));
      outcome := Entry(Pointer(combined, own, hash, env.fingerprint, blob.files));
    }

    method CheckAndStoreOutcome(p: Path, combined: nat, own: nat, trustStat: bool, faults: Faults)
      returns (r: Processed)
      requires p in env.snap.pkgs
      modifies this`cas, this`exports, keys`m
      ensures r.Failed? ==> Looked(old(S()), S(), Imported(env, p)) && Caused(r.error, faults)
      ensures r.Failed? ==> !r.error.DependencyFailed? && !r.error.OutOfOrder?
      ensures r.Failed? <==> faults.check || faults.store
      ensures r.Done? ==> !r.skipped && r.typeChecked
      ensures r.Done? ==> Checks(env, old(S()), combined, own, trustStat, p, r.outcome, S())
      ensures r.Done? ==> Remembers(env, old(S()), p, S())
    {
      ghost var s := S();
      var visible := VisibleExports(p);
      if faults.check {
        return Failed(CheckFailed);
      }
      var checked := env.w.check(env.content(p), visible);
      var files := StatFiles(env, trustStat, p);
      if faults.store {
        return Failed(StoreFailed);
      }
      ghost var before := S();
      cas := cas[combined := Blob(checked.facts, checked.exported, files)];
      exports := exports[p := checked.exported];
      var hash := env.w.hash(checked.exported);
      keys.Set(p, Record(combined, hash));
      StoredAfterLooking(env, s, before, p, S());
      r := Done(Entry(Pointer(combined, own, hash, env.fingerprint, files)), false, true);
    }

    /** What the three outcomes have in common: the dependencies' hashes, and from them the key. */
    method CombinedKey(p: Path, trustStat: bool, own: nat) returns (combined: nat, error: Option<Error>)
      requires p in env.snap.pkgs && Distinct(G.ImportsOf(env.snap.pkgs, p)) && own == OwnHash(env, db, trustStat, p)
      modifies keys`m
      ensures Looked(old(S()), S(), Imported(env, p))
      ensures error.Some? ==> BlamesDep(env, old(S()), p, error.value) && !AllFound(old(S()), DirectDeps(env.snap, p))
      ensures error.None? ==>
                AllFound(old(S()), DirectDeps(env.snap, p)) && combined == Combined(env, old(S()), trustStat, p)
    {
      ghost var s := S();
      var deps: seq<DepExport>;
      deps, error := DirectDepExports(p);
      DepsImported(env, p);
      MoreLooked(s, S(), DirectDeps(env.snap, p), Imported(env, p));
      if error.Some? {
        return 0, error;
      }
      combined := ComputeUnitKey(env.w, own, deps, DepHashes(s, DirectDeps(env.snap, p)));
    }

    /** Resolve one package, as Processes says. */
    method ProcessUnit(p: Path, trustStat: bool, faults: Faults) returns (r: Processed)
      requires p in env.snap.pkgs && Distinct(G.ImportsOf(env.snap.pkgs, p))
      modifies this`cas, this`exports, keys`m
      ensures Processes(env, old(S()), trustStat, p, r, S())
      ensures r.Failed? ==> Caused(r.error, faults)
      ensures env.snap.pkgs[p].hasGoFiles ==>
                && (r.Failed? <==> Fails(env, old(S()), trustStat, p, faults))
                && StatKept(env, old(S()), trustStat, p, r)
                && (r.Done? && r.outcome.Refresh? ==> !StatOK(env, old(S()).db, trustStat, p))
    {
      if !env.snap.pkgs[p].hasGoFiles {
        return Done(Nothing, true, false);
      }
      ghost var s := S();
      var trusted := p in db && db[p].fingerprint == env.fingerprint;
      var statOK := trustStat && trusted && db[p].files != map[] && env.stat(p) == Some(db[p].files);
      if !statOK && faults.read {
        return Failed(ReadFailed);
      }
      var own := if statOK then db[p].contentHash else env.w.contentHash(env.content(p));
      var combined, error := CombinedKey(p, trustStat, own);
      ghost var looked := S();
      if error.Some? {
        return Failed(error.value);
      }
      if trusted && combined == db[p].blobKey && combined in cas {
        var outcome := UnchangedOutcome(p, db[p], statOK, trustStat);
        StoredAfterLooking(env, s, looked, p, S());
        return Done(outcome, true, false);
      }
      if faults.blob {
        return Failed(BlobUnreadable);
      }
      if combined in cas {
        var outcome := CasHitOutcome(p, combined, own);
        StoredAfterLooking(env, s, looked, p, S());
        return Done(outcome, false, false);
      }
      r := CheckAndStoreOutcome(p, combined, own, trustStat, faults);
      SameVisible(env, s, looked, p);
      if r.Failed? {
        LookedTwice(s, looked, S(), Imported(env, p));
      } else {
        RemembersTwice(env, s, looked, p, S());
      }
    }

    /** A failure of any kind is recorded, so that no dependent is keyed from an older record. */
    method ProcessUnitRecovered(p: Path, trustStat: bool, faults: Faults) returns (r: Processed, ghost after: State)
      requires p in env.snap.pkgs && Distinct(G.ImportsOf(env.snap.pkgs, p))
      modifies this`cas, this`exports, keys
      ensures Processes(env, old(S()), trustStat, p, r, after) && S() == Recovered(after, p, r)
      ensures r.Failed? ==> Caused(r.error, faults)
      ensures env.snap.pkgs[p].hasGoFiles ==> StatKept(env, old(S()), trustStat, p, r)
    {
      r := ProcessUnit(p, trustStat, faults);
      after := S();
      if r.Failed? {
        keys.Fail(p);
      }
    }
  }
}

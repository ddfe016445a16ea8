/**
 Build, internal/index/index.go: every schedulable package is processed once, in an order some run of the
 scheduler can produce, and what is to be written reaches the database in batches of any shape.
 */
module Building {
  import opened Options
  import opened Paths
  import opened UnitKeys
  import opened Units
  import opened Processing
  import G = Graph
  import S = Scheduler

  // ------------------------------------------------------------------- the database

  function Latest(db: map<Path, Pointer>, pending: map<Path, Pointer>, p: Path): Option<Pointer> {
    if p in pending then Some(pending[p]) else if p in db then Some(db[p]) else None
  }

  function Queued(pending: map<Path, Pointer>, p: Path, outcome: Outcome): map<Path, Pointer> {
    if outcome.Nothing? then pending else pending[p := outcome.pointer]
  }

  function Committed(db: map<Path, Pointer>, pending: map<Path, Pointer>, batch: set<Path>): map<Path, Pointer> {
    db + (map p | p in pending && p in batch :: pending[p])
  }

  /** Committing a batch changes nothing but where the latest pointers are. */
  lemma CommitKeepsLatest(db: map<Path, Pointer>, pending: map<Path, Pointer>, batch: set<Path>, p: Path)
    ensures Latest(Committed(db, pending, batch), pending - batch, p) == Latest(db, pending, p)
  {
  }

  lemma QueuedLatest(db: map<Path, Pointer>, pending: map<Path, Pointer>, p: Path, outcome: Outcome, q: Path)
    requires p !in pending
    ensures Latest(db, Queued(pending, p, outcome), q)
         == if q == p then Recorded(db, p, outcome) else Latest(db, pending, q)
  {
  }

  // --------------------------------------------------------------------- invariants

  /** Packages still to come have their old records. */
  ghost predicate Untouched(done: set<Path>, s: State, pending: map<Path, Pointer>, db0: map<Path, Pointer>) {
    forall p | p !in done :: p !in pending && (p in s.db <==> p in db0) && (p in db0 ==> s.db[p] == db0[p])
  }

  ghost predicate HasFiles(env: Env, p: Path) {
    p in env.snap.pkgs && env.snap.pkgs[p].hasGoFiles
  }

  /** Whoever has been processed is in the key table or has failed. */
  ghost predicate Settled(env: Env, done: set<Path>, s: State) {
    forall p | p in done && HasFiles(env, p) :: p in s.m || p in s.failed
  }

  ghost predicate Exclusive(done: set<Path>, s: State) {
    s.m.Keys <= done && s.failed <= done && s.m.Keys !! s.failed
  }

  /** A package with a failed dependency has failed. */
  ghost predicate FailuresSpread(env: Env, done: set<Path>, s: State) {
    forall p, d | p in done && HasFiles(env, p) && d in DirectDeps(env.snap, p) && d in s.failed :: p in s.failed
  }

  ghost predicate RightLatest(env: Env, s: State, pending: map<Path, Pointer>, p: Path) {
    Latest(s.db, pending, p).Some? && RightPointer(env, p, Latest(s.db, pending, p).value)
  }

  /** Whoever is in the key table has, or is about to have, the right pointer. */
  ghost predicate AllRight(env: Env, s: State, pending: map<Path, Pointer>) {
    && RunInv(env, s)
    && (forall p | p in s.m :: RightLatest(env, s, pending, p))
    && (forall p | p in pending :: RightPointer(env, p, pending[p]))
  }

  /** The state before the run. */
  ghost function Start(db: map<Path, Pointer>, cas: map<nat, Blob>): State {
    State(map[], {}, db, cas, map[])
  }

  /** Going by the records of the last run alone, nothing has to be done for `p`. */
  ghost predicate Current(env: Env, db: map<Path, Pointer>, cas: map<nat, Blob>, p: Path) {
    var s := Start(db, cas);
    AllFound(s, DirectDeps(env.snap, p)) && Unchanged(env, s, true, p)
  }

  ghost predicate AllCurrent(env: Env, done: set<Path>, db: map<Path, Pointer>, cas: map<nat, Blob>) {
    forall p | p in done && HasFiles(env, p) :: Current(env, db, cas, p)
  }

  /** So long as everything is skipped, the key table repeats the old records. */
  ghost predicate Repeats(env: Env, done: set<Path>, s: State, db: map<Path, Pointer>, cas: map<nat, Blob>) {
    && s.cas == cas
    && (forall p | p in done && HasFiles(env, p) :: p in s.m && p in db && s.m[p] == RecordOf(db[p]))
  }

  /** Everything was skipped exactly if everything was current. */
  ghost predicate Quiet(env: Env, done: set<Path>, s: State, skipped: set<Path>, db: map<Path, Pointer>,
                        cas: map<nat, Blob>) {
    && skipped <= done
    && (skipped == done <==> AllCurrent(env, done, db, cas))
    && (skipped == done ==> Repeats(env, done, s, db, cas))
  }

  // ------------------------------------------------------------------ one package

  /** Nothing processed depends on something that is not. */
  ghost predicate Closed(env: Env, done: set<Path>) {
    forall p | p in done :: DepsDone(env, done, p)
  }

  /** The dependencies of the next package have all been processed. */
  ghost predicate DepsDone(env: Env, done: set<Path>, p: Path) {
    DirectDeps(env.snap, p) <= done
  }

  /** Everything that is known before the next package is processed, and what processing it does. */
  ghost predicate Next(env: Env, done: set<Path>, s: State, p: Path, r: Processed, s': State) {
    p in env.snap.pkgs && p !in done && DepsDone(env, done, p) && Processes(env, s, true, p, r, s')
  }

  lemma SettledGrows(env: Env, done: set<Path>, s: State, trustStat: bool, p: Path, r: Processed, s': State)
    requires p in env.snap.pkgs && Processes(env, s, trustStat, p, r, s') && Settled(env, done, s)
    ensures Settled(env, done + {p}, Recovered(s', p, r)) && s'.failed == s.failed && s'.db == s.db
  {
    assert s.m.Keys <= s'.m.Keys;
  }

  lemma SettledNext(env: Env, done: set<Path>, s: State, p: Path, r: Processed, s': State)
    requires Next(env, done, s, p, r, s') && Settled(env, done, s)
    ensures Settled(env, done + {p}, Recovered(s', p, r))
    ensures r.Failed? ==> !r.error.OutOfOrder?
  {
    SettledGrows(env, done, s, true, p, r, s');
  }

  lemma ExclusiveNext(env: Env, done: set<Path>, s: State, p: Path, r: Processed, s': State)
    requires Next(env, done, s, p, r, s') && NoneDropped(env.snap, p) && Exclusive(done, s)
    ensures Exclusive(done + {p}, Recovered(s', p, r))
  {
    forall q | q in s'.m ensures q in done + {p} && q !in Recovered(s', p, r).failed {
      if q != p {
        assert Find(s', q).Some? && Find(s', q) == Find(s, q);
      }
    }
  }

  lemma SpreadNext(env: Env, done: set<Path>, s: State, p: Path, r: Processed, s': State)
    requires Next(env, done, s, p, r, s') && Exclusive(done, s) && FailuresSpread(env, done, s)
    requires Closed(env, done)
    ensures FailuresSpread(env, done + {p}, Recovered(s', p, r))
  {
    forall d | d in DirectDeps(env.snap, p) && d in s.failed ensures r.Failed? || !HasFiles(env, p) {
      assert Find(s, d) == None;
    }
  }

  lemma UntouchedNext(env: Env, done: set<Path>, s: State, p: Path, r: Processed, s': State,
                      pending: map<Path, Pointer>, db0: map<Path, Pointer>)
    requires Next(env, done, s, p, r, s') && Untouched(done, s, pending, db0)
    ensures Untouched(done + {p}, Recovered(s', p, r), if r.Done? then Queued(pending, p, r.outcome) else pending, db0)
  {
    assert s'.db == s.db;
  }

  /** Whatever is found for the dependencies comes from this run. */
  lemma ReadyNext(env: Env, done: set<Path>, s: State, p: Path)
    requires DepsDone(env, done, p) && Settled(env, done, s) && RunInv(env, s)
    ensures Ready(env, s, p)
  {
    forall d | d in DirectDeps(env.snap, p) && Find(s, d).Some? ensures Resolved(env, s.cas, d, Find(s, d).value) {
      assert d in done && HasFiles(env, d);
      assert d in s.m;
    }
  }

  lemma RightNext(env: Env, done: set<Path>, s: State, p: Path, r: Processed, s': State, pending: map<Path, Pointer>)
    requires Next(env, done, s, p, r, s') && NoneDropped(env.snap, p) && Honest(env, p) && GoodWorld(env)
    requires Settled(env, done, s) && Exclusive(done, s) && p !in pending && AllRight(env, s, pending)
    ensures AllRight(env, Recovered(s', p, r), if r.Done? then Queued(pending, p, r.outcome) else pending)
  {
    ReadyNext(env, done, s, p);
    ProcessesSound(env, s, true, p, r, s');
    RecoveredInv(env, s', p, r);
    forall q | q in s'.m && q != p ensures q in s.m {
      InOld(env, done, s, p, r, s', q);
    }
    if r.Done? && HasFiles(env, p) {
      RightQueued(env, s, p, r.outcome, s', pending);
    } else {
      assert p !in s'.m by { NotRemembered(env, done, s, p, r, s'); }
      RightKept(env, s, s', pending);
    }
    RightRecovered(env, s', p, r, if r.Done? then Queued(pending, p, r.outcome) else pending);
  }

  lemma RightRecovered(env: Env, s: State, p: Path, r: Processed, pending: map<Path, Pointer>)
    requires AllRight(env, s, pending)
    ensures AllRight(env, Recovered(s, p, r), pending)
  {
    RecoveredInv(env, s, p, r);
    forall q | q in s.m ensures RightLatest(env, Recovered(s, p, r), pending, q) {
      assert RightLatest(env, s, pending, q);
    }
  }

  lemma RightKept(env: Env, s: State, s': State, pending: map<Path, Pointer>)
    requires AllRight(env, s, pending) && RunInv(env, s') && s'.db == s.db && s'.m.Keys <= s.m.Keys
    ensures AllRight(env, s', pending)
  {
    forall q | q in s'.m ensures RightLatest(env, s', pending, q) {
      assert RightLatest(env, s, pending, q);
    }
  }

  lemma RightQueued(env: Env, s: State, p: Path, outcome: Outcome, s': State, pending: map<Path, Pointer>)
    requires AllRight(env, s, pending) && RunInv(env, s') && s'.db == s.db && s'.m.Keys <= s.m.Keys + {p}
    requires p !in pending
    requires Recorded(s.db, p, outcome).Some? && RightPointer(env, p, Recorded(s.db, p, outcome).value)
    ensures AllRight(env, s', Queued(pending, p, outcome))
  {
    var pending' := Queued(pending, p, outcome);
    forall q | q in s'.m ensures RightLatest(env, s', pending', q) {
      QueuedLatest(s.db, pending, p, outcome, q);
      if q != p {
        assert RightLatest(env, s, pending, q);
      }
    }
    forall q | q in pending' ensures RightPointer(env, q, pending'[q]) {
      if q != p {
        assert RightPointer(env, q, pending[q]);
      }
    }
  }

  lemma NotRemembered(env: Env, done: set<Path>, s: State, p: Path, r: Processed, s': State)
    requires Next(env, done, s, p, r, s') && NoneDropped(env.snap, p) && Exclusive(done, s)
    requires (r.Failed? || !HasFiles(env, p))
    ensures p !in s'.m
  {
    assert !G.Before(env.snap, p, p);
  }

  lemma RecoveredInv(env: Env, s: State, p: Path, r: Processed)
    requires RunInv(env, s)
    ensures RunInv(env, Recovered(s, p, r))
  {
  }

  /** Lookups remember nothing new, as every dependency is settled. */
  lemma InOld(env: Env, done: set<Path>, s: State, p: Path, r: Processed, s': State, q: Path)
    requires Next(env, done, s, p, r, s') && NoneDropped(env.snap, p) && Settled(env, done, s) && q in s'.m && q != p
    ensures q in s.m
  {
    assert Find(s', q) == Find(s, q);
    if q in Imported(env, p) {
      assert q in DirectDeps(env.snap, p) && HasFiles(env, q);
      assert q in s.m || q in s.failed;
    }
  }

  // ------------------------------------------------------------ skipping everything

  /** Two states that agree on what matters to `p` agree on whether it is unchanged. */
  lemma SameUnchanged(env: Env, s: State, s0: State, p: Path)
    requires AllFound(s, DirectDeps(env.snap, p)) && s.cas == s0.cas
    requires forall d | d in DirectDeps(env.snap, p) :: Find(s, d) == Find(s0, d)
    requires p in s.db <==> p in s0.db
    requires p in s.db ==> s.db[p] == s0.db[p]
    ensures AllFound(s0, DirectDeps(env.snap, p)) && (Unchanged(env, s0, true, p) <==> Unchanged(env, s, true, p))
  {
    assert DepHashes(s, DirectDeps(env.snap, p)) == DepHashes(s0, DirectDeps(env.snap, p));
    assert OwnHash(env, s.db, true, p) == OwnHash(env, s0.db, true, p);
  }

  lemma RepeatsCurrent(env: Env, done: set<Path>, s: State, p: Path, db0: map<Path, Pointer>, cas0: map<nat, Blob>)
    requires Repeats(env, done, s, db0, cas0) && DepsDone(env, done, p) && AllFound(s, DirectDeps(env.snap, p))
    requires p in s.db <==> p in db0
    requires p in db0 ==> s.db[p] == db0[p]
    ensures Current(env, db0, cas0, p) <==> Unchanged(env, s, true, p)
  {
    var s0 := Start(db0, cas0);
    forall d | d in DirectDeps(env.snap, p) ensures Find(s, d) == Find(s0, d) {
      assert HasFiles(env, d);
      assert d in s.m && d in db0 && s.m[d] == RecordOf(db0[d]);
    }
    SameUnchanged(env, s, s0, p);
  }

  lemma RepeatsNext(env: Env, done: set<Path>, s: State, p: Path, r: Processed, s': State, db0: map<Path, Pointer>,
                    cas0: map<nat, Blob>)
    requires Next(env, done, s, p, r, s') && r.Done? && r.skipped && Repeats(env, done, s, db0, cas0)
    requires p in s.db <==> p in db0
    requires p in db0 ==> s.db[p] == db0[p]
    ensures Repeats(env, done + {p}, s', db0, cas0)
  {
    forall q | q in done && HasFiles(env, q) ensures q in s'.m && q in db0 && s'.m[q] == RecordOf(db0[q]) {
      assert q in s.m && s.m[q] == RecordOf(db0[q]);
      assert HasFiles(env, p) ==> Find(s', q) == Find(s, q);
    }
  }

  lemma CurrentGrows(env: Env, done: set<Path>, p: Path, db0: map<Path, Pointer>, cas0: map<nat, Blob>)
    ensures AllCurrent(env, done + {p}, db0, cas0)
        <==> AllCurrent(env, done, db0, cas0) && (HasFiles(env, p) ==> Current(env, db0, cas0, p))
  {
  }

  lemma QuietNext(env: Env, done: set<Path>, s: State, p: Path, r: Processed, s': State,
                  skipped: set<Path>, db0: map<Path, Pointer>, cas0: map<nat, Blob>)
    requires Next(env, done, s, p, r, s') && r.Done? && Quiet(env, done, s, skipped, db0, cas0)
    requires p in s.db <==> p in db0
    requires p in db0 ==> s.db[p] == db0[p]
    ensures Quiet(env, done + {p}, s', if r.skipped then skipped + {p} else skipped, db0, cas0)
  {
    CurrentGrows(env, done, p, db0, cas0);
    if skipped == done {
      if HasFiles(env, p) {
        RepeatsCurrent(env, done, s, p, db0, cas0);
      }
      if r.skipped {
        RepeatsNext(env, done, s, p, r, s', db0, cas0);
      }
    } else {
      assert p !in skipped;
      assert skipped + {p} != done + {p};
    }
  }

  // ------------------------------------------------------------------ type-checking

  /** `stored` is `before` and one new key for each of the paths. */
  ghost predicate AddsKeys(key: Path -> nat, paths: set<Path>, before: set<nat>, stored: set<nat>) {
    && stored == before + (set p | p in paths :: key(p))
    && (forall p | p in paths :: key(p) !in before)
    && (forall p, q | p in paths && q in paths && key(p) == key(q) :: p == q)
  }

  lemma AddsOne(key: Path -> nat, paths: set<Path>, before: set<nat>, stored: set<nat>, p: Path)
    requires AddsKeys(key, paths, before, stored) && key(p) !in stored
    ensures AddsKeys(key, paths + {p}, before, stored + {key(p)})
  {
    assert (set q | q in paths + {p} :: key(q)) == (set q | q in paths :: key(q)) + {key(p)};
    forall q | q in paths ensures key(q) != key(p) {
      assert key(q) in stored;
    }
  }

  /** What was type-checked is one package for each key that is new to the blob store. */
  ghost predicate NewKeys(env: Env, typeChecked: set<Path>, cas0: map<nat, Blob>, cas: map<nat, Blob>) {
    AddsKeys((p: Path) => ScratchKey(env, p), typeChecked, cas0.Keys, cas.Keys)
  }

  /** A package is type-checked exactly if nobody, in this run or before, has stored its key. */
  lemma CheckedIfNew(env: Env, done: set<Path>, s: State, p: Path, r: Processed, s': State)
    requires Next(env, done, s, p, r, s') && Honest(env, p) && Settled(env, done, s) && RunInv(env, s)
    ensures s'.cas.Keys == s.cas.Keys + (if r.Done? && r.typeChecked then {ScratchKey(env, p)} else {})
    ensures r.Done? && HasFiles(env, p) ==> (r.typeChecked <==> ScratchKey(env, p) !in s.cas)
    ensures r.Done? && r.typeChecked ==> HasFiles(env, p)
  {
    if r.Done? && HasFiles(env, p) {
      ReadyNext(env, done, s, p);
      CombinedIsScratch(env, s, true, p);
    }
  }

  lemma NewKeysNext(env: Env, typeChecked: set<Path>, cas0: map<nat, Blob>, cas: map<nat, Blob>, p: Path, r: Processed,
                    cas': map<nat, Blob>)
    requires NewKeys(env, typeChecked, cas0, cas)
    requires cas'.Keys == cas.Keys + (if r.Done? && r.typeChecked then {ScratchKey(env, p)} else {})
    requires r.Done? && r.typeChecked ==> ScratchKey(env, p) !in cas
    ensures NewKeys(env, if r.Done? && r.typeChecked then typeChecked + {p} else typeChecked, cas0, cas')
  {
    if r.Done? && r.typeChecked {
      AddsOne((q: Path) => ScratchKey(env, q), typeChecked, cas0.Keys, cas.Keys, p);
    }
  }

  // ------------------------------------------------------------------------ commits

  lemma GoodCommitted(env: Env, db: map<Path, Pointer>, pending: map<Path, Pointer>, batch: set<Path>)
    requires GoodWorld(env) && GoodDb(env, db) && forall p | p in pending :: RightPointer(env, p, pending[p])
    ensures GoodDb(env, Committed(db, pending, batch))
  {
    var db' := Committed(db, pending, batch);
    forall p | p in db' && db'[p].fingerprint == env.fingerprint ensures GoodPointer(env.w, db'[p]) {
      if p in pending && p in batch {
        RightIsGood(env, p, pending[p]);
      } else {
        assert p in db && db'[p] == db[p];
      }
    }
  }

  lemma InvCommitted(env: Env, s: State, db: map<Path, Pointer>)
    requires RunInv(env, s) && GoodDb(env, db)
    ensures RunInv(env, s.(db := db))
  {
  }

  lemma LatestCommitted(env: Env, s: State, pending: map<Path, Pointer>, batch: set<Path>, p: Path)
    requires RightLatest(env, s, pending, p)
    ensures RightLatest(env, s.(db := Committed(s.db, pending, batch)), pending - batch, p)
  {
    CommitKeepsLatest(s.db, pending, batch, p);
  }

  lemma CommitKeepsRight(env: Env, s: State, pending: map<Path, Pointer>, batch: set<Path>)
    requires GoodWorld(env) && AllRight(env, s, pending)
    ensures AllRight(env, s.(db := Committed(s.db, pending, batch)), pending - batch)
  {
    var s' := s.(db := Committed(s.db, pending, batch));
    GoodCommitted(env, s.db, pending, batch);
    InvCommitted(env, s, s'.db);
    forall p | p in s'.m ensures RightLatest(env, s', pending - batch, p) {
      LatestCommitted(env, s, pending, batch, p);
    }
    forall p | p in pending - batch ensures RightPointer(env, p, (pending - batch)[p]) {
      assert RightPointer(env, p, pending[p]);
    }
  }

  lemma CommitKeepsUntouched(done: set<Path>, s: State, pending: map<Path, Pointer>, db0: map<Path, Pointer>,
                             batch: set<Path>)
    requires Untouched(done, s, pending, db0)
    ensures Untouched(done, s.(db := Committed(s.db, pending, batch)), pending - batch, db0)
  {
  }

  // -------------------------------------------------------------------------- build

  ghost predicate NothingDropped(env: Env) {
    forall p | p in env.snap.pkgs :: NoneDropped(env.snap, p)
  }

  /** Consistent stores, honest stats, nothing dropped from the order. */
  ghost predicate Consistent(env: Env, db: map<Path, Pointer>, cas: map<nat, Blob>) {
    NothingDropped(env) && GoodWorld(env) && (forall p :: Honest(env, p)) && GoodDb(env, db) && GoodCas(env.w, cas)
  }

  datatype Results = Results(skipped: set<Path>, typeChecked: set<Path>, errors: map<Path, Error>)

  /** How results reach the database: what is flushed after each job, and whose stat refresh is lost. */
  datatype Writes = Writes(commits: nat -> set<Path>, lost: Path -> bool)

  function Tally(results: Results, p: Path, r: Processed): Results {
    match r
    case Failed(e) => results.(errors := results.errors[p := e])
    case Done(_, skipped, typeChecked) =>
      results.(skipped := if skipped then results.skipped + {p} else results.skipped,
               typeChecked := if typeChecked then results.typeChecked + {p} else results.typeChecked)
  }

  function QueuedAfter(pending: map<Path, Pointer>, p: Path, r: Processed): map<Path, Pointer> {
    if r.Done? then Queued(pending, p, r.outcome) else pending
  }

  /** Whoever is done has a record or an error; no error says that a dependency was out of order. */
  ghost predicate Accounted(env: Env, done: set<Path>, s: State, results: Results) {
    && Closed(env, done) && Settled(env, done, s)
    && results.skipped <= done && results.typeChecked <= done && results.skipped !! results.typeChecked
    && (forall p | p in results.typeChecked :: HasFiles(env, p))
    && results.errors.Keys == s.failed && (forall p | p in results.errors :: !results.errors[p].OutOfOrder?)
  }

  lemma AccountedNext(env: Env, done: set<Path>, s: State, results: Results, p: Path, r: Processed, after: State)
    requires Accounted(env, done, s, results) && Next(env, done, s, p, r, after)
    ensures Accounted(env, done + {p}, Recovered(after, p, r), Tally(results, p, r))
    ensures after.failed == s.failed
  {
    assert after.failed == s.failed;
    SettledNext(env, done, s, p, r, after);
  }

  ghost predicate BuildInv(env: Env, done: set<Path>, s: State, pending: map<Path, Pointer>, results: Results,
                           db0: map<Path, Pointer>, cas0: map<nat, Blob>) {
    && Untouched(done, s, pending, db0) && Accounted(env, done, s, results)
    && (s.failed == {} ==> Quiet(env, done, s, results.skipped, db0, cas0))
    && (NothingDropped(env) ==> Exclusive(done, s) && FailuresSpread(env, done, s))
    && (Consistent(env, db0, cas0) ==> AllRight(env, s, pending) && NewKeys(env, results.typeChecked, cas0, s.cas))
  }

  lemma BuildStart(env: Env, db0: map<Path, Pointer>, cas0: map<nat, Blob>)
    ensures BuildInv(env, {}, Start(db0, cas0), map[], Results({}, {}, map[]), db0, cas0)
  {
    if Consistent(env, db0, cas0) {
      RightStart(env, db0, cas0);
    }
    NoKeysYet(env, cas0);
    QuietStart(env, db0, cas0);
  }

  lemma NoKeysYet(env: Env, cas0: map<nat, Blob>)
    ensures NewKeys(env, {}, cas0, cas0)
  {
  }

  lemma QuietStart(env: Env, db0: map<Path, Pointer>, cas0: map<nat, Blob>)
    ensures Quiet(env, {}, Start(db0, cas0), {}, db0, cas0)
  {
  }

  lemma RightStart(env: Env, db0: map<Path, Pointer>, cas0: map<nat, Blob>)
    requires GoodDb(env, db0) && GoodCas(env.w, cas0)
    ensures AllRight(env, Start(db0, cas0), map[])
  {
  }

  lemma BuildNext(env: Env, done: set<Path>, s: State, pending: map<Path, Pointer>, results: Results,
                  db0: map<Path, Pointer>, cas0: map<nat, Blob>, p: Path, r: Processed, after: State)
    requires BuildInv(env, done, s, pending, results, db0, cas0) && Next(env, done, s, p, r, after)
    ensures BuildInv(env, done + {p}, Recovered(after, p, r), QueuedAfter(pending, p, r), Tally(results, p, r),
                     db0, cas0)
  {
    AccountedNext(env, done, s, results, p, r, after);
    UntouchedNext(env, done, s, p, r, after, pending, db0);
    if Recovered(after, p, r).failed == {} {
      QuietNext(env, done, s, p, r, after, results.skipped, db0, cas0);
    }
    if NothingDropped(env) {
      ExclusiveNext(env, done, s, p, r, after);
      SpreadNext(env, done, s, p, r, after);
    }
    if Consistent(env, db0, cas0) {
      ConsistentNext(env, done, s, p, r, after, pending, results, cas0);
    }
  }

  lemma ConsistentNext(env: Env, done: set<Path>, s: State, p: Path, r: Processed, after: State,
                       pending: map<Path, Pointer>, results: Results, cas0: map<nat, Blob>)
    requires Next(env, done, s, p, r, after) && NoneDropped(env.snap, p) && Honest(env, p) && GoodWorld(env)
    requires Settled(env, done, s) && Exclusive(done, s) && p !in pending
    requires AllRight(env, s, pending) && NewKeys(env, results.typeChecked, cas0, s.cas)
    ensures AllRight(env, Recovered(after, p, r), QueuedAfter(pending, p, r))
    ensures NewKeys(env, Tally(results, p, r).typeChecked, cas0, Recovered(after, p, r).cas)
  {
    RightNext(env, done, s, p, r, after, pending);
    CheckedIfNew(env, done, s, p, r, after);
    NewKeysNext(env, results.typeChecked, cas0, s.cas, p, r, after.cas);
  }

  lemma QuietCommit(env: Env, done: set<Path>, s: State, db: map<Path, Pointer>, skipped: set<Path>, db0: map<Path,
                    Pointer>, cas0: map<nat, Blob>)
    requires Quiet(env, done, s, skipped, db0, cas0)
    ensures Quiet(env, done, s.(db := db), skipped, db0, cas0)
  {
  }

  lemma BuildCommit(env: Env, done: set<Path>, s: State, pending: map<Path, Pointer>, results: Results,
                    db0: map<Path, Pointer>, cas0: map<nat, Blob>, batch: set<Path>)
    requires BuildInv(env, done, s, pending, results, db0, cas0)
    ensures BuildInv(env, done, s.(db := Committed(s.db, pending, batch)), pending - batch, results, db0, cas0)
  {
    CommitKeepsUntouched(done, s, pending, db0, batch);
    if s.failed == {} {
      QuietCommit(env, done, s, Committed(s.db, pending, batch), results.skipped, db0, cas0);
    }
    if Consistent(env, db0, cas0) {
      CommitKeepsRight(env, s, pending, batch);
    }
  }

  /** Every error has a fault of its own package behind it, or the error of a dependency. */
  ghost predicate Traced(env: Env, errors: map<Path, Error>, faults: Path -> Faults) {
    forall p {:trigger HasCause(env, errors, faults, p)} | p in errors :: HasCause(env, errors, faults, p)
  }

  ghost predicate HasCause(env: Env, errors: map<Path, Error>, faults: Path -> Faults, p: Path) {
    Faulty(faults(p)) || exists d :: d in DirectDeps(env.snap, p) && d in errors
  }

  lemma TracedNext(env: Env, done: set<Path>, s: State, results: Results, p: Path, r: Processed, after: State,
                   faults: Path -> Faults)
    requires Accounted(env, done, s, results) && Next(env, done, s, p, r, after) && Traced(env, results.errors, faults)
    requires r.Failed? ==> Caused(r.error, faults(p))
    ensures Traced(env, Tally(results, p, r).errors, faults)
  {
    SettledNext(env, done, s, p, r, after);
    var errors := Tally(results, p, r).errors;
    forall q | q in errors ensures HasCause(env, errors, faults, q) {
      if r.Failed? && q == p {
        if r.error.DependencyFailed? {
          assert r.error.dep in DirectDeps(env.snap, p) && r.error.dep in errors;
        }
      } else if !Faulty(faults(q)) {
        assert HasCause(env, results.errors, faults, q);
        var d :| d in DirectDeps(env.snap, q) && d in results.errors;
        assert d in errors;
      }
    }
  }

  ghost predicate NoFaults(faults: Path -> Faults) {
    forall p :: !Faulty(faults(p))
  }

  /** So without faults nothing fails. */
  lemma {:induction false} NoFaultsNoError(env: Env, errors: map<Path, Error>, faults: Path -> Faults, p: Path)
    requires Traced(env, errors, faults) && NoFaults(faults)
    ensures p !in errors
    decreases if p in env.snap.pos then env.snap.pos[p] else 0
  {
    if p in errors {
      assert HasCause(env, errors, faults, p);
      var d :| d in DirectDeps(env.snap, p) && d in errors;
      NoFaultsNoError(env, errors, faults, d);
    }
  }

  /** The dependencies that go into a key are among those the scheduler waits for. */
  lemma DepsScheduled(env: Env, plan: S.Plan, p: Path)
    requires S.PlanOf(env.snap, plan) && p in plan.units
    ensures DirectDeps(env.snap, p) <= plan.deps[p]
  {
  }

  lemma JobReady(env: Env, plan: S.Plan, jobs: seq<Path>, n: nat)
    requires S.PlanOf(env.snap, plan) && S.OrderedJobs(plan, jobs) && n < |jobs|
    ensures jobs[n] in env.snap.pkgs && jobs[n] !in Elements(jobs[..n]) && DepsDone(env, Elements(jobs[..n]), jobs[n])
    ensures Elements(jobs[..n + 1]) == Elements(jobs[..n]) + {jobs[n]}
  {
    assert jobs[n] in Elements(jobs);
    assert S.DepsEarlier(plan, jobs, n);
    DepsScheduled(env, plan, jobs[n]);
    assert jobs[..n + 1] == jobs[..n] + [jobs[n]];
  }

  lemma JobDone(env: Env, done: set<Path>, s: State, pending: map<Path, Pointer>, results: Results,
                db0: map<Path, Pointer>, cas0: map<nat, Blob>, p: Path, r: Processed, after: State,
                faults: Path -> Faults, batch: set<Path>)
    requires BuildInv(env, done, s, pending, results, db0, cas0) && Traced(env, results.errors, faults)
    requires Next(env, done, s, p, r, after) && (r.Failed? ==> Caused(r.error, faults(p)))
    ensures
      var s', queued := Recovered(after, p, r), QueuedAfter(pending, p, r);
      BuildInv(env, done + {p}, s'.(db := Committed(s'.db, queued, batch)), queued - batch, Tally(results, p, r),
               db0, cas0)
    ensures Traced(env, Tally(results, p, r).errors, faults)
  {
    TracedNext(env, done, s, results, p, r, after, faults);
    BuildNext(env, done, s, pending, results, db0, cas0, p, r, after);
    BuildCommit(env, done + {p}, Recovered(after, p, r), QueuedAfter(pending, p, r), Tally(results, p, r),
                db0, cas0, batch);
  }

  // ------------------------------------------------------------------------- stats

  /** The pointer of `p` that is, or is about to be, in the database has the stat this run reads. */
  ghost predicate StatLatest(env: Env, s: State, pending: map<Path, Pointer>, p: Path) {
    env.stat(p).Some? ==>
      Latest(s.db, pending, p).Some? && Latest(s.db, pending, p).value.files == env.stat(p).value
  }

  /** That holds of all that was skipped or type-checked, unless its refresh was lost. */
  ghost predicate StatsKept(env: Env, s: State, pending: map<Path, Pointer>, results: Results, lost: Path -> bool) {
    forall p | p in results.skipped + results.typeChecked && HasFiles(env, p) && !lost(p) ::
      StatLatest(env, s, pending, p)
  }

  lemma StatsNext(env: Env, done: set<Path>, s: State, pending: map<Path, Pointer>, results: Results, p: Path,
                  r: Processed, after: State, lost: Path -> bool)
    requires StatsKept(env, s, pending, results, lost) && p !in pending && p !in done && after.db == s.db
    requires results.skipped <= done && results.typeChecked <= done
    requires HasFiles(env, p) ==> StatKept(env, s, true, p, r)
    ensures var r' := WithoutRefresh(r, lost(p));
            StatsKept(env, Recovered(after, p, r'), QueuedAfter(pending, p, r'), Tally(results, p, r'), lost)
  {
    var r' := WithoutRefresh(r, lost(p));
    var s', queued, results' := Recovered(after, p, r'), QueuedAfter(pending, p, r'), Tally(results, p, r');
    forall q | q in results'.skipped + results'.typeChecked && HasFiles(env, q) && !lost(q)
      ensures StatLatest(env, s', queued, q)
    {
      if r'.Done? {
        QueuedLatest(s.db, pending, p, r'.outcome, q);
      }
      if q != p {
        assert StatLatest(env, s, pending, q);
      }
    }
  }

  lemma StatsCommit(env: Env, s: State, pending: map<Path, Pointer>, results: Results, lost: Path -> bool,
                    batch: set<Path>)
    requires StatsKept(env, s, pending, results, lost)
    ensures StatsKept(env, s.(db := Committed(s.db, pending, batch)), pending - batch, results, lost)
  {
    forall p | p in results.skipped + results.typeChecked && HasFiles(env, p) && !lost(p)
      ensures StatLatest(env, s.(db := Committed(s.db, pending, batch)), pending - batch, p)
    {
      CommitKeepsLatest(s.db, pending, batch, p);
      assert StatLatest(env, s, pending, p);
    }
  }

  lemma StatsJob(env: Env, done: set<Path>, s: State, pending: map<Path, Pointer>, results: Results, p: Path,
                 r: Processed, after: State, lost: Path -> bool, batch: set<Path>)
    requires StatsKept(env, s, pending, results, lost) && p !in pending && p !in done && after.db == s.db
    requires results.skipped <= done && results.typeChecked <= done
    requires HasFiles(env, p) ==> StatKept(env, s, true, p, r)
    ensures var r' := WithoutRefresh(r, lost(p));
            var s', queued := Recovered(after, p, r'), QueuedAfter(pending, p, r');
            StatsKept(env, s'.(db := Committed(s'.db, queued, batch)), queued - batch, Tally(results, p, r'), lost)
  {
    var r' := WithoutRefresh(r, lost(p));
    StatsNext(env, done, s, pending, results, p, r, after, lost);
    StatsCommit(env, Recovered(after, p, r'), QueuedAfter(pending, p, r'), Tally(results, p, r'), lost, batch);
  }

  /** The last flush leaves nothing to be written. */
  lemma FlushRest(env: Env, done: set<Path>, s: State, pending: map<Path, Pointer>, results: Results,
                  db0: map<Path, Pointer>, cas0: map<nat, Blob>, lost: Path -> bool)
    requires BuildInv(env, done, s, pending, results, db0, cas0) && StatsKept(env, s, pending, results, lost)
    ensures var s' := s.(db := Committed(s.db, pending, pending.Keys));
            BuildInv(env, done, s', map[], results, db0, cas0) && StatsKept(env, s', map[], results, lost)
  {
    BuildCommit(env, done, s, pending, results, db0, cas0, pending.Keys);
    StatsCommit(env, s, pending, results, lost, pending.Keys);
    assert pending - pending.Keys == map[];
  }

  /** Process one package, queue what is to be written, and flush a batch. */
  method RunJob(run: Run, p: Path, faults: Path -> Faults, lost: Path -> bool, batch: set<Path>,
                pending0: map<Path, Pointer>, results0: Results,
                ghost done: set<Path>, ghost db0: map<Path, Pointer>, ghost cas0: map<nat, Blob>)
    returns (pending: map<Path, Pointer>, results: Results)
    requires p in run.env.snap.pkgs && p !in done && DepsDone(run.env, done, p)
    requires Distinct(G.ImportsOf(run.env.snap.pkgs, p))
    requires BuildInv(run.env, done, run.S(), pending0, results0, db0, cas0) && Traced(run.env, results0.errors, faults)
    requires StatsKept(run.env, run.S(), pending0, results0, lost)
    modifies run`db, run`cas, run`exports, run.keys
    ensures BuildInv(run.env, done + {p}, run.S(), pending, results, db0, cas0)
    ensures Traced(run.env, results.errors, faults) && StatsKept(run.env, run.S(), pending, results, lost)
  {
    ghost var s, after := run.S(), run.S();
    var r: Processed;
    r, after := run.ProcessUnitRecovered(p, true, faults(p));
    RefreshMayBeLost(run.env, s, true, p, r, after, lost(p));
    StatsJob(run.env, done, s, pending0, results0, p, r, after, lost, batch);
    r := WithoutRefresh(r, lost(p));
    JobDone(run.env, done, s, pending0, results0, db0, cas0, p, r, after, faults, batch);
    pending, results := QueuedAfter(pending0, p, r), Tally(results0, p, r);
    run.db, pending := Committed(run.db, pending, batch), pending - batch;
  }

  /** Process the jobs in the order the scheduler ran them. */
  method RunJobs(run: Run, jobs: seq<Path>, ghost plan: S.Plan, faults: Path -> Faults, writes: Writes)
    returns (results: Results)
    requires S.PlanOf(run.env.snap, plan) && S.OrderedJobs(plan, jobs) && G.UniqueImports(run.env.snap.pkgs)
    requires run.keys.m == map[] && run.keys.failed == {} && run.exports == map[]
    modifies run`db, run`cas, run`exports, run.keys
    ensures BuildInv(run.env, Elements(jobs), run.S(), map[], results, old(run.db), old(run.cas))
    ensures Traced(run.env, results.errors, faults)
    ensures StatsKept(run.env, run.S(), map[], results, writes.lost)
  {
    ghost var env, db0, cas0 := run.env, run.db, run.cas;
    results := Results({}, {}, map[]);
    var pending: map<Path, Pointer> := map[];
    BuildStart(env, db0, cas0);
    for n := 0 to |jobs|
      invariant BuildInv(env, Elements(jobs[..n]), run.S(), pending, results, db0, cas0)
      invariant Traced(env, results.errors, faults) && StatsKept(env, run.S(), pending, results, writes.lost)
    {
      JobReady(env, plan, jobs, n);
      pending, results := RunJob(run, jobs[n], faults, writes.lost, writes.commits(n), pending, results,
                                  Elements(jobs[..n]), db0, cas0);
    }
    assert jobs[..|jobs|] == jobs;
    FlushRest(env, Elements(jobs), run.S(), pending, results, db0, cas0, writes.lost);
    run.db := Committed(run.db, pending, pending.Keys);
  }

  /** A complete run of the scheduler over the packages of `snap`, under any interleaving. */
  ghost predicate Scheduled(snap: G.Snapshot, plan: S.Plan, start: S.State, schedule: seq<S.Action>) {
    && S.PlanOf(snap, plan) && S.ValidPlan(plan) && S.Init(plan, start)
    && S.IsRun(plan, start, schedule) && S.Complete(plan, S.After(plan, start, schedule))
  }

  /** A package with a failed dependency fails. */
  ghost predicate FailsWithDeps(env: Env, results: Results) {
    forall p, d |
      p in S.Units(env.snap.pkgs) && HasFiles(env, p) && d in DirectDeps(env.snap, p) && d in results.errors ::
      p in results.errors
  }

  /** Whoever did not fail is as a from-scratch build would leave it. */
  ghost predicate AllAgree(env: Env, results: Results, db: map<Path, Pointer>, cas: map<nat, Blob>) {
    forall p | p in S.Units(env.snap.pkgs) && HasFiles(env, p) && p !in results.errors :: Agrees(env, db, cas, p)
  }

  /** The blob store has the from-scratch unit of every package. */
  ghost predicate AllStored(env: Env, cas: map<nat, Blob>) {
    forall p | p in S.Units(env.snap.pkgs) && HasFiles(env, p) :: ScratchKey(env, p) in cas
  }

  /**
   Build, under any schedule, any faults and any batching of the writes, stat refreshes being lost or not.

   No package fails for being processed out of order. With nothing dropped from the order, a package with a
   failed dependency fails. From consistent stores, every package that does not fail ends up, in the
   database and in the blob store, exactly as a from-scratch build would leave it, and the stores stay
   consistent; and what is type-checked is exactly one package for each unit that is new to the store. Every
   failure has a fault behind it, its own package's or a dependency's. If nothing fails, everything is skipped
   exactly if every package was current, and nothing is type-checked exactly if the store had every unit.
   Whatever is skipped or type-checked is left with the stat that was read, unless that refresh was lost.
   */
  method Build(env: Env, db0: map<Path, Pointer>, cas0: map<nat, Blob>, ghost plan: S.Plan, ghost start: S.State,
               schedule: seq<S.Action>, faults: Path -> Faults, writes: Writes)
    returns (results: Results, db: map<Path, Pointer>, cas: map<nat, Blob>)
    requires G.UniqueImports(env.snap.pkgs) && Scheduled(env.snap, plan, start, schedule)
    ensures forall p | p in results.errors :: !results.errors[p].OutOfOrder?
    ensures NothingDropped(env) ==> FailsWithDeps(env, results)
    ensures Traced(env, results.errors, faults)
    ensures Consistent(env, db0, cas0) ==>
              && Consistent(env, db, cas) && AllAgree(env, results, db, cas)
              && NewKeys(env, results.typeChecked, cas0, cas)
    ensures results.errors == map[] ==>
              (results.skipped == S.Units(env.snap.pkgs) <==> AllCurrent(env, S.Units(env.snap.pkgs), db0, cas0))
    ensures results.errors == map[] && Consistent(env, db0, cas0) ==>
              (results.typeChecked == {} <==> AllStored(env, cas0))
    ensures results.skipped !! results.typeChecked && results.skipped + results.typeChecked <= S.Units(env.snap.pkgs)
    ensures forall p | p in results.skipped + results.typeChecked && HasFiles(env, p) && env.stat(p).Some? ::
              writes.lost(p) || (p in db && db[p].files == env.stat(p).value)
  {
    var jobs := S.JobsFrom([], schedule);
    S.JobsInOrder(plan, start, schedule);
    var run := new Run(env, db0, cas0);
    results := RunJobs(run, jobs, plan, faults, writes);
    db, cas := run.db, run.cas;
    BuildEnds(env, run.S(), results, db0, cas0);
  }

  lemma BuildEnds(env: Env, s: State, results: Results, db0: map<Path, Pointer>, cas0: map<nat, Blob>)
    requires BuildInv(env, S.Units(env.snap.pkgs), s, map[], results, db0, cas0)
    ensures NothingDropped(env) ==> FailsWithDeps(env, results)
    ensures Consistent(env, db0, cas0) ==> Consistent(env, s.db, s.cas) && AllAgree(env, results, s.db, s.cas)
    ensures results.errors == map[] ==> s.failed == {}
    ensures results.errors == map[] && Consistent(env, db0, cas0) ==>
              (results.typeChecked == {} <==> AllStored(env, cas0))
  {
    assert results.errors.Keys == s.failed;
    if results.errors == map[] && Consistent(env, db0, cas0) {
      CheckedNothing(env, s, results.typeChecked, cas0);
    }
    if Consistent(env, db0, cas0) {
      forall p | p in S.Units(env.snap.pkgs) && HasFiles(env, p) && p !in results.errors
        ensures Agrees(env, s.db, s.cas, p)
      {
        RightAgrees(env, s, p);
      }
    }
  }

  /** A key that was not there before belongs to a package that was type-checked. */
  lemma CheckedNothing(env: Env, s: State, typeChecked: set<Path>, cas0: map<nat, Blob>)
    requires NewKeys(env, typeChecked, cas0, s.cas) && RunInv(env, s) && s.failed == {}
    requires typeChecked <= S.Units(env.snap.pkgs) && Settled(env, S.Units(env.snap.pkgs), s)
    requires forall p | p in typeChecked :: HasFiles(env, p)
    ensures typeChecked == {} <==> AllStored(env, cas0)
  {
    if typeChecked != {} {
      var p :| p in typeChecked;
      assert ScratchKey(env, p) !in cas0;
    } else {
      forall p | p in S.Units(env.snap.pkgs) && HasFiles(env, p) ensures ScratchKey(env, p) in cas0 {
        assert Resolved(env, s.cas, p, s.m[p]);
        assert ScratchKey(env, p) in s.cas.Keys;
      }
    }
  }

  lemma RightAgrees(env: Env, s: State, p: Path)
    requires GoodWorld(env) && AllRight(env, s, map[]) && p in s.m
    ensures Agrees(env, s.db, s.cas, p)
  {
    assert RightLatest(env, s, map[], p);
    assert Resolved(env, s.cas, p, s.m[p]);
    BlobIsScratch(env, s.cas, p);
  }
}

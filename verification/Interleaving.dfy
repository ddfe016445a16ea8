/**
 The jobs of a Build, step by step: processUnit of internal/index/unit.go as a sequence of single reads and
 writes of the shared key table, database, blob store and export memory, interleaved with those of all other
 jobs. keyTable.get looks into its tables under a lock, reads the database without one, and only then
 remembers what it found.
 */
module Interleaving {
  import opened Options
  import opened Paths
  import opened UnitKeys
  import opened Units
  import opened Processing
  import opened Building
  import G = Graph
  import S = Scheduler

  /** Where a job is, and what it has read so far. */
  datatype Phase =
    | Started
    | Looking(prior: Option<Pointer>, found: map<Path, Record>)           // looking up dependencies
    | Falling(prior: Option<Pointer>, found: map<Path, Record>, d: Path)  // about to read the database
    | Asking(prior: Option<Pointer>, own: nat, key: nat)                  // about to ask whether the blob is there
    | Fetching(own: nat, key: nat)                                      // about to look for the new key
    | Importing(own: nat, key: nat, seen: map<Path, Option<Export>>)    // a miss: reading the imports' exports
    | Exporting(rec: Record, exported: Export, outcome: Outcome)         // about to put the export data
    | Setting(rec: Record, outcome: Outcome)                            // about to set the key
    | Recording(outcome: Outcome)                                       // about to hand over the outcome

  /** The shared state, the jobs under way, the packages that are through, and the writes that are queued. */
  datatype Builder = Builder(s: State, jobs: map<Path, Phase>, done: set<Path>, pending: map<Path, Pointer>)

  datatype Action =
    | Start(p: Path) | ReadOld(p: Path) | LookUp(p: Path, d: Path) | FallBack(p: Path) | Combine(p: Path) | Ask(p: Path)
    | Fetch(p: Path) | Import(p: Path, d: Path) | Check(p: Path) | PutExport(p: Path) | SetKey(p: Path)
    | HandOver(p: Path) | Fail(p: Path) | Commit(batch: set<Path>)

  // ------------------------------------------------------------------------- steps

  ghost predicate In(b: Builder, p: Path) {
    p in b.jobs
  }

  function To(b: Builder, p: Path, phase: Phase): Builder {
    b.(jobs := b.jobs[p := phase])
  }

  /** The job ends in an error. */
  ghost function Failing(b: Builder, p: Path): Builder {
    b.(s := b.s.(failed := b.s.failed + {p}), jobs := b.jobs - {p}, done := b.done + {p})
  }

  ghost function OldDb(prior: Option<Pointer>, p: Path): map<Path, Pointer> {
    if prior.Some? then map[p := prior.value] else map[]
  }

  ghost function FoundHashes(found: map<Path, Record>): map<Path, nat> {
    map d | d in found :: found[d].exportHash
  }

  /** unchangedOutcome, when the stat may be trusted. */
  ghost function Kept(env: Env, prior: Pointer, p: Path): Outcome {
    if StatMatches(env, prior.files, p) || env.stat(p).None? then Nothing
    else Refresh(prior.(files := env.stat(p).value))
  }

  /** The recorded key still holds, and its blob is there. */
  ghost predicate StillHolds(env: Env, s: State, prior: Option<Pointer>, key: nat) {
    prior.Some? && prior.value.fingerprint == env.fingerprint && key == prior.value.blobKey && key in s.cas
  }

  ghost function Fresh(env: Env, own: nat, key: nat, e: Export, files: Files): Outcome {
    Entry(Pointer(key, own, env.w.hash(e), env.fingerprint, files))
  }

  ghost function SeenExports(seen: map<Path, Option<Export>>): map<Path, Export> {
    map d | d in seen && seen[d].Some? :: seen[d].value
  }

  ghost predicate Enabled(env: Env, b: Builder, a: Action) {
    match a
    case Start(p) => p in S.Units(env.snap.pkgs) && p !in b.jobs && p !in b.done && DepsDone(env, b.done, p)
    case ReadOld(p) => In(b, p) && b.jobs[p].Started?
    case LookUp(p, d) => In(b, p) && b.jobs[p].Looking? && d in DirectDeps(env.snap, p) && d !in b.jobs[p].found
    case FallBack(p) => In(b, p) && b.jobs[p].Falling?
    case Combine(p) => In(b, p) && b.jobs[p].Looking? && b.jobs[p].found.Keys == DirectDeps(env.snap, p)
    case Ask(p) => In(b, p) && b.jobs[p].Asking?
    case Fetch(p) => In(b, p) && b.jobs[p].Fetching?
    case Import(p, d) =>
      In(b, p) && b.jobs[p].Importing? && p in env.snap.pkgs && d in Imported(env, p) && d !in b.jobs[p].seen
    case Check(p) => In(b, p) && b.jobs[p].Importing? && p in env.snap.pkgs && b.jobs[p].seen.Keys == Imported(env, p)
    case PutExport(p) => In(b, p) && b.jobs[p].Exporting?
    case SetKey(p) => In(b, p) && b.jobs[p].Setting?
    case HandOver(p) => In(b, p) && b.jobs[p].Recording?
    case Fail(p) =>
      In(b, p) && (b.jobs[p].Started? || b.jobs[p].Looking? || b.jobs[p].Fetching? || b.jobs[p].Importing?)
    case Commit(_) => true
  }

  ghost function Step(env: Env, b: Builder, a: Action): Builder
    requires Enabled(env, b, a)
  {
    match a
    case Start(p) => if HasFiles(env, p) then To(b, p, Started) else b.(done := b.done + {p})
    case ReadOld(p) => To(b, p, Looking(if p in b.s.db then Some(b.s.db[p]) else None, map[]))
    case LookUp(p, d) =>
      var j := b.jobs[p];
      if d in b.s.m then To(b, p, Looking(j.prior, j.found[d := b.s.m[d]]))
      else if d in b.s.failed then Failing(b, p)
      else To(b, p, Falling(j.prior, j.found, d))
    case FallBack(p) =>
      var j := b.jobs[p];
      if j.d !in b.s.db then Failing(b, p)
      else
        var rec := RecordOf(b.s.db[j.d]);
        To(b.(s := b.s.(m := b.s.m[j.d := rec])), p, Looking(j.prior, j.found[j.d := rec]))
    case Combine(p) =>
      var j := b.jobs[p];
      var own := OwnHash(env, OldDb(j.prior, p), true, p);
      To(b, p, Asking(j.prior, own, UnitKey(env.w, own, FoundHashes(j.found))))
    case Ask(p) =>
      var j := b.jobs[p];
      if StillHolds(env, b.s, j.prior, j.key)
      then To(b, p, Setting(RecordOf(j.prior.value), Kept(env, j.prior.value, p)))
      else To(b, p, Fetching(j.own, j.key))
    case Fetch(p) =>
      var j := b.jobs[p];
      if j.key in b.s.cas then
        var e := b.s.cas[j.key].exported;
        To(b, p, Exporting(Record(j.key, env.w.hash(e)), e, Fresh(env, j.own, j.key, e, b.s.cas[j.key].files)))
      else To(b, p, Importing(j.own, j.key, map[]))
    case Import(p, d) =>
      var j := b.jobs[p];
      To(b, p, Importing(j.own, j.key, j.seen[d := ExportData(b.s, d)]))
    case Check(p) =>
      var j := b.jobs[p];
      var checked := env.w.check(env.content(p), SeenExports(j.seen));
      var e, files := checked.exported, StatFiles(env, true, p);
      To(b.(s := b.s.(cas := b.s.cas[j.key := Blob(checked.facts, e, files)])), p,
         Exporting(Record(j.key, env.w.hash(e)), e, Fresh(env, j.own, j.key, e, files)))
    case PutExport(p) =>
      var j := b.jobs[p];
      To(b.(s := b.s.(exports := b.s.exports[p := j.exported])), p, Setting(j.rec, j.outcome))
    case SetKey(p) =>
      var j := b.jobs[p];
      To(b.(s := b.s.(m := b.s.m[p := j.rec])), p, Recording(j.outcome))
    case HandOver(p) =>
      b.(jobs := b.jobs - {p}, done := b.done + {p}, pending := Queued(b.pending, p, b.jobs[p].outcome))
    case Fail(p) => Failing(b, p)
    case Commit(batch) => b.(s := b.s.(db := Committed(b.s.db, b.pending, batch)), pending := b.pending - batch)
  }

  // ---------------------------------------------------------------------- invariant

  /** What a job has read or decided is true, whatever the others do meanwhile. */
  ghost predicate PhaseOk(env: Env, s: State, p: Path, phase: Phase) {
    match phase
    case Started => true
    case Looking(prior, found) =>
      OldRead(s, p, prior) && RightlyFound(env, s, found) && found.Keys <= DirectDeps(env.snap, p)
    case Falling(_, _, _) => false
    case Asking(prior, own, key) => OldRead(s, p, prior) && RightKey(env, s, p, own, key)
    case Fetching(own, key) => RightKey(env, s, p, own, key)
    case Importing(own, key, seen) =>
      && RightKey(env, s, p, own, key) && RightlySeen(env, seen)
      && p in env.snap.pkgs && seen.Keys <= Imported(env, p)
    case Exporting(rec, e, outcome) => e == Scratch(env, p).exported && Decided(env, s, p, rec, outcome)
    case Setting(rec, outcome) => Decided(env, s, p, rec, outcome)
    case Recording(outcome) => p in s.m && Decided(env, s, p, s.m[p], outcome)
  }

  ghost predicate OldRead(s: State, p: Path, prior: Option<Pointer>) {
    prior == if p in s.db then Some(s.db[p]) else None
  }

  ghost predicate RightlyFound(env: Env, s: State, found: map<Path, Record>) {
    forall d | d in found :: d in s.m && found[d] == ScratchRecord(env, d)
  }

  ghost predicate RightKey(env: Env, s: State, p: Path, own: nat, key: nat) {
    && own == env.w.contentHash(env.content(p)) && key == ScratchKey(env, p)
    && DirectDeps(env.snap, p) <= s.m.Keys
  }

  ghost predicate RightlySeen(env: Env, seen: map<Path, Option<Export>>) {
    forall d | d in seen :: seen[d] == Some(Scratch(env, d).exported)
  }

  ghost predicate Decided(env: Env, s: State, p: Path, rec: Record, outcome: Outcome) {
    && rec == ScratchRecord(env, p) && rec.blobKey in s.cas && DirectDeps(env.snap, p) <= s.m.Keys
    && Recorded(s.db, p, outcome).Some? && RightPointer(env, p, Recorded(s.db, p, outcome).value)
  }

  ghost predicate JobOk(env: Env, b: Builder, p: Path) {
    && p in b.jobs && p !in b.done && p !in b.pending && HasFiles(env, p) && DepsDone(env, b.done, p)
    && (p in b.s.m <==> b.jobs[p].Recording?) && PhaseOk(env, b.s, p, b.jobs[p])
  }

  /** A package that is through and did not fail has the right record, and so do its dependencies. */
  ghost predicate ThroughOk(env: Env, b: Builder, p: Path) {
    && p in b.s.m && RightLatest(env, b.s, b.pending, p) && DirectDeps(env.snap, p) <= b.s.m.Keys
  }

  ghost predicate Inv(env: Env, b: Builder) {
    && RunInv(env, b.s) && b.s.failed <= b.done && b.s.m.Keys !! b.s.failed && b.s.m.Keys <= b.done + b.jobs.Keys
    && Pending(env, b) && Throughs(env, b) && Jobs(env, b)
  }

  ghost predicate Pending(env: Env, b: Builder) {
    forall p | p in b.pending :: p in b.done && RightPointer(env, p, b.pending[p])
  }

  ghost predicate Throughs(env: Env, b: Builder) {
    forall p {:trigger ThroughOk(env, b, p)} | p in b.done && HasFiles(env, p) && p !in b.s.failed ::
      ThroughOk(env, b, p)
  }

  ghost predicate Jobs(env: Env, b: Builder) {
    forall p {:trigger JobOk(env, b, p)} | p in b.jobs :: JobOk(env, b, p)
  }

  // ---------------------------------------------------------- what others do not notice

  /** A step of `p` changes nothing that other packages rely on. */
  ghost predicate Extends(b: Builder, b': Builder, p: Path) {
    && b.s.m.Keys <= b'.s.m.Keys <= b.s.m.Keys + {p} && (forall q | q in b.s.m && q != p :: b'.s.m[q] == b.s.m[q])
    && b.s.cas.Keys <= b'.s.cas.Keys && b'.s.db == b.s.db
    && b.s.failed <= b'.s.failed <= b.s.failed + {p} && b.done <= b'.done <= b.done + {p}
    && (forall q | q != p :: (q in b'.jobs <==> q in b.jobs) && (q in b.jobs ==> b'.jobs[q] == b.jobs[q]))
    && (forall q | q != p ::
          (q in b'.pending <==> q in b.pending) && (q in b.pending ==> b'.pending[q] == b.pending[q]))
  }

  lemma PhaseStable(env: Env, s: State, s': State, p: Path, phase: Phase)
    requires PhaseOk(env, s, p, phase) && s.m.Keys <= s'.m.Keys && s.cas.Keys <= s'.cas.Keys
    requires p in s.m ==> s'.m[p] == s.m[p]
    requires (p in s'.db <==> p in s.db) && (p in s.db ==> s'.db[p] == s.db[p])
    ensures PhaseOk(env, s', p, phase)
  {
  }

  lemma OtherJob(env: Env, b: Builder, b': Builder, p: Path, q: Path)
    requires Extends(b, b', p) && q != p && JobOk(env, b, q)
    ensures JobOk(env, b', q)
  {
    PhaseStable(env, b.s, b'.s, q, b.jobs[q]);
  }

  lemma OtherThrough(env: Env, b: Builder, b': Builder, p: Path, q: Path)
    requires Extends(b, b', p) && q != p && ThroughOk(env, b, q)
    ensures ThroughOk(env, b', q)
  {
    assert Latest(b'.s.db, b'.pending, q) == Latest(b.s.db, b.pending, q);
  }

  /** What has to hold of `p` itself. */
  ghost predicate OwnOk(env: Env, b: Builder, p: Path) {
    && (p in b.jobs ==> JobOk(env, b, p))
    && (p in b.done && HasFiles(env, p) && p !in b.s.failed ==> ThroughOk(env, b, p))
    && (p in b.pending ==> p in b.done && RightPointer(env, p, b.pending[p]))
    && (p in b.s.failed ==> p in b.done && p !in b.s.m) && (p in b.s.m ==> p in b.done || p in b.jobs)
  }

  lemma JobsFramed(env: Env, b: Builder, b': Builder, p: Path)
    requires Jobs(env, b) && Extends(b, b', p) && OwnOk(env, b', p)
    ensures Jobs(env, b')
  {
    forall q | q in b'.jobs ensures JobOk(env, b', q) {
      if q != p {
        assert JobOk(env, b, q);
        OtherJob(env, b, b', p, q);
      }
    }
  }

  lemma ThroughFramed(env: Env, b: Builder, b': Builder, p: Path)
    requires Throughs(env, b) && Extends(b, b', p) && OwnOk(env, b', p)
    ensures Throughs(env, b')
  {
    forall q | q in b'.done && HasFiles(env, q) && q !in b'.s.failed ensures ThroughOk(env, b', q) {
      if q != p {
        assert ThroughOk(env, b, q);
        OtherThrough(env, b, b', p, q);
      }
    }
  }

  lemma PendingFramed(env: Env, b: Builder, b': Builder, p: Path)
    requires Pending(env, b) && Extends(b, b', p) && OwnOk(env, b', p)
    ensures Pending(env, b')
  {
    forall q | q in b'.pending ensures q in b'.done && RightPointer(env, q, b'.pending[q]) {
      if q != p {
        assert q in b.pending;
      }
    }
  }

  lemma Framed(env: Env, b: Builder, b': Builder, p: Path)
    requires Inv(env, b) && Extends(b, b', p) && RunInv(env, b'.s) && OwnOk(env, b', p)
    ensures Inv(env, b')
  {
    JobsFramed(env, b, b', p);
    ThroughFramed(env, b, b', p);
    PendingFramed(env, b, b', p);
  }

  // -------------------------------------------------------------------- single steps

  /** A step that changes nothing but the phase of `p`. */
  lemma OnlyPhase(env: Env, b: Builder, p: Path, phase: Phase)
    requires Inv(env, b) && p in b.jobs && !b.jobs[p].Recording? && !phase.Recording? && PhaseOk(env, b.s, p, phase)
    ensures Inv(env, To(b, p, phase))
  {
    assert JobOk(env, b, p);
    assert JobOk(env, To(b, p, phase), p);
    Framed(env, b, To(b, p, phase), p);
  }

  lemma FailKeeps(env: Env, b: Builder, p: Path)
    requires Inv(env, b) && p in b.jobs && !b.jobs[p].Recording?
    ensures Inv(env, Failing(b, p))
  {
    var b' := Failing(b, p);
    assert JobOk(env, b, p);
    RecoveredInv(env, b.s, p, Processed.Failed(ReadFailed));
    Framed(env, b, b', p);
  }

  /** What the refinement assumes of the surroundings. */
  ghost predicate Setup(env: Env) {
    GoodWorld(env) && NothingDropped(env) && forall p :: Honest(env, p)
  }

  /** A dependency is through before the job starts: it has a record of this run, or it failed. */
  lemma DepSettled(env: Env, b: Builder, p: Path, d: Path)
    requires Inv(env, b) && p in b.jobs && d in DirectDeps(env.snap, p)
    ensures d in b.s.m || d in b.s.failed
    ensures d in b.s.m ==> Resolved(env, b.s.cas, d, b.s.m[d])
  {
    assert JobOk(env, b, p);
    assert d in b.done && HasFiles(env, d);
    if d !in b.s.failed {
      assert ThroughOk(env, b, d);
    }
  }

  lemma FoundMore(env: Env, s: State, found: map<Path, Record>, d: Path)
    requires RightlyFound(env, s, found) && d in s.m && s.m[d] == ScratchRecord(env, d)
    ensures RightlyFound(env, s, found[d := s.m[d]]) && found[d := s.m[d]].Keys == found.Keys + {d}
  {
    var more := found[d := s.m[d]];
    forall q | q in more ensures q in s.m && more[q] == ScratchRecord(env, q) {
      assert q != d ==> q in found && more[q] == found[q];
    }
  }

  lemma SeenMore(env: Env, seen: map<Path, Option<Export>>, d: Path, e: Option<Export>)
    requires RightlySeen(env, seen) && e == Some(Scratch(env, d).exported)
    ensures RightlySeen(env, seen[d := e]) && seen[d := e].Keys == seen.Keys + {d}
  {
    var more := seen[d := e];
    forall q | q in more ensures more[q] == Some(Scratch(env, q).exported) {
      assert q != d ==> q in seen && more[q] == seen[q];
    }
  }

  lemma LookUpKeeps(env: Env, b: Builder, p: Path, d: Path)
    requires Inv(env, b) && Enabled(env, b, LookUp(p, d))
    ensures Inv(env, Step(env, b, LookUp(p, d)))
  {
    assert JobOk(env, b, p);
    DepSettled(env, b, p, d);
    if d in b.s.m {
      FoundMore(env, b.s, b.jobs[p].found, d);
      OnlyPhase(env, b, p, Looking(b.jobs[p].prior, b.jobs[p].found[d := b.s.m[d]]));
    } else {
      FailKeeps(env, b, p);
    }
  }

  lemma FoundIsScratch(env: Env, s: State, p: Path, found: map<Path, Record>)
    requires RightlyFound(env, s, found) && found.Keys == DirectDeps(env.snap, p)
    ensures FoundHashes(found) == Hashes(env.w, ScratchDeps(env, p)) && DirectDeps(env.snap, p) <= s.m.Keys
  {
  }

  lemma PriorHash(env: Env, s: State, p: Path, prior: Option<Pointer>)
    requires GoodDb(env, s.db) && OldRead(s, p, prior) && Honest(env, p)
    ensures OwnHash(env, OldDb(prior, p), true, p) == env.w.contentHash(env.content(p))
  {
    OwnHashIsContentHash(env, OldDb(prior, p), true, p);
  }

  lemma CombineKeeps(env: Env, b: Builder, p: Path)
    requires Setup(env) && Inv(env, b) && Enabled(env, b, Combine(p))
    ensures Inv(env, Step(env, b, Combine(p)))
  {
    var j := b.jobs[p];
    assert JobOk(env, b, p);
    PriorHash(env, b.s, p, j.prior);
    FoundIsScratch(env, b.s, p, j.found);
    var own := OwnHash(env, OldDb(j.prior, p), true, p);
    OnlyPhase(env, b, p, Asking(j.prior, own, UnitKey(env.w, own, FoundHashes(j.found))));
  }

  lemma KeptIsRight(env: Env, s: State, p: Path, prior: Pointer)
    requires GoodWorld(env) && Honest(env, p) && GoodDb(env, s.db) && OldRead(s, p, Some(prior))
    requires prior.fingerprint == env.fingerprint && prior.blobKey == ScratchKey(env, p) && ScratchKey(env, p) in s.cas
    requires DirectDeps(env.snap, p) <= s.m.Keys
    ensures Decided(env, s, p, RecordOf(prior), Kept(env, prior, p))
  {
    assert GoodPointer(env.w, s.db[p]);
    GoodIsRight(env, p, prior);
  }

  lemma AskKeeps(env: Env, b: Builder, p: Path)
    requires Setup(env) && Inv(env, b) && Enabled(env, b, Ask(p))
    ensures Inv(env, Step(env, b, Ask(p)))
  {
    var j := b.jobs[p];
    assert JobOk(env, b, p);
    if StillHolds(env, b.s, j.prior, j.key) {
      KeptIsRight(env, b.s, p, j.prior.value);
      OnlyPhase(env, b, p, Setting(RecordOf(j.prior.value), Kept(env, j.prior.value, p)));
    } else {
      OnlyPhase(env, b, p, Fetching(j.own, j.key));
    }
  }

  /** What is made of the from-scratch unit is the right record and the right pointer. */
  lemma FreshIsRight(env: Env, s: State, p: Path, own: nat, key: nat, files: Files)
    requires RightKey(env, s, p, own, key) && key in s.cas && StatOf(env.w, files, env.content(p))
    ensures
      var e := Scratch(env, p).exported;
      Decided(env, s, p, Record(key, env.w.hash(e)), Fresh(env, own, key, e, files))
  {
  }

  lemma FetchKeeps(env: Env, b: Builder, p: Path)
    requires Setup(env) && Inv(env, b) && Enabled(env, b, Fetch(p))
    ensures Inv(env, Step(env, b, Fetch(p)))
  {
    var j := b.jobs[p];
    assert JobOk(env, b, p);
    if j.key in b.s.cas {
      BlobIsScratch(env, b.s.cas, p);
      var blob := b.s.cas[j.key];
      FreshIsRight(env, b.s, p, j.own, j.key, blob.files);
      OnlyPhase(env, b, p, Exporting(Record(j.key, env.w.hash(blob.exported)), blob.exported,
                                     Fresh(env, j.own, j.key, blob.exported, blob.files)));
    } else {
      OnlyPhase(env, b, p, Importing(j.own, j.key, map[]));
    }
  }

  /** What a job reads of an import is the from-scratch export data. */
  lemma ImportReads(env: Env, b: Builder, p: Path, d: Path)
    requires Setup(env) && Inv(env, b) && Enabled(env, b, Import(p, d))
    ensures ExportData(b.s, d) == Some(Scratch(env, d).exported)
  {
    assert JobOk(env, b, p);
    assert d in DirectDeps(env.snap, p);
    DepSettled(env, b, p, d);
    SeenExport(env, b.s, d);
  }

  lemma ImportKeeps(env: Env, b: Builder, p: Path, d: Path)
    requires Setup(env) && Inv(env, b) && Enabled(env, b, Import(p, d))
    ensures Inv(env, Step(env, b, Import(p, d)))
  {
    var j := b.jobs[p];
    assert JobOk(env, b, p);
    ImportReads(env, b, p, d);
    SeenMore(env, j.seen, d, ExportData(b.s, d));
    OnlyPhase(env, b, p, Importing(j.own, j.key, j.seen[d := ExportData(b.s, d)]));
  }

  lemma SeenIsScratch(env: Env, p: Path, seen: map<Path, Option<Export>>)
    requires p in env.snap.pkgs && NoneDropped(env.snap, p) && RightlySeen(env, seen) && seen.Keys == Imported(env, p)
    ensures SeenExports(seen) == ScratchDeps(env, p)
  {
    assert Imported(env, p) == DirectDeps(env.snap, p);
  }

  lemma StoreKeeps(env: Env, s: State, p: Path, blob: Blob)
    requires GoodWorld(env) && RunInv(env, s) && Checked(blob.exported, blob.facts) == Scratch(env, p)
    requires StatOf(env.w, blob.files, env.content(p))
    ensures RunInv(env, s.(cas := s.cas[ScratchKey(env, p) := blob]))
  {
    ScratchOrigin(env, p);
    var key, cas := ScratchKey(env, p), s.cas[ScratchKey(env, p) := blob];
    assert BlobOf(env.w, key, blob, env.content(p), ScratchDeps(env, p));
    forall k | k in cas ensures GoodBlob(env.w, k, cas[k]) {
      assert k != key ==> k in s.cas && cas[k] == s.cas[k];
    }
  }

  /** A step that leaves the job of `p` in order and adds to the shared state what is right. */
  ghost predicate GoodStep(env: Env, b: Builder, b': Builder, p: Path) {
    Extends(b, b', p) && RunInv(env, b'.s) && OwnOk(env, b', p)
  }

  /** What is known of a job on its own. */
  ghost predicate Alone(env: Env, b: Builder, p: Path) {
    JobOk(env, b, p) && RunInv(env, b.s) && p !in b.s.failed
  }

  lemma OnItsOwn(env: Env, b: Builder, p: Path)
    requires Inv(env, b) && p in b.jobs
    ensures Alone(env, b, p)
  {
    assert JobOk(env, b, p);
  }

  lemma CheckStep(env: Env, b: Builder, p: Path)
    requires GoodWorld(env) && Honest(env, p) && p in env.snap.pkgs && NoneDropped(env.snap, p)
    requires Alone(env, b, p) && Enabled(env, b, Check(p))
    ensures GoodStep(env, b, Step(env, b, Check(p)), p)
  {
    var j, b' := b.jobs[p], Step(env, b, Check(p));
    CheckedIsScratch(env, b.s, p, j.own, j.key, j.seen);
  }

  /** What a check over the exports seen gives and stores. */
  lemma CheckedIsScratch(env: Env, s: State, p: Path, own: nat, key: nat, seen: map<Path, Option<Export>>)
    requires GoodWorld(env) && Honest(env, p) && p in env.snap.pkgs && NoneDropped(env.snap, p) && RunInv(env, s)
    requires RightKey(env, s, p, own, key) && RightlySeen(env, seen) && seen.Keys == Imported(env, p)
    ensures
      var checked, files := env.w.check(env.content(p), SeenExports(seen)), StatFiles(env, true, p);
      var s' := s.(cas := s.cas[key := Blob(checked.facts, checked.exported, files)]);
      var rec, outcome := Record(key, env.w.hash(checked.exported)), Fresh(env, own, key, checked.exported, files);
      RunInv(env, s') && PhaseOk(env, s', p, Exporting(rec, checked.exported, outcome))
  {
    SeenIsScratch(env, p, seen);
    ScratchOrigin(env, p);
    var e, files := Scratch(env, p).exported, StatFiles(env, true, p);
    StoreKeeps(env, s, p, Blob(Scratch(env, p).facts, e, files));
    FreshIsRight(env, s.(cas := s.cas[key := Blob(Scratch(env, p).facts, e, files)]), p, own, key, files);
  }

  lemma ExportKeeps(env: Env, s: State, p: Path, e: Export)
    requires RunInv(env, s) && e == Scratch(env, p).exported
    ensures RunInv(env, s.(exports := s.exports[p := e]))
  {
    var exports := s.exports[p := e];
    forall d | d in exports ensures exports[d] == Scratch(env, d).exported {
      assert d != p ==> d in s.exports && exports[d] == s.exports[d];
    }
  }

  lemma PutExportStep(env: Env, b: Builder, p: Path)
    requires Alone(env, b, p) && Enabled(env, b, PutExport(p))
    ensures GoodStep(env, b, Step(env, b, PutExport(p)), p)
  {
    ExportKeeps(env, b.s, p, b.jobs[p].exported);
  }

  lemma SetInv(env: Env, s: State, p: Path, rec: Record)
    requires RunInv(env, s) && Resolved(env, s.cas, p, rec)
    ensures RunInv(env, s.(m := s.m[p := rec]))
  {
    var m := s.m[p := rec];
    forall d | d in m ensures Resolved(env, s.cas, d, m[d]) {
      assert d != p ==> d in s.m && m[d] == s.m[d];
    }
  }

  lemma SetKeyStep(env: Env, b: Builder, p: Path)
    requires Alone(env, b, p) && Enabled(env, b, SetKey(p))
    ensures GoodStep(env, b, Step(env, b, SetKey(p)), p)
  {
    var j := b.jobs[p];
    SetPhase(env, b.s, p, j.rec, j.outcome);
    SetInv(env, b.s, p, j.rec);
    SetExtends(b, p, j.rec, j.outcome);
  }

  lemma SetExtends(b: Builder, p: Path, rec: Record, outcome: Outcome)
    requires p !in b.s.m
    ensures Extends(b, To(b.(s := b.s.(m := b.s.m[p := rec])), p, Recording(outcome)), p)
  {
  }

  lemma SetPhase(env: Env, s: State, p: Path, rec: Record, outcome: Outcome)
    requires Decided(env, s, p, rec, outcome)
    ensures PhaseOk(env, s.(m := s.m[p := rec]), p, Recording(outcome)) && Resolved(env, s.cas, p, rec)
  {
  }

  lemma HandOverStep(env: Env, b: Builder, p: Path)
    requires Alone(env, b, p) && Enabled(env, b, HandOver(p))
    ensures GoodStep(env, b, Step(env, b, HandOver(p)), p)
  {
    var outcome := b.jobs[p].outcome;
    QueuedLatest(b.s.db, b.pending, p, outcome, p);
    HandOverExtends(b, p, outcome);
    assert ThroughOk(env, Step(env, b, HandOver(p)), p);
  }

  lemma HandOverExtends(b: Builder, p: Path, outcome: Outcome)
    requires p in b.jobs
    ensures Extends(b, b.(jobs := b.jobs - {p}, done := b.done + {p}, pending := Queued(b.pending, p, outcome)), p)
  {
  }

  lemma StartKeeps(env: Env, b: Builder, p: Path)
    requires Inv(env, b) && Enabled(env, b, Start(p))
    ensures Inv(env, Step(env, b, Start(p)))
  {
    var b' := Step(env, b, Start(p));
    assert p !in b.s.m && p !in b.pending && p !in b.s.failed;
    if HasFiles(env, p) {
      assert JobOk(env, b', p);
    }
    Framed(env, b, b', p);
  }

  // ------------------------------------------------------------------------ commits

  lemma CommittedElsewhere(db: map<Path, Pointer>, pending: map<Path, Pointer>, batch: set<Path>, p: Path)
    requires p !in pending
    ensures var db' := Committed(db, pending, batch); (p in db' <==> p in db) && (p in db ==> db'[p] == db[p])
  {
  }

  lemma CommitKeeps(env: Env, b: Builder, batch: set<Path>)
    requires GoodWorld(env) && Inv(env, b)
    ensures Inv(env, Step(env, b, Commit(batch)))
  {
    var b' := Step(env, b, Commit(batch));
    GoodCommitted(env, b.s.db, b.pending, batch);
    InvCommitted(env, b.s, b'.s.db);
    forall p | p in b'.jobs ensures JobOk(env, b', p) {
      assert JobOk(env, b, p);
      CommittedElsewhere(b.s.db, b.pending, batch, p);
      PhaseStable(env, b.s, b'.s, p, b.jobs[p]);
    }
    forall p | p in b'.done && HasFiles(env, p) && p !in b'.s.failed ensures ThroughOk(env, b', p) {
      assert ThroughOk(env, b, p);
      LatestCommitted(env, b.s, b.pending, batch, p);
    }
  }

  // --------------------------------------------------------------------------- runs

  /** Every single read or write, of any job, between any of those of the others, keeps the invariant. */
  lemma StepKeeps(env: Env, b: Builder, a: Action)
    requires Setup(env) && Inv(env, b) && Enabled(env, b, a)
    ensures Inv(env, Step(env, b, a))
  {
    match a {
      case Start(p) => StartKeeps(env, b, p);
      case ReadOld(p) => OnlyPhase(env, b, p, Looking(if p in b.s.db then Some(b.s.db[p]) else None, map[]));
      case LookUp(p, d) => LookUpKeeps(env, b, p, d);
      case FallBack(p) => NeverFalls(env, b, p);
      case Combine(p) => CombineKeeps(env, b, p);
      case Ask(p) => AskKeeps(env, b, p);
      case Fetch(p) => FetchKeeps(env, b, p);
      case Import(p, d) => ImportKeeps(env, b, p, d);
      case Check(p) => OnItsOwn(env, b, p); CheckStep(env, b, p); Framed(env, b, Step(env, b, a), p);
      case PutExport(p) => OnItsOwn(env, b, p); PutExportStep(env, b, p); Framed(env, b, Step(env, b, a), p);
      case SetKey(p) => OnItsOwn(env, b, p); SetKeyStep(env, b, p); Framed(env, b, Step(env, b, a), p);
      case HandOver(p) => OnItsOwn(env, b, p); HandOverStep(env, b, p); Framed(env, b, Step(env, b, a), p);
      case Fail(p) => FailKeeps(env, b, p);
      case Commit(batch) => CommitKeeps(env, b, batch);
    }
  }

  /** No lookup of a job falls back to the database, so none overwrites a record of this run with an older one. */
  lemma NeverFalls(env: Env, b: Builder, p: Path)
    requires Inv(env, b) && p in b.jobs
    ensures !b.jobs[p].Falling?
  {
    assert JobOk(env, b, p);
  }

  ghost predicate IsRun(env: Env, b: Builder, actions: seq<Action>)
    decreases |actions|
  {
    actions != [] ==> Enabled(env, b, actions[0]) && IsRun(env, Step(env, b, actions[0]), actions[1..])
  }

  ghost function After(env: Env, b: Builder, actions: seq<Action>): Builder
    requires IsRun(env, b, actions)
    decreases |actions|
  {
    if actions == [] then b else After(env, Step(env, b, actions[0]), actions[1..])
  }

  lemma {:induction false} RunKeeps(env: Env, b: Builder, actions: seq<Action>)
    requires Setup(env) && Inv(env, b) && IsRun(env, b, actions)
    ensures Inv(env, After(env, b, actions))
    decreases |actions|
  {
    if actions != [] {
      StepKeeps(env, b, actions[0]);
      RunKeeps(env, Step(env, b, actions[0]), actions[1..]);
    }
  }

  ghost function Begin(db: map<Path, Pointer>, cas: map<nat, Blob>): Builder {
    Builder(Building.Start(db, cas), map[], {}, map[])
  }

  lemma BeginHolds(env: Env, db: map<Path, Pointer>, cas: map<nat, Blob>)
    requires GoodDb(env, db) && GoodCas(env.w, cas)
    ensures Inv(env, Begin(db, cas))
  {
  }

  /** Everything is through and everything is written. */
  ghost predicate Over(env: Env, b: Builder) {
    b.jobs == map[] && b.done == S.Units(env.snap.pkgs) && b.pending == map[]
  }

  /**
   Whatever way the reads and writes of all jobs are interleaved: the stores are consistent at every moment; a
   package with a failed dependency fails; and in the end every package that did not fail is, in the database and
   in the blob store, exactly as a from-scratch build would leave it.
   */
  lemma AnyInterleaving(env: Env, db: map<Path, Pointer>, cas: map<nat, Blob>, actions: seq<Action>)
    requires Consistent(env, db, cas) && IsRun(env, Begin(db, cas), actions)
    ensures
      var b := After(env, Begin(db, cas), actions);
      && Consistent(env, b.s.db, b.s.cas)
      && (forall p, d | p in b.done && HasFiles(env, p) && d in DirectDeps(env.snap, p) && d in b.s.failed ::
            p in b.s.failed)
      && (Over(env, b) ==>
            forall p | p in b.done && HasFiles(env, p) && p !in b.s.failed :: Agrees(env, b.s.db, b.s.cas, p))
  {
    var b := After(env, Begin(db, cas), actions);
    BeginHolds(env, db, cas);
    RunKeeps(env, Begin(db, cas), actions);
    forall p | p in b.done && HasFiles(env, p) && p !in b.s.failed
      ensures DirectDeps(env.snap, p) !! b.s.failed && (Over(env, b) ==> Agrees(env, b.s.db, b.s.cas, p))
    {
      assert ThroughOk(env, b, p);
      if Over(env, b) {
        ThroughAgrees(env, b.s, p);
      }
    }
  }

  lemma ThroughAgrees(env: Env, s: State, p: Path)
    requires GoodWorld(env) && RunInv(env, s) && p in s.m && RightLatest(env, s, map[], p)
    ensures Agrees(env, s.db, s.cas, p)
  {
    assert Resolved(env, s.cas, p, s.m[p]);
    BlobIsScratch(env, s.cas, p);
  }
}

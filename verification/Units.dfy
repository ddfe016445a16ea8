/**
 What it means for the index to be right: the unit a from-scratch build gives each package, and databases
 and blob stores that hold nothing but truths about (content, dependency exports) combinations.
 */
module Units {
  import opened Options
  import opened Paths
  import opened UnitKeys
  import G = Graph
  import Kahn

  /** A stored blob. */
  datatype Blob = Blob(facts: seq<nat>, exported: Export, files: Files)

  /**
   One run's surroundings: the world, the import graph, what each package's files hold as this run reads
   them, their stat on disk (none when it fails), and the running toolchain's fingerprint.
   */
  datatype Env = Env(w: World, snap: G.Snapshot, content: Path -> Content, stat: Path -> Option<Files>,
                     fingerprint: nat)

  /** A workspace package with Go files. */
  predicate Indexed(snap: G.Snapshot, d: Path) {
    d in snap.pkgs && snap.pkgs[d].root && snap.pkgs[d].hasGoFiles
  }

  /** The dependencies that go into the key of `p`. */
  ghost function DirectDeps(snap: G.Snapshot, p: Path): set<Path> {
    set d | d in snap.pkgs && G.DependsOn(snap.pkgs, p, d) && Indexed(snap, d) && G.Before(snap, d, p)
  }

  /**
   Exactly the workspace packages with Go files that `p` imports, in production or in its tests, and that come
   before it.
   */
  lemma DirectDepsAre(snap: G.Snapshot, p: Path, d: Path)
    ensures d in DirectDeps(snap, p) <==>
              && p in snap.pkgs && (d in snap.pkgs[p].imports || d in snap.pkgs[p].testImports)
              && d in snap.pkgs && snap.pkgs[d].root && snap.pkgs[d].hasGoFiles
              && d in snap.pos && p in snap.pos && snap.pos[d] < snap.pos[p]
  {
  }

  /** No workspace import of `p` had to be left out of the order. */
  ghost predicate NoneDropped(snap: G.Snapshot, p: Path)
    requires p in snap.pkgs
  {
    forall d | G.DependsOn(snap.pkgs, p, d) && Indexed(snap, d) :: G.Before(snap, d, p)
  }

  /** Without cycles, test imports included, nothing is dropped. */
  lemma AcyclicDropsNone(snap: G.Snapshot, p: Path, rank: Path -> nat)
    requires G.Valid(snap) && Kahn.Ranked(snap.pkgs.Keys, G.BothImports(snap.pkgs), rank) && p in snap.pkgs
    ensures NoneDropped(snap, p)
  {
    forall d | G.DependsOn(snap.pkgs, p, d) && Indexed(snap, d) ensures G.Before(snap, d, p) {
      G.TestImportsBefore(snap, p, d, rank);
    }
  }

  // ------------------------------------------------------------------ from scratch

  /** What a from-scratch build, dependencies first, gives `p`. */
  ghost function Scratch(env: Env, p: Path): Checked
    decreases if p in env.snap.pos then env.snap.pos[p] else 0
  {
    env.w.check(env.content(p), map d | d in DirectDeps(env.snap, p) :: Scratch(env, d).exported)
  }

  ghost function ScratchDeps(env: Env, p: Path): map<Path, Export> {
    map d | d in DirectDeps(env.snap, p) :: Scratch(env, d).exported
  }

  ghost function Hashes(w: World, exports: map<Path, Export>): map<Path, nat> {
    map d | d in exports :: w.hash(exports[d])
  }

  ghost function KeyOf(w: World, c: Content, exports: map<Path, Export>): nat {
    UnitKey(w, w.contentHash(c), Hashes(w, exports))
  }

  ghost function ScratchKey(env: Env, p: Path): nat {
    KeyOf(env.w, env.content(p), ScratchDeps(env, p))
  }

  ghost function ScratchRecord(env: Env, p: Path): Record {
    Record(ScratchKey(env, p), env.w.hash(Scratch(env, p).exported))
  }

  // -------------------------------------------------------------------- consistency

  ghost predicate PrintableKeys(exports: map<Path, Export>) {
    forall p | p in exports :: Printable(p)
  }

  /** `key` is the key of this content over these exports. */
  ghost predicate Origin(w: World, key: nat, c: Content, exports: map<Path, Export>) {
    PrintableKeys(exports) && key == KeyOf(w, c, exports)
  }

  /** If there is a recorded stat, it is one of files that hold `c`. */
  ghost predicate StatOf(w: World, files: Files, c: Content) {
    files != map[] ==> w.contentOf(files) == c
  }

  ghost predicate BlobOf(w: World, key: nat, blob: Blob, c: Content, exports: map<Path, Export>) {
    && Origin(w, key, c, exports) && StatOf(w, blob.files, c)
    && Checked(blob.exported, blob.facts) == w.check(c, exports)
  }

  ghost predicate PointerOf(w: World, ptr: Pointer, c: Content, exports: map<Path, Export>) {
    && Origin(w, ptr.blobKey, c, exports) && StatOf(w, ptr.files, c)
    && ptr.contentHash == w.contentHash(c) && ptr.exportHash == w.hash(w.check(c, exports).exported)
  }

  ghost predicate GoodBlob(w: World, key: nat, blob: Blob) {
    exists c, exports :: BlobOf(w, key, blob, c, exports)
  }

  ghost predicate GoodPointer(w: World, ptr: Pointer) {
    exists c, exports :: PointerOf(w, ptr, c, exports)
  }

  ghost predicate GoodDb(env: Env, db: map<Path, Pointer>) {
    forall p | p in db && db[p].fingerprint == env.fingerprint :: GoodPointer(env.w, db[p])
  }

  ghost predicate GoodCas(w: World, cas: map<nat, Blob>) {
    forall key | key in cas :: GoodBlob(w, key, cas[key])
  }

  /** A key has one origin. */
  lemma OriginUnique(w: World, key: nat, c: Content, e: map<Path, Export>, c': Content, e': map<Path, Export>)
    requires CollisionFree(w) && Origin(w, key, c, e) && Origin(w, key, c', e')
    ensures c == c' && e == e'
  {
    UnitKeyInjective(w, w.contentHash(c), Hashes(w, e), w.contentHash(c'), Hashes(w, e'));
    assert Hashes(w, e).Keys == e.Keys && Hashes(w, e').Keys == e'.Keys;
    forall d | d in e ensures d in e' && e[d] == e'[d] {
      assert d in Hashes(w, e) && w.hash(e[d]) == Hashes(w, e)[d] == w.hash(e'[d]);
    }
  }

  /** A good blob holds what checking its key's origin gives. */
  lemma BlobMatches(w: World, key: nat, blob: Blob, c: Content, e: map<Path, Export>)
    requires CollisionFree(w) && GoodBlob(w, key, blob) && Origin(w, key, c, e)
    ensures BlobOf(w, key, blob, c, e)
  {
    var c', e' :| BlobOf(w, key, blob, c', e');
    OriginUnique(w, key, c, e, c', e');
  }

  lemma PointerMatches(w: World, ptr: Pointer, c: Content, e: map<Path, Export>)
    requires CollisionFree(w) && GoodPointer(w, ptr) && Origin(w, ptr.blobKey, c, e)
    ensures PointerOf(w, ptr, c, e)
  {
    var c', e' :| PointerOf(w, ptr, c', e');
    OriginUnique(w, ptr.blobKey, c, e, c', e');
  }

  // ------------------------------------------------------------------ how a unit is keyed

  ghost predicate StatMatches(env: Env, files: Files, p: Path) {
    files != map[] && env.stat(p) == Some(files)
  }

  ghost predicate Trusted(env: Env, db: map<Path, Pointer>, p: Path) {
    p in db && db[p].fingerprint == env.fingerprint
  }

  /** What is on disk is what this run reads. */
  ghost predicate Honest(env: Env, p: Path) {
    env.stat(p).Some? ==> env.w.contentOf(env.stat(p).value) == env.content(p)
  }

  /** The recorded content hash when the stat may be trusted and matches, else a fresh one. */
  ghost function OwnHash(env: Env, db: map<Path, Pointer>, trustStat: bool, p: Path): nat {
    if trustStat && Trusted(env, db, p) && StatMatches(env, db[p].files, p) then db[p].contentHash
    else env.w.contentHash(env.content(p))
  }

  /** The stat fast path finds the hash a recomputation would. */
  lemma OwnHashIsContentHash(env: Env, db: map<Path, Pointer>, trustStat: bool, p: Path)
    requires GoodDb(env, db) && (trustStat ==> Honest(env, p))
    ensures OwnHash(env, db, trustStat, p) == env.w.contentHash(env.content(p))
  {
    if trustStat && Trusted(env, db, p) && StatMatches(env, db[p].files, p) {
      assert GoodPointer(env.w, db[p]);
      var c, e :| PointerOf(env.w, db[p], c, e);
    }
  }

  /** The state of one run: the key table, the database, the blob store, and the exports put this run. */
  datatype State = State(m: map<Path, Record>, failed: set<Path>, db: map<Path, Pointer>, cas: map<nat, Blob>,
                         exports: map<Path, Export>)

  function Find(s: State, p: Path): Option<Record> {
    Lookup(s.m, s.failed, s.db, p)
  }

  ghost predicate AllFound(s: State, deps: set<Path>) {
    forall d | d in deps :: Find(s, d).Some?
  }

  ghost function DepHashes(s: State, deps: set<Path>): map<Path, nat>
    requires AllFound(s, deps)
  {
    map d | d in deps :: Find(s, d).value.exportHash
  }

  /** The key this run computes for `p`. */
  ghost function Combined(env: Env, s: State, trustStat: bool, p: Path): nat
    requires AllFound(s, DirectDeps(env.snap, p))
  {
    UnitKey(env.w, OwnHash(env, s.db, trustStat, p), DepHashes(s, DirectDeps(env.snap, p)))
  }

  /** Nothing has to be done for `p`: its recorded key still holds and its blob is there. */
  ghost predicate Unchanged(env: Env, s: State, trustStat: bool, p: Path)
    requires AllFound(s, DirectDeps(env.snap, p))
  {
    var key := Combined(env, s, trustStat, p);
    Trusted(env, s.db, p) && key == s.db[p].blobKey && key in s.cas
  }

  /** The export data the type-checker gets to see for an import; an empty blob is a miss. */
  ghost function ExportData(s: State, d: Path): Option<Export> {
    if d in s.exports then if s.exports[d] == [] then None else Some(s.exports[d])
    else
      var rec := Find(s, d);
      if rec.None? || rec.value.blobKey !in s.cas || s.cas[rec.value.blobKey].exported == [] then None
      else Some(s.cas[rec.value.blobKey].exported)
  }

  /** What the type-checker gets to see for all the workspace imports of `p`. */
  ghost function Visible(env: Env, s: State, p: Path): map<Path, Export>
    requires p in env.snap.pkgs
  {
    map d | d in env.snap.pkgs && G.DependsOn(env.snap.pkgs, p, d) && Indexed(env.snap, d) && ExportData(s, d).Some? ::
      ExportData(s, d).value
  }

  // --------------------------------------------------------------- what a run relies on

  /** The record of `p` is the from-scratch one, and its blob is in the store. */
  ghost predicate Resolved(env: Env, cas: map<nat, Blob>, p: Path, rec: Record) {
    rec == ScratchRecord(env, p) && rec.blobKey in cas
  }

  ghost predicate GoodWorld(env: Env) {
    && CollisionFree(env.w) && (forall p | p in env.snap.pkgs :: Printable(p))
    && (forall c, e :: env.w.check(c, e).exported != [])
  }

  ghost predicate RunInv(env: Env, s: State) {
    && GoodDb(env, s.db) && GoodCas(env.w, s.cas)
    && (forall d | d in s.m :: Resolved(env, s.cas, d, s.m[d]))
    && (forall d | d in s.exports :: s.exports[d] == Scratch(env, d).exported)
  }

  /** Whatever is found for the dependencies of `p` is right. */
  ghost predicate Ready(env: Env, s: State, p: Path) {
    forall d | d in DirectDeps(env.snap, p) && Find(s, d).Some? :: Resolved(env, s.cas, d, Find(s, d).value)
  }

  lemma ScratchOrigin(env: Env, p: Path)
    requires GoodWorld(env)
    ensures Origin(env.w, ScratchKey(env, p), env.content(p), ScratchDeps(env, p))
    ensures Scratch(env, p) == env.w.check(env.content(p), ScratchDeps(env, p))
  {
  }

  /** The key a run computes is the from-scratch key. */
  lemma CombinedIsScratch(env: Env, s: State, trustStat: bool, p: Path)
    requires GoodDb(env, s.db) && (trustStat ==> Honest(env, p)) && Ready(env, s, p)
    requires AllFound(s, DirectDeps(env.snap, p))
    ensures Combined(env, s, trustStat, p) == ScratchKey(env, p)
  {
    OwnHashIsContentHash(env, s.db, trustStat, p);
    assert DepHashes(s, DirectDeps(env.snap, p)) == Hashes(env.w, ScratchDeps(env, p)) by {
      forall d | d in DirectDeps(env.snap, p)
        ensures Find(s, d).value.exportHash == env.w.hash(Scratch(env, d).exported)
      {
        assert Resolved(env, s.cas, d, Find(s, d).value);
      }
    }
  }

  /** The blob at the from-scratch key is the from-scratch unit. */
  lemma BlobIsScratch(env: Env, cas: map<nat, Blob>, p: Path)
    requires GoodWorld(env) && GoodCas(env.w, cas) && ScratchKey(env, p) in cas
    ensures var blob := cas[ScratchKey(env, p)];
            Checked(blob.exported, blob.facts) == Scratch(env, p) && StatOf(env.w, blob.files, env.content(p))
  {
    ScratchOrigin(env, p);
    var key := ScratchKey(env, p);
    assert GoodBlob(env.w, key, cas[key]);
    BlobMatches(env.w, key, cas[key], env.content(p), ScratchDeps(env, p));
  }

  ghost predicate Seen(env: Env, s: State, d: Path) {
    ExportData(s, d) == Some(Scratch(env, d).exported)
  }

  lemma AllSeen(env: Env, s: State, p: Path)
    requires p in env.snap.pkgs && NoneDropped(env.snap, p)
    requires forall d | d in DirectDeps(env.snap, p) :: Seen(env, s, d)
    ensures Visible(env, s, p) == ScratchDeps(env, p)
  {
    var seen, deps := Visible(env, s, p), ScratchDeps(env, p);
    forall d ensures d in seen <==> d in deps {
      if d in DirectDeps(env.snap, p) {
        assert Seen(env, s, d);
      }
    }
    forall d | d in deps ensures seen[d] == deps[d] {
      assert Seen(env, s, d);
    }
  }

  /** The type-checker sees the from-scratch exports. */
  lemma VisibleIsScratch(env: Env, s: State, p: Path)
    requires p in env.snap.pkgs && NoneDropped(env.snap, p) && GoodWorld(env) && RunInv(env, s) && Ready(env, s, p)
    requires AllFound(s, DirectDeps(env.snap, p))
    ensures Visible(env, s, p) == ScratchDeps(env, p)
  {
    forall d | d in DirectDeps(env.snap, p) ensures Seen(env, s, d) {
      SeenExport(env, s, d);
    }
    AllSeen(env, s, p);
  }

  lemma SeenExport(env: Env, s: State, d: Path)
    requires GoodWorld(env) && RunInv(env, s) && Find(s, d).Some? && Resolved(env, s.cas, d, Find(s, d).value)
    ensures Seen(env, s, d)
  {
    BlobIsScratch(env, s.cas, d);
    ScratchOrigin(env, d);
  }

  // ------------------------------------------------------------------- agreement

  /** The database record of `p` is the one a from-scratch build would write. */
  ghost predicate RightPointer(env: Env, p: Path, ptr: Pointer) {
    && RecordOf(ptr) == ScratchRecord(env, p) && ptr.contentHash == env.w.contentHash(env.content(p))
    && ptr.fingerprint == env.fingerprint && StatOf(env.w, ptr.files, env.content(p))
  }

  /** Database and blob store hold of `p` exactly what a from-scratch build would. */
  ghost predicate Agrees(env: Env, db: map<Path, Pointer>, cas: map<nat, Blob>, p: Path) {
    && p in db && RightPointer(env, p, db[p])
    && ScratchKey(env, p) in cas
    && Checked(cas[ScratchKey(env, p)].exported, cas[ScratchKey(env, p)].facts) == Scratch(env, p)
  }

  lemma RightIsGood(env: Env, p: Path, ptr: Pointer)
    requires GoodWorld(env) && RightPointer(env, p, ptr)
    ensures GoodPointer(env.w, ptr)
  {
    ScratchOrigin(env, p);
    assert PointerOf(env.w, ptr, env.content(p), ScratchDeps(env, p));
  }

  lemma GoodIsRight(env: Env, p: Path, ptr: Pointer)
    requires GoodWorld(env) && GoodPointer(env.w, ptr) && ptr.fingerprint == env.fingerprint
    requires ptr.blobKey == ScratchKey(env, p)
    ensures RightPointer(env, p, ptr)
  {
    ScratchOrigin(env, p);
    PointerMatches(env.w, ptr, env.content(p), ScratchDeps(env, p));
  }
}

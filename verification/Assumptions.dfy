/**
 The assumptions of the refinement theorems can be met: a collision-free hash exists, empty stores are
 consistent over any import graph from which nothing is dropped, and every graph has a complete schedule. And
 an input on which Revalidate does not do what its documentation says.
 */
module Assumptions {
  import opened Options
  import opened Paths
  import opened UnitKeys
  import opened Units
  import opened Processing
  import opened Building
  import opened Revalidation
  import G = Graph
  import S = Scheduler

  /** An odd number, doubled `m` times. */
  function Doubled(m: nat, a: nat): (r: nat)
    ensures r > 0
  {
    if m == 0 then 2 * a + 1 else 2 * Doubled(m - 1, a)
  }

  /** A number for every sequence: the first element is how often two divides it. */
  function Number(s: seq<nat>): nat {
    if s == [] then 0 else Doubled(s[0], Number(s[1..]))
  }

  lemma {:induction false} DoubledApart(m: nat, a: nat, n: nat, b: nat)
    requires Doubled(m, a) == Doubled(n, b)
    ensures m == n && a == b
  {
    if m > 0 && n > 0 {
      DoubledApart(m - 1, a, n - 1, b);
    }
  }

  lemma {:induction false} NumberInjective(s: seq<nat>, t: seq<nat>)
    requires Number(s) == Number(t)
    ensures s == t
  {
    if s != [] && t != [] {
      DoubledApart(s[0], Number(s[1..]), t[0], Number(t[1..]));
      NumberInjective(s[1..], t[1..]);
      assert s == [s[0]] + s[1..] && t == [t[0]] + t[1..];
    }
  }

  function SomeWorld(contentOf: Files -> Content): World {
    World(Number, (c: Content) => Number(Bytes(c)),
          (c: Content, e: map<Path, Export>) => Checked([1] + Bytes(c), [|e.Keys|]), contentOf)
  }

  lemma SomeWorldIsGood(contentOf: Files -> Content)
    ensures var w := SomeWorld(contentOf); CollisionFree(w) && forall c, e :: w.check(c, e).exported != []
  {
    var w := SomeWorld(contentOf);
    forall a, b | w.hash(a) == w.hash(b) ensures a == b {
      NumberInjective(a, b);
    }
    forall a, b | w.contentHash(a) == w.contentHash(b) ensures a == b {
      NumberInjective(Bytes(a), Bytes(b));
      BytesInjective(a, b);
    }
  }

  /** A stat that tells what its file holds. */
  function TellingStat(c: Content): Files {
    map[c := FileStat(0, 0)]
  }

  ghost function ToldBy(files: Files): Content {
    if exists c :: files == TellingStat(c) then
      var c :| files == TellingStat(c);
      c
    else ""
  }

  lemma StatTells(c: Content)
    ensures ToldBy(TellingStat(c)) == c
  {
    var d := ToldBy(TellingStat(c));
    assert TellingStat(c) == TellingStat(d);
    assert c in TellingStat(d);
  }

  /**
   Over any graph from which nothing is dropped, whatever the files hold, there is a run in which every file has
   its stat and the empty stores are consistent.
   */
  lemma ConsistentStart(snap: G.Snapshot, content: Path -> Content, fingerprint: nat) returns (env: Env)
    requires (forall p | p in snap.pkgs :: Printable(p)) && (forall p | p in snap.pkgs :: NoneDropped(snap, p))
    ensures env.snap == snap && env.content == content && Consistent(env, map[], map[])
    ensures forall p :: env.stat(p).Some? && env.stat(p).value != map[]
  {
    SomeWorldIsGood(ToldBy);
    env := Env(SomeWorld(ToldBy), snap, content, p => Some(TellingStat(content(p))), fingerprint);
    forall p ensures Honest(env, p) {
      StatTells(content(p));
    }
    forall p ensures env.stat(p).value != map[] {
      assert content(p) in env.stat(p).value;
    }
  }

  /** Every snapshot has a complete run of its scheduler. */
  method SomeSchedule(snap: G.Snapshot) returns (plan: S.Plan, start: S.State, ghost schedule: seq<S.Action>)
    requires G.Valid(snap) && G.UniqueImports(snap.pkgs)
    ensures Scheduled(snap, plan, start, schedule)
  {
    plan, start := S.NewScheduler(snap);
    S.InitHolds(plan, start);
    schedule := S.CanComplete(plan, start);
  }

  // --------------------------------------------------- a branch that was visited before

  /** One workspace package that imports nothing. */
  ghost predicate OnePackage(snap: G.Snapshot, p: Path) {
    snap.pkgs == map[p := G.Package([], [], true, true, "", "")]
  }

  function BlobFor(w: World, c: Content): Blob {
    Blob(w.check(c, map[]).facts, w.check(c, map[]).exported, map[])
  }

  function PointerFor(w: World, key: nat, c: Content, fingerprint: nat): Pointer {
    Pointer(key, w.contentHash(c), w.hash(w.check(c, map[]).exported), fingerprint, map[])
  }

  lemma NoDeps(env: Env, p: Path)
    requires OnePackage(env.snap, p)
    ensures DirectDeps(env.snap, p) == {} && ScratchDeps(env, p) == map[] && NothingDropped(env)
    ensures S.Units(env.snap.pkgs) == {p} && HasFiles(env, p)
    ensures ScratchKey(env, p) == UnitKey(env.w, env.w.contentHash(env.content(p)), map[])
  {
    assert G.ImportsOf(env.snap.pkgs, p) == [];
    assert Hashes(env.w, map[]) == map[];
  }

  lemma EmptyOrigin(w: World, c: Content)
    ensures Origin(w, UnitKey(w, w.contentHash(c), map[]), c, map[])
  {
    assert Hashes(w, map[]) == map[];
  }

  lemma KeysApart(w: World, c: Content, d: Content)
    requires CollisionFree(w) && c != d
    ensures UnitKey(w, w.contentHash(c), map[]) != UnitKey(w, w.contentHash(d), map[])
  {
    if UnitKey(w, w.contentHash(c), map[]) == UnitKey(w, w.contentHash(d), map[]) {
      UnitKeyInjective(w, w.contentHash(c), map[], w.contentHash(d), map[]);
    }
  }

  /** The records of the branch that was left, and the blobs of both. */
  lemma BothBranchesStored(env: Env, p: Path, left: Content, oldKey: nat, newKey: nat)
    requires OnePackage(env.snap, p) && GoodWorld(env) && (forall q :: env.stat(q) == None) && env.content(p) != left
    requires oldKey == UnitKey(env.w, env.w.contentHash(left), map[])
    requires newKey == UnitKey(env.w, env.w.contentHash(env.content(p)), map[])
    ensures
      var db := map[p := PointerFor(env.w, oldKey, left, env.fingerprint)];
      var cas := map[oldKey := BlobFor(env.w, left), newKey := BlobFor(env.w, env.content(p))];
      Consistent(env, db, cas) && AllStored(env, cas) && !AllCurrent(env, S.Units(env.snap.pkgs), db, cas)
  {
    var w, now := env.w, env.content(p);
    var db := map[p := PointerFor(w, oldKey, left, env.fingerprint)];
    var cas := map[oldKey := BlobFor(w, left), newKey := BlobFor(w, now)];
    NoDeps(env, p);
    EmptyOrigin(w, left);
    EmptyOrigin(w, now);
    assert PointerOf(w, db[p], left, map[]);
    KeysApart(w, left, now);
    assert BlobOf(w, oldKey, cas[oldKey], left, map[]) && BlobOf(w, newKey, cas[newKey], now, map[]);
    NotCurrent(env, p, left, db, cas);
  }

  lemma NotCurrent(env: Env, p: Path, left: Content, db: map<Path, Pointer>, cas: map<nat, Blob>)
    requires OnePackage(env.snap, p) && (forall q :: env.stat(q) == None) && p in db
    requires db[p].blobKey != UnitKey(env.w, env.w.contentHash(env.content(p)), map[])
    ensures !AllCurrent(env, S.Units(env.snap.pkgs), db, cas)
  {
    NoDeps(env, p);
    assert DepHashes(Start(db, cas), {}) == map[];
    assert !Current(env, db, cas, p);
  }

  const NO_FAULTS := Faults(false, false, false, false)

  /**
   Back on a branch that was visited before, with the blobs of both branches in the store: Revalidate reports a
   change, and the Build that follows type-checks nothing.
   */
  method RevisitBranch(env: Env, p: Path, left: Content, ghost plan: S.Plan, ghost start: S.State,
                       schedule: seq<S.Action>, writes: Writes)
    returns (db: map<Path, Pointer>, cas: map<nat, Blob>, changed: bool, results: Results)
    requires OnePackage(env.snap, p) && GoodWorld(env) && (forall q :: env.stat(q) == None) && env.content(p) != left
    requires Scheduled(env.snap, plan, start, schedule)
    ensures Consistent(env, db, cas) && p in db && db[p].fingerprint == env.fingerprint
    ensures changed && results.errors == map[] && results.typeChecked == {}
  {
    var w := env.w;
    var oldKey := ComputeUnitKey(w, w.contentHash(left), [], map[]);
    var newKey := ComputeUnitKey(w, w.contentHash(env.content(p)), [], map[]);
    db := map[p := PointerFor(w, oldKey, left, env.fingerprint)];
    cas := map[oldKey := BlobFor(w, left), newKey := BlobFor(w, env.content(p))];
    BothBranchesStored(env, p, left, oldKey, newKey);
    changed, results := AnswerAndBuild(env, db, cas, plan, start, schedule, writes);
  }

  /**
   Where every unit is stored and not every record current, Revalidate reports a change and nothing is type-checked.
   */
  method AnswerAndBuild(env: Env, db: map<Path, Pointer>, cas: map<nat, Blob>,
                        ghost plan: S.Plan, ghost start: S.State, schedule: seq<S.Action>, writes: Writes)
    returns (changed: bool, results: Results)
    requires G.UniqueImports(env.snap.pkgs) && Scheduled(env.snap, plan, start, schedule)
    requires Consistent(env, db, cas) && AllStored(env, cas) && !AllCurrent(env, S.Units(env.snap.pkgs), db, cas)
    ensures changed && results.errors == map[] && results.typeChecked == {}
  {
    var faults, readFaults, failed := (_: Path) => NO_FAULTS, ReadFaults(false, _ => false, _ => false), false;
    NothingBlocked(env, db, readFaults);
    assert NoFaults(faults);
    changed, failed, results := RevalidateThenBuild(env, db, cas, readFaults, plan, start, schedule, faults, writes);
  }

  lemma NothingBlocked(env: Env, db: map<Path, Pointer>, faults: ReadFaults)
    requires forall p :: !faults.record(p) && !faults.files(p)
    ensures !AnyBlocked(env, db, faults, env.snap.pkgs.Keys)
  {
  }

  /** There is such an input, over every graph of one package. */
  lemma BranchesExist(snap: G.Snapshot, p: Path) returns (env: Env, left: Content)
    requires OnePackage(snap, p) && Printable(p)
    ensures env.snap == snap && GoodWorld(env) && (forall q :: env.stat(q) == None) && env.content(p) != left
  {
    SomeWorldIsGood(_ => "");
    env, left := Env(SomeWorld(_ => ""), snap, _ => "this branch", _ => None, 1), "the other branch";
  }
}

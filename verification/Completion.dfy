/**
 What the interleaved jobs of a Build come to: where failures and new blobs come from, which packages are
 skipped, and that every run can be brought to its end.
 */
module Completion {
  import opened Options
  import opened Paths
  import opened UnitKeys
  import opened Units
  import opened Processing
  import opened Building
  import opened Interleaving
  import S = Scheduler

  // ------------------------------------------------------------------------ failures

  /** The packages that something outside went wrong with. */
  ghost function Faulted(actions: seq<Action>): set<Path> {
    set a | a in actions && a.Fail? :: a.p
  }

  ghost predicate DepFailed(env: Env, failed: set<Path>, p: Path) {
    exists d :: d in DirectDeps(env.snap, p) && d in failed
  }

  ghost predicate Explained(env: Env, failed: set<Path>, faulted: set<Path>) {
    forall p {:trigger DepFailed(env, failed, p)} | p in failed :: p in faulted || DepFailed(env, failed, p)
  }

  lemma FailureExplained(env: Env, failed: set<Path>, faulted: set<Path>, p: Path)
    requires Explained(env, failed, faulted) && (p in faulted || DepFailed(env, failed, p))
    ensures Explained(env, failed + {p}, faulted)
  {
    forall q | q in failed + {p} ensures q in faulted || DepFailed(env, failed + {p}, q) {
      if q !in faulted {
        assert DepFailed(env, failed, q);
        var d :| d in DirectDeps(env.snap, q) && d in failed;
        assert d in failed + {p};
      }
    }
  }

  lemma ExplainedNext(env: Env, b: Builder, a: Action, faulted: set<Path>)
    requires Inv(env, b) && Enabled(env, b, a) && Explained(env, b.s.failed, faulted)
    ensures Explained(env, Step(env, b, a).s.failed, if a.Fail? then faulted + {a.p} else faulted)
  {
    match a {
      case FallBack(p) => NeverFalls(env, b, p);
      case LookUp(p, d) =>
        if d !in b.s.m && d in b.s.failed {
          FailureExplained(env, b.s.failed, faulted, p);
        }
      case Fail(p) =>
        assert Explained(env, b.s.failed, faulted + {p});
        FailureExplained(env, b.s.failed, faulted + {p}, p);
      case _ =>
    }
  }

  lemma {:induction false} ExplainedAfter(env: Env, b: Builder, actions: seq<Action>, faulted: set<Path>)
    requires Setup(env) && Inv(env, b) && IsRun(env, b, actions) && Explained(env, b.s.failed, faulted)
    ensures Explained(env, After(env, b, actions).s.failed, faulted + Faulted(actions))
    decreases |actions|
  {
    if actions == [] {
      assert faulted + Faulted(actions) == faulted;
    } else {
      var a, rest := actions[0], actions[1..];
      var more := if a.Fail? then faulted + {a.p} else faulted;
      StepKeeps(env, b, a);
      ExplainedNext(env, b, a, faulted);
      ExplainedAfter(env, Step(env, b, a), rest, more);
      assert actions == [a] + rest;
      assert more + Faulted(rest) == faulted + Faulted(actions);
    }
  }

  lemma {:induction false} Unfailing(env: Env, failed: set<Path>, p: Path)
    requires Explained(env, failed, {})
    ensures p !in failed
    decreases if p in env.snap.pos then env.snap.pos[p] else 0
  {
    if p in failed {
      assert DepFailed(env, failed, p);
      var d :| d in DirectDeps(env.snap, p) && d in failed;
      Unfailing(env, failed, d);
    }
  }

  /** A package fails only by a fault of its own or a failed dependency; so without faults, none does. */
  lemma FailuresTraced(env: Env, db: map<Path, Pointer>, cas: map<nat, Blob>, actions: seq<Action>)
    requires Consistent(env, db, cas) && IsRun(env, Begin(db, cas), actions)
    ensures
      var failed := After(env, Begin(db, cas), actions).s.failed;
      && (forall p | p in failed && Fail(p) !in actions :: exists d :: d in DirectDeps(env.snap, p) && d in failed)
      && ((forall p :: Fail(p) !in actions) ==> failed == {})
  {
    var failed := After(env, Begin(db, cas), actions).s.failed;
    BeginHolds(env, db, cas);
    ExplainedAfter(env, Begin(db, cas), actions, {});
    forall p | p in failed && Fail(p) !in actions ensures exists d :: d in DirectDeps(env.snap, p) && d in failed {
      assert p !in Faulted(actions);
      assert DepFailed(env, failed, p);
    }
    if forall p :: Fail(p) !in actions {
      assert {} + Faulted(actions) == {};
      forall p ensures p !in failed {
        Unfailing(env, failed, p);
      }
    }
  }

  // -------------------------------------------------------------- checking and skipping

  ghost function NewlyStored(env: Env, actions: seq<Action>): set<nat> {
    set a | a in actions && a.Check? :: ScratchKey(env, a.p)
  }

  /** Nothing is lost from the store, and a job that goes for the imports has a key the store began without. */
  ghost predicate MissesAreNew(cas0: set<nat>, b: Builder) {
    && cas0 <= b.s.cas.Keys
    && forall p | p in b.jobs && b.jobs[p].Importing? :: b.jobs[p].key !in cas0
  }

  lemma MissesNext(env: Env, b: Builder, a: Action, cas0: set<nat>)
    requires Enabled(env, b, a) && MissesAreNew(cas0, b)
    requires a.Check? ==> b.jobs[a.p].key == ScratchKey(env, a.p)
    ensures MissesAreNew(cas0, Step(env, b, a)) && StoredBy(env, a) !! cas0
  {
    StoredKeys(env, b, a);
  }

  lemma StoredKeys(env: Env, b: Builder, a: Action)
    requires Enabled(env, b, a) && (a.Check? ==> b.jobs[a.p].key == ScratchKey(env, a.p))
    ensures Step(env, b, a).s.cas.Keys == b.s.cas.Keys + StoredBy(env, a)
  {
  }

  lemma CheckedKey(env: Env, b: Builder, p: Path)
    requires Inv(env, b) && p in b.jobs && b.jobs[p].Importing?
    ensures b.jobs[p].key == ScratchKey(env, p)
  {
    assert JobOk(env, b, p);
  }

  ghost function StoredBy(env: Env, a: Action): set<nat> {
    if a.Check? then {ScratchKey(env, a.p)} else {}
  }

  lemma StoredNext(env: Env, b: Builder, a: Action, cas0: set<nat>)
    requires Setup(env) && Inv(env, b) && Enabled(env, b, a) && MissesAreNew(cas0, b)
    ensures Inv(env, Step(env, b, a)) && MissesAreNew(cas0, Step(env, b, a)) && StoredBy(env, a) !! cas0
    ensures Step(env, b, a).s.cas.Keys == b.s.cas.Keys + StoredBy(env, a)
  {
    StepKeeps(env, b, a);
    if a.Check? {
      CheckedKey(env, b, a.p);
    }
    MissesNext(env, b, a, cas0);
    StoredKeys(env, b, a);
  }

  lemma {:induction false} StoredAfter(env: Env, b: Builder, actions: seq<Action>, cas0: set<nat>)
    requires Setup(env) && Inv(env, b) && IsRun(env, b, actions) && MissesAreNew(cas0, b)
    ensures After(env, b, actions).s.cas.Keys == b.s.cas.Keys + NewlyStored(env, actions)
    ensures NewlyStored(env, actions) !! cas0
    decreases |actions|
  {
    if actions != [] {
      StoredNext(env, b, actions[0], cas0);
      StoredAfter(env, Step(env, b, actions[0]), actions[1..], cas0);
      NewlyStoredSplits(env, actions);
      AddedUp(b.s.cas.Keys, StoredBy(env, actions[0]), NewlyStored(env, actions[1..]), cas0);
    }
  }

  lemma AddedUp(before: set<nat>, first: set<nat>, rest: set<nat>, cas0: set<nat>)
    requires first !! cas0 && rest !! cas0
    ensures (before + first) + rest == before + (first + rest) && (first + rest) !! cas0
  {
  }

  lemma NewlyStoredSplits(env: Env, actions: seq<Action>)
    requires actions != []
    ensures NewlyStored(env, actions) == StoredBy(env, actions[0]) + NewlyStored(env, actions[1..])
  {
    assert actions == [actions[0]] + actions[1..];
  }

  /**
   However the jobs are interleaved, only packages whose unit the store did not have at the start are type-checked,
   and the store gains exactly their keys.
   */
  lemma OnlyNewChecked(env: Env, db: map<Path, Pointer>, cas: map<nat, Blob>, actions: seq<Action>)
    requires Consistent(env, db, cas) && IsRun(env, Begin(db, cas), actions)
    ensures forall p | Check(p) in actions :: ScratchKey(env, p) !in cas
    ensures forall key :: key in After(env, Begin(db, cas), actions).s.cas
                     <==> key in cas || exists p :: Check(p) in actions && ScratchKey(env, p) == key
  {
    BeginHolds(env, db, cas);
    StoredAfter(env, Begin(db, cas), actions, cas.Keys);
    forall p | Check(p) in actions ensures ScratchKey(env, p) in NewlyStored(env, actions) {
    }
    forall key | key in NewlyStored(env, actions)
      ensures exists p :: Check(p) in actions && ScratchKey(env, p) == key
    {
      var a :| a in actions && a.Check? && ScratchKey(env, a.p) == key;
      assert Check(a.p) in actions;
    }
  }

  /** A job stops at its old record exactly if that has the from-scratch key and the blob is there. */
  lemma SkipsIfCurrent(env: Env, b: Builder, p: Path)
    requires Inv(env, b) && Enabled(env, b, Ask(p))
    ensures
      var current := && p in b.s.db && b.s.db[p].fingerprint == env.fingerprint
                     && b.s.db[p].blobKey == ScratchKey(env, p) && ScratchKey(env, p) in b.s.cas;
      var next := Step(env, b, Ask(p)).jobs[p];
      if current then next.Setting? && next.rec == RecordOf(b.s.db[p]) && !next.outcome.Entry?
      else next.Fetching? && next.key == ScratchKey(env, p)
  {
    assert JobOk(env, b, p);
  }

  // ---------------------------------------------------------------------- completion

  ghost predicate Faultless(actions: seq<Action>) {
    forall i | 0 <= i < |actions| :: !actions[i].Fail?
  }

  /** These steps bring a run to its end. */
  ghost predicate Completes(env: Env, b: Builder, actions: seq<Action>) {
    IsRun(env, b, actions) && Faultless(actions) && Over(env, After(env, b, actions))
  }

  ghost function Missing(all: set<Path>, have: set<Path>): nat {
    |all - have|
  }

  /** How many steps a job has before it, given what it has to look up and to import. */
  ghost function Steps(deps: set<Path>, imports: set<Path>, phase: Phase): nat {
    match phase
    case Started => 9 + Missing(deps, {}) + Missing(imports, {})
    case Falling(_, _, _) => 0
    case Looking(_, found) => 8 + Missing(deps, found.Keys) + Missing(imports, {})
    case Asking(_, _, _) => 7 + Missing(imports, {})
    case Fetching(_, _) => 6 + Missing(imports, {})
    case Importing(_, _, seen) => 5 + Missing(imports, seen.Keys)
    case Exporting(_, _, _) => 4
    case Setting(_, _) => 3
    case Recording(_) => 2
  }

  ghost function Left(env: Env, p: Path, phase: Phase): nat
    requires p in env.snap.pkgs
  {
    Steps(DirectDeps(env.snap, p), Imported(env, p), phase)
  }

  ghost predicate Within(env: Env, b: Builder) {
    b.done <= S.Units(env.snap.pkgs) && b.jobs.Keys <= S.Units(env.snap.pkgs)
  }

  lemma WithinNext(env: Env, b: Builder, a: Action)
    requires Within(env, b) && Enabled(env, b, a)
    ensures Within(env, Step(env, b, a))
  {
  }

  lemma {:induction false} WithinAfter(env: Env, b: Builder, actions: seq<Action>)
    requires Within(env, b) && IsRun(env, b, actions)
    ensures Within(env, After(env, b, actions))
    decreases |actions|
  {
    if actions != [] {
      WithinNext(env, b, actions[0]);
      WithinAfter(env, Step(env, b, actions[0]), actions[1..]);
    }
  }

  lemma {:induction false} Joined(env: Env, b: Builder, first: seq<Action>, second: seq<Action>)
    requires IsRun(env, b, first) && IsRun(env, After(env, b, first), second)
    ensures IsRun(env, b, first + second)
    ensures After(env, b, first + second) == After(env, After(env, b, first), second)
    decreases |first|
  {
    if first == [] {
      assert first + second == second;
    } else {
      assert (first + second)[1..] == first[1..] + second;
      Joined(env, Step(env, b, first[0]), first[1..], second);
    }
  }

  /** What is left of `all` gets less. */
  lemma LessLeft(all: set<Path>, some: set<Path>, d: Path)
    requires d in all && d !in some
    ensures |all - (some + {d})| < |all - some|
  {
    assert all - some == (all - (some + {d})) + {d};
  }

  /** One step on the way of `p`: the job is over, or has less before it. */
  ghost predicate Moves(env: Env, b: Builder, p: Path, b': Builder)
    requires p in env.snap.pkgs && p in b.jobs
  {
    if p in b'.jobs then
      b'.done == b.done && b'.jobs.Keys == b.jobs.Keys && Left(env, p, b'.jobs[p]) < Left(env, p, b.jobs[p])
    else b'.done == b.done + {p} && b'.jobs.Keys == b.jobs.Keys - {p}
  }

  /** What a job has gathered is part of what it is after, and what it is looking for can be found. */
  ghost predicate OnTheWay(env: Env, b: Builder, p: Path) {
    && p in b.jobs && p in env.snap.pkgs && DirectDeps(env.snap, p) <= b.s.m.Keys + b.s.failed
    && !b.jobs[p].Falling?
    && (b.jobs[p].Looking? ==> b.jobs[p].found.Keys <= DirectDeps(env.snap, p))
    && (b.jobs[p].Importing? ==> b.jobs[p].seen.Keys <= Imported(env, p))
  }

  lemma JobOnTheWay(env: Env, b: Builder, p: Path)
    requires Inv(env, b) && p in b.jobs
    ensures OnTheWay(env, b, p)
  {
    assert JobOk(env, b, p);
    forall d | d in DirectDeps(env.snap, p) ensures d in b.s.m.Keys + b.s.failed {
      DepSettled(env, b, p, d);
    }
  }

  lemma MissingLess<T>(all: set<Path>, have: map<Path, T>, d: Path, v: T)
    requires d in all && d !in have
    ensures Missing(all, have[d := v].Keys) < Missing(all, have.Keys)
  {
    LessLeft(all, have.Keys, d);
    assert have[d := v].Keys == have.Keys + {d};
  }

  lemma LookUpMoves(env: Env, b: Builder, p: Path, d: Path)
    requires p in env.snap.pkgs && Enabled(env, b, LookUp(p, d)) && (d in b.s.m || d in b.s.failed)
    ensures Moves(env, b, p, Step(env, b, LookUp(p, d)))
  {
    if d in b.s.m {
      MissingLess(DirectDeps(env.snap, p), b.jobs[p].found, d, b.s.m[d]);
    }
  }

  lemma ImportMoves(env: Env, b: Builder, p: Path, d: Path)
    requires Enabled(env, b, Import(p, d))
    ensures Moves(env, b, p, Step(env, b, Import(p, d)))
  {
    MissingLess(Imported(env, p), b.jobs[p].seen, d, ExportData(b.s, d));
  }

  lemma LookingNext(env: Env, b: Builder, p: Path) returns (a: Action)
    requires OnTheWay(env, b, p) && b.jobs[p].Looking?
    ensures Enabled(env, b, a) && !a.Fail? && Moves(env, b, p, Step(env, b, a))
  {
    if b.jobs[p].found.Keys == DirectDeps(env.snap, p) {
      a := Combine(p);
    } else {
      var d :| d in DirectDeps(env.snap, p) && d !in b.jobs[p].found;
      a := LookUp(p, d);
      LookUpMoves(env, b, p, d);
    }
  }

  lemma ImportingNext(env: Env, b: Builder, p: Path) returns (a: Action)
    requires OnTheWay(env, b, p) && b.jobs[p].Importing?
    ensures Enabled(env, b, a) && !a.Fail? && Moves(env, b, p, Step(env, b, a))
  {
    if b.jobs[p].seen.Keys == Imported(env, p) {
      a := Check(p);
    } else {
      var d :| d in Imported(env, p) && d !in b.jobs[p].seen;
      a := Import(p, d);
      ImportMoves(env, b, p, d);
    }
  }

  /** The step of a job that has nothing to gather. */
  ghost function Onward(p: Path, phase: Phase): Action {
    match phase
    case Started => ReadOld(p)
    case Asking(_, _, _) => Ask(p)
    case Fetching(_, _) => Fetch(p)
    case Exporting(_, _, _) => PutExport(p)
    case Setting(_, _) => SetKey(p)
    case _ => HandOver(p)
  }

  /** Nothing is gathered, or about to be, that is not there yet. */
  ghost predicate Plain(phase: Phase) {
    !phase.Looking? && !phase.Falling? && !phase.Importing?
  }

  lemma OnwardFrames(env: Env, b: Builder, p: Path)
    requires p in b.jobs && Plain(b.jobs[p])
    ensures var a := Onward(p, b.jobs[p]); Enabled(env, b, a) && !a.Fail?
    ensures var b' := Step(env, b, Onward(p, b.jobs[p]));
            if b.jobs[p].Recording? then b'.done == b.done + {p} && b'.jobs.Keys == b.jobs.Keys - {p}
            else b'.done == b.done && b'.jobs.Keys == b.jobs.Keys
  {
  }

  /** The phases a plain one can lead to. */
  ghost predicate Follows(phase: Phase, next: Phase) {
    match phase
    case Started => next.Looking? && next.found == map[]
    case Asking(_, _, _) => next.Fetching? || next.Setting?
    case Fetching(_, _) => next.Exporting? || (next.Importing? && next.seen == map[])
    case Exporting(_, _, _) => next.Setting?
    case Setting(_, _) => next.Recording?
    case _ => false
  }

  lemma FollowsLess(deps: set<Path>, imports: set<Path>, phase: Phase, next: Phase)
    requires Follows(phase, next)
    ensures Steps(deps, imports, next) < Steps(deps, imports, phase)
  {
    if next.Looking? {
      assert next.found.Keys == {};
    } else if next.Importing? {
      assert next.seen.Keys == {};
    }
  }

  lemma OnwardFollows(env: Env, b: Builder, p: Path)
    requires p in b.jobs && Plain(b.jobs[p]) && !b.jobs[p].Recording?
    ensures Follows(b.jobs[p], Step(env, b, Onward(p, b.jobs[p])).jobs[p])
  {
  }

  lemma OnwardMoves(env: Env, b: Builder, p: Path)
    requires p in b.jobs && p in env.snap.pkgs && Plain(b.jobs[p])
    ensures var a := Onward(p, b.jobs[p]); Enabled(env, b, a) && !a.Fail? && Moves(env, b, p, Step(env, b, a))
  {
    OnwardFrames(env, b, p);
    if !b.jobs[p].Recording? {
      OnwardFollows(env, b, p);
      FollowsLess(DirectDeps(env.snap, p), Imported(env, p), b.jobs[p],
                  Step(env, b, Onward(p, b.jobs[p])).jobs[p]);
    }
  }

  /** A job under way can always take a step towards its end. */
  lemma JobMoves(env: Env, b: Builder, p: Path) returns (a: Action)
    requires OnTheWay(env, b, p)
    ensures Enabled(env, b, a) && !a.Fail? && Moves(env, b, p, Step(env, b, a))
  {
    match b.jobs[p] {
      case Looking(_, _) => a := LookingNext(env, b, p);
      case Importing(_, _, _) => a := ImportingNext(env, b, p);
      case _ => a := Onward(p, b.jobs[p]); OnwardMoves(env, b, p);
    }
  }

  lemma {:induction false} FinishJob(env: Env, b: Builder, p: Path) returns (actions: seq<Action>)
    requires Setup(env) && Inv(env, b) && p in b.jobs && p in env.snap.pkgs
    ensures IsRun(env, b, actions) && Faultless(actions) && Inv(env, After(env, b, actions))
    ensures After(env, b, actions).jobs.Keys == b.jobs.Keys - {p} && After(env, b, actions).done == b.done + {p}
    decreases Left(env, p, b.jobs[p])
  {
    JobOnTheWay(env, b, p);
    var a := JobMoves(env, b, p);
    var b' := Step(env, b, a);
    StepKeeps(env, b, a);
    if p in b'.jobs {
      var rest := FinishJob(env, b', p);
      actions := [a] + rest;
    } else {
      actions := [a];
    }
  }

  /** So long as some package is not through, one of them has all its dependencies behind it. */
  lemma {:induction false} SomeReady(env: Env, done: set<Path>, p: Path) returns (q: Path)
    requires p in S.Units(env.snap.pkgs) && p !in done
    ensures q in S.Units(env.snap.pkgs) && q !in done && DepsDone(env, done, q)
    decreases if p in env.snap.pos then env.snap.pos[p] else 0
  {
    if DepsDone(env, done, p) {
      return p;
    }
    var d :| d in DirectDeps(env.snap, p) && d !in done;
    q := SomeReady(env, done, d);
  }

  /** One more package is brought through. */
  lemma FinishOne(env: Env, b: Builder) returns (actions: seq<Action>, p: Path)
    requires Setup(env) && Inv(env, b) && Within(env, b) && (b.jobs != map[] || b.done != S.Units(env.snap.pkgs))
    ensures IsRun(env, b, actions) && Faultless(actions) && Inv(env, After(env, b, actions))
    ensures p in S.Units(env.snap.pkgs) && p !in b.done && After(env, b, actions).done == b.done + {p}
  {
    if b.jobs != map[] {
      p :| p in b.jobs;
      assert JobOk(env, b, p);
      actions := FinishJob(env, b, p);
    } else {
      p :| p in S.Units(env.snap.pkgs) && p !in b.done;
      p := SomeReady(env, b.done, p);
      var b' := Step(env, b, Interleaving.Start(p));
      StepKeeps(env, b, Interleaving.Start(p));
      if HasFiles(env, p) {
        var rest := FinishJob(env, b', p);
        actions := [Interleaving.Start(p)] + rest;
      } else {
        actions := [Interleaving.Start(p)];
      }
    }
  }

  lemma FlushAll(env: Env, b: Builder) returns (actions: seq<Action>)
    requires b.jobs == map[] && b.done == S.Units(env.snap.pkgs)
    ensures Completes(env, b, actions)
  {
    assert b.pending - b.pending.Keys == map[];
    actions := [Commit(b.pending.Keys)];
  }

  lemma CompletesLater(env: Env, b: Builder, first: seq<Action>, rest: seq<Action>)
    requires IsRun(env, b, first) && Faultless(first) && Completes(env, After(env, b, first), rest)
    ensures Completes(env, b, first + rest)
  {
    Joined(env, b, first, rest);
  }

  lemma {:induction false} FinishAll(env: Env, b: Builder) returns (actions: seq<Action>)
    requires Setup(env) && Inv(env, b) && Within(env, b)
    ensures Completes(env, b, actions)
    decreases |S.Units(env.snap.pkgs) - b.done|
  {
    if b.jobs == map[] && b.done == S.Units(env.snap.pkgs) {
      actions := FlushAll(env, b);
      return;
    }
    var first, p := FinishOne(env, b);
    LessLeft(S.Units(env.snap.pkgs), b.done, p);
    WithinAfter(env, b, first);
    var rest := FinishAll(env, After(env, b, first));
    CompletesLater(env, b, first, rest);
    actions := first + rest;
  }

  /** From wherever a run has got, faultless steps bring every package through and everything into the database. */
  lemma CanComplete(env: Env, db: map<Path, Pointer>, cas: map<nat, Blob>, actions: seq<Action>)
    requires Consistent(env, db, cas) && IsRun(env, Begin(db, cas), actions)
    ensures exists more :: Completes(env, After(env, Begin(db, cas), actions), more)
  {
    BeginHolds(env, db, cas);
    RunKeeps(env, Begin(db, cas), actions);
    WithinAfter(env, Begin(db, cas), actions);
    var more := FinishAll(env, After(env, Begin(db, cas), actions));
  }
}

/**
 The generation gates of internal/check/check.go, as a state machine over the atomic steps of
 concurrent rechecks.

 Every recheck of a unit takes the unit's next generation before it reads content. The cache write and
 the publish are gated separately, under different locks, so any number of rechecks may be between
 the two gates at once.
 */
module Generations {

  /** A unit is one package variant of a directory. */
  datatype Key = Key(dir: string, externalTest: bool)

  /** Where a recheck that has taken its generation stands. */
  datatype Phase = Reading | Committed | Publishing

  /** A unit's dirState, its unfinished rechecks by generation, and the generations published so far. */
  datatype Unit = Unit(gen: nat, doneGen: nat, pubGen: nat, running: map<nat, Phase>, published: seq<nat>)

  /** `cache` records the generation of each unit's cached package; `publishes` says whether OnResult is set. */
  datatype Engine = Engine(units: map<Key, Unit>, cache: map<Key, nat>, maxLru: nat, focus: string,
                           retired: bool, publishes: bool)

  datatype Action =
    | Start(key: Key)                // nextGen
    | Abort(key: Key, gen: nat)      // the recheck fails or is canceled before it commits
    | CommitCache(key: Key, gen: nat, victim: Key)
    | LoadRetired(key: Key, gen: nat)
    | CommitPublish(key: Key, gen: nat)
    | DropCached(key: Key)           // the cache gives up an entry
    | SetFocus(dir: string)
    | Retire

  const NEW_UNIT := Unit(0, 0, 0, map[], [])

  /** A unit's state, created on first use. */
  function UnitOf(e: Engine, key: Key): Unit {
    if key in e.units then e.units[key] else NEW_UNIT
  }

  // -------------------------------------------------------------------- the steps

  function NextGen(u: Unit): Unit {
    u.(gen := u.gen + 1, running := u.running[u.gen + 1 := Reading])
  }

  function Finish(u: Unit, gen: nat): Unit {
    u.(running := u.running - {gen})
  }

  /** The first gate: a recheck with a higher generation has not committed yet. */
  function CommitUnit(u: Unit, gen: nat): Unit {
    if gen < u.doneGen then Finish(u, gen)
    else u.(doneGen := gen, running := u.running[gen := Committed])
  }

  /** The second gate: a recheck with a higher generation has not published yet. */
  function PublishUnit(u: Unit, gen: nat): Unit {
    if gen < u.pubGen then Finish(u, gen)
    else Finish(u.(pubGen := gen, published := u.published + [gen]), gen)
  }

  /** After the first gate: publish only if OnResult is set and the engine is not retired. */
  function LoadUnit(u: Unit, gen: nat, live: bool): Unit {
    if live then u.(running := u.running[gen := Publishing]) else Finish(u, gen)
  }

  /** What an action does to its own unit. */
  function StepUnit(u: Unit, a: Action, live: bool): Unit {
    match a
    case Start(_) => NextGen(u)
    case Abort(_, gen) => Finish(u, gen)
    case CommitCache(_, gen, _) => CommitUnit(u, gen)
    case LoadRetired(_, gen) => LoadUnit(u, gen, live)
    case CommitPublish(_, gen) => PublishUnit(u, gen)
    case _ => u
  }

  predicate EnabledUnit(u: Unit, a: Action) {
    match a
    case Abort(_, gen) => gen in u.running && u.running[gen] == Reading
    case CommitCache(_, gen, _) => gen in u.running && u.running[gen] == Reading
    case LoadRetired(_, gen) => gen in u.running && u.running[gen] == Committed
    case CommitPublish(_, gen) => gen in u.running && u.running[gen] == Publishing
    case _ => true
  }

  predicate OfUnit(a: Action) {
    a.Start? || a.Abort? || a.CommitCache? || a.LoadRetired? || a.CommitPublish?
  }

  /** Eviction takes an entry outside the focused directory, when a new one would exceed the limit. */
  predicate NeedsEviction(e: Engine, key: Key) {
    key !in e.cache && |e.cache.Keys| >= e.maxLru && exists k :: k in e.cache && k.dir != e.focus
  }

  /** The cache once a committed result is stored. */
  function Cached(e: Engine, key: Key, gen: nat, victim: Key): map<Key, nat> {
    (if NeedsEviction(e, key) then e.cache - {victim} else e.cache)[key := gen]
  }

  /** The cache after any action. */
  function CacheAfter(e: Engine, a: Action): map<Key, nat> {
    match a
    case CommitCache(key, gen, victim) =>
      if gen < UnitOf(e, key).doneGen then e.cache else Cached(e, key, gen, victim)
    case DropCached(key) => e.cache - {key}
    case _ => e.cache
  }

  predicate Enabled(e: Engine, a: Action) {
    && (OfUnit(a) ==> EnabledUnit(UnitOf(e, a.key), a))
    && (a.CommitCache? && NeedsEviction(e, a.key) ==> a.victim in e.cache && a.victim.dir != e.focus)
  }

  function Live(e: Engine): bool { e.publishes && !e.retired }

  function Step(e: Engine, a: Action): Engine
    requires Enabled(e, a)
  {
    var e' := e.(cache := CacheAfter(e, a));
    match a
    case SetFocus(dir) => e'.(focus := dir)
    case Retire => e'.(retired := true)
    case DropCached(_) => e'
    case _ => e'.(units := e.units[a.key := StepUnit(UnitOf(e, a.key), a, Live(e))])
  }

  // ---------------------------------------------------------------- the invariant

  ghost predicate Increasing(s: seq<nat>) {
    forall i, j | 0 <= i < j < |s| :: s[i] < s[j]
  }

  ghost predicate UnitInv(u: Unit, live: bool) {
    && u.pubGen <= u.doneGen <= u.gen
    && Increasing(u.published)
    && u.pubGen == (if u.published == [] then 0 else u.published[|u.published| - 1])
    && (forall g | g in u.running :: 1 <= g <= u.gen && g !in u.published)
    && (forall g | g in u.running :: if u.running[g] == Reading then g != u.doneGen else g <= u.doneGen)
    // The newest committed result is published, or its publisher is still on the way.
    && (live && u.pubGen < u.doneGen ==> u.doneGen in u.running && u.running[u.doneGen] != Reading)
  }

  ghost predicate Inv(e: Engine) {
    && (forall k :: UnitInv(UnitOf(e, k), Live(e)))
    && (forall k | k in e.cache :: e.cache[k] == UnitOf(e, k).doneGen)
  }

  ghost predicate Init(e: Engine) {
    e.units == map[] && e.cache == map[] && !e.retired
  }

  lemma PublishUnitKeeps(u: Unit, live: bool, gen: nat)
    requires UnitInv(u, live) && gen in u.running && u.running[gen] == Publishing
    ensures UnitInv(PublishUnit(u, gen), live)
    ensures u.published <= PublishUnit(u, gen).published
  {
    if u.pubGen <= gen {
      assert u.published != [] ==> u.pubGen in u.published;
    }
  }

  /** Every step keeps its own unit's invariant, and only ever adds to what was published. */
  lemma StepUnitKeeps(u: Unit, a: Action, live: bool)
    requires UnitInv(u, live) && OfUnit(a) && EnabledUnit(u, a)
    ensures UnitInv(StepUnit(u, a, live), live)
    ensures u.published <= StepUnit(u, a, live).published
  {
    if a.CommitPublish? {
      PublishUnitKeeps(u, live, a.gen);
    }
  }

  lemma UnitAfter(e: Engine, a: Action, k: Key)
    requires Enabled(e, a)
    ensures UnitOf(Step(e, a), k)
         == if OfUnit(a) && k == a.key then StepUnit(UnitOf(e, k), a, Live(e)) else UnitOf(e, k)
  {
  }

  /** A cached package always has the generation of the newest commit. */
  lemma CacheKeeps(e: Engine, a: Action, k: Key)
    requires Inv(e) && Enabled(e, a) && k in CacheAfter(e, a)
    ensures CacheAfter(e, a)[k] == UnitOf(Step(e, a), k).doneGen
  {
    UnitAfter(e, a, k);
  }

  /** Every step of every recheck keeps the invariant. */
  lemma StepKeeps(e: Engine, a: Action)
    requires Inv(e) && Enabled(e, a)
    ensures Inv(Step(e, a))
  {
    var e' := Step(e, a);
    forall k ensures UnitInv(UnitOf(e', k), Live(e')) {
      UnitAfter(e, a, k);
      if OfUnit(a) && k == a.key {
        StepUnitKeeps(UnitOf(e, k), a, Live(e));
      }
    }
    forall k | k in e'.cache ensures e'.cache[k] == UnitOf(e', k).doneGen {
      CacheKeeps(e, a, k);
    }
  }

  // ------------------------------------------------------------------------- runs

  /** Each action is enabled in the state the previous ones leave. */
  ghost predicate IsRun(e: Engine, actions: seq<Action>)
    decreases |actions|
  {
    actions != [] ==> Enabled(e, actions[0]) && IsRun(Step(e, actions[0]), actions[1..])
  }

  ghost function After(e: Engine, actions: seq<Action>): Engine
    requires IsRun(e, actions)
    decreases |actions|
  {
    if actions == [] then e else After(Step(e, actions[0]), actions[1..])
  }

  lemma {:induction false} RunKeeps(e: Engine, actions: seq<Action>)
    requires Inv(e) && IsRun(e, actions)
    ensures Inv(After(e, actions))
    ensures forall k :: UnitOf(e, k).published <= UnitOf(After(e, actions), k).published
    ensures e.publishes == After(e, actions).publishes
    decreases |actions|
  {
    if actions != [] {
      var e' := Step(e, actions[0]);
      StepKeeps(e, actions[0]);
      RunKeeps(e', actions[1..]);
      forall k ensures UnitOf(e, k).published <= UnitOf(After(e, actions), k).published {
        UnitAfter(e, actions[0], k);
        if OfUnit(actions[0]) && k == actions[0].key {
          StepUnitKeeps(UnitOf(e, k), actions[0], Live(e));
        }
      }
    }
  }

  // ------------------------------------------------------- what the actions determine

  /** The highest generation that a list of actions commits for a unit, or 0. */
  ghost function NewestCommit(actions: seq<Action>, k: Key): nat {
    if actions == [] then 0 else
      var rest, a := NewestCommit(actions[1..], k), actions[0];
      if a.CommitCache? && a.key == k && a.gen > rest then a.gen else rest
  }

  /** How many rechecks a list of actions starts for a unit. */
  ghost function Starts(actions: seq<Action>, k: Key): nat {
    if actions == [] then 0 else (if actions[0] == Start(k) then 1 else 0) + Starts(actions[1..], k)
  }

  function Max(a: nat, b: nat): nat { if a < b then b else a }

  lemma DoneAfter(e: Engine, a: Action, k: Key)
    requires Enabled(e, a)
    ensures
      var u, u' := UnitOf(e, k), UnitOf(Step(e, a), k);
      && u'.doneGen == (if a.CommitCache? && a.key == k then Max(u.doneGen, a.gen) else u.doneGen)
      && u'.gen == u.gen + if a == Start(k) then 1 else 0
  {
    UnitAfter(e, a, k);
  }

  /**
   The newest commit is the highest generation committed so far, and each recheck started has a generation of its
   own.
   */
  lemma {:induction false} ActionsDetermine(e: Engine, actions: seq<Action>, k: Key)
    requires IsRun(e, actions)
    ensures UnitOf(After(e, actions), k).doneGen == Max(UnitOf(e, k).doneGen, NewestCommit(actions, k))
    ensures UnitOf(After(e, actions), k).gen == UnitOf(e, k).gen + Starts(actions, k)
    decreases |actions|
  {
    if actions != [] {
      DoneAfter(e, actions[0], k);
      ActionsDetermine(Step(e, actions[0]), actions[1..], k);
    }
  }

  /** A commit that is not older than all earlier ones of its unit is cached, over whatever was there. */
  lemma NewestIsCached(e: Engine, actions: seq<Action>, a: Action)
    requires Init(e) && IsRun(e, actions) && Enabled(After(e, actions), a) && a.CommitCache?
    ensures NewestCommit(actions, a.key) <= a.gen ==>
              var e' := Step(After(e, actions), a); a.key in e'.cache && e'.cache[a.key] == a.gen
    ensures a.gen < NewestCommit(actions, a.key) ==> Step(After(e, actions), a).cache == After(e, actions).cache
  {
    ActionsDetermine(e, actions, a.key);
  }

  /**
   A commit takes at most its victim out of the cache, never one of the focused directory, and keeps to the limit if
   it can.
   */
  lemma CommitEvicts(e: Engine, a: Action)
    requires Enabled(e, a) && a.CommitCache?
    ensures
      var cache' := Step(e, a).cache;
      && e.cache.Keys - {a.victim} <= cache'.Keys <= e.cache.Keys + {a.key}
      && (forall k | k in e.cache && k.dir == e.focus :: k in cache')
      && (|cache'.Keys| <= e.maxLru || |cache'.Keys| <= |e.cache.Keys| || forall k | k in e.cache :: k.dir == e.focus)
  {
    var cache' := Step(e, a).cache;
    if a.gen >= UnitOf(e, a.key).doneGen && a.key !in e.cache {
      if NeedsEviction(e, a.key) {
        assert cache'.Keys == e.cache.Keys - {a.victim} + {a.key};
      } else {
        assert cache'.Keys == e.cache.Keys + {a.key};
      }
    } else {
      assert cache'.Keys == e.cache.Keys;
    }
  }

  /**
   In every interleaving: what a unit publishes strictly increases, never overtakes its commits, and its cached
   package is the newest committed.
   */
  lemma Ordered(e: Engine, actions: seq<Action>, k: Key)
    requires Init(e) && IsRun(e, actions)
    ensures
      var e' := After(e, actions);
      var u := UnitOf(e', k);
      && Increasing(u.published) && u.pubGen <= u.doneGen == NewestCommit(actions, k)
      && (k in e'.cache ==> e'.cache[k] == NewestCommit(actions, k))
  {
    RunKeeps(e, actions);
    ActionsDetermine(e, actions, k);
  }

  /**
   Once every recheck of a unit has finished, on an engine that publishes and is not retired, the newest commit is
   the last thing published.
   */
  lemma NothingLeftUnpublished(e: Engine, actions: seq<Action>, k: Key)
    requires Init(e) && IsRun(e, actions)
    requires Live(After(e, actions)) && UnitOf(After(e, actions), k).running == map[]
    ensures
      var u, newest := UnitOf(After(e, actions), k), NewestCommit(actions, k);
      && u.pubGen == u.doneGen == newest
      && (newest > 0 ==> u.published != [] && u.published[|u.published| - 1] == newest)
  {
    RunKeeps(e, actions);
    ActionsDetermine(e, actions, k);
  }

  /** A recheck that is under way is never stuck between the gates: it has a next step other than giving up. */
  lemma NeverStuck(e: Engine, k: Key, gen: nat) returns (a: Action)
    requires gen in UnitOf(e, k).running
    ensures Enabled(e, a) && OfUnit(a) && !a.Start? && !a.Abort? && a.key == k && a.gen == gen
    ensures UnitOf(e, k).running[gen] == Reading ==> a.CommitCache?
  {
    match UnitOf(e, k).running[gen] {
      case Reading =>
        var victim := k;
        if NeedsEviction(e, k) {
          victim :| victim in e.cache && victim.dir != e.focus;
        }
        a := CommitCache(k, gen, victim);
      case Committed => a := LoadRetired(k, gen);
      case Publishing => a := CommitPublish(k, gen);
    }
  }

  /** On a live engine, a recheck that runs alone is cached and published. */
  lemma RecheckAlone(e: Engine, k: Key, victim: Key)
    requires Init(e) && Live(e)
    ensures
      && Enabled(e, Start(k)) && var e1 := Step(e, Start(k));
      && Enabled(e1, CommitCache(k, 1, victim)) && var e2 := Step(e1, CommitCache(k, 1, victim));
      && k in e2.cache && e2.cache[k] == 1
      && Enabled(e2, LoadRetired(k, 1)) && var e3 := Step(e2, LoadRetired(k, 1));
      && Enabled(e3, CommitPublish(k, 1)) && UnitOf(Step(e3, CommitPublish(k, 1)), k).published == [1]
  {
  }
}

/**
 The dependency-ordered scheduler of internal/index/scheduler.go, as a state machine in which any number
 of finish calls are interleaved at their atomic steps: the decrement of a counter, a channel send, the
 decrement of `left`, and the close.
 */
module Scheduler {
  import opened Paths
  import opened Kahn
  import G = Graph

  /**
   What the scheduler works on: the units, whom each waits for, the reverse lists, and positions that decrease along
   dependencies.
   */
  datatype Plan = Plan(units: set<Path>, deps: map<Path, set<Path>>, dependents: map<Path, seq<Path>>,
                       pos: map<Path, nat>)

  /** A package received from `ready`: still processing, or at some point of finish. */
  datatype Worker =
    | Running
    | Finishing(i: nat)  // about to decrement dependent i, or to leave the loop
    | Sending(i: nat)    // dependent i's counter reached zero; about to send it
    | Closing            // `left` reached zero; about to close the channel
    | Done

  /** `received + ready` is everything ever sent, in order; `ready` is what the channel's buffer holds. */
  datatype State = State(pending: map<Path, int>, left: int, received: seq<Path>, ready: seq<Path>,
                         workers: map<Path, Worker>, closed: bool)

  datatype Action = Receive | JobDone(p: Path) | Decrement(p: Path) | Send(p: Path) | Leave(p: Path) | Close(p: Path)

  ghost predicate ValidPlan(plan: Plan) {
    && plan.deps.Keys == plan.units && plan.dependents.Keys == plan.units && plan.units <= plan.pos.Keys
    && (forall q, d {:trigger d in plan.deps[q]} | q in plan.units && d in plan.deps[q] ::
          d in plan.units && plan.pos[d] < plan.pos[q])
    && (forall d, q {:trigger q in plan.dependents[d]} | d in plan.units ::
          q in plan.dependents[d] <==> q in plan.units && d in plan.deps[q])
    && (forall d | d in plan.units :: Distinct(plan.dependents[d]))
  }

  // -------------------------------------------------------------------- the steps

  predicate At(s: State, p: Path, w: Worker) {
    p in s.workers && s.workers[p] == w
  }

  function WithWorker(s: State, p: Path, w: Worker): State {
    s.(workers := s.workers[p := w])
  }

  function Target(plan: Plan, p: Path, i: nat): Path
    requires p in plan.dependents && i < |plan.dependents[p]|
  {
    plan.dependents[p][i]
  }

  predicate Enabled(plan: Plan, s: State, a: Action) {
    match a
    case Receive => s.ready != []
    case JobDone(p) => At(s, p, Running)
    case Decrement(p) =>
      p in s.workers && p in plan.dependents && s.workers[p].Finishing? && s.workers[p].i < |plan.dependents[p]|
      && Target(plan, p, s.workers[p].i) in s.pending
    case Send(p) =>
      p in s.workers && p in plan.dependents && s.workers[p].Sending? && s.workers[p].i < |plan.dependents[p]|
    case Leave(p) => p in plan.dependents && At(s, p, Finishing(|plan.dependents[p]|))
    case Close(p) => At(s, p, Closing)
  }

  function Lowered(pending: map<Path, int>, q: Path): map<Path, int>
    requires q in pending
  {
    pending[q := pending[q] - 1]
  }

  function Step(plan: Plan, s: State, a: Action): State
    requires Enabled(plan, s, a)
  {
    match a
    case Receive =>
      WithWorker(s, s.ready[0], Running).(received := s.received + [s.ready[0]], ready := s.ready[1..])
    case JobDone(p) => WithWorker(s, p, Finishing(0))
    case Decrement(p) =>
      var i := s.workers[p].i;
      var pending := Lowered(s.pending, Target(plan, p, i));
      var w := if pending[Target(plan, p, i)] == 0 then Sending(i) else Finishing(i + 1);
      WithWorker(s, p, w).(pending := pending)
    case Send(p) =>
      WithWorker(s, p, Finishing(s.workers[p].i + 1)).(ready := s.ready + [Target(plan, p, s.workers[p].i)])
    case Leave(p) => WithWorker(s, p, if s.left - 1 == 0 then Closing else Done).(left := s.left - 1)
    case Close(p) => WithWorker(s, p, Done).(closed := true)
  }

  // ---------------------------------------------------------------- the invariant

  /** How many of its dependents' counters `d` has decremented. */
  function Progress(plan: Plan, s: State, d: Path): nat {
    if d !in s.workers || d !in plan.dependents then 0 else
      match s.workers[d]
      case Running => 0
      case Finishing(i) => i
      case Sending(i) => i + 1
      case Closing => |plan.dependents[d]|
      case Done => |plan.dependents[d]|
  }

  /** `d` has not decremented `q`'s counter yet. */
  ghost predicate Owes(plan: Plan, s: State, d: Path, q: Path)
    requires d in plan.dependents
  {
    InTail(plan.dependents[d], Progress(plan, s, d), q)
  }

  /** The dependencies `q` still waits for. */
  ghost function Awaited(plan: Plan, s: State, q: Path): set<Path>
    requires ValidPlan(plan) && q in plan.units
  {
    set d | d in plan.deps[q] && Owes(plan, s, d, q)
  }

  ghost predicate SentBy(plan: Plan, s: State, q: Path, d: Path) {
    && d in s.workers && d in plan.dependents && s.workers[d].Sending?
    && s.workers[d].i < |plan.dependents[d]| && plan.dependents[d][s.workers[d].i] == q
  }

  ghost predicate HasLeft(s: State, p: Path) {
    p in s.workers && (s.workers[p] == Closing || s.workers[p] == Done)
  }

  /** The units that have not left yet. */
  ghost function Remaining(plan: Plan, s: State): set<Path> {
    set p | p in plan.units && !HasLeft(s, p)
  }

  function Sent(s: State): seq<Path> { s.received + s.ready }

  /** Every counter is the number of dependencies its unit still waits for. */
  ghost predicate Counts(plan: Plan, s: State)
    requires ValidPlan(plan)
  {
    s.pending.Keys == plan.units && forall q | q in plan.units :: s.pending[q] == |Awaited(plan, s, q)|
  }

  /** A unit waits, or one worker is about to send it, or it has been sent: exactly one of the three. */
  ghost predicate OneOfThree(plan: Plan, s: State, q: Path)
    requires ValidPlan(plan) && q in plan.units
  {
    && (q in Sent(s) || Awaited(plan, s, q) != {} || exists d :: SentBy(plan, s, q, d))
    && (q in Sent(s) ==> Awaited(plan, s, q) == {})
    && (forall d | SentBy(plan, s, q, d) :: q !in Sent(s) && Awaited(plan, s, q) == {})
    && (forall d, d' | SentBy(plan, s, q, d) && SentBy(plan, s, q, d') :: d == d')
  }

  ghost predicate Dispatch(plan: Plan, s: State)
    requires ValidPlan(plan)
  {
    forall q | q in plan.units :: OneOfThree(plan, s, q)
  }

  /** What has been sent is distinct units, those received have workers, and workers are inside their lists. */
  ghost predicate Channel(plan: Plan, s: State) {
    && Distinct(Sent(s)) && Elements(Sent(s)) <= plan.units
    && s.workers.Keys == Elements(s.received)
    && (forall p | p in s.workers :: p in plan.dependents && Progress(plan, s, p) <= |plan.dependents[p]|)
  }

  /** The channel is closed once everything has left, by the last to leave. */
  ghost predicate Closure(plan: Plan, s: State) {
    && s.left == |Remaining(plan, s)|
    && (s.closed ==> s.left == 0)
    && (forall p :: At(s, p, Closing) ==> s.left == 0 && !s.closed)
    && (forall p, q :: At(s, p, Closing) && At(s, q, Closing) ==> p == q)
    && (s.left == 0 ==> s.closed || exists p :: At(s, p, Closing))
  }

  ghost predicate Inv(plan: Plan, s: State) {
    ValidPlan(plan) && Channel(plan, s) && Counts(plan, s) && Dispatch(plan, s) && Closure(plan, s)
  }

  // ------------------------------------------------------------- what a step changes

  /** What is received next has no worker yet. */
  lemma FirstReady(plan: Plan, s: State)
    requires Channel(plan, s) && s.ready != []
    ensures s.ready[0] !in s.workers && s.ready[0] in plan.units
  {
    assert Sent(s)[|s.received|] == s.ready[0];
    assert s.ready[0] in Elements(Sent(s));
    forall i | 0 <= i < |s.received| ensures s.received[i] != s.ready[0] {
      assert s.received[i] == Sent(s)[i];
    }
  }

  /** Only a decrement makes progress, of one, on its own package. */
  lemma ProgressAfter(plan: Plan, s: State, a: Action, d: Path)
    requires Channel(plan, s) && Enabled(plan, s, a)
    ensures Progress(plan, Step(plan, s, a), d)
         == Progress(plan, s, d) + (if a.Decrement? && d == a.p then 1 else 0)
  {
    if a.Receive? {
      FirstReady(plan, s);
    }
  }

  ghost predicate InTail(list: seq<Path>, n: nat, q: Path) {
    exists i :: n <= i < |list| && list[i] == q
  }

  lemma TailShift(list: seq<Path>, n: nat, q: Path)
    requires Distinct(list) && n < |list|
    ensures InTail(list, n, q) <==> q == list[n] || InTail(list, n + 1, q)
    ensures !InTail(list, n + 1, list[n])
  {
    if InTail(list, n, q) {
      var i :| n <= i < |list| && list[i] == q;
    }
    if InTail(list, n + 1, q) {
      var i :| n + 1 <= i < |list| && list[i] == q;
    }
  }

  /** The edge a decrement pays off. */
  ghost predicate Pays(plan: Plan, s: State, a: Action, d: Path, q: Path) {
    a.Decrement? && d == a.p && Enabled(plan, s, a) && q == Target(plan, d, s.workers[d].i)
  }

  lemma OwesAfter(plan: Plan, s: State, a: Action, d: Path, q: Path)
    requires Channel(plan, s) && Enabled(plan, s, a) && d in plan.dependents && Distinct(plan.dependents[d])
    ensures Owes(plan, Step(plan, s, a), d, q) <==> Owes(plan, s, d, q) && !Pays(plan, s, a, d, q)
    ensures Pays(plan, s, a, d, q) ==> Owes(plan, s, d, q)
  {
    ProgressAfter(plan, s, a, d);
    if a.Decrement? && d == a.p {
      TailShift(plan.dependents[d], Progress(plan, s, d), q);
    }
  }

  /** A decrement takes its package off what the target awaits; nothing else changes what is awaited. */
  lemma AwaitedAfter(plan: Plan, s: State, a: Action, q: Path)
    requires ValidPlan(plan) && Channel(plan, s) && Enabled(plan, s, a) && q in plan.units
    ensures
      if a.Decrement? && q == Target(plan, a.p, s.workers[a.p].i)
      then a.p in Awaited(plan, s, q) && Awaited(plan, Step(plan, s, a), q) == Awaited(plan, s, q) - {a.p}
      else Awaited(plan, Step(plan, s, a), q) == Awaited(plan, s, q)
  {
    forall d | d in plan.deps[q]
      ensures Owes(plan, Step(plan, s, a), d, q) <==> Owes(plan, s, d, q) && !Pays(plan, s, a, d, q)
    {
      OwesAfter(plan, s, a, d, q);
    }
    if a.Decrement? && q == Target(plan, a.p, s.workers[a.p].i) {
      assert q in plan.dependents[a.p];
      OwesAfter(plan, s, a, a.p, q);
    }
  }

  lemma TargetIsUnit(plan: Plan, p: Path, i: nat)
    requires ValidPlan(plan) && p in plan.units && i < |plan.dependents[p]|
    ensures Target(plan, p, i) in plan.units
  {
    assert Target(plan, p, i) in plan.dependents[p];
  }

  lemma CountsKept(plan: Plan, s: State, a: Action)
    requires ValidPlan(plan) && Channel(plan, s) && Counts(plan, s) && Enabled(plan, s, a)
    ensures Counts(plan, Step(plan, s, a))
  {
    var s' := Step(plan, s, a);
    forall q | q in plan.units ensures q in s'.pending && s'.pending[q] == |Awaited(plan, s', q)| {
      AwaitedAfter(plan, s, a, q);
    }
    if a.Decrement? {
      TargetIsUnit(plan, a.p, s.workers[a.p].i);
    }
  }

  /** Who is about to send what: a decrement to zero starts it, a send ends it. */
  lemma SentByAfter(plan: Plan, s: State, a: Action, q: Path, d: Path)
    requires Channel(plan, s) && Enabled(plan, s, a)
    ensures
      var s' := Step(plan, s, a);
      SentBy(plan, s', q, d) <==>
        if a.Decrement? && d == a.p then q == Target(plan, d, s.workers[d].i) && s'.pending[q] == 0
        else SentBy(plan, s, q, d) && !(a.Send? && d == a.p)
  {
    if a.Receive? {
      FirstReady(plan, s);
    }
  }

  /** A send adds its target to what has been sent; nothing else does. */
  lemma SentAfter(plan: Plan, s: State, a: Action)
    requires Enabled(plan, s, a)
    ensures Sent(Step(plan, s, a)) == Sent(s) + (if a.Send? then [Target(plan, a.p, s.workers[a.p].i)] else [])
  {
    if a.Receive? {
      assert s.ready == [s.ready[0]] + s.ready[1..];
      assert s.received + [s.ready[0]] + s.ready[1..] == s.received + s.ready;
    }
  }

  /** The worker that takes the last awaited dependency off a unit is the one that will send it. */
  lemma SenderAfter(plan: Plan, s: State, a: Action, q: Path, d: Path)
    requires ValidPlan(plan) && Channel(plan, s) && Counts(plan, s) && q in plan.units && Enabled(plan, s, a)
    ensures
      var s' := Step(plan, s, a);
      SentBy(plan, s', q, d) <==>
        if Pays(plan, s, a, d, q) then Awaited(plan, s', q) == {} else SentBy(plan, s, q, d) && !(a.Send? && d == a.p)
  {
    CountsKept(plan, s, a);
    SentByAfter(plan, s, a, q, d);
  }

  lemma SendersAfter(plan: Plan, s: State, a: Action, q: Path)
    requires ValidPlan(plan) && Channel(plan, s) && Counts(plan, s) && q in plan.units && Enabled(plan, s, a)
    ensures
      var s' := Step(plan, s, a);
      forall d :: SentBy(plan, s', q, d) <==>
        if Pays(plan, s, a, d, q) then Awaited(plan, s', q) == {} else SentBy(plan, s, q, d) && !(a.Send? && d == a.p)
  {
    var s' := Step(plan, s, a);
    forall d
      ensures SentBy(plan, s', q, d) <==>
                if Pays(plan, s, a, d, q) then Awaited(plan, s', q) == {}
                else SentBy(plan, s, q, d) && !(a.Send? && d == a.p)
    {
      SenderAfter(plan, s, a, q, d);
    }
  }

  /** For a unit whose dependency is not being paid off and that is not being sent, nothing changes. */
  lemma OthersKept(plan: Plan, s: State, s': State, q: Path)
    requires ValidPlan(plan) && q in plan.units && OneOfThree(plan, s, q)
    requires q in Sent(s') <==> q in Sent(s)
    requires Awaited(plan, s', q) == Awaited(plan, s, q)
    requires forall d :: SentBy(plan, s', q, d) <==> SentBy(plan, s, q, d)
    ensures OneOfThree(plan, s', q)
  {
    if exists d :: SentBy(plan, s, q, d) {
      var d :| SentBy(plan, s, q, d);
      assert SentBy(plan, s', q, d);
    }
  }

  /** Paying off a dependency leaves the unit waiting, or makes the payer its only sender. */
  lemma PaidKept(plan: Plan, s: State, s': State, q: Path, p: Path)
    requires ValidPlan(plan) && q in plan.units && OneOfThree(plan, s, q)
    requires q in Sent(s') <==> q in Sent(s)
    requires p in Awaited(plan, s, q)
    requires forall d ::
               SentBy(plan, s', q, d) <==> if d == p then Awaited(plan, s', q) == {} else SentBy(plan, s, q, d)
    ensures OneOfThree(plan, s', q)
  {
    assert forall d :: !SentBy(plan, s, q, d);
    assert SentBy(plan, s', q, p) <==> Awaited(plan, s', q) == {};
  }

  /** Sending a unit makes it sent, and ends the only attempt to send it. */
  lemma DeliveredKept(plan: Plan, s: State, s': State, q: Path, p: Path)
    requires ValidPlan(plan) && q in plan.units && OneOfThree(plan, s, q)
    requires q in Sent(s') && SentBy(plan, s, q, p)
    requires Awaited(plan, s', q) == Awaited(plan, s, q)
    requires forall d :: SentBy(plan, s', q, d) <==> SentBy(plan, s, q, d) && d != p
    ensures OneOfThree(plan, s', q)
  {
  }

  lemma OneOfThreeKept(plan: Plan, s: State, a: Action, q: Path)
    requires ValidPlan(plan) && Channel(plan, s) && Counts(plan, s) && q in plan.units && OneOfThree(plan, s, q)
    requires Enabled(plan, s, a)
    ensures OneOfThree(plan, Step(plan, s, a), q)
  {
    var s' := Step(plan, s, a);
    SentAfter(plan, s, a);
    AwaitedAfter(plan, s, a, q);
    SendersAfter(plan, s, a, q);
    if a.Decrement? && q == Target(plan, a.p, s.workers[a.p].i) {
      PaidKept(plan, s, s', q, a.p);
    } else if a.Send? && q == Target(plan, a.p, s.workers[a.p].i) {
      DeliveredKept(plan, s, s', q, a.p);
    } else {
      OthersKept(plan, s, s', q);
    }
  }

  lemma NotSentYet(plan: Plan, s: State, q: Path, d: Path)
    requires ValidPlan(plan) && q in plan.units && OneOfThree(plan, s, q) && SentBy(plan, s, q, d)
    ensures q !in Sent(s)
  {
  }

  lemma DistinctPush(s: seq<Path>, p: Path)
    requires Distinct(s) && p !in s
    ensures Distinct(s + [p]) && Elements(s + [p]) == Elements(s) + {p}
  {
  }

  lemma SentKept(plan: Plan, s: State, a: Action)
    requires ValidPlan(plan) && Channel(plan, s) && Dispatch(plan, s) && Enabled(plan, s, a)
    ensures Distinct(Sent(Step(plan, s, a))) && Elements(Sent(Step(plan, s, a))) <= plan.units
  {
    SentAfter(plan, s, a);
    if a.Send? {
      SendIsNew(plan, s, a);
      DistinctPush(Sent(s), Target(plan, a.p, s.workers[a.p].i));
    }
  }

  lemma WorkersKept(plan: Plan, s: State, a: Action)
    requires Channel(plan, s) && Enabled(plan, s, a)
    ensures var s' := Step(plan, s, a); s'.workers.Keys == Elements(s'.received)
  {
    if a.Receive? {
      assert Elements(s.received + [s.ready[0]]) == Elements(s.received) + {s.ready[0]};
    }
  }

  lemma ProgressKept(plan: Plan, s: State, a: Action, p: Path)
    requires plan.dependents.Keys == plan.units && Channel(plan, s) && Enabled(plan, s, a)
    requires p in Step(plan, s, a).workers
    ensures p in plan.dependents && Progress(plan, Step(plan, s, a), p) <= |plan.dependents[p]|
  {
    ProgressAfter(plan, s, a, p);
    if a.Receive? {
      FirstReady(plan, s);
    }
  }

  lemma ChannelKept(plan: Plan, s: State, a: Action)
    requires ValidPlan(plan) && Channel(plan, s) && Dispatch(plan, s) && Enabled(plan, s, a)
    ensures Channel(plan, Step(plan, s, a))
  {
    SentKept(plan, s, a);
    WorkersKept(plan, s, a);
    forall p | p in Step(plan, s, a).workers
      ensures p in plan.dependents && Progress(plan, Step(plan, s, a), p) <= |plan.dependents[p]|
    {
      ProgressKept(plan, s, a, p);
    }
  }

  lemma LeaveCloses(plan: Plan, s: State, a: Action)
    requires Channel(plan, s) && Closure(plan, s) && Enabled(plan, s, a) && a.Leave? && a.p in plan.units
    ensures Closure(plan, Step(plan, s, a))
  {
    var s' := Step(plan, s, a);
    assert a.p in Remaining(plan, s);
    assert Remaining(plan, s') == Remaining(plan, s) - {a.p};
    assert 0 < s.left && !s.closed;
    assert s'.left == |Remaining(plan, s')|;
    forall p | At(s', p, Closing) ensures p == a.p && s'.left == 0 {
      assert p == a.p || At(s, p, Closing);
    }
    if s'.left == 0 {
      assert At(s', a.p, Closing);
    }
  }

  /** Without a Leave nobody leaves; only its own close ends a closing. */
  ghost predicate LeavingAs(s: State, a: Action, s': State, p: Path) {
    (HasLeft(s', p) <==> HasLeft(s, p)) && (At(s', p, Closing) <==> At(s, p, Closing) && a != Close(p))
  }

  lemma LeavingAfter(plan: Plan, s: State, a: Action, p: Path)
    requires Channel(plan, s) && Enabled(plan, s, a) && !a.Leave?
    ensures LeavingAs(s, a, Step(plan, s, a), p)
  {
    if a.Receive? {
      FirstReady(plan, s);
    }
  }

  lemma SameClosure(plan: Plan, s: State, a: Action, s': State)
    requires Closure(plan, s) && s'.left == s.left && s'.closed == (s.closed || a.Close?)
    requires a.Close? ==> At(s, a.p, Closing)
    requires forall p {:trigger LeavingAs(s, a, s', p)} :: LeavingAs(s, a, s', p)
    ensures Closure(plan, s')
  {
    forall p ensures HasLeft(s', p) <==> HasLeft(s, p) {
      assert LeavingAs(s, a, s', p);
    }
    assert Remaining(plan, s') == Remaining(plan, s);
    forall p ensures At(s', p, Closing) <==> At(s, p, Closing) && a != Close(p) {
      assert LeavingAs(s, a, s', p);
    }
  }

  lemma ClosureKept(plan: Plan, s: State, a: Action)
    requires ValidPlan(plan) && Channel(plan, s) && Closure(plan, s) && Enabled(plan, s, a)
    ensures Closure(plan, Step(plan, s, a))
  {
    if a.Leave? {
      LeaveCloses(plan, s, a);
    } else {
      var s' := Step(plan, s, a);
      forall p ensures LeavingAs(s, a, s', p) {
        LeavingAfter(plan, s, a, p);
      }
      SameClosure(plan, s, a, s');
    }
  }

  /** Every atomic step of every finish call keeps the invariant. */
  lemma StepKeeps(plan: Plan, s: State, a: Action)
    requires Inv(plan, s) && Enabled(plan, s, a)
    ensures Inv(plan, Step(plan, s, a))
  {
    ChannelKept(plan, s, a);
    CountsKept(plan, s, a);
    ClosureKept(plan, s, a);
    forall q | q in plan.units ensures OneOfThree(plan, Step(plan, s, a), q) {
      OneOfThreeKept(plan, s, a, q);
    }
  }

  // ------------------------------------------------------------------------- runs

  /** newScheduler: each counter at its number of dependencies, and every unit without one already sent. */
  ghost predicate Init(plan: Plan, s: State)
    requires ValidPlan(plan)
  {
    && s.pending.Keys == plan.units && (forall q | q in plan.units :: s.pending[q] == |plan.deps[q]|)
    && s.left == |plan.units| && s.received == [] && s.workers == map[] && s.closed == (plan.units == {})
    && Distinct(s.ready) && forall q :: q in s.ready <==> q in plan.units && plan.deps[q] == {}
  }

  /** Before any work, every unit awaits all its dependencies. */
  lemma AllAwaited(plan: Plan, s: State, q: Path)
    requires ValidPlan(plan) && s.workers == map[] && q in plan.units
    ensures Awaited(plan, s, q) == plan.deps[q]
  {
    forall d | d in plan.deps[q] ensures Owes(plan, s, d, q) {
      assert q in plan.dependents[d];
    }
  }

  lemma InitDispatch(plan: Plan, s: State, q: Path)
    requires ValidPlan(plan) && q in plan.units && s.received == [] && s.workers == map[]
    requires q in s.ready <==> plan.deps[q] == {}
    ensures OneOfThree(plan, s, q)
  {
    AllAwaited(plan, s, q);
    assert Sent(s) == s.ready;
  }

  lemma InitClosure(plan: Plan, s: State)
    requires s.left == |plan.units| && s.workers == map[] && s.closed == (plan.units == {})
    ensures Closure(plan, s)
  {
    assert Remaining(plan, s) == plan.units;
  }

  lemma InitChannel(plan: Plan, s: State)
    requires s.workers == map[] && s.received == [] && Distinct(s.ready) && forall q | q in s.ready :: q in plan.units
    ensures Channel(plan, s)
  {
    assert Sent(s) == s.ready;
  }

  lemma InitHolds(plan: Plan, s: State)
    requires ValidPlan(plan) && Init(plan, s)
    ensures Inv(plan, s)
  {
    InitChannel(plan, s);
    InitClosure(plan, s);
    forall q | q in plan.units ensures OneOfThree(plan, s, q) && s.pending[q] == |Awaited(plan, s, q)| {
      AllAwaited(plan, s, q);
      InitDispatch(plan, s, q);
    }
  }

  ghost predicate IsRun(plan: Plan, s: State, actions: seq<Action>)
    decreases |actions|
  {
    actions != [] ==> Enabled(plan, s, actions[0]) && IsRun(plan, Step(plan, s, actions[0]), actions[1..])
  }

  ghost function After(plan: Plan, s: State, actions: seq<Action>): State
    requires IsRun(plan, s, actions)
    decreases |actions|
  {
    if actions == [] then s else After(plan, Step(plan, s, actions[0]), actions[1..])
  }

  lemma {:induction false} RunKeeps(plan: Plan, s: State, actions: seq<Action>)
    requires Inv(plan, s) && IsRun(plan, s, actions)
    ensures Inv(plan, After(plan, s, actions))
    decreases |actions|
  {
    if actions != [] {
      StepKeeps(plan, s, actions[0]);
      RunKeeps(plan, Step(plan, s, actions[0]), actions[1..]);
    }
  }

  // ------------------------------------------------------------------- guarantees

  /** Whoever a sent unit depends on has stopped processing. */
  lemma NothingOwed(plan: Plan, s: State, q: Path, d: Path)
    requires ValidPlan(plan) && q in plan.units && d in plan.deps[q] && !Owes(plan, s, d, q)
    ensures d in s.workers && s.workers[d] != Running
  {
    assert q in plan.dependents[d];
  }

  /** A unit that has been sent, exactly once, has had every dependency finish processing first. */
  lemma SentAfterDependencies(plan: Plan, s0: State, actions: seq<Action>, q: Path, d: Path)
    requires ValidPlan(plan) && Init(plan, s0) && IsRun(plan, s0, actions)
    requires q in plan.units && q in Sent(After(plan, s0, actions)) && d in plan.deps[q]
    ensures
      var s := After(plan, s0, actions);
      && Distinct(Sent(s))
      && d in s.workers && s.workers[d] != Running && d in s.received
  {
    var s := After(plan, s0, actions);
    InitHolds(plan, s0);
    RunKeeps(plan, s0, actions);
    assert OneOfThree(plan, s, q);
    assert d !in Awaited(plan, s, q);
    NothingOwed(plan, s, q, d);
    assert d in Elements(s.received);
  }

  lemma RoomLeft(units: set<Path>, s: seq<Path>, p: Path)
    requires Distinct(s) && Elements(s) <= units && p in units && p !in s
    ensures |s| < |units|
  {
    DistinctCard(s);
    SubsetCard(Elements(s) + {p}, units);
  }

  lemma OpenWhileAny(plan: Plan, s: State, p: Path)
    requires Closure(plan, s) && p in Remaining(plan, s)
    ensures !s.closed
  {
  }

  /** A send finds the channel open and its buffer not full. */
  lemma SendsFit(plan: Plan, s: State, a: Action)
    requires Inv(plan, s) && Enabled(plan, s, a) && a.Send?
    ensures !s.closed && |s.ready| < |plan.units|
    ensures Target(plan, a.p, s.workers[a.p].i) !in Sent(s)
  {
    SendIsNew(plan, s, a);
    RoomInBuffer(plan, s, Target(plan, a.p, s.workers[a.p].i));
    SenderFindsOpen(plan, s, a);
  }

  lemma RoomInBuffer(plan: Plan, s: State, t: Path)
    requires Channel(plan, s) && t in plan.units && t !in Sent(s)
    ensures |s.ready| < |plan.units|
  {
    RoomLeft(plan.units, Sent(s), t);
  }

  lemma SenderFindsOpen(plan: Plan, s: State, a: Action)
    requires plan.dependents.Keys == plan.units && Closure(plan, s) && Enabled(plan, s, a) && a.Send?
    ensures !s.closed
  {
    OpenWhileAny(plan, s, a.p);
  }

  lemma SendIsNew(plan: Plan, s: State, a: Action)
    requires ValidPlan(plan) && Channel(plan, s) && Dispatch(plan, s) && Enabled(plan, s, a) && a.Send?
    ensures var t := Target(plan, a.p, s.workers[a.p].i); t in plan.units && t !in Sent(s)
  {
    TargetIsUnit(plan, a.p, s.workers[a.p].i);
    NotSentYet(plan, s, Target(plan, a.p, s.workers[a.p].i), a.p);
  }

  /** The close finds the channel open, after every unit has been sent and has left. */
  lemma ClosesLast(plan: Plan, s: State, a: Action)
    requires Inv(plan, s) && Enabled(plan, s, a) && a.Close?
    ensures !s.closed && s.ready == [] && Elements(s.received) == plan.units
    ensures forall p | p in plan.units :: HasLeft(s, p)
  {
    NoneRemain(plan, s);
    AllReceived(plan.units, s.received, s.ready);
  }

  lemma NoneRemain(plan: Plan, s: State)
    requires Channel(plan, s) && s.left == 0 && s.left == |Remaining(plan, s)|
    ensures plan.units <= Elements(s.received) && forall p | p in plan.units :: HasLeft(s, p)
  {
    assert Remaining(plan, s) == {};
    forall p | p in plan.units ensures HasLeft(s, p) && p in Elements(s.received) {
      assert p !in Remaining(plan, s);
    }
  }

  lemma AllReceived(units: set<Path>, received: seq<Path>, ready: seq<Path>)
    requires Distinct(received + ready) && Elements(received + ready) <= units <= Elements(received)
    ensures ready == [] && Elements(received) == units
  {
    forall i | 0 <= i < |received| ensures received[i] in Elements(received + ready) {
      assert (received + ready)[i] == received[i];
    }
    assert Elements(received) == Elements(received + ready);
    DistinctCard(received + ready);
    DistinctPrefix(received, ready);
    DistinctCard(received);
  }

  lemma DistinctPrefix(s: seq<Path>, t: seq<Path>)
    requires Distinct(s + t)
    ensures Distinct(s)
  {
    assert forall i | 0 <= i < |s| :: s[i] == (s + t)[i];
  }

  /** Nothing more to do: the channel is closed and every unit is done. */
  ghost predicate Complete(plan: Plan, s: State) {
    s.closed && forall p | p in plan.units :: At(s, p, Done)
  }

  /** No deadlock: until everything is complete, some step can be taken. */
  lemma NeverStuck(plan: Plan, s: State) returns (a: Action)
    requires Inv(plan, s) && !Complete(plan, s)
    ensures Enabled(plan, s, a)
  {
    if s.ready != [] {
      a := Receive;
    } else if p :| p in s.workers && s.workers[p] != Done {
      a := NextOf(plan, s, p);
    } else {
      AllDoneCompletes(plan, s);
      assert false;
    }
  }

  /** A worker that is not done has a next step. */
  lemma NextOf(plan: Plan, s: State, p: Path) returns (a: Action)
    requires ValidPlan(plan) && Channel(plan, s) && Counts(plan, s) && p in s.workers && s.workers[p] != Done
    ensures Enabled(plan, s, a)
  {
    match s.workers[p] {
      case Running => a := JobDone(p);
      case Finishing(i) =>
        if i < |plan.dependents[p]| {
          TargetIsUnit(plan, p, i);
          a := Decrement(p);
        } else {
          a := Leave(p);
        }
      case Sending(i) => a := Send(p);
      case Closing => a := Close(p);
      case Done =>
    }
  }

  ghost predicate AllDone(s: State) {
    s.ready == [] && forall p | p in s.workers :: s.workers[p] == Done
  }

  /** A worker that is done owes nobody. */
  lemma DoneOwesNothing(plan: Plan, s: State, d: Path, q: Path)
    requires d in plan.dependents && At(s, d, Done)
    ensures !Owes(plan, s, d, q)
  {
  }

  /** When no worker is under way, a unit whose dependencies have all been sent has been sent. */
  lemma SentNext(plan: Plan, s: State, q: Path)
    requires ValidPlan(plan) && q in plan.units && OneOfThree(plan, s, q)
    requires AllDone(s) && s.workers.Keys == Elements(s.received) && plan.deps[q] <= Elements(s.received)
    ensures q in Elements(s.received)
  {
    forall d | d in plan.deps[q] ensures !Owes(plan, s, d, q) {
      DoneOwesNothing(plan, s, d, q);
    }
    assert Sent(s) == s.received;
    assert Awaited(plan, s, q) == {};
  }

  /** When no worker is under way, every unit has been sent: by induction on positions. */
  lemma {:induction false} EverythingSent(plan: Plan, s: State, q: Path)
    requires ValidPlan(plan) && Channel(plan, s) && Dispatch(plan, s) && AllDone(s) && q in plan.units
    ensures q in Elements(s.received)
    decreases plan.pos[q]
  {
    forall d | d in plan.deps[q] ensures d in Elements(s.received) {
      EverythingSent(plan, s, d);
    }
    SentNext(plan, s, q);
  }

  lemma AllDoneCompletes(plan: Plan, s: State)
    requires Inv(plan, s) && AllDone(s)
    ensures Complete(plan, s)
  {
    forall p | p in plan.units ensures At(s, p, Done) {
      EverythingSent(plan, s, p);
    }
    NobodyLeft(plan, s);
  }

  lemma NobodyLeft(plan: Plan, s: State)
    requires Closure(plan, s) && (forall p | p in plan.units :: At(s, p, Done)) && AllDone(s)
    ensures s.closed
  {
    assert Remaining(plan, s) == {};
  }

  // ------------------------------------------------------------------ runs are finite

  /** How far a unit has come since it was received. */
  ghost function Distance(plan: Plan, s: State, p: Path): nat {
    if p !in s.workers || p !in plan.dependents then 0 else
      match s.workers[p]
      case Running => 1
      case Finishing(i) => 2 + 2 * i
      case Sending(i) => 3 + 2 * i
      case Closing => 3 + 2 * |plan.dependents[p]|
      case Done => 4 + 2 * |plan.dependents[p]|
  }

  ghost function Travelled(plan: Plan, s: State): nat {
    Sum(plan.units, (p: Path) => Distance(plan, s, p))
  }

  /** No run is longer than this. */
  ghost function Limit(plan: Plan): nat {
    Sum(plan.units, (p: Path) => if p in plan.dependents then 4 + 2 * |plan.dependents[p]| else 0)
  }

  lemma WithinLimit(plan: Plan, s: State)
    requires Channel(plan, s)
    ensures Travelled(plan, s) <= Limit(plan)
  {
    forall p | p in plan.units
      ensures Distance(plan, s, p) <= if p in plan.dependents then 4 + 2 * |plan.dependents[p]| else 0
    {
      assert p in s.workers && p in plan.dependents ==> Progress(plan, s, p) <= |plan.dependents[p]|;
    }
    SumAtMost(plan.units, (p: Path) => Distance(plan, s, p),
              (p: Path) => if p in plan.dependents then 4 + 2 * |plan.dependents[p]| else 0);
  }

  /** The unit a step moves. */
  function Mover(plan: Plan, s: State, a: Action): Path
    requires Enabled(plan, s, a)
  {
    if a.Receive? then s.ready[0] else a.p
  }

  lemma StepTravels(plan: Plan, s: State, a: Action)
    requires plan.dependents.Keys == plan.units && Channel(plan, s) && Enabled(plan, s, a)
    ensures Travelled(plan, s) < Travelled(plan, Step(plan, s, a))
  {
    var p := Mover(plan, s, a);
    if a.Receive? {
      FirstReady(plan, s);
    }
    assert Distance(plan, s, p) < Distance(plan, Step(plan, s, a), p);
    SumGrows(plan.units, (q: Path) => Distance(plan, s, q), (q: Path) => Distance(plan, Step(plan, s, a), q), p);
  }

  /** Every run ends after a bounded number of steps; by NeverStuck, one that cannot go on is complete. */
  lemma {:induction false} RunsEnd(plan: Plan, s: State, actions: seq<Action>)
    requires Inv(plan, s) && IsRun(plan, s, actions)
    ensures |actions| + Travelled(plan, s) <= Limit(plan)
    decreases |actions|
  {
    if actions == [] {
      WithinLimit(plan, s);
    } else {
      StepKeeps(plan, s, actions[0]);
      StepTravels(plan, s, actions[0]);
      RunsEnd(plan, Step(plan, s, actions[0]), actions[1..]);
    }
  }

  /** From every state that can be reached, the run can be completed. */
  lemma {:induction false} CanComplete(plan: Plan, s: State) returns (actions: seq<Action>)
    requires Inv(plan, s)
    ensures IsRun(plan, s, actions) && Complete(plan, After(plan, s, actions))
    decreases Limit(plan) - Travelled(plan, s)
  {
    WithinLimit(plan, s);
    if Complete(plan, s) {
      actions := [];
    } else {
      var a := NeverStuck(plan, s);
      StepKeeps(plan, s, a);
      StepTravels(plan, s, a);
      WithinLimit(plan, Step(plan, s, a));
      var rest := CanComplete(plan, Step(plan, s, a));
      actions := [a] + rest;
      assert actions[1..] == rest;
    }
  }

  // ---------------------------------------------------------- the order of the jobs

  /** The packages in the order in which processing them ends. */
  function JobsFrom(jobs: seq<Path>, actions: seq<Action>): seq<Path>
    decreases |actions|
  {
    if actions == [] then jobs else JobsFrom(NextJobs(jobs, actions[0]), actions[1..])
  }

  function NextJobs(jobs: seq<Path>, a: Action): seq<Path> {
    if a.JobDone? then jobs + [a.p] else jobs
  }

  /** Everything the unit at `i` depends on is at an earlier place. */
  ghost predicate DepsEarlier(plan: Plan, jobs: seq<Path>, i: nat) {
    i < |jobs| && jobs[i] in plan.deps && plan.deps[jobs[i]] <= Elements(jobs[..i])
  }

  /** Each unit at most once, after everything it depends on. */
  ghost predicate OrderedJobs(plan: Plan, jobs: seq<Path>) {
    && Distinct(jobs) && Elements(jobs) <= plan.units
    && forall i {:trigger DepsEarlier(plan, jobs, i)} | 0 <= i < |jobs| :: DepsEarlier(plan, jobs, i)
  }

  ghost predicate Processed(s: State, p: Path) {
    p in s.workers && s.workers[p] != Running
  }

  ghost function ProcessedSet(s: State): set<Path> {
    set p | p in s.workers && Processed(s, p)
  }

  ghost predicate JobsSoFar(plan: Plan, s: State, jobs: seq<Path>) {
    OrderedJobs(plan, jobs) && Elements(jobs) == ProcessedSet(s)
  }

  lemma JobsPush(plan: Plan, jobs: seq<Path>, p: Path)
    requires plan.deps.Keys == plan.units && OrderedJobs(plan, jobs) && p in plan.units && p !in jobs
    requires plan.deps[p] <= Elements(jobs)
    ensures OrderedJobs(plan, jobs + [p])
  {
    DistinctPush(jobs, p);
    var more := jobs + [p];
    forall i | 0 <= i < |more| ensures DepsEarlier(plan, more, i) {
      if i < |jobs| {
        assert DepsEarlier(plan, jobs, i);
        assert more[..i] == jobs[..i];
      } else {
        assert more[..i] == jobs;
      }
    }
  }

  lemma RunningReady(plan: Plan, s: State, p: Path, d: Path)
    requires ValidPlan(plan) && Channel(plan, s) && Dispatch(plan, s) && p in s.workers
    ensures p in plan.units && (d in plan.deps[p] ==> Processed(s, d))
  {
    assert p in Elements(s.received);
    assert p in Sent(s);
    assert p in Elements(Sent(s));
    assert OneOfThree(plan, s, p);
    if d in plan.deps[p] {
      assert d !in Awaited(plan, s, p);
      NothingOwed(plan, s, p, d);
    }
  }

  lemma ProcessedAfter(plan: Plan, s: State, a: Action, p: Path)
    requires Channel(plan, s) && Enabled(plan, s, a)
    ensures Processed(Step(plan, s, a), p) <==> Processed(s, p) || a == JobDone(p)
  {
    if a.Receive? {
      FirstReady(plan, s);
    }
  }

  lemma DepsProcessed(plan: Plan, s: State, p: Path, jobs: seq<Path>)
    requires ValidPlan(plan) && Channel(plan, s) && Dispatch(plan, s) && JobsSoFar(plan, s, jobs) && p in s.workers
    ensures p in plan.units && plan.deps[p] <= Elements(jobs)
  {
    RunningReady(plan, s, p, p);
    forall d | d in plan.deps[p] ensures d in Elements(jobs) {
      RunningReady(plan, s, p, d);
    }
  }

  lemma ProcessedSetAfter(plan: Plan, s: State, a: Action)
    requires Channel(plan, s) && Enabled(plan, s, a)
    ensures ProcessedSet(Step(plan, s, a)) == ProcessedSet(s) + if a.JobDone? then {a.p} else {}
    ensures a.JobDone? ==> a.p !in ProcessedSet(s)
  {
    var s' := Step(plan, s, a);
    forall p ensures p in ProcessedSet(s') <==> p in ProcessedSet(s) || a == JobDone(p) {
      ProcessedAfter(plan, s, a, p);
    }
  }

  lemma JobStep(plan: Plan, s: State, a: Action, jobs: seq<Path>)
    requires ValidPlan(plan) && Channel(plan, s) && Dispatch(plan, s) && Enabled(plan, s, a) && JobsSoFar(plan, s, jobs)
    ensures JobsSoFar(plan, Step(plan, s, a), NextJobs(jobs, a))
  {
    ProcessedSetAfter(plan, s, a);
    if a.JobDone? {
      assert a.p !in Elements(jobs);
      DepsProcessed(plan, s, a.p, jobs);
      DistinctPush(jobs, a.p);
      JobsPush(plan, jobs, a.p);
    }
  }

  ghost predicate JobInv(plan: Plan, s: State, jobs: seq<Path>) {
    Inv(plan, s) && JobsSoFar(plan, s, jobs)
  }

  lemma JobStepKeeps(plan: Plan, s: State, a: Action, jobs: seq<Path>)
    requires JobInv(plan, s, jobs) && Enabled(plan, s, a)
    ensures JobInv(plan, Step(plan, s, a), NextJobs(jobs, a))
  {
    StepKeeps(plan, s, a);
    JobStep(plan, s, a, jobs);
  }

  lemma {:induction false} JobsAfter(plan: Plan, s: State, actions: seq<Action>, jobs: seq<Path>)
    requires JobInv(plan, s, jobs) && IsRun(plan, s, actions)
    ensures JobInv(plan, After(plan, s, actions), JobsFrom(jobs, actions))
    decreases |actions|
  {
    if actions != [] {
      JobStepKeeps(plan, s, actions[0], jobs);
      JobsAfter(plan, Step(plan, s, actions[0]), actions[1..], NextJobs(jobs, actions[0]));
    }
  }

  lemma CompleteJobs(plan: Plan, s: State, jobs: seq<Path>)
    requires JobsSoFar(plan, s, jobs) && Complete(plan, s)
    ensures Elements(jobs) == plan.units
  {
    forall p | p in plan.units ensures p in Elements(jobs) {
      assert At(s, p, Done);
    }
  }

  lemma JobInvInit(plan: Plan, s: State)
    requires ValidPlan(plan) && Init(plan, s)
    ensures JobInv(plan, s, [])
  {
    InitHolds(plan, s);
  }

  /**
   In every run, units are processed once each, after everything they depend on; in a complete run, all of them are.
   */
  lemma JobsInOrder(plan: Plan, s0: State, actions: seq<Action>)
    requires ValidPlan(plan) && Init(plan, s0) && IsRun(plan, s0, actions)
    ensures OrderedJobs(plan, JobsFrom([], actions))
    ensures Complete(plan, After(plan, s0, actions)) ==> Elements(JobsFrom([], actions)) == plan.units
  {
    JobInvInit(plan, s0);
    JobsAfter(plan, s0, actions, []);
    if Complete(plan, After(plan, s0, actions)) {
      CompleteJobs(plan, After(plan, s0, actions), JobsFrom([], actions));
    }
  }

  // ----------------------------------------------------------- setting the plan up

  predicate IsExternalTestOfRoot(pkgs: G.Packages, p: Path)
    requires p in pkgs
  {
    var base := pkgs[p].forTest;
    base != "" && base in pkgs && pkgs[base].root && pkgs[base].dir == pkgs[p].dir
  }

  predicate SchedulableRoot(pkgs: G.Packages, p: Path) {
    p in pkgs && (pkgs[p].root || IsExternalTestOfRoot(pkgs, p))
  }

  function Units(pkgs: G.Packages): set<Path> {
    set p | p in pkgs && SchedulableRoot(pkgs, p)
  }

  /** The workspace packages `p` imports that are really before it. */
  ghost function SchedulableDeps(snap: G.Snapshot, p: Path): set<Path>
    requires p in snap.pkgs
  {
    set d | d in snap.pkgs && G.DependsOn(snap.pkgs, p, d) && Counted(snap, p, d)
  }

  /** Exactly the workspace packages that `p` imports, in production or in its tests, and that come before it. */
  lemma SchedulableDepsAre(snap: G.Snapshot, p: Path, d: Path)
    requires p in snap.pkgs
    ensures d in SchedulableDeps(snap, p) <==>
              && (d in snap.pkgs[p].imports || d in snap.pkgs[p].testImports)
              && d in snap.pkgs && snap.pkgs[d].root
              && d in snap.pos && p in snap.pos && snap.pos[d] < snap.pos[p]
  {
  }

  predicate Counted(snap: G.Snapshot, p: Path, d: Path) {
    d in snap.pkgs && snap.pkgs[d].root && G.Before(snap, d, p)
  }

  method SchedulableDepsOf(snap: G.Snapshot, p: Path) returns (out: seq<Path>)
    requires p in snap.pkgs && Distinct(G.ImportsOf(snap.pkgs, p))
    ensures Distinct(out) && Elements(out) == SchedulableDeps(snap, p)
  {
    out := [];
    var imports := G.ImportsOf(snap.pkgs, p);
    for i := 0 to |imports|
      invariant Distinct(out) && forall d :: d in out <==> d in imports[..i] && Counted(snap, p, d)
    {
      assert imports[..i + 1] == imports[..i] + [imports[i]];
      if Counted(snap, p, imports[i]) {
        DistinctPush(out, imports[i]);
        out := out + [imports[i]];
      }
    }
    G.ImportsAreDependencies(snap.pkgs, p);
    assert imports[..|imports|] == imports;
  }

  /** The units outside `todo` appear among the dependents of each of their dependencies, once. */
  ghost predicate ReverseLists(snap: G.Snapshot, todo: set<Path>, dependents: map<Path, seq<Path>>) {
    && (forall d, q ::
          q in ListAt(dependents, d) <==> q in Units(snap.pkgs) && q !in todo && d in SchedulableDeps(snap, q))
    && (forall d :: Distinct(ListAt(dependents, d)))
  }

  method AddDependent(deps: seq<Path>, path: Path, dependents0: map<Path, seq<Path>>)
    returns (dependents: map<Path, seq<Path>>)
    requires Distinct(deps)
    ensures forall d :: ListAt(dependents, d) == ListAt(dependents0, d) + if d in deps then [path] else []
  {
    dependents := dependents0;
    for i := 0 to |deps|
      invariant forall d :: ListAt(dependents, d) == ListAt(dependents0, d) + if d in deps[..i] then [path] else []
    {
      AppendedTo(deps, i, path, dependents0, dependents);
      dependents := AppendTo(dependents, deps[i], path);
    }
    assert deps[..|deps|] == deps;
  }

  lemma AppendedTo(deps: seq<Path>, i: nat, path: Path, before: map<Path, seq<Path>>, lists: map<Path, seq<Path>>)
    requires Distinct(deps) && i < |deps|
    requires forall d :: ListAt(lists, d) == ListAt(before, d) + if d in deps[..i] then [path] else []
    ensures forall d ::
              ListAt(AppendTo(lists, deps[i], path), d) == ListAt(before, d) + if d in deps[..i + 1] then [path] else []
  {
    assert deps[..i + 1] == deps[..i] + [deps[i]];
    assert deps[i] !in deps[..i];
    forall d
      ensures ListAt(AppendTo(lists, deps[i], path), d) == ListAt(before, d) + if d in deps[..i + 1] then [path] else []
    {
      assert ListAt(lists, d) == ListAt(before, d) + if d in deps[..i] then [path] else [];
    }
  }

  lemma ListsGrow(snap: G.Snapshot, todo: set<Path>, path: Path, deps: seq<Path>,
                  before: map<Path, seq<Path>>, after: map<Path, seq<Path>>)
    requires path in todo && path in Units(snap.pkgs) && Elements(deps) == SchedulableDeps(snap, path)
    requires ReverseLists(snap, todo, before)
    requires forall d :: ListAt(after, d) == ListAt(before, d) + if d in deps then [path] else []
    ensures ReverseLists(snap, todo - {path}, after)
  {
    forall d, q
      ensures q in ListAt(after, d) <==> q in Units(snap.pkgs) && q !in todo - {path} && d in SchedulableDeps(snap, q)
    {
      assert q in ListAt(before, d) <==> q in Units(snap.pkgs) && q !in todo && d in SchedulableDeps(snap, q);
      assert d in deps <==> d in Elements(deps);
    }
    forall d ensures Distinct(ListAt(after, d)) {
      if d in deps {
        DistinctPush(ListAt(before, d), path);
      }
    }
  }

  method ComputeDependents(snap: G.Snapshot) returns (dependents: map<Path, seq<Path>>)
    requires G.UniqueImports(snap.pkgs)
    ensures ReverseLists(snap, {}, dependents)
  {
    dependents := map[];
    var todo := Units(snap.pkgs);
    while todo != {}
      invariant todo <= Units(snap.pkgs) && ReverseLists(snap, todo, dependents)
      decreases todo
    {
      var path :| path in todo;
      var deps := SchedulableDepsOf(snap, path);
      var more := AddDependent(deps, path, dependents);
      ListsGrow(snap, todo, path, deps, dependents, more);
      dependents, todo := more, todo - {path};
    }
  }

  method CountDeps(snap: G.Snapshot) returns (deps: map<Path, set<Path>>, pending: map<Path, int>)
    requires G.UniqueImports(snap.pkgs)
    ensures deps.Keys == pending.Keys == Units(snap.pkgs)
    ensures forall q | q in deps :: deps[q] == SchedulableDeps(snap, q) && pending[q] == |deps[q]|
  {
    deps, pending := map[], map[];
    var todo := Units(snap.pkgs);
    while todo != {}
      invariant todo <= Units(snap.pkgs) && deps.Keys == pending.Keys == Units(snap.pkgs) - todo
      invariant forall q | q in deps :: deps[q] == SchedulableDeps(snap, q) && pending[q] == |deps[q]|
      decreases todo
    {
      var path :| path in todo;
      var list := SchedulableDepsOf(snap, path);
      DistinctCard(list);
      deps, pending := deps[path := set d | d in list], pending[path := |list|];
      assert deps[path] == Elements(list);
      todo := todo - {path};
    }
  }

  method SendReady(pending: map<Path, int>) returns (ready: seq<Path>)
    ensures Distinct(ready) && forall q :: q in ready <==> q in pending && pending[q] == 0
  {
    ready := [];
    var todo := pending.Keys;
    while todo != {}
      invariant todo <= pending.Keys && Distinct(ready)
      invariant forall q :: q in ready <==> q in pending && q !in todo && pending[q] == 0
      decreases todo
    {
      var path :| path in todo;
      if pending[path] == 0 {
        DistinctPush(ready, path);
        ready := ready + [path];
      }
      todo := todo - {path};
    }
  }

  /** The plan of a snapshot. */
  ghost predicate PlanOf(snap: G.Snapshot, plan: Plan) {
    && plan.units == Units(snap.pkgs) && plan.pos == snap.pos
    && plan.deps.Keys == plan.units && forall q | q in plan.units :: plan.deps[q] == SchedulableDeps(snap, q)
  }

  /** However Go iterates its maps, the scheduler starts from a valid plan in an initial state. */
  method NewScheduler(snap: G.Snapshot) returns (plan: Plan, s: State)
    requires G.Valid(snap) && G.UniqueImports(snap.pkgs)
    ensures PlanOf(snap, plan) && ValidPlan(plan) && Init(plan, s)
  {
    var dependents := ComputeDependents(snap);
    var deps, pending := CountDeps(snap);
    var units := Units(snap.pkgs);
    plan := Plan(units, deps, map d | d in units :: ListAt(dependents, d), snap.pos);
    PlanIsValid(snap, plan, dependents);
    var ready := SendReady(pending);
    s := State(pending, |units|, [], ready, map[], units == {});
  }

  lemma DepIsUnit(snap: G.Snapshot, q: Path, d: Path)
    requires q in snap.pkgs && d in SchedulableDeps(snap, q)
    ensures d in Units(snap.pkgs) && G.Before(snap, d, q)
  {
  }

  lemma DepsComeFirst(snap: G.Snapshot, plan: Plan)
    requires snap.pos.Keys == snap.pkgs.Keys && PlanOf(snap, plan)
    ensures forall q, d {:trigger d in plan.deps[q]} | q in plan.units && d in plan.deps[q] ::
              d in plan.units && plan.pos[d] < plan.pos[q]
  {
    forall q, d | q in plan.units && d in plan.deps[q] ensures d in plan.units && plan.pos[d] < plan.pos[q] {
      DepIsUnit(snap, q, d);
    }
  }

  lemma PlanIsValid(snap: G.Snapshot, plan: Plan, dependents: map<Path, seq<Path>>)
    requires snap.pos.Keys == snap.pkgs.Keys && ReverseLists(snap, {}, dependents) && PlanOf(snap, plan)
    requires plan.dependents.Keys == plan.units
    requires forall d | d in plan.units :: plan.dependents[d] == ListAt(dependents, d)
    ensures ValidPlan(plan)
  {
    DepsComeFirst(snap, plan);
    forall d, q | d in plan.units ensures q in plan.dependents[d] <==> q in plan.units && d in plan.deps[q] {
      assert q in ListAt(dependents, d) <==> q in plan.units && d in SchedulableDeps(snap, q);
    }
    forall d | d in plan.units ensures Distinct(plan.dependents[d]) {
      assert Distinct(ListAt(dependents, d));
    }
  }
}

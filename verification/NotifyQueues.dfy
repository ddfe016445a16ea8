/**
 The per-document notification queues of internal/rpc, as a state machine over their atomic steps:
 the read loop dispatches messages in wire order, each queue drains itself on a goroutine of its own,
 and a request's handler waits for a barrier the read loop put in its document's queue.
 */
module NotifyQueues {
  import opened Paths

  /** A dispatched message: the document it belongs to, and whether it is a request or a notification. */
  datatype Message = Message(key: string, request: bool)

  /**
   A notifQueue and its goroutines. Tasks are named by their place on the wire. `spawning` counts drainers
   that push has decided on and not started yet, `looping` those at the top of their loop, and `busy` holds
   the tasks drainers are executing.
   */
  datatype Queue = Queue(pending: seq<nat>, running: bool, spawning: nat, looping: nat, busy: seq<nat>, done: seq<nat>)

  const EMPTY_QUEUE := Queue([], false, 0, 0, [], [])

  /** `next` messages have been dispatched; `handling` holds the requests whose handlers have started. */
  datatype Server = Server(wire: seq<Message>, next: nat, queues: map<string, Queue>, handling: set<nat>)

  datatype Action =
    | Dispatch             // the read loop: push a notification, or join for a request
    | Spawn(key: string)   // go q.drain()
    | Drain(key: string)   // one pass of the drain loop, up to calling the function
    | Return(key: string, i: nat)  // the function that drainer `i` is executing returns
    | Handle(n: nat)       // runRequest gets past its barrier and calls the handler

  function QueueFor(s: Server, key: string): Queue {
    if key in s.queues then s.queues[key] else EMPTY_QUEUE
  }

  // -------------------------------------------------------------------- the steps

  function Push(q: Queue, task: nat): Queue {
    var q' := q.(pending := q.pending + [task]);
    if q.running then q' else q'.(running := true, spawning := q.spawning + 1)
  }

  function StartDrainer(q: Queue): Queue
    requires q.spawning > 0
  {
    q.(spawning := q.spawning - 1, looping := q.looping + 1)
  }

  function DrainOnce(q: Queue): Queue
    requires q.looping > 0
  {
    if q.pending == [] then q.(running := false, looping := q.looping - 1)
    else q.(pending := q.pending[1..], looping := q.looping - 1, busy := q.busy + [q.pending[0]])
  }

  function TaskReturns(q: Queue, i: nat): Queue
    requires i < |q.busy|
  {
    q.(looping := q.looping + 1, busy := q.busy[..i] + q.busy[i + 1..], done := q.done + [q.busy[i]])
  }

  /** The function pushed for message `n` has been called. */
  predicate Started(q: Queue, n: nat) {
    n in q.done || n in q.busy
  }

  predicate EnabledQueue(q: Queue, a: Action) {
    match a
    case Spawn(_) => q.spawning > 0
    case Drain(_) => q.looping > 0
    case Return(_, i) => i < |q.busy|
    case _ => false
  }

  function StepQueue(q: Queue, a: Action): Queue
    requires EnabledQueue(q, a)
  {
    match a
    case Spawn(_) => StartDrainer(q)
    case Drain(_) => DrainOnce(q)
    case Return(_, i) => TaskReturns(q, i)
  }

  predicate Enabled(s: Server, a: Action) {
    match a
    case Dispatch => s.next < |s.wire|
    case Handle(n) =>
      // Dispatched, not started yet, and its own barrier has been called, so that it may have closed its channel.
      n < s.next <= |s.wire| && s.wire[n].request && n !in s.handling && Started(QueueFor(s, s.wire[n].key), n)
    case _ => EnabledQueue(QueueFor(s, a.key), a)
  }

  function Step(s: Server, a: Action): Server
    requires Enabled(s, a)
  {
    match a
    case Dispatch =>
      var key := s.wire[s.next].key;
      s.(next := s.next + 1, queues := s.queues[key := Push(QueueFor(s, key), s.next)])
    case Handle(n) => s.(handling := s.handling + {n})
    case _ => s.(queues := s.queues[a.key := StepQueue(QueueFor(s, a.key), a)])
  }

  // ---------------------------------------------------------------- the invariant

  /** The dispatched messages of one document, in wire order. */
  ghost function Sent(wire: seq<Message>, n: nat, key: string): seq<nat>
    requires n <= |wire|
  {
    if n == 0 then [] else Sent(wire, n - 1, key) + (if wire[n - 1].key == key then [n - 1] else [])
  }

  /**
   There is one drainer exactly when the queue is running, and a queue with something pending is running.
   What has returned, what is executing and what is pending are together the messages sent, in order.
   */
  ghost predicate QueueInv(q: Queue, sent: seq<nat>) {
    && q.spawning + q.looping + |q.busy| == (if q.running then 1 else 0)
    && (q.pending != [] ==> q.running) && (q.running ==> sent != [])
    && q.done + q.busy + q.pending == sent
  }

  ghost predicate Inv(s: Server) {
    && s.next <= |s.wire|
    && (forall key :: QueueInv(QueueFor(s, key), Sent(s.wire, s.next, key)))
    && (forall n | n in s.handling :: n < s.next && Started(QueueFor(s, s.wire[n].key), n))
  }

  ghost predicate Init(s: Server) {
    s.next == 0 && s.queues == map[] && s.handling == {}
  }

  lemma SentNext(wire: seq<Message>, n: nat, key: string)
    requires n < |wire|
    ensures Sent(wire, n + 1, key) == if wire[n].key == key then Sent(wire, n, key) + [n] else Sent(wire, n, key)
  {
  }

  lemma PushKeeps(q: Queue, sent: seq<nat>, task: nat)
    requires QueueInv(q, sent)
    ensures QueueInv(Push(q, task), sent + [task])
  {
    assert q.done + q.busy + (q.pending + [task]) == q.done + q.busy + q.pending + [task];
  }

  lemma StepQueueKeeps(q: Queue, sent: seq<nat>, a: Action)
    requires QueueInv(q, sent) && EnabledQueue(q, a)
    ensures QueueInv(StepQueue(q, a), sent) && forall n | Started(q, n) :: Started(StepQueue(q, a), n)
  {
    match a {
      case Drain(_) =>
        if q.pending != [] {
          assert q.pending == [q.pending[0]] + q.pending[1..];
          assert q.done + (q.busy + [q.pending[0]]) + q.pending[1..] == q.done + q.busy + q.pending;
        }
      case Return(_, i) =>
        assert q.busy == [q.busy[i]];
        assert q.done + [q.busy[i]] + [] + q.pending == q.done + q.busy + q.pending;
      case _ =>
    }
  }

  /** The queue of any document after a step. */
  lemma QueueAfter(s: Server, a: Action, key: string)
    requires Enabled(s, a)
    ensures
      var q, q' := QueueFor(s, key), QueueFor(Step(s, a), key);
      if a.Dispatch? then q' == if key == s.wire[s.next].key then Push(q, s.next) else q
      else if a.Handle? || key != a.key then q' == q
      else EnabledQueue(q, a) && q' == StepQueue(q, a)
  {
  }

  lemma DispatchKeeps(s: Server, key: string)
    requires s.next < |s.wire| && QueueInv(QueueFor(s, key), Sent(s.wire, s.next, key))
    ensures
      var q := if key == s.wire[s.next].key then Push(QueueFor(s, key), s.next) else QueueFor(s, key);
      QueueInv(q, Sent(s.wire, s.next + 1, key))
  {
    SentNext(s.wire, s.next, key);
    PushKeeps(QueueFor(s, key), Sent(s.wire, s.next, key), s.next);
  }

  lemma WireAfter(s: Server, a: Action)
    requires Enabled(s, a)
    ensures Step(s, a).wire == s.wire && Step(s, a).next == if a.Dispatch? then s.next + 1 else s.next
  {
  }

  lemma QueueStepKeeps(s: Server, a: Action, key: string)
    requires s.next <= |s.wire| && QueueInv(QueueFor(s, key), Sent(s.wire, s.next, key)) && Enabled(s, a)
    ensures
      var s' := Step(s, a);
      && QueueInv(QueueFor(s', key), Sent(s'.wire, s'.next, key))
      && forall n | Started(QueueFor(s, key), n) :: Started(QueueFor(s', key), n)
  {
    QueueAfter(s, a, key);
    WireAfter(s, a);
    if a.Dispatch? {
      DispatchKeeps(s, key);
    } else if !a.Handle? && key == a.key {
      StepQueueKeeps(QueueFor(s, key), Sent(s.wire, s.next, key), a);
    }
  }

  lemma StepKeeps(s: Server, a: Action)
    requires Inv(s) && Enabled(s, a)
    ensures Inv(Step(s, a))
  {
    var s' := Step(s, a);
    forall key ensures QueueInv(QueueFor(s', key), Sent(s'.wire, s'.next, key)) {
      QueueStepKeeps(s, a, key);
    }
    forall n | n in s'.handling ensures n < s'.next && Started(QueueFor(s', s'.wire[n].key), n) {
      QueueStepKeeps(s, a, s.wire[n].key);
    }
  }

  // ------------------------------------------------------------------------- runs

  ghost predicate IsRun(s: Server, actions: seq<Action>)
    decreases |actions|
  {
    actions != [] ==> Enabled(s, actions[0]) && IsRun(Step(s, actions[0]), actions[1..])
  }

  ghost function After(s: Server, actions: seq<Action>): Server
    requires IsRun(s, actions)
    decreases |actions|
  {
    if actions == [] then s else After(Step(s, actions[0]), actions[1..])
  }

  lemma {:induction false} RunKeeps(s: Server, actions: seq<Action>)
    requires Inv(s) && IsRun(s, actions)
    ensures Inv(After(s, actions)) && After(s, actions).wire == s.wire
    decreases |actions|
  {
    if actions != [] {
      StepKeeps(s, actions[0]);
      RunKeeps(Step(s, actions[0]), actions[1..]);
    }
  }

  /**
   In every interleaving a queue has at most one drainer, work pending means it is running, and functions run once
   each, in push order, one at a time.
   */
  lemma RunsInOrder(s: Server, actions: seq<Action>, key: string)
    requires Init(s) && IsRun(s, actions)
    ensures
      var s' := After(s, actions);
      var q := QueueFor(s', key);
      && q.spawning + q.looping + |q.busy| <= 1
      && (q.pending != [] ==> q.spawning + q.looping + |q.busy| == 1)
      && s'.next <= |s'.wire| && q.done + q.busy + q.pending == Sent(s'.wire, s'.next, key)
  {
    RunKeeps(s, actions);
  }

  lemma {:induction false} SentOrder(wire: seq<Message>, n: nat, key: string)
    requires n <= |wire|
    ensures forall m: nat :: m in Sent(wire, n, key) <==> m < n && wire[m].key == key
    ensures forall i, j | 0 <= i < j < |Sent(wire, n, key)| :: Sent(wire, n, key)[i] < Sent(wire, n, key)[j]
  {
    if n > 0 {
      SentOrder(wire, n - 1, key);
      var before := Sent(wire, n - 1, key);
      assert forall i | 0 <= i < |before| :: before[i] in before;
    }
  }

  /** A request's handler starts only after every earlier notification of the same document has returned. */
  lemma BarrierHolds(s: Server, actions: seq<Action>, n: nat, m: nat)
    requires Init(s) && IsRun(s, actions)
    requires n in After(s, actions).handling && m < n
    ensures
      var s' := After(s, actions);
      && n < |s'.wire|
      && (s'.wire[m].key == s'.wire[n].key ==> m in QueueFor(s', s'.wire[n].key).done)
  {
    RunKeeps(s, actions);
    var s' := After(s, actions);
    var key := s'.wire[n].key;
    var q, sent := QueueFor(s', key), Sent(s'.wire, s'.next, key);
    if s'.wire[m].key == key {
      SentOrder(s'.wire, s'.next, key);
      var started := q.done + q.busy;
      assert n in started;
      var i :| 0 <= i < |started| && started[i] == n;
      var j :| 0 <= j < |sent| && sent[j] == m;
      assert sent[i] == started[i];
      assert j < i <= |q.done|;
      assert q.done[j] == m;
    }
  }

  // ---------------------------------------------------------------------- liveness

  /** The steps a queue can still take on its own, at most. */
  ghost function Cost(q: Queue): nat {
    2 * |q.pending| + 2 * |q.busy| + 2 * q.spawning + q.looping
  }

  ghost function Keys(wire: seq<Message>): set<string> {
    set n | 0 <= n < |wire| :: wire[n].key
  }

  ghost function Load(s: Server): nat {
    Sum(Keys(s.wire), (key: string) => Cost(QueueFor(s, key)))
  }

  ghost function Unhandled(s: Server): set<nat> {
    set n: nat | n < |s.wire| && n !in s.handling
  }

  /** The steps the server can still take, at most. */
  ghost function Left(s: Server): nat
    requires s.next <= |s.wire|
  {
    5 * (|s.wire| - s.next) + |Unhandled(s)| + Load(s)
  }

  /** A step of one queue changes the load by what it changes for that queue. */
  lemma LoadAfter(s: Server, s': Server, key: string)
    requires s'.wire == s.wire && key in Keys(s.wire)
    requires forall k | k != key :: QueueFor(s', k) == QueueFor(s, k)
    ensures Load(s') + Cost(QueueFor(s, key)) == Load(s) + Cost(QueueFor(s', key))
  {
    SumChange(Keys(s.wire), (k: string) => Cost(QueueFor(s, k)), (k: string) => Cost(QueueFor(s', k)), key);
  }

  lemma SameLoad(s: Server, s': Server)
    requires s'.wire == s.wire && s'.queues == s.queues
    ensures Load(s') == Load(s)
  {
    SumAtMost(Keys(s.wire), (k: string) => Cost(QueueFor(s, k)), (k: string) => Cost(QueueFor(s', k)));
    SumAtMost(Keys(s.wire), (k: string) => Cost(QueueFor(s', k)), (k: string) => Cost(QueueFor(s, k)));
  }

  /** A queue that can step has been given a message. */
  lemma QueueHasKey(s: Server, key: string)
    requires s.next <= |s.wire| && QueueInv(QueueFor(s, key), Sent(s.wire, s.next, key)) && QueueFor(s, key).running
    ensures key in Keys(s.wire)
  {
    SentOrder(s.wire, s.next, key);
    var m := Sent(s.wire, s.next, key)[0];
    assert m in Sent(s.wire, s.next, key);
    assert s.wire[m].key == key;
  }

  /** Every step brings the end closer. */
  lemma StepProgresses(s: Server, a: Action)
    requires Inv(s) && Enabled(s, a)
    ensures Step(s, a).next <= |Step(s, a).wire| && Left(Step(s, a)) < Left(s)
  {
    var s' := Step(s, a);
    match a {
      case Dispatch =>
        var key := s.wire[s.next].key;
        assert Unhandled(s') == Unhandled(s);
        LoadAfter(s, s', key);
      case Handle(n) =>
        assert Unhandled(s') == Unhandled(s) - {n};
        SameLoad(s, s');
      case _ =>
        assert QueueFor(s, a.key).running;
        QueueHasKey(s, a.key);
        assert Unhandled(s') == Unhandled(s);
        LoadAfter(s, s', a.key);
    }
  }

  /** No run of the server is longer than a bound fixed by where it starts. */
  lemma {:induction false} RunsEnd(s: Server, actions: seq<Action>)
    requires Inv(s) && IsRun(s, actions)
    ensures |actions| <= Left(s)
    decreases |actions|
  {
    if actions != [] {
      StepKeeps(s, actions[0]);
      StepProgresses(s, actions[0]);
      RunsEnd(Step(s, actions[0]), actions[1..]);
    }
  }

  /**
   Every message is dispatched, every function has returned, once and in wire order, and every request has started.
   */
  ghost predicate Finished(s: Server) {
    && s.next == |s.wire|
    && (forall key :: QueueFor(s, key).done == Sent(s.wire, |s.wire|, key))
    && (forall n | 0 <= n < |s.wire| && s.wire[n].request :: n in s.handling)
    && (forall key :: !QueueFor(s, key).running)
  }

  /** A running queue has a step. */
  lemma NextOfQueue(s: Server, key: string) returns (a: Action)
    requires s.next <= |s.wire| && QueueInv(QueueFor(s, key), Sent(s.wire, s.next, key)) && QueueFor(s, key).running
    ensures Enabled(s, a)
  {
    var q := QueueFor(s, key);
    a := if q.spawning > 0 then Spawn(key) else if q.looping > 0 then Drain(key) else Return(key, 0);
  }

  /** Until everything is finished, some step can be taken. */
  lemma NeverStuck(s: Server) returns (a: Action)
    requires Inv(s) && !Finished(s)
    ensures Enabled(s, a)
  {
    if s.next < |s.wire| {
      a := Dispatch;
    } else if key :| QueueFor(s, key).running {
      a := NextOfQueue(s, key);
    } else {
      forall key ensures QueueFor(s, key).done == Sent(s.wire, |s.wire|, key) {
        assert QueueInv(QueueFor(s, key), Sent(s.wire, s.next, key));
      }
      var n :| 0 <= n < |s.wire| && s.wire[n].request && n !in s.handling;
      SentOrder(s.wire, |s.wire|, s.wire[n].key);
      assert n in Sent(s.wire, |s.wire|, s.wire[n].key);
      a := Handle(n);
    }
  }

  /**
   So every state that can be reached leads to one in which all functions have returned and all requests have
   started.
   */
  lemma {:induction false} CanFinish(s: Server) returns (actions: seq<Action>)
    requires Inv(s)
    ensures IsRun(s, actions) && Finished(After(s, actions))
    decreases Left(s)
  {
    if Finished(s) {
      actions := [];
    } else {
      var a := NeverStuck(s);
      StepKeeps(s, a);
      StepProgresses(s, a);
      var rest := CanFinish(Step(s, a));
      actions := [a] + rest;
      assert actions[1..] == rest;
    }
  }
}

/** The pool never deadlocks, always drains, and always shuts down. */
module WorkerPoolProgress {
  import opened Totals
  import opened WorkerPool
  import opened WorkerPoolWakeups
  import opened WorkerPoolConservation

  /** The steps that threads take on their own once they hold work. */
  predicate Internal(a: Action) {
    a.Push? || WorkerAction(a)
  }

  predicate WorkerAction(a: Action) {
    a.Test? || a.Pop? || a.Null? || a.Count? || a.Destroy?
  }

  /** What the shutdown flags say about where threads can be. */
  predicate Orderly(s: Pool) {
    && (s.closed ==> s.flag)
    && (s.torn ==> s.flag)
    && (forall w | 0 <= w < |s.workers| ::
          && (s.workers[w].Exited? ==> s.flag)
          && (s.workers[w].GotNull? ==> s.closed)
          && (s.closed ==> s.workers[w] != Popping(Asleep)))
    && (forall p | 0 <= p < |s.producers| && s.closed && s.producers[p].Pushing? :: s.producers[p].wait != Asleep)
  }

  lemma {:induction false} OrderlyRun(s: Pool, acts: seq<Action>, t: Pool)
    requires Orderly(s) && Run(s, acts, t)
    ensures Orderly(t)
    ensures |t.workers| == |s.workers| && t.maxSize == s.maxSize
    decreases |acts|
  {
    if acts != [] {
      OrderlyRun(Do(s, acts[0]), acts[1..], t);
    }
  }

  lemma ReachableIsOrderly(s: Pool)
    requires Reachable(s)
    ensures Orderly(s) && NoLostWakeup(s) && Conserved(s)
  {
    var s0: Pool, acts: seq<Action> :| Init(s0) && Run(s0, acts, s);
    OrderlyRun(s0, acts, s);
    NoWakeupIsLost(s);
    ConservedInit(s0);
    ConservedRun(s0, acts, s);
  }

  // ---- Draining -------------------------------------------------------------

  function WorkerLoad(x: WorkerPoint): int {
    match x
    case Testing => 2
    case Popping(Asleep) => 0
    case Popping(_) => 1
    case GotNull => 0
    case Busy(_) => 4
    case Counted(_) => 3
    case Exited => 0
  }

  function ProducerLoad(x: ProducerPoint): int {
    if x.Idle? then 0 else if x.wait == Asleep then 6 else 7
  }

  /** The work that is left: a sleeping producer costs its wake-up, a queued task its whole processing. */
  function Load(s: Pool): int {
    Total(WorkerLoad, s.workers) + Total(ProducerLoad, s.producers) + 5 * |s.items|
  }

  lemma LoadNonNegative(s: Pool)
    ensures Load(s) >= 0
  {
    TotalNonNegative(WorkerLoad, s.workers);
    TotalNonNegative(ProducerLoad, s.producers);
  }

  lemma SignalLoads(s: Pool, pick: nat)
    ensures Total(WorkerLoad, SignalWorker(s.workers, pick)) <= Total(WorkerLoad, s.workers) + 1
    ensures Total(ProducerLoad, SignalProducer(s.producers, pick)) <= Total(ProducerLoad, s.producers) + 1
  {
    if WorkerAsleep(s.workers, pick) {
      TotalUpdate(WorkerLoad, s.workers, pick, Popping(Woken));
    }
    if ProducerAsleep(s.producers, pick) {
      TotalUpdate(ProducerLoad, s.producers, pick, s.producers[pick].(wait := Woken));
    }
  }

  /** Every internal step of a running pool makes the remaining work smaller. */
  lemma InternalStepWorks(s: Pool, a: Action)
    requires Orderly(s) && !s.flag && Can(s, a) && Internal(a)
    ensures Load(Do(s, a)) < Load(s)
    ensures !Do(s, a).flag
  {
    if a.Push? {
      SignalLoads(s, a.pick);
      TotalUpdate(ProducerLoad, s.producers, a.p, Do(s, a).producers[a.p]);
    } else {
      TotalUpdate(WorkerLoad, s.workers, a.w, Do(s, a).workers[a.w]);
      if a.Pop? {
        SignalLoads(s, a.pick);
      }
    }
  }

  /**
    Without new submissions, spurious wake-ups and shutdown, no interleaving of
    the threads can go on for more than `Load(s)` steps.
   */
  lemma {:induction false} RunningPoolSettles(s: Pool, acts: seq<Action>, t: Pool)
    requires Orderly(s) && !s.flag && Run(s, acts, t)
    requires forall k | 0 <= k < |acts| :: Internal(acts[k])
    ensures |acts| <= |acts| + Load(t) <= Load(s)
    ensures !t.flag
    decreases |acts|
  {
    LoadNonNegative(t);
    if acts != [] {
      InternalStepWorks(s, acts[0]);
      OrderlyRun(s, [acts[0]], Do(s, acts[0]));
      RunningPoolSettles(Do(s, acts[0]), acts[1..], t);
    }
  }

  /** A worker that is neither asleep nor gone has a step to take. */
  lemma WorkerCanMove(s: Pool, w: nat) returns (a: Action)
    requires !s.torn && w < |s.workers|
    requires s.workers[w] != Popping(Asleep) && s.workers[w] != Exited
    ensures WorkerAction(a) && a.w == w && Can(s, a)
  {
    match s.workers[w]
    case Testing => a := Test(w);
    case Popping(_) =>
      a := Pop(w, 0);
      if p: nat :| ProducerAsleep(s.producers, p) {
        a := Pop(w, p);
      }
    case GotNull => a := Null(w);
    case Busy(_) => a := Count(w);
    case Counted(_) => a := Destroy(w);
  }

  lemma ProducerCanMove(s: Pool, p: nat) returns (a: Action)
    requires !s.torn && p < |s.producers|
    requires s.producers[p].Pushing? && s.producers[p].wait != Asleep
    ensures a.Push? && a.p == p && Can(s, a)
  {
    a := Push(p, 0);
    if w: nat :| WorkerAsleep(s.workers, w) {
      a := Push(p, w);
    }
  }

  /** While the queue is full, some worker has a step to take: a blocked I/O thread waits for nothing else. */
  lemma FullQueueHasAWorkerToMove(s: Pool) returns (a: Action)
    requires Reachable(s) && !s.flag
    requires |s.workers| >= 1 && s.maxSize >= 1 && |s.items| >= s.maxSize
    ensures WorkerAction(a) && Can(s, a)
  {
    ReachableIsOrderly(s);
    TotalNonNegative(SleepingWorker, s.workers);
    if Sleepers(s) > 0 {
      var w := TotalPositive(WokenWorker, s.workers);
      a := WorkerCanMove(s, w);
    } else {
      if s.workers[0] == Popping(Asleep) {
        TotalAtLeast(SleepingWorker, s.workers, 0);
      }
      a := WorkerCanMove(s, 0);
    }
  }

  /**
    A running pool in which no thread can take an internal step has finished:
    nothing is queued, no I/O thread is blocked, every worker sleeps, and every
    accepted task was completed and destroyed exactly once.
   */
  lemma SettledPoolIsDone(s: Pool)
    requires Reachable(s) && !s.flag
    requires |s.workers| >= 1 && s.maxSize >= 1
    requires forall a: Action | Internal(a) :: !Can(s, a)
    ensures s.items == []
    ensures forall p | 0 <= p < |s.producers| :: s.producers[p].Idle?
    ensures forall w | 0 <= w < |s.workers| :: s.workers[w] == Popping(Asleep)
    ensures s.completed == |s.accepted|
    ensures forall t: TaskId :: multiset(s.destroyed)[t] == multiset(s.accepted)[t]
  {
    ReachableIsOrderly(s);
    forall w | 0 <= w < |s.workers| ensures s.workers[w] == Popping(Asleep) {
      if s.workers[w] != Popping(Asleep) {
        var a := WorkerCanMove(s, w);
        assert false;
      }
    }
    TotalZero(WokenWorker, s.workers);
    TotalZero(BusyWorker, s.workers);
    TotalNonNegative(SleepingWorker, s.workers);
    TotalAtLeast(SleepingWorker, s.workers, 0);
    assert s.items == [];
    forall p | 0 <= p < |s.producers| ensures s.producers[p].Idle? {
      NoProducerIsLeft(s, p);
    }
    forall t: TaskId ensures multiset(s.destroyed)[t] == multiset(s.accepted)[t] {
      assert OneFate(s, t);
      TotalZero(Holding(t), s.workers);
    }
  }

  /** With places free in the queue and no thread able to move, no producer can still be pushing. */
  lemma NoProducerIsLeft(s: Pool, p: nat)
    requires NoLostWakeup(s) && Orderly(s) && !s.flag && s.items == [] && s.maxSize >= 1
    requires p < |s.producers|
    requires forall a: Action | Internal(a) :: !Can(s, a)
    ensures s.producers[p].Idle?
  {
    if s.producers[p].Pushing? {
      TotalNonNegative(SleepingProducer, s.producers);
      TotalAtLeast(SleepingProducer, s.producers, p);
      var q := p;
      if s.producers[p].wait == Asleep {
        q := TotalPositive(WokenProducer, s.producers);
      }
      var a := ProducerCanMove(s, q);
      assert false;
    }
  }

  // ---- Shutdown -------------------------------------------------------------

  /** Steps a worker can still take once both shutdown flags are set. */
  function StepsLeft(x: WorkerPoint): int {
    match x
    case Popping(_) => 4
    case Busy(_) => 3
    case Counted(_) => 2
    case Testing => 1
    case GotNull => 1
    case Exited => 0
  }

  function WorkerSteps(acts: seq<Action>): nat {
    if acts == [] then 0 else (if WorkerAction(acts[0]) then 1 else 0) + WorkerSteps(acts[1..])
  }

  lemma ShutdownStep(s: Pool, a: Action)
    requires Orderly(s) && s.closed && Can(s, a)
    ensures Do(s, a).closed
    ensures Total(StepsLeft, Do(s, a).workers) + (if WorkerAction(a) then 1 else 0) <= Total(StepsLeft, s.workers)
  {
    var s' := Do(s, a);
    if WorkerAction(a) {
      TotalUpdate(StepsLeft, s.workers, a.w, s'.workers[a.w]);
    } else {
      assert s'.workers == s.workers;
    }
  }

  /**
    After task_queue_shutdown no worker sleeps again, all workers together take
    at most four steps each however the threads interleave, and a worker that has
    not exited can always take its next one: every pthread_join returns.
   */
  lemma {:induction false} ShutdownTerminates(s: Pool, acts: seq<Action>, t: Pool)
    requires Orderly(s) && s.closed && Run(s, acts, t)
    ensures WorkerSteps(acts) + Total(StepsLeft, t.workers) <= Total(StepsLeft, s.workers)
    ensures WorkerSteps(acts) <= 4 * |s.workers|
    ensures forall w | 0 <= w < |t.workers| :: t.workers[w] != Popping(Asleep)
    ensures forall w | 0 <= w < |t.workers| && t.workers[w] != Exited && !t.torn ::
              exists a :: WorkerAction(a) && a.w == w && Can(t, a)
    decreases |acts|
  {
    TotalBounded(StepsLeft, s.workers, 4);
    TotalNonNegative(StepsLeft, t.workers);
    if acts != [] {
      ShutdownStep(s, acts[0]);
      OrderlyRun(s, [acts[0]], Do(s, acts[0]));
      ShutdownTerminates(Do(s, acts[0]), acts[1..], t);
    } else {
      forall w | 0 <= w < |t.workers| && t.workers[w] != Exited && !t.torn
        ensures exists a :: WorkerAction(a) && a.w == w && Can(t, a)
      {
        var a := WorkerCanMove(t, w);
      }
    }
  }

  function CompletionsBy(w: nat, acts: seq<Action>): nat {
    if acts == [] then 0 else (if acts[0] == Count(w) then 1 else 0) + CompletionsBy(w, acts[1..])
  }

  /** Whether worker `w` may still complete a task once the pool flag is set. */
  function MayComplete(x: WorkerPoint): nat {
    if x.Popping? || x.Busy? then 1 else 0
  }

  /** Once thread_pool_destroy has set the pool flag, each worker completes at most one more task. */
  lemma {:induction false} AtMostOneMoreTask(s: Pool, w: nat, acts: seq<Action>, t: Pool)
    requires s.flag && w < |s.workers| && Run(s, acts, t)
    ensures CompletionsBy(w, acts) <= MayComplete(s.workers[w]) <= 1
    decreases |acts|
  {
    if acts != [] {
      var u := Do(s, acts[0]);
      assert u.flag && |u.workers| == |s.workers|;
      AtMostOneMoreTask(u, w, acts[1..], t);
    }
  }
}

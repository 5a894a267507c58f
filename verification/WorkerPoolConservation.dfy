/** The queue is first in, first out, and every task has exactly one fate. */
module WorkerPoolConservation {
  import opened Totals
  import opened WorkerPool

  /** Workers that popped a task and have not counted it yet. */
  function BusyWorker(x: WorkerPoint): int { if x.Busy? then 1 else 0 }

  /** One for a worker that has task `t` in its hands. */
  function Holding(t: TaskId): WorkerPoint -> int {
    (x: WorkerPoint) => if (x.Busy? || x.Counted?) && x.task == t then 1 else 0
  }

  /** One for a producer that offers task `t` to the queue. */
  function Offering(t: TaskId): ProducerPoint -> int {
    (x: ProducerPoint) => if x.Pushing? && x.task == t then 1 else 0
  }

  /** Tasks leave in the order in which they were accepted, within the bound. */
  predicate Fifo(s: Pool) {
    && (if s.torn then s.popped <= s.accepted else s.accepted == s.popped + s.items)
    && (s.items == [] || |s.items| <= s.maxSize)
  }

  predicate CountsAgree(s: Pool) {
    |s.popped| == s.completed + Total(BusyWorker, s.workers)
  }

  /** Task `t` is offered, refused or accepted, once; an accepted one is queued, held or destroyed, once. */
  predicate OneFate(s: Pool, t: TaskId) {
    && multiset(s.accepted)[t] + Total(Offering(t), s.producers) + multiset(s.refused)[t]
         == (if t < s.created then 1 else 0)
    && multiset(s.accepted)[t]
         == multiset(s.destroyed)[t] + Total(Holding(t), s.workers) + multiset(s.items)[t]
  }

  ghost predicate Conserved(s: Pool) {
    Fifo(s) && CountsAgree(s) && forall t: TaskId :: OneFate(s, t)
  }

  lemma WorkerReplaced(ws: seq<WorkerPoint>, w: nat, x: WorkerPoint, t: TaskId)
    requires w < |ws|
    ensures Total(BusyWorker, ws[w := x]) == Total(BusyWorker, ws) - BusyWorker(ws[w]) + BusyWorker(x)
    ensures Total(Holding(t), ws[w := x]) == Total(Holding(t), ws) - Holding(t)(ws[w]) + Holding(t)(x)
  {
    TotalUpdate(BusyWorker, ws, w, x);
    TotalUpdate(Holding(t), ws, w, x);
  }

  lemma {:induction false} WorkersAlike(ws: seq<WorkerPoint>, us: seq<WorkerPoint>, t: TaskId)
    requires |ws| == |us|
    requires forall i | 0 <= i < |ws| :: us[i] == ws[i] || us[i] == WakeWorker(ws[i])
    ensures Total(BusyWorker, us) == Total(BusyWorker, ws)
    ensures Total(Holding(t), us) == Total(Holding(t), ws)
  {
    if ws != [] {
      WorkersAlike(ws[1..], us[1..], t);
    }
  }

  lemma {:induction false} ProducersAlike(ps: seq<ProducerPoint>, us: seq<ProducerPoint>, t: TaskId)
    requires |ps| == |us|
    requires forall i | 0 <= i < |ps| :: us[i] == ps[i] || us[i] == WakeProducer(ps[i])
    ensures Total(Offering(t), us) == Total(Offering(t), ps)
  {
    if ps != [] {
      ProducersAlike(ps[1..], us[1..], t);
    }
  }

  lemma PopSplits(s: Pool, t: TaskId)
    requires s.items != []
    ensures multiset(s.items)[t] == multiset(s.items[1..])[t] + (if s.items[0] == t then 1 else 0)
  {
    assert s.items == [s.items[0]] + s.items[1..];
  }

  lemma ConservedInit(s: Pool)
    requires Init(s)
    ensures Conserved(s)
  {
    TotalZero(BusyWorker, s.workers);
    forall t: TaskId ensures OneFate(s, t) {
      TotalZero(Holding(t), s.workers);
      TotalZero(Offering(t), s.producers);
    }
  }

  lemma ConservedSubmit(s: Pool, p: nat, t: TaskId)
    requires OneFate(s, t) && Can(s, Submit(p))
    ensures OneFate(DoSubmit(s, p), t)
  {
    TotalUpdate(Offering(t), s.producers, p, Pushing(s.created, Ready));
  }

  lemma ConservedPush(s: Pool, p: nat, pick: nat, t: TaskId)
    requires Fifo(s) && CountsAgree(s) && OneFate(s, t) && Can(s, Push(p, pick))
    ensures var s' := DoPush(s, p, pick); Fifo(s') && CountsAgree(s') && OneFate(s', t)
  {
    var mine := s.producers[p].task;
    match PushVerdict(|s.items|, s.maxSize, s.closed)
    case Sleep => TotalUpdate(Offering(t), s.producers, p, Pushing(mine, Asleep));
    case Refuse => TotalUpdate(Offering(t), s.producers, p, Idle);
    case Proceed => ConservedAccept(s, p, pick, t);
  }

  lemma ConservedAccept(s: Pool, p: nat, pick: nat, t: TaskId)
    requires Fifo(s) && CountsAgree(s) && OneFate(s, t) && Can(s, Push(p, pick))
    requires PushVerdict(|s.items|, s.maxSize, s.closed) == Proceed
    ensures var s' := DoPush(s, p, pick); Fifo(s') && CountsAgree(s') && OneFate(s', t)
  {
    var mine := s.producers[p].task;
    TotalUpdate(Offering(t), s.producers, p, Idle);
    WorkersAlike(s.workers, SignalWorker(s.workers, pick), t);
    assert s.popped + s.items + [mine] == s.popped + (s.items + [mine]);
  }

  lemma ConservedPop(s: Pool, w: nat, pick: nat, t: TaskId)
    requires Fifo(s) && CountsAgree(s) && OneFate(s, t) && Can(s, Pop(w, pick))
    ensures var s' := DoPop(s, w, pick); Fifo(s') && CountsAgree(s') && OneFate(s', t)
  {
    match PopVerdict(|s.items|, s.closed)
    case Sleep => WorkerReplaced(s.workers, w, Popping(Asleep), t);
    case Refuse => WorkerReplaced(s.workers, w, GotNull, t);
    case Proceed => ConservedTake(s, w, pick, t);
  }

  lemma ConservedTake(s: Pool, w: nat, pick: nat, t: TaskId)
    requires Fifo(s) && CountsAgree(s) && OneFate(s, t) && Can(s, Pop(w, pick)) && s.items != []
    ensures var s' := DoPop(s, w, pick); Fifo(s') && CountsAgree(s') && OneFate(s', t)
  {
    WorkerReplaced(s.workers, w, Busy(s.items[0]), t);
    TakenInOrder(s, w, pick);
    ProducersAlike(s.producers, SignalProducer(s.producers, pick), t);
    PopSplits(s, t);
  }

  lemma TakenInOrder(s: Pool, w: nat, pick: nat)
    requires Fifo(s) && Can(s, Pop(w, pick)) && s.items != []
    ensures Fifo(DoPop(s, w, pick))
  {
    assert s.popped + s.items == (s.popped + [s.items[0]]) + s.items[1..];
  }

  lemma ConservedWorker(s: Pool, a: Action, t: TaskId)
    requires Fifo(s) && CountsAgree(s) && OneFate(s, t) && Can(s, a)
    requires a.Test? || a.Null? || a.Count? || a.Destroy? || a.SpuriousWorker?
    ensures var s' := Do(s, a); Fifo(s') && CountsAgree(s') && OneFate(s', t)
  {
    WorkerReplaced(s.workers, a.w, Do(s, a).workers[a.w], t);
  }

  lemma ConservedControl(s: Pool, a: Action, t: TaskId)
    requires Fifo(s) && CountsAgree(s) && OneFate(s, t) && Can(s, a)
    requires a.SpuriousProducer? || a.SetFlag? || a.CloseQueue? || a.Teardown?
    ensures var s' := Do(s, a); Fifo(s') && CountsAgree(s') && OneFate(s', t)
  {
    var s' := Do(s, a);
    WorkersAlike(s.workers, s'.workers, t);
    ProducersAlike(s.producers, s'.producers, t);
  }

  lemma ConservedStep(s: Pool, a: Action)
    requires Conserved(s) && Can(s, a)
    ensures Conserved(Do(s, a))
  {
    var s' := Do(s, a);
    forall t: TaskId ensures Fifo(s') && CountsAgree(s') && OneFate(s', t) {
      assert OneFate(s, t);
      match a
      case Submit(p) => ConservedSubmit(s, p, t);
      case Push(p, pick) => ConservedPush(s, p, pick, t);
      case Pop(w, pick) => ConservedPop(s, w, pick, t);
      case Test(_) => ConservedWorker(s, a, t);
      case Null(_) => ConservedWorker(s, a, t);
      case Count(_) => ConservedWorker(s, a, t);
      case Destroy(_) => ConservedWorker(s, a, t);
      case SpuriousWorker(_) => ConservedWorker(s, a, t);
      case _ => ConservedControl(s, a, t);
    }
    assert OneFate(s', 0);
  }

  lemma {:induction false} ConservedRun(s: Pool, acts: seq<Action>, t: Pool)
    requires Conserved(s) && Run(s, acts, t)
    ensures Conserved(t)
    decreases |acts|
  {
    if acts != [] {
      ConservedStep(s, acts[0]);
      ConservedRun(Do(s, acts[0]), acts[1..], t);
    }
  }

  /**
    In every reachable state tasks were popped in the order of their acceptance,
    the bound holds, and accepted tasks are completed, in a worker's hands or queued.
   */
  lemma TasksAreConserved(s: Pool)
    requires Reachable(s)
    ensures Fifo(s)
    ensures !s.torn ==> |s.accepted| == s.completed + Total(BusyWorker, s.workers) + |s.items|
    ensures forall t: TaskId :: OneFate(s, t)
  {
    var s0: Pool, acts: seq<Action> :| Init(s0) && Run(s0, acts, s);
    ConservedInit(s0);
    ConservedRun(s0, acts, s);
  }

  /** After the teardown every accepted task was destroyed exactly once and no other task was. */
  lemma TeardownDestroysEachTaskOnce(s: Pool, t: TaskId)
    requires Reachable(s) && s.torn
    ensures multiset(s.destroyed)[t] == (if t in s.accepted then 1 else 0)
    ensures t in s.refused ==> t !in s.destroyed
  {
    TasksAreConserved(s);
    assert OneFate(s, t);
    var s0: Pool, acts: seq<Action> :| Init(s0) && Run(s0, acts, s);
    TornRun(s0, acts, s);
    TotalZero(Holding(t), s.workers);
    TotalNonNegative(Offering(t), s.producers);
  }

  /** Once torn down, every worker has exited and the list is empty. */
  predicate TornIsOver(s: Pool) {
    s.torn ==> s.items == [] && forall w | 0 <= w < |s.workers| :: s.workers[w].Exited?
  }

  lemma {:induction false} TornRun(s: Pool, acts: seq<Action>, t: Pool)
    requires TornIsOver(s) && Run(s, acts, t)
    ensures TornIsOver(t)
    decreases |acts|
  {
    if acts != [] {
      TornRun(Do(s, acts[0]), acts[1..], t);
    }
  }
}

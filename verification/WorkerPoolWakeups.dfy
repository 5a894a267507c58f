/** No wake-up is lost, and an idle pool has finished everything it accepted. */
module WorkerPoolWakeups {
  import opened Totals
  import opened WorkerPool

  // Weights that count the threads in one situation.
  function SleepingWorker(x: WorkerPoint): int { if x == Popping(Asleep) then 1 else 0 }
  function WokenWorker(x: WorkerPoint): int { if x == Popping(Woken) then 1 else 0 }
  function SleepingProducer(x: ProducerPoint): int { if x.Pushing? && x.wait == Asleep then 1 else 0 }
  function WokenProducer(x: ProducerPoint): int { if x.Pushing? && x.wait == Woken then 1 else 0 }

  function Sleepers(s: Pool): int { Total(SleepingWorker, s.workers) }
  function Wokens(s: Pool): int { Total(WokenWorker, s.workers) }
  function BlockedProducers(s: Pool): int { Total(SleepingProducer, s.producers) }
  function WokenProducers(s: Pool): int { Total(WokenProducer, s.producers) }

  /**
    While a worker sleeps, the woken workers are enough for all queued tasks;
    while a producer sleeps, the woken producers are enough for all free places.
   */
  predicate NoLostWakeup(s: Pool) {
    !s.closed ==>
      && (Sleepers(s) > 0 ==> |s.items| <= Wokens(s))
      && (BlockedProducers(s) > 0 ==> s.maxSize - |s.items| <= WokenProducers(s))
  }

  /** The effect of replacing one worker on both worker counts. */
  lemma WorkerChange(ws: seq<WorkerPoint>, w: nat, x: WorkerPoint)
    requires w < |ws|
    ensures Total(SleepingWorker, ws[w := x]) == Total(SleepingWorker, ws) - SleepingWorker(ws[w]) + SleepingWorker(x)
    ensures Total(WokenWorker, ws[w := x]) == Total(WokenWorker, ws) - WokenWorker(ws[w]) + WokenWorker(x)
    ensures Total(SleepingWorker, ws) >= 0 && Total(WokenWorker, ws) >= WokenWorker(ws[w])
  {
    TotalUpdate(SleepingWorker, ws, w, x);
    TotalUpdate(WokenWorker, ws, w, x);
    TotalNonNegative(SleepingWorker, ws);
    TotalAtLeast(WokenWorker, ws, w);
  }

  lemma ProducerChange(ps: seq<ProducerPoint>, p: nat, x: ProducerPoint)
    requires p < |ps|
    ensures Total(SleepingProducer, ps[p := x])
            == Total(SleepingProducer, ps) - SleepingProducer(ps[p]) + SleepingProducer(x)
    ensures Total(WokenProducer, ps[p := x]) == Total(WokenProducer, ps) - WokenProducer(ps[p]) + WokenProducer(x)
    ensures Total(SleepingProducer, ps) >= 0 && Total(WokenProducer, ps) >= WokenProducer(ps[p])
  {
    TotalUpdate(SleepingProducer, ps, p, x);
    TotalUpdate(WokenProducer, ps, p, x);
    TotalNonNegative(SleepingProducer, ps);
    TotalAtLeast(WokenProducer, ps, p);
  }

  /** A signal turns one sleeper into a woken thread, if there is a sleeper. */
  lemma SignalWorkerCounts(ws: seq<WorkerPoint>, pick: nat)
    requires WorkerPick(ws, pick)
    ensures var us := SignalWorker(ws, pick);
            && Total(SleepingWorker, ws) >= 0
            && (Total(SleepingWorker, ws) == 0 ==> us == ws)
            && (Total(SleepingWorker, ws) > 0 ==>
                  && Total(SleepingWorker, us) == Total(SleepingWorker, ws) - 1
                  && Total(WokenWorker, us) == Total(WokenWorker, ws) + 1)
  {
    TotalNonNegative(SleepingWorker, ws);
    if Total(SleepingWorker, ws) > 0 {
      var w := TotalPositive(SleepingWorker, ws);
      assert WorkerAsleep(ws, w);
      WorkerChange(ws, pick, Popping(Woken));
    } else if WorkerAsleep(ws, pick) {
      TotalAtLeast(SleepingWorker, ws, pick);
    }
  }

  lemma SignalProducerCounts(ps: seq<ProducerPoint>, pick: nat)
    requires ProducerPick(ps, pick)
    ensures var us := SignalProducer(ps, pick);
            && Total(SleepingProducer, ps) >= 0
            && (Total(SleepingProducer, ps) == 0 ==> us == ps)
            && (Total(SleepingProducer, ps) > 0 ==>
                  && Total(SleepingProducer, us) == Total(SleepingProducer, ps) - 1
                  && Total(WokenProducer, us) == Total(WokenProducer, ps) + 1)
  {
    TotalNonNegative(SleepingProducer, ps);
    if Total(SleepingProducer, ps) > 0 {
      var p := TotalPositive(SleepingProducer, ps);
      assert ProducerAsleep(ps, p);
      ProducerChange(ps, pick, ps[pick].(wait := Woken));
    } else if ProducerAsleep(ps, pick) {
      TotalAtLeast(SleepingProducer, ps, pick);
    }
  }

  lemma WakeupsInit(s: Pool)
    requires Init(s)
    ensures NoLostWakeup(s)
  {
    TotalZero(SleepingWorker, s.workers);
    TotalZero(SleepingProducer, s.producers);
  }

  lemma WakeupsPush(s: Pool, p: nat, pick: nat)
    requires NoLostWakeup(s) && Can(s, Push(p, pick))
    ensures NoLostWakeup(DoPush(s, p, pick))
  {
    SignalWorkerCounts(s.workers, pick);
    ProducerChange(s.producers, p, Pushing(s.producers[p].task, Asleep));
    ProducerChange(s.producers, p, Idle);
    TotalNonNegative(WokenProducer, s.producers[p := Pushing(s.producers[p].task, Asleep)]);
  }

  lemma WakeupsPop(s: Pool, w: nat, pick: nat)
    requires NoLostWakeup(s) && Can(s, Pop(w, pick))
    ensures NoLostWakeup(DoPop(s, w, pick))
  {
    SignalProducerCounts(s.producers, pick);
    WorkerChange(s.workers, w, Popping(Asleep));
    TotalNonNegative(WokenWorker, s.workers[w := Popping(Asleep)]);
    if |s.items| > 0 {
      WorkerChange(s.workers, w, Busy(s.items[0]));
    }
  }

  /** Every action keeps the wake-up invariant. */
  lemma WakeupsStep(s: Pool, a: Action)
    requires NoLostWakeup(s) && Can(s, a)
    ensures NoLostWakeup(Do(s, a))
  {
    match a
    case Submit(p) => ProducerChange(s.producers, p, Pushing(s.created, Ready));
    case Push(p, pick) => WakeupsPush(s, p, pick);
    case Test(w) => WorkerChange(s.workers, w, if s.flag then Exited else Popping(Ready));
    case Pop(w, pick) => WakeupsPop(s, w, pick);
    case Null(w) => WorkerChange(s.workers, w, if s.flag then Exited else Testing);
    case Count(w) => WorkerChange(s.workers, w, Counted(s.workers[w].task));
    case Destroy(w) => WorkerChange(s.workers, w, Testing);
    case SpuriousWorker(w) => WorkerChange(s.workers, w, Popping(Woken));
    case SpuriousProducer(p) => ProducerChange(s.producers, p, s.producers[p].(wait := Woken));
    case _ =>
  }

  lemma {:induction false} WakeupsRun(s: Pool, acts: seq<Action>, t: Pool)
    requires NoLostWakeup(s) && Run(s, acts, t)
    ensures NoLostWakeup(t)
    decreases |acts|
  {
    if acts != [] {
      WakeupsStep(s, acts[0]);
      WakeupsRun(Do(s, acts[0]), acts[1..], t);
    }
  }

  /** No interleaving of the pool's threads loses a wake-up. */
  lemma NoWakeupIsLost(s: Pool)
    requires Reachable(s)
    ensures NoLostWakeup(s)
  {
    var s0: Pool, acts: seq<Action> :| Init(s0) && Run(s0, acts, s);
    WakeupsInit(s0);
    WakeupsRun(s0, acts, s);
  }
}

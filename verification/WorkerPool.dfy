/**
  The worker pool and its bounded task queue as a state machine.

  Each action is one critical section of the queue mutex, or one step a worker
  takes outside it.  A thread that calls pthread_cond_wait is `Asleep` until a
  signal, a broadcast or a spurious wake-up makes it `Woken`; it then competes
  for the mutex with threads that are `Ready` to enter for the first time.
 */
module WorkerPool {
  type TaskId = nat

  datatype Wait = Ready | Asleep | Woken

  /** Where a worker is in worker_thread. */
  datatype WorkerPoint =
    | Testing                  // at the loop test
    | Popping(wait: Wait)      // inside task_queue_pop
    | GotNull                  // task_queue_pop returned NULL
    | Busy(task: TaskId)       // processing a task
    | Counted(task: TaskId)    // tasks_completed was incremented
    | Exited

  /** Where an I/O thread is with respect to thread_pool_submit. */
  datatype ProducerPoint = Idle | Pushing(task: TaskId, wait: Wait)

  datatype Verdict = Sleep | Refuse | Proceed

  /** What task_queue_push decides under the mutex. */
  function PushVerdict(size: nat, maxSize: int, closed: bool): Verdict {
    if size >= maxSize && !closed then Sleep else if closed then Refuse else Proceed
  }

  /** What task_queue_pop decides under the mutex. */
  function PopVerdict(size: nat, closed: bool): Verdict {
    if size == 0 && !closed then Sleep else if closed && size == 0 then Refuse else Proceed
  }

  /**
    `flag` is the pool's shutdown field and `closed` the queue's.  The fields
    from `created` on are histories that no step reads, apart from `created`,
    which names the next task.
   */
  datatype Pool = Pool(
    maxSize: int,
    items: seq<TaskId>,
    flag: bool,
    closed: bool,
    torn: bool,
    workers: seq<WorkerPoint>,
    producers: seq<ProducerPoint>,
    completed: nat,
    created: nat,
    accepted: seq<TaskId>,
    popped: seq<TaskId>,
    destroyed: seq<TaskId>,
    refused: seq<TaskId>)

  /** `pick` is the sleeper that a signal wakes, if there is one. */
  datatype Action =
    | Submit(p: nat)
    | Push(p: nat, pick: nat)
    | Test(w: nat)
    | Pop(w: nat, pick: nat)
    | Null(w: nat)
    | Count(w: nat)
    | Destroy(w: nat)
    | SpuriousWorker(w: nat)
    | SpuriousProducer(p: nat)
    | SetFlag
    | CloseQueue
    | Teardown

  predicate Init(s: Pool) {
    && s.items == [] && !s.flag && !s.closed && !s.torn && s.completed == 0 && s.created == 0
    && s.accepted == [] && s.popped == [] && s.destroyed == [] && s.refused == []
    && (forall w | 0 <= w < |s.workers| :: s.workers[w] == Testing)
    && (forall p | 0 <= p < |s.producers| :: s.producers[p] == Idle)
  }

  predicate WorkerAsleep(ws: seq<WorkerPoint>, w: nat) {
    w < |ws| && ws[w] == Popping(Asleep)
  }

  predicate ProducerAsleep(ps: seq<ProducerPoint>, p: nat) {
    p < |ps| && ps[p].Pushing? && ps[p].wait == Asleep
  }

  /** pthread_cond_signal(&not_empty): if a worker waits, one of them wakes. */
  function SignalWorker(ws: seq<WorkerPoint>, pick: nat): seq<WorkerPoint> {
    if WorkerAsleep(ws, pick) then ws[pick := Popping(Woken)] else ws
  }

  /** pthread_cond_signal(&not_full). */
  function SignalProducer(ps: seq<ProducerPoint>, pick: nat): seq<ProducerPoint> {
    if ProducerAsleep(ps, pick) then ps[pick := ps[pick].(wait := Woken)] else ps
  }

  /** A signal may miss only when nobody sleeps. */
  ghost predicate WorkerPick(ws: seq<WorkerPoint>, pick: nat) {
    (exists w :: WorkerAsleep(ws, w)) ==> WorkerAsleep(ws, pick)
  }

  ghost predicate ProducerPick(ps: seq<ProducerPoint>, pick: nat) {
    (exists p :: ProducerAsleep(ps, p)) ==> ProducerAsleep(ps, pick)
  }

  ghost predicate Can(s: Pool, a: Action) {
    && !s.torn
    && match a
       case Submit(p) => p < |s.producers| && s.producers[p].Idle?
       case Push(p, pick) =>
         && p < |s.producers| && s.producers[p].Pushing? && s.producers[p].wait != Asleep
         && WorkerPick(s.workers, pick)
       case Test(w) => w < |s.workers| && s.workers[w].Testing?
       case Pop(w, pick) =>
         && w < |s.workers| && s.workers[w].Popping? && s.workers[w].wait != Asleep
         && ProducerPick(s.producers, pick)
       case Null(w) => w < |s.workers| && s.workers[w].GotNull?
       case Count(w) => w < |s.workers| && s.workers[w].Busy?
       case Destroy(w) => w < |s.workers| && s.workers[w].Counted?
       case SpuriousWorker(w) => WorkerAsleep(s.workers, w)
       case SpuriousProducer(p) => ProducerAsleep(s.producers, p)
       case SetFlag => true
       case CloseQueue => s.flag
       case Teardown =>
         s.flag && s.closed && forall w | 0 <= w < |s.workers| :: s.workers[w].Exited?
  }

  /** thread_pool_submit reads the pool flag before it enters the queue. */
  function DoSubmit(s: Pool, p: nat): Pool
    requires p < |s.producers|
  {
    var t := s.created;
    if s.flag then s.(created := t + 1, refused := s.refused + [t])
    else s.(created := t + 1, producers := s.producers[p := Pushing(t, Ready)])
  }

  /** One pass of task_queue_push through the mutex. */
  function DoPush(s: Pool, p: nat, pick: nat): Pool
    requires p < |s.producers| && s.producers[p].Pushing?
  {
    var t := s.producers[p].task;
    match PushVerdict(|s.items|, s.maxSize, s.closed)
    case Sleep => s.(producers := s.producers[p := Pushing(t, Asleep)])
    case Refuse => s.(producers := s.producers[p := Idle], refused := s.refused + [t])
    case Proceed =>
      s.(producers := s.producers[p := Idle],
         items := s.items + [t],
         accepted := s.accepted + [t],
         workers := SignalWorker(s.workers, pick))
  }

  /** One pass of task_queue_pop through the mutex. */
  function DoPop(s: Pool, w: nat, pick: nat): Pool
    requires w < |s.workers|
  {
    match PopVerdict(|s.items|, s.closed)
    case Sleep => s.(workers := s.workers[w := Popping(Asleep)])
    case Refuse => s.(workers := s.workers[w := GotNull])
    case Proceed =>
      s.(workers := s.workers[w := Busy(s.items[0])],
         items := s.items[1..],
         popped := s.popped + [s.items[0]],
         producers := SignalProducer(s.producers, pick))
  }

  function WakeWorker(x: WorkerPoint): WorkerPoint {
    if x == Popping(Asleep) then Popping(Woken) else x
  }

  function WakeProducer(x: ProducerPoint): ProducerPoint {
    if x.Pushing? && x.wait == Asleep then x.(wait := Woken) else x
  }

  /** task_queue_shutdown: set the flag and broadcast on both conditions. */
  function DoClose(s: Pool): Pool {
    s.(closed := true,
       workers := seq(|s.workers|, i requires 0 <= i < |s.workers| => WakeWorker(s.workers[i])),
       producers := seq(|s.producers|, i requires 0 <= i < |s.producers| => WakeProducer(s.producers[i])))
  }

  ghost function Do(s: Pool, a: Action): Pool
    requires Can(s, a)
  {
    match a
    case Submit(p) => DoSubmit(s, p)
    case Push(p, pick) => DoPush(s, p, pick)
    case Test(w) => s.(workers := s.workers[w := if s.flag then Exited else Popping(Ready)])
    case Pop(w, pick) => DoPop(s, w, pick)
    case Null(w) => s.(workers := s.workers[w := if s.flag then Exited else Testing])
    case Count(w) => s.(workers := s.workers[w := Counted(s.workers[w].task)], completed := s.completed + 1)
    case Destroy(w) =>
      s.(workers := s.workers[w := Testing], destroyed := s.destroyed + [s.workers[w].task])
    case SpuriousWorker(w) => s.(workers := s.workers[w := Popping(Woken)])
    case SpuriousProducer(p) => s.(producers := s.producers[p := s.producers[p].(wait := Woken)])
    case SetFlag => s.(flag := true)
    case CloseQueue => DoClose(s)
    case Teardown => s.(torn := true, items := [], destroyed := s.destroyed + s.items)
  }

  /** `acts` takes the pool from `s` to `t`. */
  ghost predicate Run(s: Pool, acts: seq<Action>, t: Pool)
    decreases |acts|
  {
    if acts == [] then t == s
    else Can(s, acts[0]) && Run(Do(s, acts[0]), acts[1..], t)
  }

  ghost predicate Reachable(s: Pool) {
    exists s0: Pool, acts: seq<Action> :: Init(s0) && Run(s0, acts, s)
  }

  lemma {:induction false} RunSnoc(s: Pool, acts: seq<Action>, t: Pool, a: Action)
    requires Run(s, acts, t) && Can(t, a)
    ensures Run(s, acts + [a], Do(t, a))
    decreases |acts|
  {
    if acts == [] {
      assert Run(Do(t, a), [], Do(t, a)) && [a][1..] == [] && acts + [a] == [a];
    } else {
      RunSnoc(Do(s, acts[0]), acts[1..], t, a);
      assert (acts + [a])[1..] == acts[1..] + [a];
    }
  }

  lemma ReachStep(s: Pool, a: Action)
    requires Reachable(s) && Can(s, a)
    ensures Reachable(Do(s, a))
  {
    var s0: Pool, acts: seq<Action> :| Init(s0) && Run(s0, acts, s);
    RunSnoc(s0, acts, s, a);
  }
}

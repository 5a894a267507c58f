/**
  The whole server: the connection protocol, the worker pool and the inboxes in step.

  `Reactor`, `WorkerPool` and `Mailbox` each describe one side of the same threads.
  Here a step of the server is a step of every side it concerns, so a push that
  the queue's bound puts to sleep delays the I/O thread, and an inbox is drained
  only after its pipe raised an edge.
 */
module Server {
  import opened Basics
  import Reactor
  import WorkerPool
  import Mailbox

  /**
    `boxes[i]` is the inbox of I/O thread `i`; worker `w` is sender `w` of every
    box, thread `i` is producer `i`.  The history `names` tells which task of the
    reactor each task of the pool is.
   */
  datatype State = State(
    r: Reactor.State,
    p: WorkerPool.Pool,
    boxes: seq<Mailbox.Box>,
    names: seq<Reactor.TaskId>)

  datatype Action =
    | Accept(a: Reactor.AcceptAction)
    | Io(i: nat, x: Reactor.IoAction)             // steps of an I/O thread that concern it alone
    | PollMail(i: nat, batch: seq<Reactor.Event>) // a wait that reports the message pipe
    | TakeByte(i: nat)                            // that event is dispatched
    | Drain(i: nat)
    | DropMsg(i: nat)
    | Enter(i: nat)                               // thread_pool_submit sees a clear flag
    | Turned(i: nat)                              // thread_pool_submit sees the flag set
    | PushWaits(i: nat, pick: nat)                // task_queue_push finds the queue full
    | PushRefused(i: nat, pick: nat)              // task_queue_push finds the queue closed
    | PushDone(i: nat, pick: nat)                 // task_queue_push appends
    | Pool(b: WorkerPool.Action)                  // steps that concern the pool alone
    | Take(w: nat, pick: nat)                     // task_queue_pop returns a task
    | Work(w: nat, y: Reactor.WorkerAction)       // steps of a worker on its connection alone
    | Send(w: nat)                                // io_thread_send_message up to its unlock
    | WriteByte(i: nat, w: nat)                   // and its write to the pipe
    | ByteRefused(i: nat, w: nat)                 // which may fail
    | Destroy(w: nat)                             // task_destroy
    | SetFlag

  /** The notifications of the message pipe among the events of one wait. */
  function Mails(batch: seq<Reactor.Event>): nat {
    if batch == [] then 0 else (if batch[0].MailReady? then 1 else 0) + Mails(batch[1..])
  }

  /** The I/O thread to whose inbox worker `w` is about to append. */
  function Target(s: State, w: nat): Option<nat> {
    if w < |s.r.workers| && s.r.workers[w].Sending? && s.r.workers[w].task in s.r.heap.tasks then
      var c := s.r.heap.tasks[s.r.workers[w].task].conn;
      if Reactor.Live(s.r.heap, c) && s.r.heap.slots[c].conn.io < |s.r.ios|
      then Some(s.r.heap.slots[c].conn.io) else None
    else None
  }

  // ---- The sides of a step ----------------------------------------------------

  function OnReactor(a: Action): Option<Reactor.Action> {
    match a
    case Accept(b) => Some(Reactor.ByAccept(b))
    case Io(i, x) => Some(Reactor.ByIo(i, x))
    case PollMail(i, batch) => Some(Reactor.ByIo(i, Reactor.Poll(batch)))
    case TakeByte(i) => Some(Reactor.ByIo(i, Reactor.Next))
    case Drain(i) => Some(Reactor.ByIo(i, Reactor.IoAction.Drain))
    case DropMsg(i) => Some(Reactor.ByIo(i, Reactor.IoAction.DropMsg))
    case Turned(i) => Some(Reactor.ByIo(i, Reactor.SubmitRefused))
    case PushRefused(i, _) => Some(Reactor.ByIo(i, Reactor.SubmitRefused))
    case PushDone(i, _) => Some(Reactor.ByIo(i, Reactor.IoAction.Submit))
    case Take(w, _) => Some(Reactor.ByWorker(w, Reactor.Pop))
    case Work(w, y) => Some(Reactor.ByWorker(w, y))
    case Send(w) => Some(Reactor.ByWorker(w, Reactor.WorkerAction.Send))
    case Destroy(w) => Some(Reactor.ByWorker(w, Reactor.Finish))
    case SetFlag => Some(Reactor.Shutdown)
    case _ => None
  }

  function OnPool(a: Action): Option<WorkerPool.Action> {
    match a
    case Enter(i) => Some(WorkerPool.Submit(i))
    case Turned(i) => Some(WorkerPool.Submit(i))
    case PushWaits(i, pick) => Some(WorkerPool.Push(i, pick))
    case PushRefused(i, pick) => Some(WorkerPool.Push(i, pick))
    case PushDone(i, pick) => Some(WorkerPool.Push(i, pick))
    case Pool(b) => Some(b)
    case Take(w, pick) => Some(WorkerPool.Pop(w, pick))
    case Destroy(w) => Some(WorkerPool.Action.Destroy(w))
    case SetFlag => Some(WorkerPool.Action.SetFlag)
    case _ => None
  }

  /** The box a step concerns, and what happens there. */
  datatype Mail = Mail(i: nat, a: Mailbox.Action)

  function OnBox(s: State, a: Action): Option<Mail> {
    match a
    case PollMail(i, _) => Some(Mail(i, Mailbox.Deliver))
    case TakeByte(i) => Some(Mail(i, Mailbox.ReadByte))
    case Drain(i) => Some(Mail(i, Mailbox.DrainNext))
    case DropMsg(i) => Some(Mail(i, Mailbox.Finish))
    case Send(w) =>
      match Target(s, w) {
        case Some(i) => Some(Mail(i, Mailbox.Enqueue(w, s.r.nextMsg)))
        case None => None
      }
    case WriteByte(i, w) => Some(Mail(i, Mailbox.Action.WriteByte(w)))
    case ByteRefused(i, w) => Some(Mail(i, Mailbox.Action.ByteRefused(w)))
    case _ => None
  }

  // ---- Steps --------------------------------------------------------------------

  predicate Verdict(s: State, i: nat, v: WorkerPool.Verdict) {
    && i < |s.p.producers| && s.p.producers[i].Pushing?
    && WorkerPool.PushVerdict(|s.p.items|, s.p.maxSize, s.p.closed) == v
  }

  /** Worker `w` has written the byte of every message it sent. */
  predicate Quiet(s: State, w: nat) {
    forall i | 0 <= i < |s.boxes| :: w < |s.boxes[i].senders| ==> s.boxes[i].senders[w].Quiet?
  }

  predicate Submitting(s: State, i: nat) {
    i < |s.r.ios| && s.r.ios[i].point.Submitting?
  }

  /** An I/O thread's step that touches neither queue, and is not the dispatch of a message event. */
  predicate Solo(s: State, i: nat, x: Reactor.IoAction) {
    && !x.Drain? && !x.DropMsg? && !x.Submit? && !x.SubmitRefused?
    && (x.Poll? ==> Mails(x.batch) == 0)
    && (x.Next? && i < |s.r.ios| && s.r.ios[i].point.Dispatch? ==>
          s.r.ios[i].point.batch == [] || !s.r.ios[i].point.batch[0].MailReady?)
  }

  /** What a step of the pool alone may be; a task is counted once its processing is over. */
  predicate PoolOnly(s: State, a: WorkerPool.Action) {
    match a
    case Test(_) => true
    case Null(_) => true
    case Pop(_, _) => WorkerPool.PopVerdict(|s.p.items|, s.p.closed) != WorkerPool.Proceed
    case Count(w) => w < |s.r.workers| && s.r.workers[w].Finishing? && Quiet(s, w)
    case SpuriousWorker(_) => true
    case SpuriousProducer(_) => true
    case CloseQueue => true
    case _ => false
  }

  /** The conditions that tie the sides of a step together. */
  predicate Together(s: State, a: Action) {
    match a
    case Io(i, x) => Solo(s, i, x)
    case PollMail(_, batch) => Mails(batch) == 1
    case TakeByte(i) =>
      && i < |s.r.ios| && s.r.ios[i].point.Dispatch?
      && s.r.ios[i].point.batch != [] && s.r.ios[i].point.batch[0].MailReady?
    case Enter(i) => Submitting(s, i) && !s.p.flag
    case Turned(i) => Submitting(s, i) && s.p.flag
    case PushWaits(i, _) => Verdict(s, i, WorkerPool.Sleep)
    case PushRefused(i, _) => Verdict(s, i, WorkerPool.Refuse)
    case PushDone(i, _) => Verdict(s, i, WorkerPool.Proceed)
    case Pool(b) => PoolOnly(s, b)
    case Take(_, _) => WorkerPool.PopVerdict(|s.p.items|, s.p.closed) == WorkerPool.Proceed
    case Work(_, y) => y.Check? || y.Process? || y.Confirm? || y.SendFails?
    case _ => true
  }

  ghost predicate Can(s: State, a: Action) {
    && Together(s, a)
    && (OnReactor(a).Some? ==> Reactor.Can(s.r, OnReactor(a).value))
    && (OnPool(a).Some? ==> WorkerPool.Can(s.p, OnPool(a).value))
    && (OnBox(s, a).Some? ==>
          var m := OnBox(s, a).value;
          m.i < |s.boxes| && Mailbox.Can(s.boxes[m.i], m.a))
  }

  ghost function Do(s: State, a: Action): State
    requires Can(s, a)
  {
    State(
      if OnReactor(a).Some? then Reactor.Do(s.r, OnReactor(a).value) else s.r,
      if OnPool(a).Some? then WorkerPool.Do(s.p, OnPool(a).value) else s.p,
      if OnBox(s, a).Some? then
        var m := OnBox(s, a).value;
        s.boxes[m.i := Mailbox.Do(s.boxes[m.i], m.a)]
      else s.boxes,
      if a.Enter? || a.Turned? then s.names + [s.r.ios[a.i].point.task] else s.names)
  }

  ghost predicate Init(s: State) {
    && Reactor.Init(s.r) && WorkerPool.Init(s.p) && s.names == []
    && |s.p.workers| == |s.r.workers| && |s.p.producers| == |s.boxes| == |s.r.ios|
    && forall i | 0 <= i < |s.boxes| :: Mailbox.Init(s.boxes[i]) && |s.boxes[i].senders| == |s.r.workers|
  }

  ghost predicate Run(s: State, acts: seq<Action>, t: State)
    decreases |acts|
  {
    if acts == [] then t == s
    else Can(s, acts[0]) && Run(Do(s, acts[0]), acts[1..], t)
  }

  ghost predicate Reachable(s: State) {
    exists s0: State, acts: seq<Action> :: Init(s0) && Run(s0, acts, s)
  }
}

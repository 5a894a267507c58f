/** The server always comes to rest: its threads take only so many steps of their own. */
module ServerProgress {
  import opened Totals
  import opened Server
  import opened ServerLinks
  import opened ServerTheorems
  import Reactor
  import ReactorOwners
  import WorkerPool
  import WorkerPoolProgress
  import Mailbox
  import IoThreads

  // ---- The work that is left -------------------------------------------------------

  /** A worker's steps on its task; announcing a response makes work for an I/O thread. */
  function StageLoad(x: Reactor.WorkerPoint): int {
    match x
    case Free => 0
    case Finishing(_) => 1
    case Sending(_) => 30
    case Confirming(_) => 31
    case Processing(_) => 32
    case Checking(_) => 33
  }

  function ReturnLoad(ret: Reactor.Return): int {
    match ret
    case ToDone => 1
    case ToWrite => 5
    case ToRead => 9
  }

  /** What is left of the event an I/O thread is dispatching, beside the events after it. */
  function EventLoad(p: Reactor.IoPoint): int {
    match p
    case Polling => 0
    case Dispatch(_) => 1
    case Adding(_, _) => 2
    case Draining(_) => 2
    case Dropping(_, _) => 3
    case Handling(_, _) => 4
    case Unreferencing(_, ret) => ReturnLoad(ret) + 1
    case Unregistering(_, _, ret) => ReturnLoad(ret) + 2
    case InError(_) => 4
    case AfterWrite(_) => 5
    case InWrite(_) => 8
    case AfterRead(_) => 9
    case InRead(_) => 12
    case Submitting(_, _) => 12
  }

  function PointLoad(p: Reactor.IoPoint): int {
    EventLoad(p) + 20 * |ReactorOwners.RestOf(p)|
  }

  function SenderLoad(x: Mailbox.SenderPoint): int { if x.Notifying? then 23 else 0 }

  function BoxLoad(b: Mailbox.Box): int {
    3 * |b.inbox| + (if b.edge then 22 else 0) + Total(SenderLoad, b.senders)
  }

  /** A submission that has not entered the pool yet counts there later. */
  function EntryLoad(p: Reactor.IoPoint, x: WorkerPool.ProducerPoint): int {
    if p.Submitting? && x.Idle? then 800 else 0
  }

  function ThreadLoad(s: State, i: nat): int
    requires i < |s.r.ios| && i < |s.p.producers| && i < |s.boxes|
  {
    PointLoad(s.r.ios[i].point) + EntryLoad(s.r.ios[i].point, s.p.producers[i]) + BoxLoad(s.boxes[i])
  }

  function ThreadLoads(s: State, n: nat): int
    requires n <= |s.r.ios| && n <= |s.p.producers| && n <= |s.boxes|
  {
    if n == 0 then 0 else ThreadLoads(s, n - 1) + ThreadLoad(s, n - 1)
  }

  function Load(s: State): int
    requires Sizes(s)
  {
    100 * WorkerPoolProgress.Load(s.p) + Total(StageLoad, s.r.workers) + ThreadLoads(s, |s.boxes|)
  }

  lemma {:induction false} ThreadLoadsNonNegative(s: State, n: nat)
    requires n <= |s.r.ios| && n <= |s.p.producers| && n <= |s.boxes|
    ensures ThreadLoads(s, n) >= 0
  {
    if n != 0 {
      ThreadLoadsNonNegative(s, n - 1);
      TotalNonNegative(SenderLoad, s.boxes[n - 1].senders);
    }
  }

  lemma LoadNonNegative(s: State)
    requires Sizes(s)
    ensures Load(s) >= 0
  {
    WorkerPoolProgress.LoadNonNegative(s.p);
    TotalNonNegative(StageLoad, s.r.workers);
    ThreadLoadsNonNegative(s, |s.boxes|);
  }

  /** Thread `j` has as much to do as before. */
  predicate SameThread(s: State, t: State, j: nat) {
    j < |s.boxes| && Sizes(s) && Sizes(t) && |t.boxes| == |s.boxes| ==> ThreadLoad(t, j) == ThreadLoad(s, j)
  }

  lemma {:induction false} OneThread(s: State, t: State, i: nat, n: nat)
    requires Sizes(s) && Sizes(t) && |t.boxes| == |s.boxes| && i < |s.boxes| && n <= |s.boxes|
    requires forall j | 0 <= j < |s.boxes| && j != i :: SameThread(s, t, j)
    ensures ThreadLoads(t, n)
            == ThreadLoads(s, n) + (if i < n then ThreadLoad(t, i) - ThreadLoad(s, i) else 0)
  {
    if n != 0 {
      OneThread(s, t, i, n - 1);
      assert n - 1 != i ==> SameThread(s, t, n - 1);
    }
  }

  lemma {:induction false} SameThreads(s: State, t: State, n: nat)
    requires Sizes(s) && Sizes(t) && |t.boxes| == |s.boxes| && n <= |s.boxes|
    requires forall j | 0 <= j < |s.boxes| :: SameThread(s, t, j)
    ensures ThreadLoads(t, n) == ThreadLoads(s, n)
  {
    if n != 0 {
      SameThreads(s, t, n - 1);
      assert SameThread(s, t, n - 1);
    }
  }

  // ---- I/O threads -------------------------------------------------------------------

  /** A step of thread `i` that leaves pool and workers alone, and has less to do afterwards. */
  lemma ThreadWorks(s: State, t: State, i: nat)
    requires Sizes(s) && Sizes(t) && |t.boxes| == |s.boxes| && i < |s.boxes|
    requires t.p == s.p && t.r.workers == s.r.workers
    requires t.r.ios == s.r.ios[i := t.r.ios[i]] && t.boxes == s.boxes[i := t.boxes[i]]
    requires ThreadLoad(t, i) < ThreadLoad(s, i)
    ensures Load(t) < Load(s)
  {
    forall j | 0 <= j < |s.boxes| && j != i ensures SameThread(s, t, j) {
    }
    OneThread(s, t, i, |s.boxes|);
  }

  lemma SoloPoint(r: Reactor.State, i: nat, x: Reactor.IoAction)
    requires i < |r.ios| && Reactor.CanIo(r, i, x)
    requires x.Add? || x.AddFails? || x.Handle? || x.ReadStop? || x.Recheck? || x.Unregister? || x.Unreference?
    ensures PointLoad(Reactor.DoIo(r, i, x).ios[i].point) < PointLoad(r.ios[i].point)
    ensures !Reactor.DoIo(r, i, x).ios[i].point.Submitting?
  {
  }

  lemma ClosePoint(r: Reactor.State, i: nat, x: Reactor.IoAction)
    requires i < |r.ios| && Reactor.CanIo(r, i, x) && (x.ReadClose? || x.Hangup? || x.Write?)
    ensures PointLoad(Reactor.DoIo(r, i, x).ios[i].point) < PointLoad(r.ios[i].point)
    ensures !Reactor.DoIo(r, i, x).ios[i].point.Submitting?
  {
    if x.Write? {
      WritePoint(r, i, x.answers);
    }
  }

  lemma WritePoint(r: Reactor.State, i: nat, answers: seq<IoThreads.WriteResult>)
    requires i < |r.ios| && r.ios[i].point.InWrite?
    ensures PointLoad(Reactor.DoWrite(r, i, answers).ios[i].point) < PointLoad(r.ios[i].point)
    ensures !Reactor.DoWrite(r, i, answers).ios[i].point.Submitting?
  {
    WriteMoves(r, i, answers);
  }

  lemma NextPoint(r: Reactor.State, i: nat)
    requires i < |r.ios| && r.ios[i].point.Dispatch?
    ensures PointLoad(Reactor.DoNext(r, i).ios[i].point) < PointLoad(r.ios[i].point)
    ensures !Reactor.DoNext(r, i).ios[i].point.Submitting?
  {
    var batch := r.ios[i].point.batch;
    if batch != [] && !batch[0].MailReady? {
      if batch[0].Ready? {
        ReadyMoves(r, i);
      } else {
        PipeMoves(r, i);
      }
    }
  }

  lemma OwnIoWorks(s: State, i: nat, x: Reactor.IoAction)
    requires Linked(s) && Can(s, Io(i, x)) && Own(Io(i, x))
    ensures Sizes(Do(s, Io(i, x))) && Load(Do(s, Io(i, x))) < Load(s)
  {
    var t := Do(s, Io(i, x));
    LinkIo(s, i, x);
    SoloMoves(s, i, x);
    OwnPoint(s, i, x);
    assert !t.r.ios[i].point.Submitting?;
    ThreadWorks(s, t, i);
  }

  lemma OwnPoint(s: State, i: nat, x: Reactor.IoAction)
    requires i < |s.r.ios| && Reactor.CanIo(s.r, i, x) && Solo(s, i, x) && Own(Io(i, x))
    ensures PointLoad(Reactor.DoIo(s.r, i, x).ios[i].point) < PointLoad(s.r.ios[i].point)
    ensures !Reactor.DoIo(s.r, i, x).ios[i].point.Submitting?
  {
    if x.Next? {
      NextPoint(s.r, i);
    } else if x.Write? || x.ReadClose? || x.Hangup? {
      ClosePoint(s.r, i, x);
    } else {
      SoloPoint(s.r, i, x);
    }
  }

  lemma ByteTakenWorks(s: State, i: nat)
    requires Linked(s) && Can(s, TakeByte(i))
    ensures Sizes(Do(s, TakeByte(i))) && Load(Do(s, TakeByte(i))) < Load(s)
  {
    LinkTakeByte(s, i);
    ThreadWorks(s, Do(s, TakeByte(i)), i);
  }

  lemma DrainWorks(s: State, i: nat)
    requires Linked(s) && Can(s, Drain(i))
    ensures Sizes(Do(s, Drain(i))) && Load(Do(s, Drain(i))) < Load(s)
  {
    LinkDrain(s, i);
    assert BoxAt(s, i);
    ThreadWorks(s, Do(s, Drain(i)), i);
  }

  lemma DropWorks(s: State, i: nat)
    requires Linked(s) && Can(s, DropMsg(i))
    ensures Sizes(Do(s, DropMsg(i))) && Load(Do(s, DropMsg(i))) < Load(s)
  {
    LinkDropMsg(s, i);
    ThreadWorks(s, Do(s, DropMsg(i)), i);
  }

  lemma PollWorks(s: State, i: nat)
    requires Linked(s) && Can(s, PollMail(i, [Reactor.MailReady]))
    ensures Sizes(Do(s, PollMail(i, [Reactor.MailReady]))) && Load(Do(s, PollMail(i, [Reactor.MailReady]))) < Load(s)
  {
    var t := Do(s, PollMail(i, [Reactor.MailReady]));
    LinkPollMail(s, i, [Reactor.MailReady]);
    ThreadWorks(s, t, i);
  }

  lemma ByteWorks(s: State, i: nat, w: nat, a: Action)
    requires Linked(s) && Can(s, a) && (a == WriteByte(i, w) || a == ByteRefused(i, w))
    ensures Sizes(Do(s, a)) && Load(Do(s, a)) < Load(s)
  {
    LinkByte(s, i, w, a);
    TotalUpdate(SenderLoad, s.boxes[i].senders, w, Mailbox.Quiet);
    ThreadWorks(s, Do(s, a), i);
  }

  // ---- The pool -----------------------------------------------------------------------

  /** A step inside the pool, and perhaps one of its threads. */
  lemma PoolWorks(s: State, b: WorkerPool.Action)
    requires WorkerPoolProgress.Orderly(s.p) && !s.p.flag
    requires WorkerPoolProgress.Internal(b) && WorkerPool.Can(s.p, b)
    ensures WorkerPoolProgress.Load(WorkerPool.Do(s.p, b)) <= WorkerPoolProgress.Load(s.p) - 1
  {
    WorkerPoolProgress.InternalStepWorks(s.p, b);
  }

  /** The producers that a step leaves idle, or leaves pushing, are those that were. */
  predicate SameProducer(s: State, t: State, j: nat) {
    j < |s.p.producers| == |t.p.producers| ==> (t.p.producers[j].Idle? <==> s.p.producers[j].Idle?)
  }

  lemma PoolOnlyWorks(s: State, a: Action)
    requires Linked(s) && WorkerPoolProgress.Orderly(s.p) && !s.p.flag && Can(s, a) && Own(a)
    requires a.Pool? || a.PushWaits?
    ensures Sizes(Do(s, a)) && Load(Do(s, a)) < Load(s)
  {
    var t := Do(s, a);
    LinkStep(s, a);
    PoolWorks(s, OnPool(a).value);
    forall j | 0 <= j < |s.boxes| ensures SameThread(s, t, j) {
      assert SameProducer(s, t, j);
    }
    SameThreads(s, t, |s.boxes|);
  }

  lemma EnterWorks(s: State, i: nat)
    requires Linked(s) && !s.p.flag && Can(s, Enter(i))
    ensures Sizes(Do(s, Enter(i))) && Load(Do(s, Enter(i))) < Load(s)
  {
    var t := Do(s, Enter(i));
    LinkEnter(s, i);
    TotalUpdate(WorkerPoolProgress.ProducerLoad, s.p.producers, i, t.p.producers[i]);
    forall j | 0 <= j < |s.boxes| && j != i ensures SameThread(s, t, j) {
    }
    OneThread(s, t, i, |s.boxes|);
  }

  lemma PushWorks(s: State, i: nat, pick: nat)
    requires Linked(s) && WorkerPoolProgress.Orderly(s.p) && !s.p.flag && Can(s, PushDone(i, pick))
    ensures Sizes(Do(s, PushDone(i, pick))) && Load(Do(s, PushDone(i, pick))) < Load(s)
  {
    LinkPushDone(s, i, pick);
    PoolWorks(s, WorkerPool.Push(i, pick));
    SubmissionWorks(s, Do(s, PushDone(i, pick)), i);
  }

  lemma SubmissionWorks(s: State, t: State, i: nat)
    requires Sizes(s) && Sizes(t) && i < |s.boxes| && t.boxes == s.boxes && t.r.workers == s.r.workers
    requires s.r.ios[i].point.Submitting?
    requires t.r.ios == s.r.ios[i := s.r.ios[i].(point := Reactor.InRead(s.r.ios[i].point.f))]
    requires t.p.producers == s.p.producers[i := WorkerPool.Idle]
    requires WorkerPoolProgress.Load(t.p) <= WorkerPoolProgress.Load(s.p) - 1
    ensures Load(t) < Load(s)
  {
    forall j | 0 <= j < |s.boxes| && j != i ensures SameThread(s, t, j) {
    }
    OneThread(s, t, i, |s.boxes|);
  }

  // ---- Workers ---------------------------------------------------------------------------

  lemma TakeWorks(s: State, w: nat, pick: nat)
    requires Linked(s) && WorkerPoolProgress.Orderly(s.p) && !s.p.flag && Can(s, Take(w, pick))
    ensures Sizes(Do(s, Take(w, pick))) && Load(Do(s, Take(w, pick))) < Load(s)
  {
    LinkTake(s, w, pick);
    PoolWorks(s, WorkerPool.Pop(w, pick));
    PoolStageWorks(s, Do(s, Take(w, pick)), w);
  }

  lemma DestroyWorks(s: State, w: nat)
    requires Linked(s) && WorkerPoolProgress.Orderly(s.p) && !s.p.flag && Can(s, Destroy(w))
    ensures Sizes(Do(s, Destroy(w))) && Load(Do(s, Destroy(w))) < Load(s)
  {
    LinkDestroy(s, w);
    PoolWorks(s, WorkerPool.Action.Destroy(w));
    PoolStageWorks(s, Do(s, Destroy(w)), w);
  }

  /** A worker's step on both sides. */
  lemma PoolStageWorks(s: State, t: State, w: nat)
    requires Sizes(s) && Sizes(t) && t.boxes == s.boxes && t.r.ios == s.r.ios
    requires w < |s.r.workers| == |t.r.workers| && t.r.workers == s.r.workers[w := t.r.workers[w]]
    requires WorkerPoolProgress.Load(t.p) <= WorkerPoolProgress.Load(s.p) - 1
    requires forall j | 0 <= j < |s.boxes| :: SameProducer(s, t, j)
    ensures Load(t) < Load(s)
  {
    TotalUpdate(StageLoad, s.r.workers, w, t.r.workers[w]);
    forall j | 0 <= j < |s.boxes| ensures SameThread(s, t, j) {
      assert SameProducer(s, t, j);
    }
    SameThreads(s, t, |s.boxes|);
  }

  lemma WorkWorks(s: State, w: nat, y: Reactor.WorkerAction)
    requires Linked(s) && Can(s, Work(w, y))
    ensures Sizes(Do(s, Work(w, y))) && Load(Do(s, Work(w, y))) < Load(s)
  {
    LinkWork(s, w, y);
    StageMoves(s.r, w, y);
    StageWorks(s, Do(s, Work(w, y)), w);
  }

  lemma StageMoves(r: Reactor.State, w: nat, y: Reactor.WorkerAction)
    requires w < |r.workers| && Reactor.CanWorker(r, w, y)
    requires y.Check? || y.Process? || y.Confirm? || y.SendFails?
    ensures var q := Reactor.DoWorker(r, w, y);
            && |q.workers| == |r.workers| && q.workers == r.workers[w := q.workers[w]] && q.ios == r.ios
            && StageLoad(q.workers[w]) < StageLoad(r.workers[w])
  {
  }

  lemma StageWorks(s: State, t: State, w: nat)
    requires Sizes(s) && Sizes(t) && t.boxes == s.boxes && t.p == s.p
    requires forall j | 0 <= j < |s.boxes| :: t.r.ios[j].point == s.r.ios[j].point
    requires w < |s.r.workers| == |t.r.workers| && t.r.workers == s.r.workers[w := t.r.workers[w]]
    requires StageLoad(t.r.workers[w]) < StageLoad(s.r.workers[w])
    ensures Load(t) < Load(s)
  {
    TotalUpdate(StageLoad, s.r.workers, w, t.r.workers[w]);
    forall j | 0 <= j < |s.boxes| ensures SameThread(s, t, j) {
    }
    SameThreads(s, t, |s.boxes|);
  }

  lemma SendWorks(s: State, w: nat)
    requires Linked(s) && Can(s, Send(w))
    ensures Sizes(Do(s, Send(w))) && Load(Do(s, Send(w))) < Load(s)
  {
    var t := Do(s, Send(w));
    LinkSend(s, w);
    SendMoves(s, w);
    if Target(s, w).Some? {
      var i := Target(s, w).value;
      TotalUpdate(SenderLoad, s.boxes[i].senders, w, Mailbox.Notifying);
      AnnouncementWorks(s, t, w, i);
    } else {
      StageWorks(s, t, w);
    }
  }

  lemma AnnouncementWorks(s: State, t: State, w: nat, i: nat)
    requires Sizes(s) && Sizes(t) && |t.boxes| == |s.boxes| && i < |s.boxes| && t.p == s.p
    requires w < |s.r.workers| && s.r.workers[w].Sending?
    requires t.r.workers == s.r.workers[w := Reactor.Finishing(s.r.workers[w].task)]
    requires forall j | 0 <= j < |s.boxes| :: t.r.ios[j].point == s.r.ios[j].point
    requires t.boxes == s.boxes[i := t.boxes[i]]
    requires BoxLoad(t.boxes[i]) <= BoxLoad(s.boxes[i]) + 26
    ensures Load(t) < Load(s)
  {
    TotalUpdate(StageLoad, s.r.workers, w, t.r.workers[w]);
    forall j | 0 <= j < |s.boxes| && j != i ensures SameThread(s, t, j) {
    }
    OneThread(s, t, i, |s.boxes|);
  }

  // ---- Whole runs ---------------------------------------------------------------------------

  /** Every step that a thread takes on its own makes the remaining work smaller. */
  lemma OwnStepWorks(s: State, a: Action)
    requires Linked(s) && WorkerPoolProgress.Orderly(s.p) && !s.p.flag && Can(s, a) && Own(a)
    ensures Sizes(Do(s, a)) && Load(Do(s, a)) < Load(s)
  {
    LinkStep(s, a);
    if a.Io? || a.PollMail? || a.TakeByte? || a.Drain? || a.DropMsg? || a.WriteByte? || a.ByteRefused? {
      InboxStepWorks(s, a);
    } else {
      match a
      case Enter(i) => EnterWorks(s, i);
      case PushWaits(_, _) => PoolOnlyWorks(s, a);
      case PushDone(i, pick) => PushWorks(s, i, pick);
      case Pool(_) => PoolOnlyWorks(s, a);
      case Take(w, pick) => TakeWorks(s, w, pick);
      case Work(w, y) => WorkWorks(s, w, y);
      case Send(w) => SendWorks(s, w);
      case Destroy(w) => DestroyWorks(s, w);
      case _ =>
    }
  }

  lemma InboxStepWorks(s: State, a: Action)
    requires Linked(s) && Can(s, a) && Own(a)
    requires a.Io? || a.PollMail? || a.TakeByte? || a.Drain? || a.DropMsg? || a.WriteByte? || a.ByteRefused?
    ensures Sizes(Do(s, a)) && Load(Do(s, a)) < Load(s)
  {
    LinkStep(s, a);
    match a
    case Io(i, x) => OwnIoWorks(s, i, x);
    case PollMail(i, _) => PollWorks(s, i);
    case TakeByte(i) => ByteTakenWorks(s, i);
    case Drain(i) => DrainWorks(s, i);
    case DropMsg(i) => DropWorks(s, i);
    case WriteByte(i, w) => ByteWorks(s, i, w, a);
    case ByteRefused(i, w) => ByteWorks(s, i, w, a);
  }

  lemma OwnKeepsFlag(s: State, a: Action)
    requires Can(s, a) && Own(a)
    ensures Do(s, a).p.flag == s.p.flag
  {
  }

  lemma OwnNext(s: State, a: Action)
    requires Linked(s) && SidesReachable(s) && !s.p.flag && Can(s, a) && Own(a)
    ensures var t := Do(s, a); Linked(t) && SidesReachable(t) && !t.p.flag && Load(t) < Load(s)
  {
    WorkerPoolProgress.ReachableIsOrderly(s.p);
    OwnStepWorks(s, a);
    OwnKeepsFlag(s, a);
    LinkStep(s, a);
    SidesStep(s, a);
  }

  lemma {:induction false} OwnRunEnds(s: State, acts: seq<Action>, t: State)
    requires Linked(s) && SidesReachable(s) && !s.p.flag && Run(s, acts, t)
    requires forall k | 0 <= k < |acts| :: Own(acts[k])
    ensures Linked(t) && |acts| <= |acts| + Load(t) <= Load(s)
    decreases |acts|
  {
    if acts == [] {
      LoadNonNegative(s);
    } else {
      OwnNext(s, acts[0]);
      OwnRunEnds(Do(s, acts[0]), acts[1..], t);
    }
  }

  /**
    Without new connections, socket events, data, spurious wake-ups and shutdown,
    no interleaving of the server's threads goes on for more than `Load(s)` steps;
    and when none is possible any more, SettledServer says that all work is done.
   */
  lemma ServerSettles(s: State, acts: seq<Action>, t: State)
    requires Reachable(s) && !s.p.flag && Run(s, acts, t)
    requires forall k | 0 <= k < |acts| :: Own(acts[k])
    ensures Sizes(s) && |acts| <= Load(s)
  {
    ServerProjects(s);
    OwnRunEnds(s, acts, t);
  }
}

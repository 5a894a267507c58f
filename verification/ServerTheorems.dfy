/** What holds of the whole server: no response waits in vain, and the pipeline never locks up. */
module ServerTheorems {
  import opened Server
  import opened ServerLinks
  import Reactor
  import ReactorOwners
  import ReactorSafety
  import ReactorStranded
  import ReactorFlow
  import ReactorLeaks
  import IoThreads
  import WorkerPool
  import WorkerPoolProgress
  import Mailbox

  // ---- Responses ------------------------------------------------------------------

  /** Thread `i` acts on a message for `c`. */
  predicate Acting(s: State, i: nat, c: Reactor.ConnId) {
    && i < |s.r.ios| && s.r.ios[i].point.Handling? && s.r.ios[i].point.msg in s.r.heap.msgs
    && s.r.heap.msgs[s.r.ios[i].point.msg].conn == c
  }

  /** A message for `c` waits in the inbox of thread `i`. */
  predicate Waiting(s: State, i: nat, c: Reactor.ConnId) {
    && i < |s.boxes|
    && exists m | m in s.boxes[i].inbox :: m in s.r.heap.msgs && s.r.heap.msgs[m].conn == c
  }

  /** It waits, and the thread is told of it or about to be. */
  predicate Announced(s: State, i: nat, c: Reactor.ConnId) {
    && Waiting(s, i, c)
    && (s.boxes[i].edge || !s.boxes[i].reader.Waiting? || Mailbox.SomeoneNotifies(s.boxes[i]))
  }

  /** It waits, and a refused byte left the thread unaware of it. */
  predicate Muted(s: State, i: nat, c: Reactor.ConnId) {
    Waiting(s, i, c) && Mailbox.Stranded(s.boxes[i]) && s.boxes[i].unheard
  }

  /**
    The event loop watches for writability, or a worker is about to announce the
    response, or a message announces it to an I/O thread that acts on it, drains its
    inbox, has an edge pending, or will get its byte from a worker.
   */
  ghost predicate OnItsWay(s: State, c: Reactor.ConnId) {
    || Reactor.Armed(s.r.heap, c)
    || (exists w :: Reactor.Announcing(s.r, w, c))
    || (exists i :: Acting(s, i, c))
    || (exists i :: Announced(s, i, c))
  }

  /**
    A response with unsent bytes on an open connection is on its way, with two
    exceptions: its message could not be allocated and nothing else covers it, or
    its message lies in an inbox whose wake-up byte was refused.
   */
  lemma ResponseIsOnItsWay(s: State, c: Reactor.ConnId)
    requires Reachable(s) && !s.r.misled && Reactor.Unsent(s.r.heap, c)
    ensures c !in s.r.stranded ==> OnItsWay(s, c) || exists i :: Muted(s, i, c)
    ensures c in s.r.stranded ==> !OnItsWay(s, c)
  {
    ServerProjects(s);
    ReactorSafety.ReachableInv(s.r);
    ReactorStranded.NoResponseIsStranded(s.r, c);
    if m :| Reactor.Pending(s.r, m, c) {
      PendingIsSeen(s, m, c);
    }
    if OnItsWay(s, c) {
      WaysAreCovers(s, c);
    }
  }

  lemma PendingIsSeen(s: State, m: Reactor.MsgId, c: Reactor.ConnId)
    requires Linked(s) && SidesReachable(s) && ReactorOwners.Inv(s.r) && Reactor.Pending(s.r, m, c)
    ensures (exists i :: Acting(s, i, c)) || (exists i :: Announced(s, i, c)) || (exists i :: Muted(s, i, c))
  {
    var i := s.r.heap.msgs[m].at.i;
    assert ReactorOwners.MsgAtOk(s.r, m);
    if s.r.heap.msgs[m].at.Taken? {
      assert Acting(s, i, c);
    } else {
      assert BoxAt(s, i);
      Mailbox.NoMessageIsStranded(s.boxes[i]);
      assert m in s.boxes[i].inbox;
      assert Announced(s, i, c) || Muted(s, i, c);
    }
  }

  /** Every way a response can be on covers it in the reactor's sense. */
  lemma WaysAreCovers(s: State, c: Reactor.ConnId)
    requires Linked(s) && ReactorOwners.Inv(s.r) && OnItsWay(s, c)
    ensures Reactor.Covered(s.r, c)
  {
    if i: nat :| Acting(s, i, c) {
      ReactorOwners.IoFacts(s.r, i);
      assert Reactor.Pending(s.r, s.r.ios[i].point.msg, c);
    } else if i: nat :| Announced(s, i, c) {
      WaitingIsPending(s, i, c);
    }
  }

  lemma WaitingIsPending(s: State, i: nat, c: Reactor.ConnId)
    requires Linked(s) && ReactorOwners.Inv(s.r) && Waiting(s, i, c)
    ensures exists m | m in s.r.heap.msgs :: Reactor.Pending(s.r, m, c)
  {
    var m :| m in s.boxes[i].inbox && m in s.r.heap.msgs && s.r.heap.msgs[m].conn == c;
    assert BoxAt(s, i);
    ReactorOwners.IoFacts(s.r, i);
    var k :| 0 <= k < |s.r.ios[i].inbox| && s.r.ios[i].inbox[k] == m;
    assert ReactorOwners.InboxAt(s.r.heap, i, s.r.ios[i].inbox, k);
    assert Reactor.Pending(s.r, m, c);
  }

  // ---- Workers ------------------------------------------------------------------------

  /** A step of worker `w`. */
  predicate WorkersStep(a: Action, w: nat) {
    match a
    case Pool(b) => WorkerPoolProgress.WorkerAction(b) && b.w == w
    case Take(v, _) => v == w
    case Work(v, _) => v == w
    case Send(v) => v == w
    case WriteByte(_, v) => v == w
    case ByteRefused(_, v) => v == w
    case Destroy(v) => v == w
    case _ => false
  }

  /** A worker with a task in its hands always has a step to take: it waits for no I/O thread. */
  lemma BusyWorkerMoves(s: State, w: nat) returns (a: Action)
    requires Linked(s) && w < |s.r.workers| && s.p.workers[w].Busy?
    ensures Can(s, a) && WorkersStep(a, w)
  {
    assert WorkerAt(s, w);
    match s.r.workers[w]
    case Checking(_) => a := Work(w, Reactor.Check);
    case Processing(_) => a := Work(w, Reactor.Process);
    case Confirming(_) => a := Work(w, Reactor.Confirm);
    case Sending(_) => a := SenderMoves(s, w);
    case Finishing(_) =>
      if Quiet(s, w) {
        a := Pool(WorkerPool.Count(w));
      } else {
        var i :| 0 <= i < |s.boxes| && w < |s.boxes[i].senders| && !s.boxes[i].senders[w].Quiet?;
        a := NotifierMoves(s, i, w);
      }
  }

  lemma NotifierMoves(s: State, i: nat, w: nat) returns (a: Action)
    requires Linked(s) && i < |s.boxes| && w < |s.boxes[i].senders| && s.boxes[i].senders[w].Notifying?
    ensures Can(s, a) && WorkersStep(a, w) && Own(a)
  {
    assert BoxAt(s, i);
    a := if s.boxes[i].bytes < s.boxes[i].capacity then WriteByte(i, w) else ByteRefused(i, w);
  }

  lemma SenderMoves(s: State, w: nat) returns (a: Action)
    requires Linked(s) && w < |s.r.workers| && s.r.workers[w].Sending?
    ensures Can(s, a) && a == Send(w)
  {
    a := Send(w);
    if Target(s, w).Some? {
      var i := Target(s, w).value;
      assert BoxAt(s, i) && SenderAt(s, i, w);
    }
  }

  /** Whatever step the pool allows a worker, the server allows it one. */
  lemma WorkerMoves(s: State, b: WorkerPool.Action) returns (a: Action)
    requires Linked(s) && WorkerPoolProgress.WorkerAction(b) && WorkerPool.Can(s.p, b)
    ensures Can(s, a) && WorkersStep(a, b.w)
  {
    assert WorkerAt(s, b.w);
    match b
    case Test(_) => a := Pool(b);
    case Null(_) => a := Pool(b);
    case Pop(w, pick) =>
      if WorkerPool.PopVerdict(|s.p.items|, s.p.closed) == WorkerPool.Proceed {
        a := Take(w, pick);
      } else {
        a := Pool(b);
      }
    case Count(w) => a := BusyWorkerMoves(s, w);
    case Destroy(w) => a := Destroy(w);
  }

  /** While the queue is full, and I/O threads may be blocked on it, some worker of the server can move. */
  lemma FullServerMoves(s: State) returns (w: nat, a: Action)
    requires Reachable(s) && !s.p.flag
    requires |s.p.workers| >= 1 && s.p.maxSize >= 1 && |s.p.items| >= s.p.maxSize
    ensures Can(s, a) && WorkersStep(a, w)
  {
    ServerProjects(s);
    var b := WorkerPoolProgress.FullQueueHasAWorkerToMove(s.p);
    w := b.w;
    a := WorkerMoves(s, b);
  }

  // ---- I/O threads ------------------------------------------------------------------------

  /** A push that the pool allows is one that the server allows. */
  lemma PushMoves(s: State, b: WorkerPool.Action) returns (a: Action)
    requires Linked(s) && b.Push? && WorkerPool.Can(s.p, b)
    ensures Can(s, a) && Own(a)
  {
    assert ProducerAt(s, b.p);
    match WorkerPool.PushVerdict(|s.p.items|, s.p.maxSize, s.p.closed)
    case Sleep => a := PushWaits(b.p, b.pick);
    case Refuse => a := PushRefused(b.p, b.pick);
    case Proceed => a := PushDone(b.p, b.pick);
  }

  /**
    The steps that threads take on their own: without new connections, socket
    events and data, spurious wake-ups and shutdown.
   */
  predicate Own(a: Action) {
    match a
    case Accept(_) => false
    case Io(_, x) => !x.Poll? && !x.Read? && !x.ReadNoTask? && !x.ReadNoPayload?
    case PollMail(_, batch) => batch == [Reactor.MailReady]
    case Pool(b) => WorkerPoolProgress.WorkerAction(b)
    case SetFlag => false
    case _ => true
  }

  /** An I/O thread that is not waiting for events, and not blocked in a push, has a step to take. */
  lemma IoMoves(s: State, i: nat) returns (a: Action)
    requires Linked(s) && i < |s.r.ios| && !s.r.ios[i].point.Polling? && s.p.producers[i].Idle?
    ensures Can(s, a) && Own(a)
  {
    match s.r.ios[i].point
    case Dispatch(_) => a := MailMoves(s, i);
    case Draining(_) => a := MailMoves(s, i);
    case Handling(_, _) => a := MailMoves(s, i);
    case Dropping(_, _) => a := MailMoves(s, i);
    case Adding(_, _) => a := Io(i, Reactor.AddFails);
    case InRead(_) => a := Io(i, Reactor.ReadStop);
    case Submitting(_, _) => a := if s.p.flag then Turned(i) else Enter(i);
    case AfterRead(_) => a := Io(i, Reactor.Recheck(false));
    case InWrite(_) => a := Io(i, Reactor.Write([]));
    case AfterWrite(_) => a := Io(i, Reactor.Recheck(false));
    case InError(_) => a := Io(i, Reactor.Hangup);
    case Unregistering(_, _, _) => a := Io(i, Reactor.Unregister);
    case Unreferencing(_, _) => a := Io(i, Reactor.Unreference);
  }

  lemma MailMoves(s: State, i: nat) returns (a: Action)
    requires Linked(s) && i < |s.r.ios| && (s.r.ios[i].point.Dispatch? || Mailing(s.r.ios[i].point))
    ensures Can(s, a) && Own(a)
  {
    assert BoxAt(s, i);
    match s.r.ios[i].point
    case Dispatch(batch) =>
      if batch != [] && batch[0].MailReady? {
        MailsTail(batch);
        a := TakeByte(i);
      } else {
        a := Io(i, Reactor.Next);
      }
    case Draining(_) => a := Drain(i);
    case Handling(_, _) => a := Io(i, Reactor.Handle);
    case Dropping(_, _) => a := DropMsg(i);
  }

  /** A waiting I/O thread whose message pipe has an edge pending is woken by it. */
  lemma EdgeMoves(s: State, i: nat)
    requires Linked(s) && i < |s.r.ios| && s.r.ios[i].point.Polling? && s.boxes[i].edge
    ensures Can(s, PollMail(i, [Reactor.MailReady]))
  {
    assert BoxAt(s, i);
    var batch := [Reactor.MailReady];
    MailsTail(batch);
    assert Reactor.Named(batch) == [] + Reactor.Named(batch[1..]) == [];
  }

  // ---- At rest ----------------------------------------------------------------------------

  ghost predicate Settled(s: State) {
    forall a: Action | Own(a) :: !Can(s, a)
  }

  lemma SettledPool(s: State)
    requires Reachable(s) && !s.p.flag && |s.p.workers| >= 1 && s.p.maxSize >= 1 && Settled(s)
    ensures s.p.items == [] && s.p.completed == |s.p.accepted|
    ensures forall i | 0 <= i < |s.p.producers| :: s.p.producers[i].Idle?
    ensures forall w | 0 <= w < |s.p.workers| :: s.p.workers[w] == WorkerPool.Popping(WorkerPool.Asleep)
  {
    ServerProjects(s);
    forall b: WorkerPool.Action | WorkerPoolProgress.Internal(b) ensures !WorkerPool.Can(s.p, b) {
      if WorkerPool.Can(s.p, b) {
        NotSettled(s, b);
      }
    }
    WorkerPoolProgress.SettledPoolIsDone(s.p);
  }

  lemma NotSettled(s: State, b: WorkerPool.Action)
    requires Linked(s) && WorkerPoolProgress.Internal(b) && WorkerPool.Can(s.p, b)
    ensures !Settled(s)
  {
    if b.Push? {
      var a := PushMoves(s, b);
    } else {
      var a := WorkerMoves(s, b);
      assert Own(a);
    }
  }

  lemma SettledThread(s: State, i: nat)
    requires Linked(s) && SidesReachable(s) && Settled(s) && i < |s.r.ios| && s.p.producers[i].Idle?
    ensures s.r.ios[i].point == Reactor.Polling
    ensures s.r.ios[i].inbox == [] <==> !s.boxes[i].unheard
    ensures s.boxes[i].unheard ==> Mailbox.Stranded(s.boxes[i])
  {
    if s.r.ios[i].point != Reactor.Polling {
      var a := IoMoves(s, i);
      assert false;
    }
    assert BoxAt(s, i);
    Mailbox.NoMessageIsStranded(s.boxes[i]);
    if s.boxes[i].edge {
      EdgeMoves(s, i);
    } else if Mailbox.SomeoneNotifies(s.boxes[i]) {
      var w :| 0 <= w < |s.boxes[i].senders| && s.boxes[i].senders[w].Notifying?;
      var a := NotifierMoves(s, i, w);
      assert false;
    }
  }

  /**
    When no thread of a running server can move by itself, every thread waits, the
    queue is empty, every task the queue accepted was completed and destroyed, and
    an inbox is empty exactly unless a wake-up byte was refused for it.
   */
  lemma SettledServer(s: State)
    requires Reachable(s) && !s.r.misled && !s.p.flag && |s.p.workers| >= 1 && s.p.maxSize >= 1 && Settled(s)
    ensures s.r.queue == [] && s.p.completed == |s.r.accepted|
    ensures forall k | 0 <= k < |s.r.accepted| :: s.r.accepted[k].task !in s.r.heap.tasks
    ensures |s.boxes| == |s.r.ios|
    ensures forall i | 0 <= i < |s.r.ios| ::
              s.r.ios[i].point == Reactor.Polling && (s.r.ios[i].inbox == [] <==> !s.boxes[i].unheard)
    ensures forall w | 0 <= w < |s.r.workers| :: s.r.workers[w] == Reactor.Free
  {
    ServerProjects(s);
    SettledPool(s);
    forall i | 0 <= i < |s.r.ios|
      ensures s.r.ios[i].point == Reactor.Polling && (s.r.ios[i].inbox == [] <==> !s.boxes[i].unheard)
    {
      SettledThread(s, i);
    }
    forall w | 0 <= w < |s.r.workers| ensures s.r.workers[w] == Reactor.Free {
      assert WorkerAt(s, w);
    }
    forall k | 0 <= k < |s.r.accepted| ensures s.r.accepted[k].task !in s.r.heap.tasks {
      AcceptedIsDestroyed(s.r, k);
    }
  }

  /** An accepted task that is neither queued nor with a worker was destroyed. */
  lemma AcceptedIsDestroyed(r: Reactor.State, k: nat)
    requires Reactor.Reachable(r) && !r.misled && k < |r.accepted| && r.queue == []
    requires forall w | 0 <= w < |r.workers| :: r.workers[w] == Reactor.Free
    ensures r.accepted[k].task !in r.heap.tasks
  {
    ReactorFlow.ReachableFlow(r);
    assert ReactorFlow.EntryAt(r, k);
    var t := r.accepted[k].task;
    assert t in r.heap.tasks ==> ReactorOwners.TaskAtOk(r, t);
  }

  /**
    In such a server every response with unsent bytes is watched for writability,
    unless a failed message left it without a cover, or its message lies in an inbox
    whose wake-up byte was refused.
   */
  lemma SettledResponses(s: State, c: Reactor.ConnId)
    requires Reachable(s) && !s.r.misled && !s.p.flag && |s.p.workers| >= 1 && s.p.maxSize >= 1 && Settled(s)
    requires Reactor.Unsent(s.r.heap, c)
    ensures Reactor.Armed(s.r.heap, c) || c in s.r.stranded || exists i :: Muted(s, i, c)
    ensures c in s.r.stranded ==> !Reactor.Armed(s.r.heap, c)
  {
    ServerProjects(s);
    ReactorSafety.ReachableInv(s.r);
    ResponseIsOnItsWay(s, c);
    SettledPool(s);
    forall i: nat ensures !Announced(s, i, c) && !Acting(s, i, c) {
      NothingUnderWay(s, i, c);
    }
    forall w: nat ensures !Reactor.Announcing(s.r, w, c) {
      assert w < |s.r.workers| ==> WorkerAt(s, w);
    }
  }

  lemma NothingUnderWay(s: State, i: nat, c: Reactor.ConnId)
    requires Linked(s) && SidesReachable(s) && Settled(s)
    requires forall j | 0 <= j < |s.p.producers| :: s.p.producers[j].Idle?
    ensures !Announced(s, i, c) && !Acting(s, i, c)
  {
    if i < |s.boxes| {
      SettledThread(s, i);
      assert BoxAt(s, i);
    }
  }

  /**
    When such a server has no connection on its way to an I/O thread either, a
    connection was freed exactly when it was closed, the payload of no task could
    not be allocated for it, and no message for it lies in an inbox whose wake-up
    byte was refused.
   */
  lemma SettledServerFrees(s: State, c: Reactor.ConnId)
    requires Reachable(s) && !s.r.misled && !s.p.flag && |s.p.workers| >= 1 && s.p.maxSize >= 1 && Settled(s)
    requires s.r.accept == Reactor.Accepting && forall i | 0 <= i < |s.r.ios| :: s.r.ios[i].pipe == []
    requires c < |s.r.heap.slots|
    ensures |s.r.chunks| == |s.r.heap.slots|
    ensures !s.r.heap.slots[c].live
            <==> && !s.r.heap.slots[c].base.Registered? && (forall i :: !Muted(s, i, c))
                 && forall k | 0 <= k < |s.r.chunks[c]| :: s.r.chunks[c][k].fate != IoThreads.NoPayload
  {
    ServerProjects(s);
    SettledServer(s);
    ReactorLeaks.FreedIffNothingLeaked(s.r, c);
    ReactorLeaks.NothingRefusedWhileUp(s.r, c);
    ReactorLeaks.CountZeroIff(IoThreads.Refused, s.r.chunks[c]);
    SettledPool(s);
    MutedIffWaits(s, c);
  }

  /** In a settled server a message waits only where a byte was refused. */
  lemma MutedIffWaits(s: State, c: Reactor.ConnId)
    requires Linked(s) && SidesReachable(s) && Settled(s)
    requires forall i | 0 <= i < |s.p.producers| :: s.p.producers[i].Idle?
    ensures ReactorLeaks.Waits(s.r, c) <==> exists i :: Muted(s, i, c)
  {
    forall i: nat | Waiting(s, i, c) ensures Muted(s, i, c) && ReactorLeaks.Waits(s.r, c) {
      assert BoxAt(s, i);
      SettledThread(s, i);
    }
    if ReactorLeaks.Waits(s.r, c) {
      var i, m :| 0 <= i < |s.r.ios| && m in s.r.ios[i].inbox && m in s.r.heap.msgs && s.r.heap.msgs[m].conn == c;
      assert BoxAt(s, i);
      assert Waiting(s, i, c);
    }
  }
}

/** Every step of the accept thread and of a worker keeps the invariant; so every reachable state has it. */
module ReactorSafety {
  import opened Connections
  import opened Reactor
  import opened ReactorHeap
  import opened ReactorOwners
  import opened ReactorIoSteps

  // ---- Accept thread ----------------------------------------------------------

  /** The accept thread moved, slots were added or changed, and no thread lost anything. */
  lemma AcceptStep(s: State, t: State)
    requires Inv(s) && HeapOk(t.heap)
    requires t.ios == s.ios && t.workers == s.workers && t.queue == s.queue
    requires t.nextTask == s.nextTask && t.nextMsg == s.nextMsg
    requires t.heap.tasks == s.heap.tasks && t.heap.msgs == s.heap.msgs
    requires forall j: nat :: KeepsIo(s.heap, t.heap, j)
    requires AcceptOk(t.heap, |t.ios|, t.accept)
    requires |s.heap.slots| <= |t.heap.slots|
    requires forall c | 0 <= c < |t.heap.slots| :: BaseAt(t, c)
    requires forall c | 0 <= c < |s.heap.slots| :: t.heap.slots[c].conn.io == s.heap.slots[c].conn.io
    ensures Inv(t)
  {
    forall j | 0 <= j < |t.ios| ensures IoAt(t, j) {
      assert IoAt(s, j) && KeepsIo(s.heap, t.heap, j);
      IoFrame(s.heap, t.heap, j, s.ios[j]);
    }
    forall w | 0 <= w < |t.workers| ensures WorkerAt(t, w) {
      assert WorkerAt(s, w);
    }
    forall k | 0 <= k < |t.queue| ensures QueueAt(t.heap, t.queue, k) {
      assert QueueAt(s.heap, s.queue, k);
    }
    forall x | x in t.heap.tasks ensures TaskAtOk(t, x) {
      assert TaskAtOk(s, x);
    }
    forall m | m in t.heap.msgs ensures MsgAtOk(t, m) {
      assert MsgAtOk(s, m);
    }
  }

  lemma KeepNewFd(s: State, fd: nat)
    requires Inv(s) && s.accept == Accepting && fd !in s.heap.openFds
    ensures Inv(DoAccept(s, Accept(fd)))
  {
    var t := DoAccept(s, Accept(fd));
    SameTables(s.heap, t.heap);
    HeldSlots(s.heap, t.heap);
    forall c | 0 <= c < |t.heap.slots| ensures FdIsNot(t.heap, fd, c) && BaseAt(t, c) {
      assert FdAt(s.heap, c) && BaseAt(s, c);
    }
    AcceptStep(s, t);
  }

  lemma KeepCreate(s: State, i: nat)
    requires Inv(s) && s.accept.Accepted? && i < |s.ios|
    ensures Inv(DoCreate(s, i))
  {
    var t, h, fd := DoCreate(s, i), s.heap, s.accept.fd;
    forall c | 0 <= c < |h.slots| ensures h.slots[c].conn.fd != fd {
      assert FdIsNot(h, fd, c);
    }
    HeapCreate(h, fd, i);
    forall c | 0 <= c < |t.heap.slots| ensures BaseAt(t, c) {
      assert BaseAt(s, c);
    }
    AcceptStep(s, t);
  }

  lemma KeepReclosing(s: State)
    requires Inv(s) && s.accept.Accepted?
    ensures Inv(s.(accept := Reclosing(s.accept.fd)))
  {
    var t := s.(accept := Reclosing(s.accept.fd));
    forall c | 0 <= c < |t.heap.slots| ensures BaseAt(t, c) {
      assert BaseAt(s, c);
    }
    AcceptStep(s, t);
  }

  /** Closing the descriptor a second time hits no connection and no registration. */
  lemma KeepReclose(s: State)
    requires Inv(s) && s.accept.Reclosing?
    ensures Inv(DoAccept(s, Reclose))
    ensures DoAccept(s, Reclose).heap.reg == s.heap.reg
  {
    var t, fd := DoAccept(s, Reclose), s.accept.fd;
    forall c | 0 <= c < |s.heap.slots| ensures s.heap.slots[c].conn.fd != fd {
      assert FdIsNot(s.heap, fd, c);
    }
    HeapCloseStray(s.heap, fd);
    forall c | 0 <= c < |t.heap.slots| ensures BaseAt(t, c) {
      assert BaseAt(s, c);
    }
    AcceptStep(s, t);
  }

  lemma KeepHandOffFails(s: State)
    requires Inv(s) && s.accept.Handing?
    ensures Inv(DoHandOffFails(s))
  {
    var t, h, c, fd := DoHandOffFails(s), s.heap, s.accept.conn, s.accept.fd;
    SlotFacts(h, c);
    HeapReleaseBase(h, c);
    forall d | 0 <= d < |t.heap.slots| ensures FdIsNot(t.heap, fd, d) && BaseAt(t, d) {
      assert FdsApart(h, c, d) && BaseAt(s, d);
    }
    AcceptStep(s, t);
  }

  lemma KeepHandOff(s: State)
    requires Inv(s) && s.accept.Handing? && s.accept.io < |s.ios|
    ensures Inv(DoHandOff(s))
  {
    var t, h, c, i := DoHandOff(s), s.heap, s.accept.conn, s.accept.io;
    var pipe := s.ios[i].pipe;
    SlotFacts(h, c);
    HeapMoveBase(h, c, InPipe(i));
    IoFacts(s, i);
    forall k | 0 <= k < |pipe| ensures pipe[k] != c {
      assert PipeAt(h, i, pipe, k);
    }
    DistinctSnoc(pipe, c);
    forall j | 0 <= j < |t.ios| ensures IoAt(t, j) {
      assert IoAt(s, j) && KeepsIo(h, t.heap, j);
      IoFrame(h, t.heap, j, s.ios[j]);
      if j == i {
        forall k | 0 <= k < |t.ios[i].pipe| ensures PipeAt(t.heap, i, t.ios[i].pipe, k) {
          assert PipeAt(t.heap, i, pipe, k);
        }
      }
    }
    forall w | 0 <= w < |t.workers| ensures WorkerAt(t, w) {
      assert WorkerAt(s, w);
    }
    forall k | 0 <= k < |t.queue| ensures QueueAt(t.heap, t.queue, k) {
      assert QueueAt(h, s.queue, k);
    }
    KeepHandOffObjects(s);
  }

  lemma KeepHandOffObjects(s: State)
    requires ObjectsOk(s) && s.accept.Handing? && s.accept.io < |s.ios| && Owns(s.heap, s.accept.conn, AtAccept)
    ensures ObjectsOk(DoHandOff(s))
  {
    var t, c := DoHandOff(s), s.accept.conn;
    forall d | 0 <= d < |t.heap.slots| ensures BaseAt(t, d) {
      assert BaseAt(s, d);
      assert c in t.ios[s.accept.io].pipe;
    }
    forall x | x in t.heap.tasks ensures TaskAtOk(t, x) {
      assert TaskAtOk(s, x);
    }
    forall m | m in t.heap.msgs ensures MsgAtOk(t, m) {
      assert MsgAtOk(s, m);
    }
  }

  lemma KeepAccept(s: State, a: AcceptAction)
    requires Inv(s) && CanAccept(s, a)
    ensures Inv(DoAccept(s, a))
  {
    match a
    case Accept(fd) => KeepNewFd(s, fd);
    case Create(i) => KeepCreate(s, i);
    case CreateFails => KeepReclosing(s);
    case HandOff => KeepHandOff(s);
    case HandOffFails => KeepHandOffFails(s);
    case Reclose => KeepReclose(s);
  }

  // ---- Workers ----------------------------------------------------------------

  /** A task that needs no second look after a step of worker `w`. */
  predicate TaskKept(s: State, t: State, w: nat, x: TaskId) {
    x in t.heap.tasks ==>
      || (x in s.heap.tasks && t.heap.tasks[x] == s.heap.tasks[x] && s.heap.tasks[x].at != WorkerHand(w)
          && (x in s.queue ==> x in t.queue))
      || (x < t.nextTask && TaskFound(t, x, t.heap.tasks[x].at))
  }

  /** The objects of a step of worker `w` that leaves I/O threads and messages alone. */
  lemma WorkerStepObjects(s: State, t: State, w: nat)
    requires ObjectsOk(s) && w < |s.workers| == |t.workers| && t.ios == s.ios && t.accept == s.accept
    requires t.workers == s.workers[w := t.workers[w]]
    requires t.nextTask == s.nextTask && t.nextMsg == s.nextMsg && t.heap.msgs == s.heap.msgs
    requires |t.heap.slots| == |s.heap.slots|
    requires forall c | 0 <= c < |t.heap.slots| ::
               && (t.heap.slots[c].live ==> s.heap.slots[c].live) && t.heap.slots[c].base == s.heap.slots[c].base
               && t.heap.slots[c].conn.io == s.heap.slots[c].conn.io
    requires forall x | x in t.heap.tasks :: TaskKept(s, t, w, x)
    ensures ObjectsOk(t)
  {
    forall c | 0 <= c < |t.heap.slots| ensures BaseAt(t, c) {
      assert BaseAt(s, c);
    }
    forall x | x in t.heap.tasks ensures TaskAtOk(t, x) {
      assert TaskAtOk(s, x) && TaskKept(s, t, w, x);
    }
    forall m | m in t.heap.msgs ensures MsgAtOk(t, m) {
      assert MsgAtOk(s, m);
    }
  }

  /** A step in which worker `w` keeps its task and changes at most the slot `c`. */
  lemma WorkerSlotStep(s: State, t: State, w: nat, c: ConnId)
    requires Inv(s) && HeapOk(t.heap) && w < |s.workers| == |t.workers| && t.ios == s.ios && t.accept == s.accept
    requires t.workers == s.workers[w := t.workers[w]] && t.queue == s.queue
    requires t.nextTask == s.nextTask && t.nextMsg == s.nextMsg
    requires !s.workers[w].Free? && !t.workers[w].Free? && t.workers[w].task == s.workers[w].task
    requires OneSlot(s.heap, t.heap, c) && t.heap.reg == s.heap.reg
    requires t.heap.slots[c].base == s.heap.slots[c].base && t.heap.slots[c].live == s.heap.slots[c].live
    requires t.heap.slots[c].conn.io == s.heap.slots[c].conn.io
    ensures Inv(t)
  {
    OneSlotOnlyWorker(s.heap, t.heap, c, w);
    WorkerFacts(s, w);
    QueueFrame(s.heap, t.heap, s.queue);
    WorkerStepThreads(s, t, w);
    forall x | x in t.heap.tasks ensures TaskKept(s, t, w, x) {
      assert TaskAtOk(s, x);
    }
    WorkerStepObjects(s, t, w);
  }

  /** The task in a worker's hands names a live connection that is past its hand-off. */
  lemma WorkerHolds(s: State, w: nat)
    requires Inv(s) && w < |s.workers| && !s.workers[w].Free?
    ensures var t := s.workers[w].task;
            && TaskIs(s.heap, t, WorkerHand(w)) && Live(s.heap, s.heap.tasks[t].conn)
            && !Early(s.heap.slots[s.heap.tasks[t].conn].base) && s.heap.slots[s.heap.tasks[t].conn].held >= 1
            && s.heap.slots[s.heap.tasks[t].conn].conn.io < |s.ios|
            && SlotOk(s.heap.slots[s.heap.tasks[t].conn])
  {
    WorkerFacts(s, w);
    var t := s.workers[w].task;
    TaskNamesLive(s.heap, t);
    SlotFacts(s.heap, s.heap.tasks[t].conn);
    assert BaseAt(s, s.heap.tasks[t].conn);
  }

  lemma KeepTest(s: State, w: nat, open: WorkerPoint)
    requires Inv(s) && w < |s.workers| && !s.workers[w].Free?
    requires !open.Free? && open.task == s.workers[w].task
    ensures Inv(DoTest(s, w, s.workers[w].task, open))
  {
    WorkerHolds(s, w);
    WorkerSlotStep(s, DoTest(s, w, s.workers[w].task, open), w, s.heap.tasks[s.workers[w].task].conn);
  }

  lemma KeepProcess(s: State, w: nat)
    requires Inv(s) && w < |s.workers| && s.workers[w].Processing?
    ensures Inv(DoProcess(s, w))
  {
    WorkerHolds(s, w);
    var h, t := s.heap, s.workers[w].task;
    var c := h.tasks[t].conn;
    HeapSetConn(h, c, Installed(h.slots[c].conn, h.tasks[t].payload));
    WorkerSlotStep(s, DoProcess(s, w), w, c);
  }

  lemma KeepSendFails(s: State, w: nat)
    requires Inv(s) && w < |s.workers| && s.workers[w].Sending?
    ensures Inv(DoSendFails(s, w))
  {
    WorkerHolds(s, w);
    WorkerSlotStep(s, DoSendFails(s, w), w, s.heap.tasks[s.workers[w].task].conn);
  }

  /** Worker `w` takes or gives up tasks only. */
  lemma TaskOnlyWorker(h: Heap, g: Heap, t: TaskId, w: nat)
    requires g == h.(tasks := g.tasks) && g.tasks - {t} == h.tasks - {t}
    requires t in h.tasks && (h.tasks[t].at == Queued || h.tasks[t].at == WorkerHand(w))
    ensures OnlyWorker(h, g, w)
    ensures forall at | at != h.tasks[t].at :: KeepsTasks(h, g, at)
  {
    forall x | x in h.tasks && x != t ensures x in g.tasks && g.tasks[x] == h.tasks[x] {
      assert x in h.tasks - {t} && (h.tasks - {t})[x] == (g.tasks - {t})[x];
    }
    forall j: nat ensures KeepsIo(h, g, j) {
      forall x: TaskId ensures KeepsHand(h, g, j, x) {
      }
    }
    forall at | at != h.tasks[t].at ensures KeepsTasks(h, g, at) {
      forall x: TaskId ensures KeepsTaskAt(h, g, at, x) {
      }
    }
    forall fd ensures KeepsStray(h, g, fd) {
      forall d | Stray(h, fd) && 0 <= d < |g.slots| ensures FdIsNot(g, fd, d) {
        assert FdIsNot(h, fd, d);
      }
    }
  }

  lemma KeepPop(s: State, w: nat)
    requires Inv(s) && w < |s.workers| && s.workers[w] == Free && s.queue != []
    ensures Inv(DoPop(s, w))
  {
    var u, x := DoPop(s, w), s.queue[0];
    assert QueueAt(s.heap, s.queue, 0);
    HeapMoveTask(s.heap, x, WorkerHand(w));
    TaskOnlyWorker(s.heap, u.heap, x, w);
    DistinctTail(s.queue);
    forall k | 0 <= k < |u.queue| ensures QueueAt(u.heap, u.queue, k) {
      assert QueueAt(s.heap, s.queue, k + 1) && u.queue[k] in s.queue[1..];
    }
    WorkerStepThreads(s, u, w);
    forall y | y in u.heap.tasks ensures TaskKept(s, u, w, y) {
      assert TaskAtOk(s, y);
    }
    WorkerStepObjects(s, u, w);
  }

  lemma KeepFinish(s: State, w: nat)
    requires Inv(s) && w < |s.workers| && s.workers[w].Finishing?
    ensures Inv(DoFinish(s, w))
  {
    WorkerHolds(s, w);
    var u, h, x := DoFinish(s, w), s.heap, s.workers[w].task;
    var c, k := h.tasks[x].conn, h.(tasks := h.tasks - {x});
    HeapDropTask(h, x);
    TaskOnlyWorker(h, k, x, w);
    OneSlotOnlyWorker(k, u.heap, c, w);
    OnlyWorkerTrans(h, k, u.heap, w);
    KeepsTasksTrans(h, k, u.heap, Queued);
    QueueFrame(h, u.heap, s.queue);
    WorkerStepThreads(s, u, w);
    forall y | y in u.heap.tasks ensures TaskKept(s, u, w, y) {
      assert TaskAtOk(s, y);
    }
    WorkerStepObjects(s, u, w);
  }

  /** A new message for I/O thread `i` disturbs nobody. */
  lemma NewMsgOnlyWorker(h: Heap, g: Heap, m: MsgId, w: nat)
    requires g == h.(msgs := g.msgs) && m !in h.msgs && m in g.msgs && g.msgs == h.msgs[m := g.msgs[m]]
    ensures OnlyWorker(h, g, w) && KeepsTasks(h, g, WorkerHand(w)) && KeepsTasks(h, g, Queued)
  {
    forall fd ensures KeepsStray(h, g, fd) {
      forall d | Stray(h, fd) && 0 <= d < |g.slots| ensures FdIsNot(g, fd, d) {
        assert FdIsNot(h, fd, d);
      }
    }
  }

  /** A message that takes its reference disturbs nobody. */
  lemma SendHeap(h: Heap, c: ConnId, m: MsgId, i: nat, w: nat)
    requires HeapOk(h) && Live(h, c) && !Early(h.slots[c].base) && m !in h.msgs
    ensures var a := AcquireConn(h, c, false);
            var g := a.(msgs := a.msgs[m := Msg(c, Inbox(i))]);
            HeapOk(g) && OnlyWorker(h, g, w) && KeepsTasks(h, g, WorkerHand(w)) && KeepsTasks(h, g, Queued)
  {
    var a := AcquireConn(h, c, false);
    var g := a.(msgs := a.msgs[m := Msg(c, Inbox(i))]);
    HeapNewMsg(h, c, m, Msg(c, Inbox(i)));
    SlotFacts(h, c);
    OneSlotOnlyWorker(h, a, c, w);
    NewMsgOnlyWorker(a, g, m, w);
    OnlyWorkerTrans(h, a, g, w);
    KeepsTasksTrans(h, a, g, Queued);
    KeepsTasksTrans(h, a, g, WorkerHand(w));
  }

  lemma KeepSend(s: State, w: nat)
    requires Inv(s) && w < |s.workers| && s.workers[w].Sending?
    ensures Inv(DoSend(s, w))
  {
    WorkerHolds(s, w);
    var u, h, x, m := DoSend(s, w), s.heap, s.workers[w].task, s.nextMsg;
    var c := h.tasks[x].conn;
    var i := h.slots[c].conn.io;
    assert MsgAtOk(s, m);
    SendHeap(h, c, m, i, w);
    QueueFrame(h, u.heap, s.queue);
    KeepSendInbox(s, w, u, i);
    WorkerStepThreads(s, u, w);
    KeepSendObjects(s, w, u, i);
  }

  lemma KeepSendInbox(s: State, w: nat, u: State, i: nat)
    requires ThreadsOk(s) && ObjectsOk(s) && i < |s.ios| && OnlyWorker(s.heap, u.heap, w)
    requires u.ios == s.ios[i := s.ios[i].(inbox := s.ios[i].inbox + [s.nextMsg])]
    requires MsgIs(u.heap, s.nextMsg, Inbox(i)) && s.nextMsg !in s.heap.msgs
    ensures forall j | 0 <= j < |s.ios| :: u.ios[j] == s.ios[j] || IoOk(u.heap, j, u.ios[j])
  {
    var inbox := s.ios[i].inbox;
    IoFacts(s, i);
    assert KeepsIo(s.heap, u.heap, i);
    IoFrame(s.heap, u.heap, i, s.ios[i]);
    forall k | 0 <= k < |inbox| ensures inbox[k] != s.nextMsg {
      assert InboxAt(s.heap, i, inbox, k);
    }
    DistinctSnoc(inbox, s.nextMsg);
    forall k | 0 <= k < |u.ios[i].inbox| ensures InboxAt(u.heap, i, u.ios[i].inbox, k) {
      assert InboxAt(u.heap, i, inbox, k);
    }
  }

  lemma KeepSendObjects(s: State, w: nat, u: State, i: nat)
    requires ObjectsOk(s) && i < |s.ios| && w < |s.workers| && s.workers[w].Sending?
    requires u.ios == s.ios[i := s.ios[i].(inbox := s.ios[i].inbox + [s.nextMsg])]
    requires u.workers == s.workers[w := Finishing(s.workers[w].task)] && u.accept == s.accept && u.queue == s.queue
    requires u.heap.tasks == s.heap.tasks && |u.heap.slots| == |s.heap.slots|
    requires s.nextMsg in u.heap.msgs && u.heap.msgs == s.heap.msgs[s.nextMsg := u.heap.msgs[s.nextMsg]]
    requires u.heap.msgs[s.nextMsg].at == Inbox(i) && u.heap.msgs[s.nextMsg].conn < |s.heap.slots|
    requires s.heap.slots[u.heap.msgs[s.nextMsg].conn].conn.io == i
    requires u.nextTask == s.nextTask && u.nextMsg == s.nextMsg + 1
    requires forall c | 0 <= c < |u.heap.slots| ::
               && u.heap.slots[c].live == s.heap.slots[c].live && u.heap.slots[c].base == s.heap.slots[c].base
               && u.heap.slots[c].conn.io == s.heap.slots[c].conn.io
    ensures ObjectsOk(u)
  {
    forall c | 0 <= c < |u.heap.slots| ensures BaseAt(u, c) {
      assert BaseAt(s, c);
    }
    forall x | x in u.heap.tasks ensures TaskAtOk(u, x) {
      assert TaskAtOk(s, x);
    }
    forall m | m in u.heap.msgs ensures MsgAtOk(u, m) {
      assert MsgAtOk(s, m);
      assert s.nextMsg in u.ios[i].inbox;
    }
  }

  lemma KeepWorker(s: State, w: nat, y: WorkerAction)
    requires Inv(s) && w < |s.workers| && CanWorker(s, w, y)
    ensures Inv(DoWorker(s, w, y))
  {
    match y
    case Pop => KeepPop(s, w);
    case Check => KeepTest(s, w, Processing(s.workers[w].task));
    case Process => KeepProcess(s, w);
    case Confirm => KeepTest(s, w, Sending(s.workers[w].task));
    case Send => KeepSend(s, w);
    case SendFails => KeepSendFails(s, w);
    case Finish => KeepFinish(s, w);
  }

  // ---- Whole runs ---------------------------------------------------------------

  /** Every step keeps the invariant, unless a test of a freed connection answers that it is open. */
  lemma KeepStep(s: State, a: Action)
    requires Inv(s) && Can(s, a) && !Do(s, a).misled
    ensures Inv(Do(s, a))
  {
    match a
    case ByAccept(b) => KeepAccept(s, b);
    case ByIo(i, x) => KeepIo(s, i, x);
    case ByWorker(w, y) => KeepWorker(s, w, y);
    case Shutdown => InvSame(s, s.(down := true));
  }

  lemma MisledStays(s: State, a: Action)
    requires Can(s, a)
    ensures s.misled ==> Do(s, a).misled
  {
    match a
    case ByAccept(b) => assert DoAccept(s, b).misled == s.misled;
    case ByIo(i, x) => assert !x.Recheck? ==> DoIo(s, i, x).misled == s.misled;
    case ByWorker(w, y) => assert DoWorker(s, w, y).misled == s.misled;
    case Shutdown =>
  }

  lemma {:induction false} NeverMisled(s: State, acts: seq<Action>, t: State)
    requires Run(s, acts, t) && !t.misled
    ensures !s.misled
    decreases |acts|
  {
    if acts != [] {
      NeverMisled(Do(s, acts[0]), acts[1..], t);
      MisledStays(s, acts[0]);
    }
  }

  lemma InvInit(s: State)
    requires Init(s)
    ensures Inv(s)
  {
  }

  lemma {:induction false} InvRun(s: State, acts: seq<Action>, t: State)
    requires Inv(s) && Run(s, acts, t) && !t.misled
    ensures Inv(t)
    decreases |acts|
  {
    if acts != [] {
      NeverMisled(Do(s, acts[0]), acts[1..], t);
      KeepStep(s, acts[0]);
      InvRun(Do(s, acts[0]), acts[1..], t);
    }
  }

  lemma ReachableInv(s: State)
    requires Reachable(s) && !s.misled
    ensures Inv(s)
  {
    var s0: State, acts: seq<Action> :| Init(s0) && Run(s0, acts, s);
    InvInit(s0);
    InvRun(s0, acts, s);
  }
}

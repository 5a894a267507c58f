/** Every step of an I/O thread keeps the protocol's invariant. */
module ReactorIoSteps {
  import opened Connections
  import opened IoThreads
  import opened Reactor
  import opened ReactorHeap
  import opened ReactorOwners

  /** A step that moves only the program point of thread `i`. */
  lemma PointStep(s: State, t: State, i: nat)
    requires Inv(s) && IoMoved(s, t, i) && t.heap == s.heap && t.queue == s.queue
    requires t.ios[i].pipe == s.ios[i].pipe && t.ios[i].inbox == s.ios[i].inbox
    requires t.nextTask == s.nextTask && t.nextMsg == s.nextMsg
    requires !s.ios[i].point.Submitting? && !s.ios[i].point.Handling? && !s.ios[i].point.Dropping?
    requires !s.ios[i].point.Adding?
    requires s.ios[i].point.Unregistering? || s.ios[i].point.Unreferencing? ==>
               t.ios[i].point.Unreferencing? && t.ios[i].point.f == s.ios[i].point.f
    requires PointOk(s.heap, i, t.ios[i].point)
    ensures Inv(t)
  {
    IoFacts(s, i);
    forall c | 0 <= c < |t.heap.slots| ensures BaseCarried(s, t, i, c) {
      assert BaseAt(s, c);
    }
    IoStep(s, t, i);
  }

  lemma KeepPoll(s: State, i: nat, batch: seq<Event>)
    requires Inv(s) && i < |s.ios| && CanIo(s, i, Poll(batch))
    ensures Inv(Goto(s, i, Dispatch(batch)))
  {
    var h, named := s.heap, Named(batch);
    forall k | 0 <= k < |named| ensures NamedAt(h, i, named, k) {
      assert Reported(h, i, named[k]);
      var fd :| (i, fd) in h.reg && h.reg[(i, fd)].conn == named[k];
      assert RegAt(h, (i, fd));
    }
    PointStep(s, Goto(s, i, Dispatch(batch)), i);
  }

  /** A registered connection is live, open and valid. */
  lemma RegisteredIsValid(h: Heap, c: ConnId, i: nat)
    requires SlotsOk(h) && Owns(h, c, Registered(i))
    ensures SeesValid(h, c) && h.slots[c].conn.fd >= 0
  {
    SlotFacts(h, c);
  }

  /** Dispatching an event only moves the program point, unless it takes a connection out of the pipe. */
  lemma NextMovesPoint(s: State, i: nat)
    requires HeapOk(s.heap) && i < |s.ios| && s.ios[i].point.Dispatch?
    requires PointOk(s.heap, i, s.ios[i].point)
    requires s.ios[i].point.batch == [] || !s.ios[i].point.batch[0].PipeReady? || s.ios[i].pipe == []
    ensures var t := DoNext(s, i);
            && IoMoved(s, t, i) && t == Goto(s, i, t.ios[i].point) && PointOk(s.heap, i, t.ios[i].point)
            && !t.ios[i].point.Submitting?
  {
    var batch := s.ios[i].point.batch;
    if batch != [] {
      BatchTail(s.heap, i, batch);
      if batch[0].Ready? {
        RegisteredIsValid(s.heap, batch[0].conn, i);
      }
    }
  }

  lemma KeepNextEvent(s: State, i: nat)
    requires Inv(s) && i < |s.ios| && s.ios[i].point.Dispatch?
    requires s.ios[i].point.batch == [] || !s.ios[i].point.batch[0].PipeReady? || s.ios[i].pipe == []
    ensures Inv(DoNext(s, i))
  {
    IoFacts(s, i);
    NextMovesPoint(s, i);
    PointStep(s, DoNext(s, i), i);
  }

  /** Taking a new connection out of the hand-off pipe. */
  lemma KeepNextPipe(s: State, i: nat)
    requires Inv(s) && i < |s.ios| && s.ios[i].point.Dispatch? && s.ios[i].pipe != []
    requires s.ios[i].point.batch != [] && s.ios[i].point.batch[0].PipeReady?
    ensures Inv(DoNext(s, i))
  {
    var t, h, pipe := DoNext(s, i), s.heap, s.ios[i].pipe;
    var c := pipe[0];
    IoFacts(s, i);
    assert PipeAt(h, i, pipe, 0);
    SlotFacts(h, c);
    HeapMoveBase(h, c, BeingAdded(i));
    OneSlotOnlyIo(h, t.heap, c, i);
    BatchTail(h, i, s.ios[i].point.batch);
    BatchSlot(h, t.heap, i, RestOf(t.ios[i].point), c);
    DistinctTail(pipe);
    forall k | 0 <= k < |pipe[1..]| ensures PipeAt(t.heap, i, pipe[1..], k) {
      assert PipeAt(h, i, pipe, k + 1) && pipe[1..][k] in pipe[1..];
    }
    forall k | 0 <= k < |t.ios[i].inbox| ensures InboxAt(t.heap, i, t.ios[i].inbox, k) {
      assert InboxAt(h, i, s.ios[i].inbox, k);
    }
    IoStepThreads(s, t, i);
    KeepNextPipeObjects(s, t, i);
  }

  lemma KeepNextPipeObjects(s: State, t: State, i: nat)
    requires ObjectsOk(s) && i < |s.ios| && s.ios[i].point.Dispatch? && s.ios[i].pipe != []
    requires s.ios[i].point.batch != [] && s.ios[i].point.batch[0].PipeReady?
    requires t == DoNext(s, i)
    ensures ObjectsOk(t)
  {
    forall d | 0 <= d < |t.heap.slots| ensures BaseStays(s, t, i, d) {
      assert BaseAt(s, d);
    }
    forall x | x in t.heap.tasks ensures TaskStays(s, t, i, x) {
      assert TaskAtOk(s, x);
    }
    forall m | m in t.heap.msgs ensures MsgStays(s, t, i, m) {
      assert MsgAtOk(s, m);
    }
    IoStepObjects(s, t, i);
  }

  /** A batch survives a change of a slot that it does not name, or that stays registered. */
  lemma BatchSlot(h: Heap, g: Heap, i: nat, batch: seq<Event>, c: ConnId)
    requires BatchOk(h, i, batch) && c < |h.slots| && |g.slots| == |h.slots| && g.slots == h.slots[c := g.slots[c]]
    requires h.slots[c].base != Registered(i) || g.slots[c].base == Registered(i) || c !in Named(batch)
    ensures BatchOk(g, i, batch)
  {
    var named := Named(batch);
    forall k | 0 <= k < |named| ensures NamedAt(g, i, named, k) {
      assert NamedAt(h, i, named, k) && named[k] in named;
    }
  }

  lemma KeepNext(s: State, i: nat)
    requires Inv(s) && i < |s.ios| && s.ios[i].point.Dispatch?
    ensures Inv(DoNext(s, i))
  {
    var batch := s.ios[i].point.batch;
    if batch != [] && batch[0].PipeReady? && s.ios[i].pipe != [] {
      KeepNextPipe(s, i);
    } else {
      KeepNextEvent(s, i);
    }
  }

  lemma KeepAdd(s: State, i: nat)
    requires Inv(s) && i < |s.ios| && s.ios[i].point.Adding?
    ensures Inv(DoAdd(s, i))
  {
    var t, h, c := DoAdd(s, i), s.heap, s.ios[i].point.conn;
    IoFacts(s, i);
    SlotFacts(h, c);
    HeapRegister(h, c, i);
    BatchSlot(h, t.heap, i, s.ios[i].point.rest, c);
    IoSlotStep(s, t, i, c);
  }

  /** Dropping the base reference of `c`, which thread `i` owns. */
  lemma ReleaseBase(h: Heap, c: ConnId, i: nat)
    requires HeapOk(h) && c < |h.slots| && (h.slots[c].base == BeingAdded(i) || h.slots[c].base == BeingClosed(i))
    ensures var g := ReleaseConn(h, c, true);
            HeapOk(g) && OneSlot(h, g, c) && Owns(g, c, Released) && g.slots[c].conn.io == h.slots[c].conn.io
            && (forall k | k in g.reg :: k in h.reg)
  {
    SlotFacts(h, c);
    HeapReleaseBase(h, c);
  }

  lemma KeepAddFails(s: State, i: nat)
    requires Inv(s) && i < |s.ios| && s.ios[i].point.Adding?
    ensures Inv(DoAddFails(s, i))
  {
    var t, h, c := DoAddFails(s, i), s.heap, s.ios[i].point.conn;
    IoFacts(s, i);
    SlotFacts(h, c);
    ReleaseBase(h, c, i);
    BatchSlot(h, t.heap, i, s.ios[i].point.rest, c);
    IoSlotStep(s, t, i, c);
  }

  lemma KeepUnreference(s: State, i: nat)
    requires Inv(s) && i < |s.ios| && s.ios[i].point.Unreferencing?
    ensures Inv(DoUnreference(s, i))
  {
    var t, h, f := DoUnreference(s, i), s.heap, s.ios[i].point.f;
    IoFacts(s, i);
    SlotFacts(h, f.conn);
    ReleaseBase(h, f.conn, i);
    BatchSlot(h, t.heap, i, f.rest, f.conn);
    IoSlotStep(s, t, i, f.conn);
  }

  /** event_loop_del finds nothing: the descriptor was closed, and only this thread adds to its loop. */
  lemma KeepUnregister(s: State, i: nat)
    requires Inv(s) && i < |s.ios| && s.ios[i].point.Unregistering?
    ensures Inv(DoUnregister(s, i))
    ensures DoUnregister(s, i).heap == s.heap
  {
    IoFacts(s, i);
    assert s.heap.reg - {(i, s.ios[i].point.fd)} == s.heap.reg;
    PointStep(s, DoUnregister(s, i), i);
  }

  lemma KeepRecheck(s: State, i: nat, guess: bool)
    requires Inv(s) && i < |s.ios| && (s.ios[i].point.AfterRead? || s.ios[i].point.AfterWrite?)
    requires !DoRecheck(s, i, guess).misled
    ensures Inv(DoRecheck(s, i, guess))
  {
    IoFacts(s, i);
    SlotFacts(s.heap, s.ios[i].point.f.conn);
    PointStep(s, DoRecheck(s, i, guess), i);
  }

  lemma KeepReadStop(s: State, i: nat)
    requires Inv(s) && i < |s.ios| && s.ios[i].point.InRead?
    ensures Inv(Goto(s, i, AfterRead(s.ios[i].point.f)))
  {
    IoFacts(s, i);
    PointStep(s, Goto(s, i, AfterRead(s.ios[i].point.f)), i);
  }

  lemma CloseHeap(h: Heap, c: ConnId, x: Conn, i: nat)
    requires HeapOk(h) && Owns(h, c, Registered(i)) && x == h.slots[c].conn.(pos := x.pos) && x.pos <= |x.out|
    ensures var g := MarkConn(SetConn(h, c, x), c, i);
            && HeapOk(g) && OneSlot(h, g, c) && Live(h, c) && h.slots[c].conn.io == i == g.slots[c].conn.io
            && g.slots[c].base == BeingClosed(i) && (i, x.fd) !in g.reg && forall k | k in g.reg :: k in h.reg
  {
    RegisteredIsValid(h, c, i);
    SlotFacts(h, c);
    HeapSetConn(h, c, x);
    HeapMark(SetConn(h, c, x), c, i);
  }

  /** The beginning of a close, possibly after a partial write moved `pos`. */
  lemma KeepBeginClose(s: State, i: nat, x: Conn, ret: Return)
    requires Inv(s) && i < |s.ios| && (s.ios[i].point.InRead? || s.ios[i].point.InWrite? || s.ios[i].point.InError?)
    requires var c := s.ios[i].point.f.conn; c < |s.heap.slots| && x == s.heap.slots[c].conn.(pos := x.pos)
    requires x.pos <= |x.out|
    ensures Inv(BeginClose(s, i, SetConn(s.heap, s.ios[i].point.f.conn, x), s.ios[i].point.f, ret))
  {
    var f := s.ios[i].point.f;
    var c, h := f.conn, SetConn(s.heap, f.conn, x);
    var t := BeginClose(s, i, h, f, ret);
    IoFacts(s, i);
    CloseHeap(s.heap, c, x, i);
    BatchSlot(s.heap, t.heap, i, f.rest, c);
    IoSlotStep(s, t, i, c);
  }

  lemma KeepClose(s: State, i: nat, ret: Return)
    requires Inv(s) && i < |s.ios| && (s.ios[i].point.InRead? || s.ios[i].point.InError?)
    ensures Inv(BeginClose(s, i, s.heap, s.ios[i].point.f, ret))
  {
    IoFacts(s, i);
    var c := s.ios[i].point.f.conn;
    SlotFacts(s.heap, c);
    RegisteredIsValid(s.heap, c, i);
    assert SetConn(s.heap, c, s.heap.slots[c].conn) == s.heap;
    KeepBeginClose(s, i, s.heap.slots[c].conn, ret);
  }

  // ---- Writing --------------------------------------------------------------

  /** handle_write that leaves the connection open. */
  lemma KeepWritten(s: State, i: nat, x: Conn, toRead: bool)
    requires Inv(s) && i < |s.ios| && s.ios[i].point.InWrite?
    requires var c := s.ios[i].point.f.conn;
             c < |s.heap.slots| && x == s.heap.slots[c].conn.(out := x.out, pos := x.pos, state := x.state)
    requires x.pos <= |x.out| && x.state != Closed
    ensures Inv(EndWrite(s, i, s.ios[i].point.f, x, toRead))
  {
    var f := s.ios[i].point.f;
    var c, h := f.conn, SetConn(s.heap, f.conn, x);
    var t := EndWrite(s, i, f, x, toRead);
    IoFacts(s, i);
    RegisteredIsValid(s.heap, c, i);
    HeapSetConn(s.heap, c, x);
    HeapInterest(h, i, c, false);
    BatchSlot(s.heap, t.heap, i, f.rest, c);
    IoSlotStep(s, t, i, c);
  }

  lemma KeepWrite(s: State, i: nat, answers: seq<WriteResult>)
    requires Inv(s) && i < |s.ios| && s.ios[i].point.InWrite?
    ensures Inv(DoWrite(s, i, answers))
  {
    var u := WriteLogged(s, i, answers);
    InvSame(s, u);
    KeepWriteOut(u, i, answers);
  }

  lemma KeepWriteOut(s: State, i: nat, answers: seq<WriteResult>)
    requires Inv(s) && i < |s.ios| && s.ios[i].point.InWrite?
    ensures Inv(WriteOut(s, i, answers))
  {
    var c := s.ios[i].point.f.conn;
    IoFacts(s, i);
    RegisteredIsValid(s.heap, c, i);
    SlotFacts(s.heap, c);
    var x := s.heap.slots[c].conn;
    if |x.out| == 0 {
      KeepWritten(s, i, x.(state := ConnState.Reading), true);
    } else {
      var r := Transmit(|x.out|, x.pos, answers);
      match r.outcome
      case Finished => KeepWritten(s, i, x.(out := [], pos := 0, state := ConnState.Reading), true);
      case Blocked => KeepWritten(s, i, x.(pos := r.pos), false);
      case Broken => KeepBeginClose(s, i, x.(pos := r.pos), ToWrite);
    }
  }

  // ---- Reading and submitting -------------------------------------------------

  /** Adding a task to thread `i`'s hands, or passing one on, disturbs no other thread. */
  lemma TaskOnlyIo(h: Heap, g: Heap, t: TaskId, i: nat)
    requires g == h.(tasks := g.tasks) && t in g.tasks && g.tasks == h.tasks[t := g.tasks[t]]
    requires t in h.tasks ==> h.tasks[t].at == IoHand(i)
    ensures OnlyIo(h, g, i)
  {
    forall j: nat | j != i ensures KeepsIo(h, g, j) {
      forall x: TaskId ensures KeepsHand(h, g, j, x) {
      }
    }
    forall fd ensures KeepsStray(h, g, fd) {
      forall d | Stray(h, fd) && 0 <= d < |g.slots| ensures FdIsNot(g, fd, d) {
        assert FdIsNot(h, fd, d);
      }
    }
  }

  /** What Receive does to the connection being read. */
  lemma Received(s: State, i: nat, data: string, fate: Fate)
    requires Inv(s) && i < |s.ios| && s.ios[i].point.InRead?
    ensures var c := s.ios[i].point.f.conn;
            var g := Receive(s, i, data, fate).heap;
            && HeapOk(g) && OneSlot(s.heap, g, c) && g.reg == s.heap.reg && Live(g, c)
            && g.slots[c] == s.heap.slots[c].(conn := g.slots[c].conn)
            && g.slots[c].conn.io == s.heap.slots[c].conn.io && g.slots[c].base == Registered(i)
  {
    var c := s.ios[i].point.f.conn;
    IoFacts(s, i);
    RegisteredIsValid(s.heap, c, i);
    SlotFacts(s.heap, c);
    HeapSetConn(s.heap, c, s.heap.slots[c].conn.(state := ConnState.Reading));
  }

  lemma FreshTask(s: State)
    requires ObjectsOk(s)
    ensures s.nextTask !in s.heap.tasks
  {
    assert TaskAtOk(s, s.nextTask);
  }

  lemma ReadHeap(s: State, i: nat, data: string)
    requires Inv(s) && i < |s.ios| && s.ios[i].point.InRead?
    ensures var g, c := DoRead(s, i, data).heap, s.ios[i].point.f.conn;
            && HeapOk(g) && OnlyIo(s.heap, g, i) && |g.slots| == |s.heap.slots| && c < |g.slots|
            && g.slots == s.heap.slots[c := g.slots[c]] && g.slots[c].base == s.heap.slots[c].base == Registered(i)
            && g.slots[c].live == s.heap.slots[c].live && g.slots[c].conn.io == s.heap.slots[c].conn.io
            && g.tasks == s.heap.tasks[s.nextTask := Task(c, data, IoHand(i))] && g.msgs == s.heap.msgs
  {
    var c, r := s.ios[i].point.f.conn, Receive(s, i, data, Passed).heap;
    var a, g := AcquireConn(r, c, false), DoRead(s, i, data).heap;
    Received(s, i, data, Passed);
    FreshTask(s);
    HeapNewTask(r, c, s.nextTask, Task(c, data, IoHand(i)));
    OneSlotOnlyIo(s.heap, a, c, i);
    TaskOnlyIo(a, g, s.nextTask, i);
    OnlyIoTrans(s.heap, a, g, i);
  }

  lemma KeepRead(s: State, i: nat, data: string)
    requires Inv(s) && i < |s.ios| && s.ios[i].point.InRead?
    ensures Inv(DoRead(s, i, data))
  {
    var t, f := DoRead(s, i, data), s.ios[i].point.f;
    IoFacts(s, i);
    FreshTask(s);
    ReadHeap(s, i, data);
    BatchSlot(s.heap, t.heap, i, f.rest, f.conn);
    KeepReadTask(s, t, i);
  }

  /** The rest of a step that changes slots and a task of thread `i`, but neither pipe nor inbox. */
  lemma KeepReadTask(s: State, t: State, i: nat)
    requires Inv(s) && HeapOk(t.heap) && IoMoved(s, t, i) && OnlyIo(s.heap, t.heap, i)
    requires t.ios[i].pipe == s.ios[i].pipe && t.ios[i].inbox == s.ios[i].inbox && t.heap.msgs == s.heap.msgs
    requires s.ios[i].point.InRead? || s.ios[i].point.Submitting?
    requires PointOk(t.heap, i, t.ios[i].point)
    requires t.nextTask >= s.nextTask && t.nextMsg == s.nextMsg && |t.heap.slots| == |s.heap.slots|
    requires forall c | 0 <= c < |t.heap.slots| ::
               && t.heap.slots[c].live == s.heap.slots[c].live && t.heap.slots[c].base == s.heap.slots[c].base
               && t.heap.slots[c].conn.io == s.heap.slots[c].conn.io
    requires forall x | x in t.heap.tasks :: TaskStays(s, t, i, x)
    requires t.queue == s.queue || QueueOk(t.heap, t.queue)
    ensures Inv(t)
  {
    IoFacts(s, i);
    forall k | 0 <= k < |t.ios[i].pipe| ensures PipeAt(t.heap, i, t.ios[i].pipe, k) {
      assert PipeAt(s.heap, i, s.ios[i].pipe, k);
    }
    forall k | 0 <= k < |t.ios[i].inbox| ensures InboxAt(t.heap, i, t.ios[i].inbox, k) {
      assert InboxAt(s.heap, i, s.ios[i].inbox, k);
    }
    IoStepThreads(s, t, i);
    forall c | 0 <= c < |t.heap.slots| ensures BaseStays(s, t, i, c) {
      assert BaseAt(s, c);
    }
    forall m | m in t.heap.msgs ensures MsgStays(s, t, i, m) {
      assert MsgAtOk(s, m);
    }
    IoStepObjects(s, t, i);
  }

  lemma KeepReadNoTask(s: State, i: nat, data: string)
    requires Inv(s) && i < |s.ios| && s.ios[i].point.InRead?
    ensures Inv(DoReadNoTask(s, i, data))
  {
    var t, f := DoReadNoTask(s, i, data), s.ios[i].point.f;
    IoFacts(s, i);
    Received(s, i, data, NoTask);
    BatchSlot(s.heap, t.heap, i, f.rest, f.conn);
    IoSlotStep(s, t, i, f.conn);
  }

  lemma KeepReadNoPayload(s: State, i: nat, data: string)
    requires Inv(s) && i < |s.ios| && s.ios[i].point.InRead?
    ensures Inv(DoReadNoPayload(s, i, data))
  {
    var t, f := DoReadNoPayload(s, i, data), s.ios[i].point.f;
    IoFacts(s, i);
    Received(s, i, data, NoPayload);
    HeapLose(Receive(s, i, data, NoPayload).heap, f.conn);
    BatchSlot(s.heap, t.heap, i, f.rest, f.conn);
    IoSlotStep(s, t, i, f.conn);
  }

  /** Passing on or forgetting the task in thread `i`'s hands. */
  lemma MovedOn(s: State, i: nat, at: TaskAt)
    requires Inv(s) && i < |s.ios| && s.ios[i].point.Submitting?
    ensures var t, f, g := s.ios[i].point.task, s.ios[i].point.f, MoveTask(s.heap, s.ios[i].point.task, at);
            && HeapOk(g) && OnlyIo(s.heap, g, i) && t in s.heap.tasks && g.slots == s.heap.slots
            && PointOk(g, i, InRead(f))
  {
    var t, f := s.ios[i].point.task, s.ios[i].point.f;
    IoFacts(s, i);
    HeapMoveTask(s.heap, t, at);
    TaskOnlyIo(s.heap, MoveTask(s.heap, t, at), t, i);
    BatchSlot(s.heap, MoveTask(s.heap, t, at), i, f.rest, f.conn);
  }

  lemma KeepSubmit(s: State, i: nat)
    requires Inv(s) && i < |s.ios| && s.ios[i].point.Submitting?
    ensures Inv(DoSubmit(s, i))
  {
    var t, x := DoSubmit(s, i), s.ios[i].point.task;
    IoFacts(s, i);
    MovedOn(s, i, Queued);
    forall k | 0 <= k < |s.queue| ensures s.queue[k] != x {
      assert QueueAt(s.heap, s.queue, k);
    }
    DistinctSnoc(s.queue, x);
    QueueFrame(s.heap, t.heap, s.queue);
    forall k | 0 <= k < |t.queue| ensures QueueAt(t.heap, t.queue, k) {
      assert QueueAt(t.heap, s.queue, k);
    }
    forall y | y in t.heap.tasks ensures TaskStays(s, t, i, y) {
      assert TaskAtOk(s, y);
      assert x in t.queue;
    }
    KeepReadTask(s, t, i);
  }

  lemma KeepSubmitRefused(s: State, i: nat)
    requires Inv(s) && i < |s.ios| && s.ios[i].point.Submitting?
    ensures Inv(DoSubmitRefused(s, i))
  {
    var t, x := DoSubmitRefused(s, i), s.ios[i].point.task;
    IoFacts(s, i);
    MovedOn(s, i, Leaked);
    forall y | y in t.heap.tasks ensures TaskStays(s, t, i, y) {
      assert TaskAtOk(s, y);
    }
    KeepReadTask(s, t, i);
  }

  // ---- Messages ---------------------------------------------------------------

  lemma MsgOnlyIo(h: Heap, g: Heap, m: MsgId, i: nat)
    requires g.slots == h.slots && g.tasks == h.tasks && g.openFds == h.openFds && g.reg == h.reg
    requires m in h.msgs && h.msgs[m].at.i == i && g.msgs - {m} == h.msgs - {m}
    ensures OnlyIo(h, g, i)
  {
    forall j: nat | j != i ensures KeepsIo(h, g, j) {
      forall n: MsgId ensures KeepsMsg(h, g, j, n) {
        if n in h.msgs && n != m {
          assert n in h.msgs - {m} && (h.msgs - {m})[n] == (g.msgs - {m})[n];
        }
      }
    }
    forall fd ensures KeepsStray(h, g, fd) {
      forall d | Stray(h, fd) && 0 <= d < |g.slots| ensures FdIsNot(g, fd, d) {
        assert FdIsNot(h, fd, d);
      }
    }
  }

  /** The rest of a step on a message of thread `i`. */
  lemma KeepMail(s: State, t: State, i: nat)
    requires Inv(s) && HeapOk(t.heap) && IoMoved(s, t, i) && OnlyIo(s.heap, t.heap, i) && t.queue == s.queue
    requires s.ios[i].point.Draining? || s.ios[i].point.Handling? || s.ios[i].point.Dropping?
    requires t.ios[i].pipe == s.ios[i].pipe && t.heap.tasks == s.heap.tasks
    requires PointOk(t.heap, i, t.ios[i].point) && InboxOk(t.heap, i, t.ios[i].inbox)
    requires t.nextTask == s.nextTask && t.nextMsg == s.nextMsg && |t.heap.slots| == |s.heap.slots|
    requires forall c | 0 <= c < |t.heap.slots| ::
               && (t.heap.slots[c].live ==> s.heap.slots[c].live) && t.heap.slots[c].base == s.heap.slots[c].base
               && t.heap.slots[c].conn.io == s.heap.slots[c].conn.io
    requires forall m | m in t.heap.msgs :: MsgStays(s, t, i, m)
    ensures Inv(t)
  {
    IoFacts(s, i);
    forall k | 0 <= k < |t.ios[i].pipe| ensures PipeAt(t.heap, i, t.ios[i].pipe, k) {
      assert PipeAt(s.heap, i, s.ios[i].pipe, k);
    }
    IoStepThreads(s, t, i);
    forall c | 0 <= c < |t.heap.slots| ensures BaseStays(s, t, i, c) {
      assert BaseAt(s, c);
    }
    forall x | x in t.heap.tasks ensures TaskStays(s, t, i, x) {
      assert TaskAtOk(s, x);
    }
    IoStepObjects(s, t, i);
  }

  lemma KeepDrain(s: State, i: nat)
    requires Inv(s) && i < |s.ios| && s.ios[i].point.Draining?
    ensures Inv(DoDrain(s, i))
  {
    IoFacts(s, i);
    if s.ios[i].inbox == [] {
      PointStep(s, DoDrain(s, i), i);
    } else {
      TakenInbox(s, i);
      KeepTake(s, i);
    }
  }

  /** Unlinking the first message leaves the inbox and the other threads in order. */
  lemma TakenInbox(s: State, i: nat)
    requires HeapOk(s.heap) && i < |s.ios| && s.ios[i].point.Draining? && s.ios[i].inbox != []
    requires InboxOk(s.heap, i, s.ios[i].inbox)
    ensures var g, inbox := DoDrain(s, i).heap, s.ios[i].inbox;
            && HeapOk(g) && OnlyIo(s.heap, g, i) && InboxOk(g, i, inbox[1..]) && inbox[0] !in inbox[1..]
            && MsgIs(s.heap, inbox[0], Inbox(i))
  {
    var g, h, inbox := DoDrain(s, i).heap, s.heap, s.ios[i].inbox;
    assert InboxAt(h, i, inbox, 0);
    HeapTakeMsg(h, inbox[0], i);
    MsgOnlyIo(h, g, inbox[0], i);
    DistinctTail(inbox);
    forall k | 0 <= k < |inbox[1..]| ensures InboxAt(g, i, inbox[1..], k) {
      assert InboxAt(h, i, inbox, k + 1) && inbox[1..][k] in inbox[1..];
    }
  }

  lemma KeepTake(s: State, i: nat)
    requires Inv(s) && i < |s.ios| && s.ios[i].point.Draining? && s.ios[i].inbox != []
    requires var g, inbox := DoDrain(s, i).heap, s.ios[i].inbox;
             && HeapOk(g) && OnlyIo(s.heap, g, i) && InboxOk(g, i, inbox[1..])
             && MsgIs(s.heap, inbox[0], Inbox(i))
    ensures Inv(DoDrain(s, i))
  {
    var t, inbox := DoDrain(s, i), s.ios[i].inbox;
    IoFacts(s, i);
    BatchSame(s.heap, t.heap, i, s.ios[i].point.rest);
    forall n | n in t.heap.msgs ensures MsgStays(s, t, i, n) {
      assert MsgAtOk(s, n);
      if n != inbox[0] && n in inbox {
        assert n in inbox[1..];
      }
    }
    KeepMail(s, t, i);
  }

  lemma BatchSame(h: Heap, g: Heap, i: nat, batch: seq<Event>)
    requires BatchOk(h, i, batch) && |g.slots| == |h.slots|
    requires forall c | 0 <= c < |h.slots| :: g.slots[c].base == h.slots[c].base
    ensures BatchOk(g, i, batch)
  {
    var named := Named(batch);
    forall k | 0 <= k < |named| ensures NamedAt(g, i, named, k) {
      assert NamedAt(h, i, named, k);
    }
  }

  /** Acting on a message changes at most the interest in its connection. */
  lemma HandleHeap(s: State, i: nat)
    requires Inv(s) && i < |s.ios| && s.ios[i].point.Handling?
    ensures var g := DoHandle(s, i).heap;
            && HeapOk(g) && OnlyIo(s.heap, g, i) && g == s.heap.(reg := g.reg)
  {
    var h, m := s.heap, s.ios[i].point.msg;
    IoFacts(s, i);
    MsgNamesLive(h, m);
    var c := h.msgs[m].conn;
    SlotFacts(h, c);
    HeapInterest(h, i, c, true);
    OneSlotOnlyIo(h, DoHandle(s, i).heap, c, i);
  }

  lemma KeepHandle(s: State, i: nat)
    requires Inv(s) && i < |s.ios| && s.ios[i].point.Handling?
    ensures Inv(DoHandle(s, i))
  {
    var t, h := DoHandle(s, i), s.heap;
    IoFacts(s, i);
    HandleHeap(s, i);
    BatchSame(h, t.heap, i, s.ios[i].point.rest);
    forall k | 0 <= k < |t.ios[i].inbox| ensures InboxAt(t.heap, i, t.ios[i].inbox, k) {
      assert InboxAt(h, i, s.ios[i].inbox, k);
    }
    forall n | n in t.heap.msgs ensures MsgStays(s, t, i, n) {
      assert MsgAtOk(s, n);
    }
    KeepMail(s, t, i);
  }

  /** Freeing a message of thread `i`, and its reference, disturbs no other thread. */
  lemma DropMsgOnlyIo(h: Heap, m: MsgId, i: nat)
    requires HeapOk(h) && MsgIs(h, m, Taken(i))
    ensures var g := DestroyMsg(h, m);
            && OnlyIo(h, g, i) && |g.slots| == |h.slots|
            && forall c | 0 <= c < |h.slots| ::
                 && (g.slots[c].live ==> h.slots[c].live) && g.slots[c].base == h.slots[c].base
                 && g.slots[c].conn.io == h.slots[c].conn.io
  {
    var g := DestroyMsg(h, m);
    MsgNamesLive(h, m);
    var c, k := h.msgs[m].conn, h.(msgs := h.msgs - {m});
    SlotFacts(h, c);
    MsgOnlyIo(h, k, m, i);
    OneSlotOnlyIo(k, g, c, i);
    OnlyIoTrans(h, k, g, i);
  }

  lemma KeepDropMsg(s: State, i: nat)
    requires Inv(s) && i < |s.ios| && s.ios[i].point.Dropping?
    ensures Inv(DoDropMsg(s, i))
  {
    var t, h, m := DoDropMsg(s, i), s.heap, s.ios[i].point.msg;
    IoFacts(s, i);
    MsgNamesLive(h, m);
    HeapDropMsg(h, m);
    DropMsgOnlyIo(h, m, i);
    BatchSame(h, t.heap, i, s.ios[i].point.rest);
    forall l | 0 <= l < |t.ios[i].inbox| ensures InboxAt(t.heap, i, t.ios[i].inbox, l) {
      assert InboxAt(h, i, s.ios[i].inbox, l);
    }
    forall n | n in t.heap.msgs ensures MsgStays(s, t, i, n) {
      assert MsgAtOk(s, n);
    }
    KeepMail(s, t, i);
  }

  /** Every step of an I/O thread keeps the invariant. */
  lemma KeepIo(s: State, i: nat, x: IoAction)
    requires Inv(s) && i < |s.ios| && CanIo(s, i, x) && !DoIo(s, i, x).misled
    ensures Inv(DoIo(s, i, x))
  {
    match x
    case Poll(batch) => KeepPoll(s, i, batch);
    case Next => KeepNext(s, i);
    case Add => KeepAdd(s, i);
    case AddFails => KeepAddFails(s, i);
    case Drain => KeepDrain(s, i);
    case Handle => KeepHandle(s, i);
    case DropMsg => KeepDropMsg(s, i);
    case Read(data) => KeepRead(s, i, data);
    case ReadNoTask(data) => KeepReadNoTask(s, i, data);
    case ReadNoPayload(data) => KeepReadNoPayload(s, i, data);
    case Submit => KeepSubmit(s, i);
    case SubmitRefused => KeepSubmitRefused(s, i);
    case ReadStop => KeepReadStop(s, i);
    case ReadClose => KeepClose(s, i, ToRead);
    case Write(answers) => KeepWrite(s, i, answers);
    case Hangup => KeepClose(s, i, ToDone);
    case Unregister => KeepUnregister(s, i);
    case Unreference => KeepUnreference(s, i);
    case Recheck(guess) => KeepRecheck(s, i, guess);
  }
}

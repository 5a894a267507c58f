/** No response is stranded: unsent bytes of an open connection always have someone who will send them. */
module ReactorResponses {
  import opened Connections
  import opened IoThreads
  import opened Reactor
  import opened ReactorHeap
  import opened ReactorOwners
  import opened ReactorIoSteps
  import opened ReactorSafety

  predicate CoveredAt(s: State, c: ConnId) { Unsent(s.heap, c) ==> Covered(s, c) || c in s.stranded }

  ghost predicate NoneStranded(s: State) { forall c: ConnId :: CoveredAt(s, c) }

  // ---- Steps that change nothing for a connection -------------------------------

  /** `c` has nothing new to send and stays watched while it has. */
  predicate CalmHeap(h: Heap, g: Heap, c: ConnId) {
    Unsent(g, c) ==> Unsent(h, c) && (Armed(h, c) ==> Armed(g, c))
  }

  predicate CalmMsg(s: State, t: State, c: ConnId, m: MsgId) { Pending(s, m, c) ==> Pending(t, m, c) }

  predicate CalmWorker(s: State, t: State, c: ConnId, w: nat) { Announcing(s, w, c) ==> Announcing(t, w, c) }

  lemma Carry(s: State, t: State, c: ConnId)
    requires CoveredAt(s, c) && CalmHeap(s.heap, t.heap, c) && (c in s.stranded ==> c in t.stranded)
    requires forall m: MsgId :: CalmMsg(s, t, c, m)
    requires forall w: nat :: CalmWorker(s, t, c, w)
    ensures CoveredAt(t, c)
  {
    if Unsent(t.heap, c) {
      if m :| Pending(s, m, c) {
        assert CalmMsg(s, t, c, m);
      } else if w :| Announcing(s, w, c) {
        assert CalmWorker(s, t, c, w);
      }
    }
  }

  lemma CalmClose(h: Heap, d: ConnId, x: Slot, c: ConnId)
    requires FdsOk(h) && d < |h.slots| && h.slots[d].conn.fd >= 0 && !(x.live && IsValid(x.conn))
    ensures CalmHeap(h, SetSlot(CloseFd(h, h.slots[d].conn.fd), d, x), c)
  {
    assert FdsApart(h, d, c);
  }

  lemma CalmRelease(h: Heap, d: ConnId, base: bool, c: ConnId)
    requires HeapOk(h) && Live(h, d)
    requires base ==> !h.slots[d].base.Registered?
    ensures CalmHeap(h, ReleaseConn(h, d, base), c)
  {
    var g := ReleaseConn(h, d, base);
    if !g.slots[d].live && h.slots[d].conn.fd >= 0 {
      CalmClose(h, d, g.slots[d], c);
    }
  }

  lemma CalmMark(h: Heap, d: ConnId, i: nat, c: ConnId)
    requires HeapOk(h) && Live(h, d) && h.slots[d].base == Registered(i)
    ensures CalmHeap(h, MarkConn(h, d, i), c)
  {
    SlotFacts(h, d);
    CalmClose(h, d, MarkConn(h, d, i).slots[d], c);
  }

  /** Updating one connection without giving it anything new to send. */
  lemma CalmSet(h: Heap, d: ConnId, x: Conn, c: ConnId)
    requires d < |h.slots| && x.fd == h.slots[d].conn.fd && x.closing == h.slots[d].conn.closing
    requires x.pos < |x.out| ==> h.slots[d].conn.pos < |h.slots[d].conn.out|
    requires x.state != Closed ==> h.slots[d].conn.state != Closed
    ensures CalmHeap(h, SetConn(h, d, x), c)
  {
  }

  lemma CalmTrans(h: Heap, g: Heap, k: Heap, c: ConnId)
    requires CalmHeap(h, g, c) && CalmHeap(g, k, c)
    ensures CalmHeap(h, k, c)
  {
  }

  /** A step of thread `i` that was not about to act on a message. */
  lemma CarryIo(s: State, t: State, i: nat, c: ConnId)
    requires CoveredAt(s, c) && CalmHeap(s.heap, t.heap, c) && IoMoved(s, t, i) && t.stranded == s.stranded
    requires !s.ios[i].point.Handling?
    requires t.heap.msgs == s.heap.msgs
    requires forall x | x in s.heap.tasks :: x in t.heap.tasks && t.heap.tasks[x].conn == s.heap.tasks[x].conn
    ensures CoveredAt(t, c)
  {
    forall m: MsgId ensures CalmMsg(s, t, c, m) {
    }
    forall w: nat ensures CalmWorker(s, t, c, w) {
    }
    Carry(s, t, c);
  }

  // ---- I/O threads ----------------------------------------------------------------

  lemma CoverWrite(s: State, i: nat, answers: seq<WriteResult>, c: ConnId)
    requires Inv(s) && CoveredAt(s, c) && i < |s.ios| && s.ios[i].point.InWrite?
    ensures CoveredAt(DoWrite(s, i, answers), c)
  {
    var t, h, d := DoWrite(s, i, answers), s.heap, s.ios[i].point.f.conn;
    IoFacts(s, i);
    RegisteredIsValid(h, d, i);
    SlotFacts(h, d);
    var x := h.slots[d].conn;
    if |x.out| == 0 {
      CalmEnd(h, i, d, x.(state := ConnState.Reading), c);
    } else {
      var r := Transmit(|x.out|, x.pos, answers);
      CalmSet(h, d, x.(pos := r.pos), c);
      match r.outcome
      case Finished => CalmEnd(h, i, d, x.(out := [], pos := 0, state := ConnState.Reading), c);
      case Blocked =>
      case Broken =>
        var g := SetConn(h, d, x.(pos := r.pos));
        HeapSetConn(h, d, x.(pos := r.pos));
        CalmMark(g, d, i, c);
        CalmTrans(h, g, t.heap, c);
    }
    CarryIo(s, t, i, c);
  }

  /** Going back to read interest once nothing is left to send. */
  lemma CalmEnd(h: Heap, i: nat, d: ConnId, x: Conn, c: ConnId)
    requires HeapOk(h) && Live(h, d) && x.fd == h.slots[d].conn.fd && x.closing == h.slots[d].conn.closing
    requires |x.out| == 0 && x.state != Closed
    ensures CalmHeap(h, SetInterest(SetConn(h, d, x), i, x.fd, d, false), c)
  {
    SlotFacts(h, d);
    assert FdsApart(h, d, c) && FdsApart(h, c, d);
    if c < |h.slots| {
      SlotFacts(h, c);
    }
  }

  lemma CoverClose(s: State, i: nat, ret: Return, c: ConnId)
    requires Inv(s) && CoveredAt(s, c) && i < |s.ios| && (s.ios[i].point.InRead? || s.ios[i].point.InError?)
    ensures CoveredAt(BeginClose(s, i, s.heap, s.ios[i].point.f, ret), c)
  {
    IoFacts(s, i);
    RegisteredIsValid(s.heap, s.ios[i].point.f.conn, i);
    CalmMark(s.heap, s.ios[i].point.f.conn, i, c);
    CarryIo(s, BeginClose(s, i, s.heap, s.ios[i].point.f, ret), i, c);
  }

  lemma CoverRead(s: State, i: nat, x: IoAction, c: ConnId)
    requires Inv(s) && CoveredAt(s, c) && i < |s.ios| && CanIo(s, i, x)
    requires x.Read? || x.ReadNoTask? || x.ReadNoPayload?
    ensures CoveredAt(DoIo(s, i, x), c)
  {
    IoFacts(s, i);
    SlotFacts(s.heap, s.ios[i].point.f.conn);
    FreshTask(s);
    ReadCalm(s, i, x, c);
    CarryIo(s, DoIo(s, i, x), i, c);
  }

  lemma ReadCalm(s: State, i: nat, x: IoAction, c: ConnId)
    requires i < |s.ios| && CanIo(s, i, x) && (x.Read? || x.ReadNoTask? || x.ReadNoPayload?)
    requires SeesValid(s.heap, s.ios[i].point.f.conn)
    ensures CalmHeap(s.heap, DoIo(s, i, x).heap, c)
  {
  }

  /** Acting on a message turns it into write interest. */
  lemma CoverHandle(s: State, i: nat, c: ConnId)
    requires Inv(s) && CoveredAt(s, c) && i < |s.ios| && s.ios[i].point.Handling?
    ensures CoveredAt(DoHandle(s, i), c)
  {
    var t, h, m := DoHandle(s, i), s.heap, s.ios[i].point.msg;
    IoFacts(s, i);
    MsgNamesLive(h, m);
    var d := h.msgs[m].conn;
    assert MsgAtOk(s, m);
    SlotFacts(h, d);
    assert Watched(h, d) && FdsApart(h, d, c) && BaseAt(s, d);
    if d == c {
      if Unsent(t.heap, c) {
        assert Armed(t.heap, c);
      }
    } else {
      assert CalmHeap(h, t.heap, c);
      forall n: MsgId ensures CalmMsg(s, t, c, n) {
        if Pending(s, n, c) {
          assert MsgAtOk(s, n);
        }
      }
      forall w: nat ensures CalmWorker(s, t, c, w) {
      }
      Carry(s, t, c);
    }
  }

  lemma CoverDrain(s: State, i: nat, c: ConnId)
    requires Inv(s) && CoveredAt(s, c) && i < |s.ios| && s.ios[i].point.Draining?
    ensures CoveredAt(DoDrain(s, i), c)
  {
    var t := DoDrain(s, i);
    IoFacts(s, i);
    assert s.ios[i].inbox != [] ==> InboxAt(s.heap, i, s.ios[i].inbox, 0);
    forall n: MsgId ensures CalmMsg(s, t, c, n) {
    }
    forall w: nat ensures CalmWorker(s, t, c, w) {
    }
    Carry(s, t, c);
  }

  lemma CoverDropMsg(s: State, i: nat, c: ConnId)
    requires Inv(s) && CoveredAt(s, c) && i < |s.ios| && s.ios[i].point.Dropping?
    ensures CoveredAt(DoDropMsg(s, i), c)
  {
    var t, h, m := DoDropMsg(s, i), s.heap, s.ios[i].point.msg;
    IoFacts(s, i);
    MsgNamesLive(h, m);
    HeapDropMsg(h, m);
    CalmDrop(h, h.(msgs := h.msgs - {m}), h.msgs[m].conn, c);
    forall n: MsgId ensures CalmMsg(s, t, c, n) {
    }
    forall w: nat ensures CalmWorker(s, t, c, w) {
    }
    Carry(s, t, c);
  }

  /** Giving back a task's or message's reference. */
  lemma CalmDrop(h: Heap, k: Heap, d: ConnId, c: ConnId)
    requires HeapOk(h) && Live(h, d) && k.slots == h.slots && k.reg == h.reg && k.openFds == h.openFds
    ensures CalmHeap(h, ReleaseConn(k, d, false), c)
  {
    var g := ReleaseConn(k, d, false);
    if !g.slots[d].live && h.slots[d].conn.fd >= 0 {
      SameTables(h, k);
      CalmClose(k, d, g.slots[d], c);
      assert CalmHeap(h, k, c);
      CalmTrans(h, k, g, c);
    }
  }

  lemma CoverBase(s: State, i: nat, x: IoAction, c: ConnId)
    requires Inv(s) && CoveredAt(s, c) && i < |s.ios| && CanIo(s, i, x) && (x.AddFails? || x.Unreference?)
    ensures CoveredAt(DoIo(s, i, x), c)
  {
    IoFacts(s, i);
    var d := if x.AddFails? then s.ios[i].point.conn else s.ios[i].point.f.conn;
    SlotFacts(s.heap, d);
    CalmRelease(s.heap, d, true, c);
    CarryIo(s, DoIo(s, i, x), i, c);
  }

  /** Dispatching an event leaves the heap alone, unless it takes a connection out of the pipe. */
  lemma NextHeap(s: State, i: nat)
    requires Inv(s) && i < |s.ios| && s.ios[i].point.Dispatch?
    ensures var batch, t := s.ios[i].point.batch, DoNext(s, i);
            if batch != [] && batch[0].PipeReady? && s.ios[i].pipe != []
            then t.heap == SetBase(s.heap, s.ios[i].pipe[0], BeingAdded(i)) && Owns(s.heap, s.ios[i].pipe[0], InPipe(i))
            else t.heap == s.heap
  {
    var batch := s.ios[i].point.batch;
    IoFacts(s, i);
    if batch != [] && batch[0].Ready? {
      BatchTail(s.heap, i, batch);
      RegisteredIsValid(s.heap, batch[0].conn, i);
    }
    assert s.ios[i].pipe != [] ==> PipeAt(s.heap, i, s.ios[i].pipe, 0);
  }

  lemma CoverNext(s: State, i: nat, c: ConnId)
    requires Inv(s) && CoveredAt(s, c) && i < |s.ios| && s.ios[i].point.Dispatch?
    ensures CoveredAt(DoNext(s, i), c)
  {
    NextHeap(s, i);
    CarryIo(s, DoNext(s, i), i, c);
  }

  lemma CoverAdd(s: State, i: nat, c: ConnId)
    requires Inv(s) && CoveredAt(s, c) && i < |s.ios| && s.ios[i].point.Adding?
    ensures CoveredAt(DoAdd(s, i), c)
  {
    IoFacts(s, i);
    var d := s.ios[i].point.conn;
    SlotFacts(s.heap, d);
    assert FdsApart(s.heap, d, c);
    CarryIo(s, DoAdd(s, i), i, c);
  }

  lemma CoverOther(s: State, i: nat, x: IoAction, c: ConnId)
    requires Inv(s) && CoveredAt(s, c) && i < |s.ios| && CanIo(s, i, x)
    requires x.Poll? || x.ReadStop? || x.Recheck? || x.Unregister?
    ensures CoveredAt(DoIo(s, i, x), c)
  {
    if x.Unregister? {
      KeepUnregister(s, i);
    }
    CarryIo(s, DoIo(s, i, x), i, c);
  }

  lemma CoverSubmit(s: State, i: nat, x: IoAction, c: ConnId)
    requires Inv(s) && CoveredAt(s, c) && i < |s.ios| && CanIo(s, i, x) && (x.Submit? || x.SubmitRefused?)
    ensures CoveredAt(DoIo(s, i, x), c)
  {
    IoFacts(s, i);
    CarryIo(s, DoIo(s, i, x), i, c);
  }

  lemma CoverIo(s: State, i: nat, x: IoAction, c: ConnId)
    requires Inv(s) && CoveredAt(s, c) && i < |s.ios| && CanIo(s, i, x)
    ensures CoveredAt(DoIo(s, i, x), c)
  {
    match x
    case Next => CoverNext(s, i, c);
    case Add => CoverAdd(s, i, c);
    case AddFails => CoverBase(s, i, x, c);
    case Unreference => CoverBase(s, i, x, c);
    case Drain => CoverDrain(s, i, c);
    case Handle => CoverHandle(s, i, c);
    case DropMsg => CoverDropMsg(s, i, c);
    case Read(_) => CoverRead(s, i, x, c);
    case ReadNoTask(_) => CoverRead(s, i, x, c);
    case ReadNoPayload(_) => CoverRead(s, i, x, c);
    case ReadClose => CoverClose(s, i, ToRead, c);
    case Hangup => CoverClose(s, i, ToDone, c);
    case Write(answers) => CoverWrite(s, i, answers, c);
    case Submit => CoverSubmit(s, i, x, c);
    case SubmitRefused => CoverSubmit(s, i, x, c);
    case _ => CoverOther(s, i, x, c);
  }

  // ---- Workers and accept thread -----------------------------------------------------

  lemma CoverSend(s: State, w: nat, c: ConnId)
    requires Inv(s) && CoveredAt(s, c) && w < |s.workers| && s.workers[w].Sending?
    ensures CoveredAt(DoSend(s, w), c)
  {
    var t, x := DoSend(s, w), s.workers[w].task;
    WorkerHolds(s, w);
    assert MsgAtOk(s, s.nextMsg);
    if s.heap.tasks[x].conn == c {
      assert Pending(t, s.nextMsg, c);
    } else {
      forall m: MsgId ensures CalmMsg(s, t, c, m) {
      }
      forall v: nat ensures CalmWorker(s, t, c, v) {
      }
      Carry(s, t, c);
    }
  }

  lemma CoverFinish(s: State, w: nat, c: ConnId)
    requires Inv(s) && CoveredAt(s, c) && w < |s.workers| && s.workers[w].Finishing?
    ensures CoveredAt(DoFinish(s, w), c)
  {
    var t, h, x := DoFinish(s, w), s.heap, s.workers[w].task;
    WorkerHolds(s, w);
    HeapDropTask(h, x);
    CalmDrop(h, h.(tasks := h.tasks - {x}), h.tasks[x].conn, c);
    forall m: MsgId ensures CalmMsg(s, t, c, m) {
    }
    forall v: nat ensures CalmWorker(s, t, c, v) {
      if Announcing(s, v, c) {
        WorkerFacts(s, v);
      }
    }
    Carry(s, t, c);
  }

  /** Cover does not depend on the histories and the flag. */
  lemma SameCover(s: State, t: State, c: ConnId)
    requires t.heap == s.heap && t.ios == s.ios && t.workers == s.workers
    ensures Covered(t, c) <==> Covered(s, c)
  {
    forall w: nat ensures Announcing(t, w, c) <==> Announcing(s, w, c) {
    }
    forall m: MsgId ensures Pending(t, m, c) <==> Pending(s, m, c) {
    }
  }

  /** A message that could not be allocated is recorded if it leaves no cover. */
  lemma CoverSendFails(s: State, w: nat, c: ConnId)
    requires Inv(s) && CoveredAt(s, c) && w < |s.workers| && s.workers[w].Sending?
    ensures CoveredAt(DoSendFails(s, w), c)
  {
    var t, u := DoSendFails(s, w), WorkerGoto(s, w, Finishing(s.workers[w].task));
    WorkerHolds(s, w);
    SameCover(u, t, c);
    if s.heap.tasks[s.workers[w].task].conn != c {
      forall m: MsgId ensures CalmMsg(s, t, c, m) {
      }
      forall v: nat ensures CalmWorker(s, t, c, v) {
      }
      Carry(s, t, c);
    }
  }

  /** Checking, processing and confirming. */
  lemma CoverStage(s: State, w: nat, y: WorkerAction, c: ConnId)
    requires Inv(s) && CoveredAt(s, c) && w < |s.workers| && CanWorker(s, w, y)
    requires y.Check? || y.Process? || y.Confirm?
    ensures CoveredAt(DoWorker(s, w, y), c)
  {
    var t, x := DoWorker(s, w, y), s.workers[w].task;
    WorkerHolds(s, w);
    if s.heap.tasks[x].conn == c && !y.Check? {
      if Unsent(t.heap, c) {
        assert Announcing(t, w, c);
      }
    } else {
      forall m: MsgId ensures CalmMsg(s, t, c, m) {
      }
      forall v: nat ensures CalmWorker(s, t, c, v) {
      }
      Carry(s, t, c);
    }
  }

  lemma CoverPop(s: State, w: nat, c: ConnId)
    requires Inv(s) && CoveredAt(s, c) && w < |s.workers| && s.workers[w] == Free && s.queue != []
    ensures CoveredAt(DoPop(s, w), c)
  {
    var t := DoPop(s, w);
    assert QueueAt(s.heap, s.queue, 0);
    forall m: MsgId ensures CalmMsg(s, t, c, m) {
    }
    forall v: nat ensures CalmWorker(s, t, c, v) {
    }
    Carry(s, t, c);
  }

  lemma CoverWorker(s: State, w: nat, y: WorkerAction, c: ConnId)
    requires Inv(s) && CoveredAt(s, c) && w < |s.workers| && CanWorker(s, w, y)
    ensures CoveredAt(DoWorker(s, w, y), c)
  {
    match y
    case Pop => CoverPop(s, w, c);
    case Send => CoverSend(s, w, c);
    case SendFails => CoverSendFails(s, w, c);
    case Finish => CoverFinish(s, w, c);
    case _ => CoverStage(s, w, y, c);
  }

  lemma CoverAccept(s: State, a: AcceptAction, c: ConnId)
    requires Inv(s) && CoveredAt(s, c) && CanAccept(s, a)
    ensures CoveredAt(DoAccept(s, a), c)
  {
    var t := DoAccept(s, a);
    match a {
      case Reclose => KeepReclose(s);
      case HandOffFails =>
        SlotFacts(s.heap, s.accept.conn);
        CalmRelease(s.heap, s.accept.conn, true, c);
      case _ =>
    }
    forall m: MsgId ensures CalmMsg(s, t, c, m) {
    }
    forall v: nat ensures CalmWorker(s, t, c, v) {
    }
    Carry(s, t, c);
  }

  // ---- Whole runs ----------------------------------------------------------------------

  lemma CoverShutdown(s: State, c: ConnId)
    requires CoveredAt(s, c)
    ensures CoveredAt(s.(down := true), c)
  {
    SameCover(s, s.(down := true), c);
  }

  lemma CoverStep(s: State, a: Action)
    requires Inv(s) && NoneStranded(s) && Can(s, a)
    ensures NoneStranded(Do(s, a))
  {
    forall c: ConnId ensures CoveredAt(Do(s, a), c) {
      assert CoveredAt(s, c);
      match a
      case ByAccept(b) => CoverAccept(s, b, c);
      case ByIo(i, x) => CoverIo(s, i, x, c);
      case ByWorker(w, y) => CoverWorker(s, w, y, c);
      case Shutdown => CoverShutdown(s, c);
    }
  }

  lemma {:induction false} CoverRun(s: State, acts: seq<Action>, t: State)
    requires Inv(s) && NoneStranded(s) && Run(s, acts, t) && !t.misled
    ensures NoneStranded(t)
    decreases |acts|
  {
    if acts != [] {
      NeverMisled(Do(s, acts[0]), acts[1..], t);
      CoverStep(s, acts[0]);
      KeepStep(s, acts[0]);
      CoverRun(Do(s, acts[0]), acts[1..], t);
    }
  }

  lemma ReachableCovered(s: State, c: ConnId)
    requires Reachable(s) && !s.misled
    ensures CoveredAt(s, c)
  {
    var s0: State, acts: seq<Action> :| Init(s0) && Run(s0, acts, s);
    InvInit(s0);
    forall d: ConnId ensures CoveredAt(s0, d) {
    }
    CoverRun(s0, acts, s);
  }
}

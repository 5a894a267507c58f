/** New connections: no descriptor is lost, and an I/O thread gets its connections in the order they came. */
module ReactorHandOff {
  import opened Connections
  import opened IoThreads
  import opened Reactor
  import opened ReactorHeap
  import opened ReactorOwners
  import opened ReactorIoSteps
  import opened ReactorSafety
  import opened ReactorResponses

  // ---- Descriptors ---------------------------------------------------------------

  predicate HasFd(h: Heap, fd: int) { exists c | 0 <= c < |h.slots| :: h.slots[c].conn.fd == fd }

  /** An open descriptor belongs to a connection, or the accept thread is about to use or close it. */
  predicate FdOwned(s: State, fd: int) {
    fd in s.heap.openFds ==> HasFd(s.heap, fd) || s.accept == Accepted(fd) || s.accept == Reclosing(fd)
  }

  ghost predicate FdsOwned(s: State) { forall fd: int :: FdOwned(s, fd) }

  /** What is open in `g` was open in `h`, and has its connection still. */
  predicate FdKept(h: Heap, g: Heap, fd: int) {
    fd in g.openFds ==> fd in h.openFds && (HasFd(h, fd) ==> HasFd(g, fd))
  }

  /** Every slot keeps its descriptor. */
  lemma SameFds(h: Heap, g: Heap, fd: int)
    requires |h.slots| <= |g.slots| && g.openFds == h.openFds
    requires forall c | 0 <= c < |h.slots| :: g.slots[c].conn.fd == h.slots[c].conn.fd
    ensures FdKept(h, g, fd)
  {
    if HasFd(h, fd) {
      var c :| 0 <= c < |h.slots| && h.slots[c].conn.fd == fd;
      assert g.slots[c].conn.fd == fd;
    }
  }

  /** A slot gives up its descriptor, which is closed. */
  lemma ClosedFd(h: Heap, g: Heap, d: ConnId, fd: int)
    requires d < |h.slots| == |g.slots| && g.openFds == h.openFds - {h.slots[d].conn.fd}
    requires forall c | 0 <= c < |h.slots| && c != d :: g.slots[c].conn.fd == h.slots[c].conn.fd
    ensures FdKept(h, g, fd)
  {
    if fd in g.openFds && HasFd(h, fd) {
      var c :| 0 <= c < |h.slots| && h.slots[c].conn.fd == fd;
      assert g.slots[c].conn.fd == fd;
    }
  }

  lemma ReleasedFd(h: Heap, d: ConnId, base: bool, fd: int)
    ensures FdKept(h, ReleaseConn(h, d, base), fd)
  {
    var g := ReleaseConn(h, d, base);
    if Live(h, d) && !g.slots[d].live && h.slots[d].conn.fd >= 0 {
      ClosedFd(h, g, d, fd);
    } else {
      SameFds(h, g, fd);
    }
  }

  lemma MarkedFd(h: Heap, d: ConnId, i: nat, fd: int)
    ensures FdKept(h, MarkConn(h, d, i), fd)
  {
    var g := MarkConn(h, d, i);
    if Live(h, d) && !h.slots[d].conn.closing && h.slots[d].conn.fd >= 0 {
      ClosedFd(h, g, d, fd);
    } else {
      SameFds(h, g, fd);
    }
  }

  lemma ClosesFd(s: State, i: nat, x: IoAction, fd: int)
    requires i < |s.ios| && CanIo(s, i, x)
    requires x.AddFails? || x.Unreference? || x.DropMsg? || x.ReadClose? || x.Hangup?
    ensures FdKept(s.heap, DoIo(s, i, x).heap, fd)
  {
    var h := s.heap;
    match x
    case AddFails => ReleasedFd(h, s.ios[i].point.conn, true, fd);
    case Unreference => ReleasedFd(h, s.ios[i].point.f.conn, true, fd);
    case ReadClose => MarkedFd(h, s.ios[i].point.f.conn, i, fd);
    case Hangup => MarkedFd(h, s.ios[i].point.f.conn, i, fd);
    case DropMsg =>
      var m := s.ios[i].point.msg;
      if m in h.msgs {
        ReleasedFd(h.(msgs := h.msgs - {m}), h.msgs[m].conn, false, fd);
      } else {
        SameFds(h, DoIo(s, i, x).heap, fd);
      }
  }

  lemma FdTrans(h: Heap, g: Heap, k: Heap, fd: int)
    requires FdKept(h, g, fd) && FdKept(g, k, fd)
    ensures FdKept(h, k, fd)
  {
  }

  lemma EndsFd(s: State, i: nat, f: Frame, x: Conn, toRead: bool, fd: int)
    requires i < |s.ios| && f.conn < |s.heap.slots| && x.fd == s.heap.slots[f.conn].conn.fd
    ensures FdKept(s.heap, EndWrite(s, i, f, x, toRead).heap, fd)
  {
    SameFds(s.heap, EndWrite(s, i, f, x, toRead).heap, fd);
  }

  lemma WritesFd(s: State, i: nat, answers: seq<WriteResult>, fd: int)
    requires i < |s.ios| && s.ios[i].point.InWrite? && Live(s.heap, s.ios[i].point.f.conn)
    ensures FdKept(s.heap, WriteOut(s, i, answers).heap, fd)
  {
    var h, f := s.heap, s.ios[i].point.f;
    var x := h.slots[f.conn].conn;
    var r := WriteLoop(x, answers);
    if |x.out| == 0 {
      EndsFd(s, i, f, x.(state := ConnState.Reading), true, fd);
    } else {
      match r.outcome
      case Finished => EndsFd(s, i, f, x.(out := [], pos := 0, state := ConnState.Reading), true, fd);
      case Blocked => EndsFd(s, i, f, x.(pos := r.pos), false, fd);
      case Broken =>
        var k := SetConn(h, f.conn, x.(pos := r.pos));
        SameFds(h, k, fd);
        MarkedFd(k, f.conn, i, fd);
        FdTrans(h, k, MarkConn(k, f.conn, i), fd);
    }
  }

  lemma ReadsFd(s: State, i: nat, x: IoAction, fd: int)
    requires i < |s.ios| && CanIo(s, i, x) && (x.Read? || x.ReadNoTask? || x.ReadNoPayload?)
    ensures FdKept(s.heap, DoIo(s, i, x).heap, fd)
  {
    var fate := if x.Read? then Passed else if x.ReadNoTask? then NoTask else NoPayload;
    var h := Receive(s, i, x.data, fate).heap;
    SameFds(s.heap, h, fd);
    AcquiresFd(h, s.ios[i].point.f.conn, !x.Read?, fd);
    FdTrans(s.heap, h, AcquireConn(h, s.ios[i].point.f.conn, !x.Read?), fd);
  }

  lemma AcquiresFd(h: Heap, d: ConnId, orphan: bool, fd: int)
    ensures FdKept(h, AcquireConn(h, d, orphan), fd)
  {
    SameFds(h, AcquireConn(h, d, orphan), fd);
  }

  lemma AddsFd(s: State, i: nat, fd: int)
    requires i < |s.ios| && s.ios[i].point.Adding?
    ensures FdKept(s.heap, DoAdd(s, i).heap, fd)
  {
    SameFds(s.heap, DoAdd(s, i).heap, fd);
  }

  lemma HandlesFd(s: State, i: nat, fd: int)
    requires i < |s.ios| && s.ios[i].point.Handling?
    ensures FdKept(s.heap, DoHandle(s, i).heap, fd)
  {
    SameFds(s.heap, DoHandle(s, i).heap, fd);
  }

  lemma NextFd(s: State, i: nat, fd: int)
    requires Inv(s) && i < |s.ios| && s.ios[i].point.Dispatch?
    ensures FdKept(s.heap, DoNext(s, i).heap, fd)
  {
    NextHeap(s, i);
    SameFds(s.heap, DoNext(s, i).heap, fd);
  }

  lemma RestsFd(s: State, i: nat, x: IoAction, fd: int)
    requires i < |s.ios| && CanIo(s, i, x)
    requires || x.Poll? || x.Drain? || x.Submit? || x.SubmitRefused? || x.ReadStop? || x.Recheck?
             || x.Unregister?
    ensures FdKept(s.heap, DoIo(s, i, x).heap, fd)
  {
    SameFds(s.heap, DoIo(s, i, x).heap, fd);
  }

  lemma IoFd(s: State, i: nat, x: IoAction, fd: int)
    requires Inv(s) && i < |s.ios| && CanIo(s, i, x)
    ensures FdKept(s.heap, DoIo(s, i, x).heap, fd)
  {
    if x.AddFails? || x.Unreference? || x.DropMsg? || x.ReadClose? || x.Hangup? {
      ClosesFd(s, i, x, fd);
    } else if x.Write? {
      IoFacts(s, i);
      RegisteredIsValid(s.heap, s.ios[i].point.f.conn, i);
      WritesFd(WriteLogged(s, i, x.answers), i, x.answers, fd);
    } else if x.Read? || x.ReadNoTask? || x.ReadNoPayload? {
      ReadsFd(s, i, x, fd);
    } else if x.Next? {
      NextFd(s, i, fd);
    } else if x.Add? {
      AddsFd(s, i, fd);
    } else if x.Handle? {
      HandlesFd(s, i, fd);
    } else {
      RestsFd(s, i, x, fd);
    }
  }

  lemma WorkerFd(s: State, w: nat, y: WorkerAction, fd: int)
    requires Inv(s) && w < |s.workers| && CanWorker(s, w, y)
    ensures FdKept(s.heap, DoWorker(s, w, y).heap, fd)
  {
    WorkerHoldsOrFree(s, w);
    match y
    case Finish =>
      var x := s.workers[w].task;
      ReleasedFd(s.heap.(tasks := s.heap.tasks - {x}), s.heap.tasks[x].conn, false, fd);
    case Send => AcquiresFd(s.heap, s.heap.tasks[s.workers[w].task].conn, false, fd);
    case Process => SameFds(s.heap, DoProcess(s, w).heap, fd);
    case _ => SameFds(s.heap, DoWorker(s, w, y).heap, fd);
  }

  lemma WorkerHoldsOrFree(s: State, w: nat)
    requires Inv(s) && w < |s.workers|
    ensures !s.workers[w].Free? ==>
              s.workers[w].task in s.heap.tasks && Live(s.heap, s.heap.tasks[s.workers[w].task].conn)
  {
    if !s.workers[w].Free? {
      WorkerHolds(s, w);
    }
  }

  lemma AcceptFd(s: State, a: AcceptAction, fd: int)
    requires Inv(s) && FdOwned(s, fd) && CanAccept(s, a)
    ensures FdOwned(DoAccept(s, a), fd)
  {
    var t := DoAccept(s, a);
    match a
    case Accept(_) =>
    case Create(_) =>
      SameFds(s.heap, t.heap, fd);
      assert t.heap.slots[|s.heap.slots|].conn.fd == s.accept.fd;
    case CreateFails =>
    case HandOff => SameFds(s.heap, t.heap, fd);
    case HandOffFails => ReleasedFd(s.heap, s.accept.conn, true, fd);
    case Reclose =>
  }

  lemma FdStep(s: State, a: Action)
    requires Inv(s) && FdsOwned(s) && Can(s, a)
    ensures FdsOwned(Do(s, a))
  {
    if !a.ByAccept? {
      KeepsAccept(s, a);
    }
    forall fd: int ensures FdOwned(Do(s, a), fd) {
      assert FdOwned(s, fd);
      match a
      case ByAccept(b) => AcceptFd(s, b, fd);
      case ByIo(i, x) => IoFd(s, i, x, fd);
      case ByWorker(w, y) => WorkerFd(s, w, y, fd);
      case Shutdown =>
    }
  }

  lemma KeepsAccept(s: State, a: Action)
    requires Can(s, a) && !a.ByAccept?
    ensures Do(s, a).accept == s.accept
  {
    match a
    case ByIo(i, x) =>
      if x.Next? {
        NextKeepsAccept(s, i);
      } else {
        IoKeepsPipes(s, i, x);
      }
    case ByWorker(w, y) => WorkerKeepsAccept(s, w, y);
    case Shutdown =>
  }

  lemma NextKeepsAccept(s: State, i: nat)
    requires i < |s.ios| && s.ios[i].point.Dispatch?
    ensures DoNext(s, i).accept == s.accept
  {
  }

  lemma WorkerKeepsAccept(s: State, w: nat, y: WorkerAction)
    requires w < |s.workers| && CanWorker(s, w, y)
    ensures DoWorker(s, w, y).accept == s.accept
  {
  }

  lemma {:induction false} FdRun(s: State, acts: seq<Action>, t: State)
    requires Inv(s) && FdsOwned(s) && Run(s, acts, t) && !t.misled
    ensures FdsOwned(t)
    decreases |acts|
  {
    if acts != [] {
      NeverMisled(Do(s, acts[0]), acts[1..], t);
      FdStep(s, acts[0]);
      KeepStep(s, acts[0]);
      FdRun(Do(s, acts[0]), acts[1..], t);
    }
  }

  /**
    No descriptor leaks: unless the accept thread is about to close one, the open
    descriptors are exactly those of connections and the one it has just accepted.
   */
  lemma DescriptorsAreExact(s: State, fd: int)
    requires Reachable(s) && !s.misled && fd >= 0 && !s.accept.Reclosing?
    ensures fd in s.heap.openFds <==> HasFd(s.heap, fd) || s.accept == Accepted(fd)
  {
    var s0: State, acts: seq<Action> :| Init(s0) && Run(s0, acts, s);
    InvInit(s0);
    FdRun(s0, acts, s);
    assert FdOwned(s, fd);
    ReachableInv(s);
    if HasFd(s.heap, fd) {
      var c :| 0 <= c < |s.heap.slots| && s.heap.slots[c].conn.fd == fd;
      assert FdAt(s.heap, c);
    }
  }

  // ---- Order ------------------------------------------------------------------------

  /** Not with its I/O thread yet. */
  predicate OnTheWay(b: Base) { b.AtAccept? || b.InPipe? }

  /** With its I/O thread now. */
  predicate With(b: Base) { b.BeingAdded? || b.Registered? || b.BeingClosed? }

  /** When a thread has connection `d`, no earlier connection of it is still on its way. */
  predicate InOrder(h: Heap, c: ConnId, d: ConnId) {
    c < d < |h.slots| && h.slots[c].conn.io == h.slots[d].conn.io && With(h.slots[d].base) ==>
      !OnTheWay(h.slots[c].base)
  }

  predicate Before(pipe: seq<ConnId>, k: nat, l: nat) { k < l < |pipe| ==> pipe[k] < pipe[l] }

  predicate Sorted(pipe: seq<ConnId>) { forall k, l | 0 <= k < l < |pipe| :: Before(pipe, k, l) }

  predicate PipeSorted(s: State, i: nat) { i < |s.ios| ==> Sorted(s.ios[i].pipe) }

  /** The connection being handed over is the newest. */
  predicate OrderOk(s: State) {
    && (s.accept.Handing? ==> s.accept.conn + 1 == |s.heap.slots|)
    && (forall i | 0 <= i < |s.ios| :: PipeSorted(s, i))
    && (forall c, d | 0 <= c < d < |s.heap.slots| :: InOrder(s.heap, c, d))
  }

  /** Connections only move on, and keep their thread. */
  predicate MovesOn(h: Heap, g: Heap, c: ConnId) {
    c < |h.slots| ==>
      && c < |g.slots| && g.slots[c].conn.io == h.slots[c].conn.io
      && (OnTheWay(g.slots[c].base) ==> OnTheWay(h.slots[c].base)) && (With(g.slots[c].base) ==> With(h.slots[c].base))
  }

  lemma OrderCalm(s: State, t: State)
    requires OrderOk(s) && |t.heap.slots| == |s.heap.slots| && |t.ios| == |s.ios|
    requires t.accept.Handing? ==> t.accept == s.accept
    requires forall i | 0 <= i < |s.ios| :: t.ios[i].pipe == s.ios[i].pipe
    requires forall c | 0 <= c < |s.heap.slots| :: MovesOn(s.heap, t.heap, c)
    ensures OrderOk(t)
  {
    forall i | 0 <= i < |t.ios| ensures PipeSorted(t, i) {
      assert PipeSorted(s, i);
    }
    forall c, d | 0 <= c < d < |t.heap.slots| ensures InOrder(t.heap, c, d) {
      assert InOrder(s.heap, c, d) && MovesOn(s.heap, t.heap, c) && MovesOn(s.heap, t.heap, d);
    }
  }

  lemma ReleaseMovesOn(h: Heap, d: ConnId, base: bool, c: ConnId)
    ensures MovesOn(h, ReleaseConn(h, d, base), c)
  {
  }

  lemma MarkMovesOn(h: Heap, d: ConnId, i: nat, c: ConnId)
    requires Live(h, d) && With(h.slots[d].base)
    ensures MovesOn(h, MarkConn(h, d, i), c)
  {
  }

  lemma WriteMovesOn(s: State, i: nat, answers: seq<WriteResult>, c: ConnId)
    requires i < |s.ios| && s.ios[i].point.InWrite?
    requires Live(s.heap, s.ios[i].point.f.conn) && With(s.heap.slots[s.ios[i].point.f.conn].base)
    ensures MovesOn(s.heap, WriteOut(s, i, answers).heap, c)
  {
    var h, f := s.heap, s.ios[i].point.f;
    var x := h.slots[f.conn].conn;
    var r := WriteLoop(x, answers);
    if |x.out| == 0 {
      EndMovesOn(s, i, f, x.(state := ConnState.Reading), true, c);
    } else {
      match r.outcome
      case Finished => EndMovesOn(s, i, f, x.(out := [], pos := 0, state := ConnState.Reading), true, c);
      case Blocked => EndMovesOn(s, i, f, x.(pos := r.pos), false, c);
      case Broken => MarkMovesOn(SetConn(h, f.conn, x.(pos := r.pos)), f.conn, i, c);
    }
  }

  lemma EndMovesOn(s: State, i: nat, f: Frame, x: Conn, toRead: bool, c: ConnId)
    requires i < |s.ios| && f.conn < |s.heap.slots| && x.io == s.heap.slots[f.conn].conn.io
    ensures MovesOn(s.heap, EndWrite(s, i, f, x, toRead).heap, c)
  {
  }

  lemma CloseMovesOn(s: State, i: nat, x: IoAction, c: ConnId)
    requires Inv(s) && i < |s.ios| && CanIo(s, i, x)
    requires x.AddFails? || x.Unreference? || x.DropMsg? || x.ReadClose? || x.Hangup?
    ensures MovesOn(s.heap, DoIo(s, i, x).heap, c)
  {
    var h := s.heap;
    IoFacts(s, i);
    match x
    case AddFails => ReleaseMovesOn(h, s.ios[i].point.conn, true, c);
    case Unreference => ReleaseMovesOn(h, s.ios[i].point.f.conn, true, c);
    case ReadClose =>
      RegisteredIsValid(h, s.ios[i].point.f.conn, i);
      MarkMovesOn(h, s.ios[i].point.f.conn, i, c);
    case Hangup =>
      RegisteredIsValid(h, s.ios[i].point.f.conn, i);
      MarkMovesOn(h, s.ios[i].point.f.conn, i, c);
    case DropMsg =>
      var m := s.ios[i].point.msg;
      ReleaseMovesOn(h.(msgs := h.msgs - {m}), h.msgs[m].conn, false, c);
  }

  lemma ReadMovesOn(s: State, i: nat, x: IoAction, c: ConnId)
    requires i < |s.ios| && CanIo(s, i, x) && (x.Read? || x.ReadNoTask? || x.ReadNoPayload?)
    ensures MovesOn(s.heap, DoIo(s, i, x).heap, c)
  {
    var fate := if x.Read? then Passed else if x.ReadNoTask? then NoTask else NoPayload;
    var h := Receive(s, i, x.data, fate).heap;
    assert MovesOn(s.heap, h, c);
    AcquireMovesOn(h, s.ios[i].point.f.conn, !x.Read?, c);
  }

  lemma AcquireMovesOn(h: Heap, d: ConnId, orphan: bool, c: ConnId)
    ensures MovesOn(h, AcquireConn(h, d, orphan), c)
  {
  }

  lemma AddMovesOn(s: State, i: nat, c: ConnId)
    requires Inv(s) && i < |s.ios| && s.ios[i].point.Adding?
    ensures MovesOn(s.heap, DoAdd(s, i).heap, c)
  {
    IoFacts(s, i);
    SlotFacts(s.heap, s.ios[i].point.conn);
  }

  lemma RestMovesOn(s: State, i: nat, x: IoAction, c: ConnId)
    requires i < |s.ios| && CanIo(s, i, x)
    requires || x.Poll? || x.Drain? || x.Handle? || x.Unregister? || x.Submit? || x.SubmitRefused?
             || x.ReadStop? || x.Recheck?
    ensures MovesOn(s.heap, DoIo(s, i, x).heap, c)
  {
    if x.Handle? {
      HandleMovesOn(s, i, c);
    }
  }

  lemma HandleMovesOn(s: State, i: nat, c: ConnId)
    requires i < |s.ios| && s.ios[i].point.Handling?
    ensures MovesOn(s.heap, DoHandle(s, i).heap, c)
  {
  }

  lemma IoMovesOn(s: State, i: nat, x: IoAction, c: ConnId)
    requires Inv(s) && i < |s.ios| && CanIo(s, i, x) && !x.Next?
    ensures MovesOn(s.heap, DoIo(s, i, x).heap, c)
  {
    if x.AddFails? || x.Unreference? || x.DropMsg? || x.ReadClose? || x.Hangup? {
      CloseMovesOn(s, i, x, c);
    } else if x.Write? {
      IoFacts(s, i);
      RegisteredIsValid(s.heap, s.ios[i].point.f.conn, i);
      WriteMovesOn(WriteLogged(s, i, x.answers), i, x.answers, c);
    } else if x.Read? || x.ReadNoTask? || x.ReadNoPayload? {
      ReadMovesOn(s, i, x, c);
    } else if x.Add? {
      AddMovesOn(s, i, c);
    } else {
      RestMovesOn(s, i, x, c);
    }
  }

  /** Only dispatching the hand-off pipe changes a pipe. */
  lemma IoKeepsPipes(s: State, i: nat, x: IoAction)
    requires i < |s.ios| && CanIo(s, i, x) && !x.Next?
    ensures |DoIo(s, i, x).ios| == |s.ios| && DoIo(s, i, x).accept == s.accept
    ensures |DoIo(s, i, x).heap.slots| == |s.heap.slots|
    ensures forall j | 0 <= j < |s.ios| :: DoIo(s, i, x).ios[j].pipe == s.ios[j].pipe
  {
    if x.Write? {
      WriteKeepsPipes(s, i, x.answers);
    } else if x.Read? || x.ReadNoTask? || x.ReadNoPayload? || x.Submit? || x.SubmitRefused? {
      ReadKeepsPipes(s, i, x);
    } else if x.Drain? || x.Handle? || x.DropMsg? {
      MailKeepsPipes(s, i, x);
    }
  }

  lemma WriteKeepsPipes(s: State, i: nat, answers: seq<WriteResult>)
    requires i < |s.ios| && s.ios[i].point.InWrite?
    ensures var t := DoWrite(s, i, answers);
            && |t.ios| == |s.ios| && t.accept == s.accept && |t.heap.slots| == |s.heap.slots|
            && forall j | 0 <= j < |s.ios| :: t.ios[j].pipe == s.ios[j].pipe
  {
  }

  lemma ReadKeepsPipes(s: State, i: nat, x: IoAction)
    requires i < |s.ios| && CanIo(s, i, x)
    requires x.Read? || x.ReadNoTask? || x.ReadNoPayload? || x.Submit? || x.SubmitRefused?
    ensures var t := DoIo(s, i, x);
            && |t.ios| == |s.ios| && t.accept == s.accept && |t.heap.slots| == |s.heap.slots|
            && forall j | 0 <= j < |s.ios| :: t.ios[j].pipe == s.ios[j].pipe
  {
  }

  lemma MailKeepsPipes(s: State, i: nat, x: IoAction)
    requires i < |s.ios| && CanIo(s, i, x) && (x.Drain? || x.Handle? || x.DropMsg?)
    ensures var t := DoIo(s, i, x);
            && |t.ios| == |s.ios| && t.accept == s.accept && |t.heap.slots| == |s.heap.slots|
            && forall j | 0 <= j < |s.ios| :: t.ios[j].pipe == s.ios[j].pipe
  {
    if x.Handle? {
      HandleKeepsPipes(s, i);
    }
  }

  lemma HandleKeepsPipes(s: State, i: nat)
    requires i < |s.ios| && s.ios[i].point.Handling?
    ensures var t := DoHandle(s, i);
            && |t.ios| == |s.ios| && t.accept == s.accept && |t.heap.slots| == |s.heap.slots|
            && forall j | 0 <= j < |s.ios| :: t.ios[j].pipe == s.ios[j].pipe
  {
  }

  lemma IoOrder(s: State, i: nat, x: IoAction)
    requires Inv(s) && OrderOk(s) && i < |s.ios| && CanIo(s, i, x) && !x.Next?
    ensures OrderOk(DoIo(s, i, x))
  {
    IoKeepsPipes(s, i, x);
    forall c | 0 <= c < |s.heap.slots| ensures MovesOn(s.heap, DoIo(s, i, x).heap, c) {
      IoMovesOn(s, i, x, c);
    }
    OrderCalm(s, DoIo(s, i, x));
  }

  /** The head of the pipe is the oldest connection that is still on its way to the thread. */
  lemma OldestFirst(s: State, i: nat, c: ConnId)
    requires Inv(s) && OrderOk(s) && i < |s.ios| && s.ios[i].pipe != [] && c < s.ios[i].pipe[0]
    requires c < |s.heap.slots| && s.heap.slots[c].conn.io == i
    ensures !OnTheWay(s.heap.slots[c].base)
  {
    var pipe := s.ios[i].pipe;
    IoFacts(s, i);
    assert PipeAt(s.heap, i, pipe, 0) && BaseAt(s, c);
    SlotFacts(s.heap, c);
    assert PipeSorted(s, i);
    HeadIsLeast(pipe);
  }

  lemma HeadIsLeast(pipe: seq<ConnId>)
    requires Sorted(pipe) && pipe != []
    ensures forall k | 0 <= k < |pipe| :: pipe[0] <= pipe[k]
  {
    forall k | 0 <= k < |pipe| ensures pipe[0] <= pipe[k] {
      assert Before(pipe, 0, k);
    }
  }

  lemma NextOrder(s: State, i: nat)
    requires Inv(s) && OrderOk(s) && i < |s.ios| && s.ios[i].point.Dispatch?
    ensures OrderOk(DoNext(s, i))
  {
    var t, batch, pipe := DoNext(s, i), s.ios[i].point.batch, s.ios[i].pipe;
    IoFacts(s, i);
    NextHeap(s, i);
    if batch != [] && batch[0].PipeReady? && pipe != [] {
      var d := pipe[0];
      assert PipeAt(s.heap, i, pipe, 0);
      SlotFacts(s.heap, d);
      PopOrder(s, t, i, d);
    } else {
      NextMovesPoint(s, i);
      OrderCalm(s, t);
    }
  }

  lemma PopOrder(s: State, t: State, i: nat, d: ConnId)
    requires Inv(s) && OrderOk(s) && i < |s.ios| == |t.ios| && s.ios[i].pipe != [] && d == s.ios[i].pipe[0]
    requires d < |s.heap.slots| && s.heap.slots[d].base == InPipe(i) && s.heap.slots[d].conn.io == i
    requires t.accept == s.accept && t.heap.slots == s.heap.slots[d := s.heap.slots[d].(base := BeingAdded(i))]
    requires t.ios[i].pipe == s.ios[i].pipe[1..] && forall j | 0 <= j < |s.ios| && j != i :: t.ios[j] == s.ios[j]
    ensures OrderOk(t)
  {
    var pipe := s.ios[i].pipe;
    forall j | 0 <= j < |t.ios| ensures PipeSorted(t, j) {
      assert PipeSorted(s, j);
      if j == i {
        forall k, l | 0 <= k < l < |pipe[1..]| ensures Before(pipe[1..], k, l) {
          assert Before(pipe, k + 1, l + 1);
        }
      }
    }
    forall c, e | 0 <= c < e < |t.heap.slots| ensures InOrder(t.heap, c, e) {
      assert InOrder(s.heap, c, e);
      if e == d && s.heap.slots[c].conn.io == i {
        OldestFirst(s, i, c);
      }
    }
  }

  lemma AcceptOrder(s: State, a: AcceptAction)
    requires Inv(s) && OrderOk(s) && CanAccept(s, a)
    ensures OrderOk(DoAccept(s, a))
  {
    var t := DoAccept(s, a);
    match a
    case Create(i) => CreateOrder(s, i);
    case HandOff => HandOrder(s);
    case HandOffFails =>
      forall c | 0 <= c < |s.heap.slots| ensures MovesOn(s.heap, t.heap, c) {
        ReleaseMovesOn(s.heap, s.accept.conn, true, c);
      }
      OrderCalm(s, t);
    case _ => OrderCalm(s, t);
  }

  lemma CreateOrder(s: State, i: nat)
    requires OrderOk(s) && s.accept.Accepted? && i < |s.ios|
    ensures OrderOk(DoCreate(s, i))
  {
    var t := DoCreate(s, i);
    forall j | 0 <= j < |t.ios| ensures PipeSorted(t, j) {
      assert PipeSorted(s, j);
    }
    forall c, d | 0 <= c < d < |t.heap.slots| ensures InOrder(t.heap, c, d) {
      assert d < |s.heap.slots| ==> InOrder(s.heap, c, d);
    }
  }

  lemma HandOrder(s: State)
    requires Inv(s) && OrderOk(s) && s.accept.Handing? && s.accept.io < |s.ios|
    ensures OrderOk(DoHandOff(s))
  {
    var t, i, d := DoHandOff(s), s.accept.io, s.accept.conn;
    var pipe := s.ios[i].pipe;
    forall j | 0 <= j < |t.ios| ensures PipeSorted(t, j) {
      assert PipeSorted(s, j);
      if j == i {
        IoFacts(s, i);
        forall k, l | 0 <= k < l < |pipe + [d]| ensures Before(pipe + [d], k, l) {
          assert Before(pipe, k, l) && PipeAt(s.heap, i, pipe, k);
        }
      }
    }
    forall c, e | 0 <= c < e < |t.heap.slots| ensures InOrder(t.heap, c, e) {
      assert InOrder(s.heap, c, e);
    }
  }

  lemma WorkerOrder(s: State, w: nat, y: WorkerAction)
    requires Inv(s) && OrderOk(s) && w < |s.workers| && CanWorker(s, w, y)
    ensures OrderOk(DoWorker(s, w, y))
  {
    var t := DoWorker(s, w, y);
    WorkerHoldsOrFree(s, w);
    forall c | 0 <= c < |s.heap.slots| ensures MovesOn(s.heap, t.heap, c) {
      WorkerMovesOn(s, w, y, c);
    }
    OrderCalm(s, t);
  }

  lemma WorkerMovesOn(s: State, w: nat, y: WorkerAction, c: ConnId)
    requires Inv(s) && w < |s.workers| && CanWorker(s, w, y)
    ensures MovesOn(s.heap, DoWorker(s, w, y).heap, c)
  {
    WorkerHoldsOrFree(s, w);
    match y
    case Finish =>
      var x := s.workers[w].task;
      ReleaseMovesOn(s.heap.(tasks := s.heap.tasks - {x}), s.heap.tasks[x].conn, false, c);
    case Send => AcquireMovesOn(s.heap, s.heap.tasks[s.workers[w].task].conn, false, c);
    case _ =>
  }

  lemma OrderStep(s: State, a: Action)
    requires Inv(s) && OrderOk(s) && Can(s, a)
    ensures OrderOk(Do(s, a))
  {
    match a
    case ByAccept(b) => AcceptOrder(s, b);
    case ByIo(i, x) =>
      if x.Next? {
        NextOrder(s, i);
      } else {
        IoOrder(s, i, x);
      }
    case ByWorker(w, y) => WorkerOrder(s, w, y);
    case Shutdown => OrderCalm(s, s.(down := true));
  }

  lemma {:induction false} OrderRun(s: State, acts: seq<Action>, t: State)
    requires Inv(s) && OrderOk(s) && Run(s, acts, t) && !t.misled
    ensures OrderOk(t)
    decreases |acts|
  {
    if acts != [] {
      NeverMisled(Do(s, acts[0]), acts[1..], t);
      OrderStep(s, acts[0]);
      KeepStep(s, acts[0]);
      OrderRun(Do(s, acts[0]), acts[1..], t);
    }
  }

  /**
    An I/O thread gets its connections in the order in which they were accepted:
    while it has one, no earlier one of it is still being handed over.
   */
  lemma HandedInOrder(s: State, c: ConnId, d: ConnId)
    requires Reachable(s) && !s.misled && c < d < |s.heap.slots|
    requires s.heap.slots[c].conn.io == s.heap.slots[d].conn.io && With(s.heap.slots[d].base)
    ensures !s.heap.slots[c].base.AtAccept? && !s.heap.slots[c].base.InPipe?
  {
    var s0: State, acts: seq<Action> :| Init(s0) && Run(s0, acts, s);
    InvInit(s0);
    OrderRun(s0, acts, s);
    assert InOrder(s.heap, c, d);
  }
}

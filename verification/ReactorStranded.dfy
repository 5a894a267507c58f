/** Exactly which responses nobody will send: those that a failed message left without a cover. */
module ReactorStranded {
  import opened Responses
  import opened Connections
  import opened IoThreads
  import opened Reactor
  import opened ReactorHeap
  import opened ReactorOwners
  import opened ReactorIoSteps
  import opened ReactorSafety
  import opened ReactorTheorems
  import opened ReactorResponses

  /** A response that was recorded as stranded has no cover. */
  predicate StrandedAt(s: State, c: ConnId) { c in s.stranded ==> !Covered(s, c) }

  ghost predicate StrandedOk(s: State) { forall c: ConnId :: StrandedAt(s, c) }

  // ---- Steps that cover nothing new -----------------------------------------------

  predicate OldArm(h: Heap, g: Heap, c: ConnId) { Armed(g, c) ==> Armed(h, c) }

  predicate OldMsg(s: State, t: State, c: ConnId, m: MsgId) { Pending(t, m, c) ==> Pending(s, m, c) }

  predicate OldWorker(s: State, t: State, c: ConnId, w: nat) { Announcing(t, w, c) ==> Announcing(s, w, c) }

  /** Whatever covers `c` after the step covered it before. */
  lemma StaysBare(s: State, t: State, c: ConnId)
    requires StrandedAt(s, c) && OldArm(s.heap, t.heap, c) && (c in t.stranded ==> c in s.stranded)
    requires forall m: MsgId :: OldMsg(s, t, c, m)
    requires forall w: nat :: OldWorker(s, t, c, w)
    ensures StrandedAt(t, c)
  {
    if c in t.stranded {
      forall m | m in t.heap.msgs ensures !Pending(t, m, c) {
        assert OldMsg(s, t, c, m);
      }
      forall w | 0 <= w < |t.workers| ensures !Announcing(t, w, c) {
        assert OldWorker(s, t, c, w);
      }
    }
  }

  /** Giving back a reference frees no registered connection. */
  lemma OldRelease(h: Heap, d: ConnId, base: bool, c: ConnId)
    requires Live(h, d) && SlotOk(h.slots[d]) && if base then !h.slots[d].base.Registered? else h.slots[d].held >= 1
    ensures OldArm(h, ReleaseConn(h, d, base), c)
  {
  }

  lemma OldClose(s: State, i: nat, h: Heap, f: Frame, ret: Return, c: ConnId)
    requires i < |s.ios|
    ensures OldArm(h, BeginClose(s, i, h, f, ret).heap, c)
  {
  }

  /** A step of thread `i` that takes no message in hand. */
  lemma BareIo(s: State, t: State, i: nat, c: ConnId)
    requires Inv(s) && StrandedAt(s, c) && IoMoved(s, t, i) && t.stranded == s.stranded
    requires OldArm(s.heap, t.heap, c) && t.heap.msgs == s.heap.msgs
    requires !t.ios[i].point.Handling?
    requires forall x | x in s.heap.tasks :: x in t.heap.tasks && t.heap.tasks[x].conn == s.heap.tasks[x].conn
    ensures StrandedAt(t, c)
  {
    forall m: MsgId ensures OldMsg(s, t, c, m) {
    }
    forall w: nat ensures OldWorker(s, t, c, w) {
      if Announcing(t, w, c) {
        WorkerFacts(s, w);
      }
    }
    StaysBare(s, t, c);
  }

  // ---- I/O threads ------------------------------------------------------------------

  lemma WriteBare(s: State, i: nat, answers: seq<WriteResult>, c: ConnId)
    requires Inv(s) && StrandedAt(s, c) && i < |s.ios| && s.ios[i].point.InWrite?
    ensures StrandedAt(DoWrite(s, i, answers), c)
  {
    IoFacts(s, i);
    RegisteredIsValid(s.heap, s.ios[i].point.f.conn, i);
    WriteArm(WriteLogged(s, i, answers), i, answers, c);
    BareIo(s, DoWrite(s, i, answers), i, c);
  }

  lemma WriteArm(s: State, i: nat, answers: seq<WriteResult>, c: ConnId)
    requires i < |s.ios| && s.ios[i].point.InWrite? && Live(s.heap, s.ios[i].point.f.conn)
    ensures OldArm(s.heap, WriteOut(s, i, answers).heap, c) && !WriteOut(s, i, answers).ios[i].point.Handling?
    ensures IoMoved(s, WriteOut(s, i, answers), i)
  {
    var h, f := s.heap, s.ios[i].point.f;
    var x := h.slots[f.conn].conn;
    var r := WriteLoop(x, answers);
    if |x.out| == 0 {
      EndArm(s, i, f, x.(state := ConnState.Reading), true, c);
    } else {
      match r.outcome
      case Finished => EndArm(s, i, f, x.(out := [], pos := 0, state := ConnState.Reading), true, c);
      case Blocked => EndArm(s, i, f, x.(pos := r.pos), false, c);
      case Broken => OldClose(s, i, SetConn(h, f.conn, x.(pos := r.pos)), f, ToWrite, c);
    }
  }

  lemma EndArm(s: State, i: nat, f: Frame, x: Conn, toRead: bool, c: ConnId)
    requires i < |s.ios| && f.conn < |s.heap.slots| && x.fd == s.heap.slots[f.conn].conn.fd
    ensures OldArm(s.heap, EndWrite(s, i, f, x, toRead).heap, c)
  {
  }

  lemma ReadBare(s: State, i: nat, x: IoAction, c: ConnId)
    requires Inv(s) && StrandedAt(s, c) && i < |s.ios| && CanIo(s, i, x)
    requires x.Read? || x.ReadNoTask? || x.ReadNoPayload?
    ensures StrandedAt(DoIo(s, i, x), c)
  {
    FreshTask(s);
    ReadArm(s, i, x, c);
    ReadKeeps(s, i, x);
    BareIo(s, DoIo(s, i, x), i, c);
  }

  lemma ReadKeeps(s: State, i: nat, x: IoAction)
    requires i < |s.ios| && CanIo(s, i, x) && (x.Read? || x.ReadNoTask? || x.ReadNoPayload?)
    requires s.nextTask !in s.heap.tasks
    ensures var t := DoIo(s, i, x);
            && IoMoved(s, t, i) && t.stranded == s.stranded && t.heap.msgs == s.heap.msgs
            && !t.ios[i].point.Handling?
            && forall y | y in s.heap.tasks :: y in t.heap.tasks && t.heap.tasks[y].conn == s.heap.tasks[y].conn
  {
  }

  lemma ReadArm(s: State, i: nat, x: IoAction, c: ConnId)
    requires i < |s.ios| && CanIo(s, i, x) && (x.Read? || x.ReadNoTask? || x.ReadNoPayload?)
    ensures OldArm(s.heap, DoIo(s, i, x).heap, c)
  {
    var fate := if x.Read? then Passed else if x.ReadNoTask? then NoTask else NoPayload;
    var h := Receive(s, i, x.data, fate).heap;
    assert OldArm(s.heap, h, c);
    AcquireArm(h, s.ios[i].point.f.conn, !x.Read?, c);
  }

  lemma AcquireArm(h: Heap, d: ConnId, orphan: bool, c: ConnId)
    ensures OldArm(h, AcquireConn(h, d, orphan), c)
  {
  }

  /** Acting on a message arms its own connection, which the message covered. */
  lemma HandleBare(s: State, i: nat, c: ConnId)
    requires Inv(s) && StrandedAt(s, c) && i < |s.ios| && s.ios[i].point.Handling?
    ensures StrandedAt(DoHandle(s, i), c)
  {
    var t, h, m := DoHandle(s, i), s.heap, s.ios[i].point.msg;
    IoFacts(s, i);
    MsgNamesLive(h, m);
    var d := h.msgs[m].conn;
    assert Pending(s, m, d);
    SlotFacts(h, d);
    assert FdsApart(h, d, c);
    if d != c {
      BareIo(s, t, i, c);
    }
  }

  lemma DrainBare(s: State, i: nat, c: ConnId)
    requires Inv(s) && StrandedAt(s, c) && i < |s.ios| && s.ios[i].point.Draining?
    ensures StrandedAt(DoDrain(s, i), c)
  {
    var t := DoDrain(s, i);
    IoFacts(s, i);
    assert s.ios[i].inbox != [] ==> InboxAt(s.heap, i, s.ios[i].inbox, 0);
    forall m: MsgId ensures OldMsg(s, t, c, m) {
      if Pending(t, m, c) {
        assert MsgAtOk(s, m);
      }
    }
    forall w: nat ensures OldWorker(s, t, c, w) {
    }
    StaysBare(s, t, c);
  }

  lemma DropBare(s: State, i: nat, c: ConnId)
    requires Inv(s) && StrandedAt(s, c) && i < |s.ios| && s.ios[i].point.Dropping?
    ensures StrandedAt(DoDropMsg(s, i), c)
  {
    var t, h, m := DoDropMsg(s, i), s.heap, s.ios[i].point.msg;
    IoFacts(s, i);
    MsgNamesLive(h, m);
    SlotFacts(h, h.msgs[m].conn);
    OldRelease(h.(msgs := h.msgs - {m}), h.msgs[m].conn, false, c);
    forall n: MsgId ensures OldMsg(s, t, c, n) {
    }
    forall w: nat ensures OldWorker(s, t, c, w) {
    }
    StaysBare(s, t, c);
  }

  lemma ReleaseBare(s: State, i: nat, x: IoAction, c: ConnId)
    requires Inv(s) && StrandedAt(s, c) && i < |s.ios| && CanIo(s, i, x) && (x.AddFails? || x.Unreference?)
    ensures StrandedAt(DoIo(s, i, x), c)
  {
    IoFacts(s, i);
    var d := if x.AddFails? then s.ios[i].point.conn else s.ios[i].point.f.conn;
    SlotFacts(s.heap, d);
    OldRelease(s.heap, d, true, c);
    BareIo(s, DoIo(s, i, x), i, c);
  }

  lemma CloseBare(s: State, i: nat, x: IoAction, c: ConnId)
    requires Inv(s) && StrandedAt(s, c) && i < |s.ios| && CanIo(s, i, x)
    requires x.Unregister? || x.ReadClose? || x.Hangup?
    ensures StrandedAt(DoIo(s, i, x), c)
  {
    match x {
      case ReadClose => OldClose(s, i, s.heap, s.ios[i].point.f, ToRead, c);
      case Hangup => OldClose(s, i, s.heap, s.ios[i].point.f, ToDone, c);
      case Unregister => KeepUnregister(s, i);
    }
    BareIo(s, DoIo(s, i, x), i, c);
  }

  lemma NextBare(s: State, i: nat, c: ConnId)
    requires Inv(s) && StrandedAt(s, c) && i < |s.ios| && s.ios[i].point.Dispatch?
    ensures StrandedAt(DoNext(s, i), c)
  {
    NextHeap(s, i);
    BareIo(s, DoNext(s, i), i, c);
  }

  lemma AddBare(s: State, i: nat, c: ConnId)
    requires Inv(s) && StrandedAt(s, c) && i < |s.ios| && s.ios[i].point.Adding?
    ensures StrandedAt(DoAdd(s, i), c)
  {
    IoFacts(s, i);
    SlotFacts(s.heap, s.ios[i].point.conn);
    assert FdsApart(s.heap, s.ios[i].point.conn, c);
    BareIo(s, DoAdd(s, i), i, c);
  }

  lemma SubmitBare(s: State, i: nat, x: IoAction, c: ConnId)
    requires Inv(s) && StrandedAt(s, c) && i < |s.ios| && CanIo(s, i, x) && (x.Submit? || x.SubmitRefused?)
    ensures StrandedAt(DoIo(s, i, x), c)
  {
    IoFacts(s, i);
    BareIo(s, DoIo(s, i, x), i, c);
  }

  lemma OtherBare(s: State, i: nat, x: IoAction, c: ConnId)
    requires Inv(s) && StrandedAt(s, c) && i < |s.ios| && CanIo(s, i, x)
    requires x.Poll? || x.ReadStop? || x.Recheck?
    ensures StrandedAt(DoIo(s, i, x), c)
  {
    BareIo(s, DoIo(s, i, x), i, c);
  }

  lemma IoBare(s: State, i: nat, x: IoAction, c: ConnId)
    requires Inv(s) && StrandedAt(s, c) && i < |s.ios| && CanIo(s, i, x)
    ensures StrandedAt(DoIo(s, i, x), c)
  {
    match x
    case Next => NextBare(s, i, c);
    case Drain => DrainBare(s, i, c);
    case Handle => HandleBare(s, i, c);
    case DropMsg => DropBare(s, i, c);
    case Write(answers) => WriteBare(s, i, answers, c);
    case Read(_) => ReadBare(s, i, x, c);
    case ReadNoTask(_) => ReadBare(s, i, x, c);
    case ReadNoPayload(_) => ReadBare(s, i, x, c);
    case Add => AddBare(s, i, c);
    case AddFails => ReleaseBare(s, i, x, c);
    case Unreference => ReleaseBare(s, i, x, c);
    case Submit => SubmitBare(s, i, x, c);
    case SubmitRefused => SubmitBare(s, i, x, c);
    case Unregister => CloseBare(s, i, x, c);
    case ReadClose => CloseBare(s, i, x, c);
    case Hangup => CloseBare(s, i, x, c);
    case _ => OtherBare(s, i, x, c);
  }

  // ---- Workers and accept thread ------------------------------------------------------

  /** Sending a message covers a connection that its worker covered already. */
  lemma SendBare(s: State, w: nat, c: ConnId)
    requires Inv(s) && StrandedAt(s, c) && w < |s.workers| && s.workers[w].Sending?
    ensures StrandedAt(DoSend(s, w), c)
  {
    WorkerHolds(s, w);
    var t, d := DoSend(s, w), s.heap.tasks[s.workers[w].task].conn;
    assert Announcing(s, w, d);
    if d != c {
      forall m: MsgId ensures OldMsg(s, t, c, m) {
      }
      forall v: nat ensures OldWorker(s, t, c, v) {
      }
      StaysBare(s, t, c);
    }
  }

  /** Installing a response covers its connection, and clears the record. */
  lemma ProcessBare(s: State, w: nat, c: ConnId)
    requires Inv(s) && StrandedAt(s, c) && w < |s.workers| && s.workers[w].Processing?
    ensures StrandedAt(DoProcess(s, w), c)
  {
    var t := DoProcess(s, w);
    WorkerHolds(s, w);
    if s.heap.tasks[s.workers[w].task].conn != c {
      forall m: MsgId ensures OldMsg(s, t, c, m) {
      }
      forall v: nat ensures OldWorker(s, t, c, v) {
      }
      StaysBare(s, t, c);
    }
  }

  /** A failed message is recorded only where nothing covers the connection. */
  lemma SendFailsBare(s: State, w: nat, c: ConnId)
    requires StrandedAt(s, c) && w < |s.workers| && s.workers[w].Sending?
    ensures StrandedAt(DoSendFails(s, w), c)
  {
    var t, u := DoSendFails(s, w), WorkerGoto(s, w, Finishing(s.workers[w].task));
    SameCover(u, t, c);
    if c in s.stranded {
      forall m: MsgId ensures OldMsg(s, t, c, m) {
      }
      forall v: nat ensures OldWorker(s, t, c, v) {
      }
      StaysBare(s, t, c);
    }
  }

  lemma StageBare(s: State, w: nat, y: WorkerAction, c: ConnId)
    requires Inv(s) && StrandedAt(s, c) && w < |s.workers| && CanWorker(s, w, y)
    requires y.Pop? || y.Check? || y.Confirm? || y.Finish?
    ensures StrandedAt(DoWorker(s, w, y), c)
  {
    var t := DoWorker(s, w, y);
    if y.Pop? {
      assert QueueAt(s.heap, s.queue, 0);
    } else {
      WorkerHolds(s, w);
    }
    if y.Finish? {
      var x := s.workers[w].task;
      OldRelease(s.heap.(tasks := s.heap.tasks - {x}), s.heap.tasks[x].conn, false, c);
    }
    forall m: MsgId ensures OldMsg(s, t, c, m) {
    }
    forall v: nat ensures OldWorker(s, t, c, v) {
    }
    StaysBare(s, t, c);
  }

  lemma WorkerBare(s: State, w: nat, y: WorkerAction, c: ConnId)
    requires Inv(s) && StrandedAt(s, c) && w < |s.workers| && CanWorker(s, w, y)
    ensures StrandedAt(DoWorker(s, w, y), c)
  {
    match y
    case Send => SendBare(s, w, c);
    case Process => ProcessBare(s, w, c);
    case SendFails => SendFailsBare(s, w, c);
    case _ => StageBare(s, w, y, c);
  }

  lemma AcceptBare(s: State, a: AcceptAction, c: ConnId)
    requires Inv(s) && StrandedAt(s, c) && CanAccept(s, a)
    ensures StrandedAt(DoAccept(s, a), c)
  {
    var t := DoAccept(s, a);
    if a.HandOffFails? {
      SlotFacts(s.heap, s.accept.conn);
      OldRelease(s.heap, s.accept.conn, true, c);
    }
    forall m: MsgId ensures OldMsg(s, t, c, m) {
    }
    forall v: nat ensures OldWorker(s, t, c, v) {
    }
    StaysBare(s, t, c);
  }

  // ---- Whole runs ------------------------------------------------------------------------

  lemma StrandedStep(s: State, a: Action)
    requires Inv(s) && StrandedOk(s) && Can(s, a)
    ensures StrandedOk(Do(s, a))
  {
    forall c: ConnId ensures StrandedAt(Do(s, a), c) {
      assert StrandedAt(s, c);
      match a
      case ByAccept(b) => AcceptBare(s, b, c);
      case ByIo(i, x) => IoBare(s, i, x, c);
      case ByWorker(w, y) => WorkerBare(s, w, y, c);
      case Shutdown => SameCover(s, s.(down := true), c);
    }
  }

  lemma {:induction false} StrandedRun(s: State, acts: seq<Action>, t: State)
    requires Inv(s) && StrandedOk(s) && Run(s, acts, t) && !t.misled
    ensures StrandedOk(t)
    decreases |acts|
  {
    if acts != [] {
      NeverMisled(Do(s, acts[0]), acts[1..], t);
      StrandedStep(s, acts[0]);
      KeepStep(s, acts[0]);
      StrandedRun(Do(s, acts[0]), acts[1..], t);
    }
  }

  /**
    In every reachable state, an open connection with unsent bytes is watched for
    writability, has a message queued or about to be acted upon, or has a worker
    about to send one, exactly unless a message that could not be allocated left
    it without any of these.
   */
  lemma NoResponseIsStranded(s: State, c: ConnId)
    requires Reachable(s) && !s.misled && Unsent(s.heap, c)
    ensures Covered(s, c) <==> c !in s.stranded
  {
    var s0: State, acts: seq<Action> :| Init(s0) && Run(s0, acts, s);
    InvInit(s0);
    StrandedRun(s0, acts, s);
    assert StrandedAt(s, c);
    ReachableCovered(s, c);
  }

  // ---- A response that is stranded -------------------------------------------------------

  /** One valid connection without write interest or messages, and one worker at `p` with its task. */
  ghost predicate OneTask(s: State, p: WorkerPoint) {
    && Reachable(s) && !s.misled && |s.heap.slots| == 1 && SeesValid(s.heap, 0) && s.workers == [p]
    && s.heap.tasks.Keys == {0} && s.heap.tasks[0].conn == 0 && s.heap.tasks[0].payload == "x"
    && s.heap.msgs == map[] && s.heap.reg == ONE_REG
  }

  lemma TaskPopped() returns (s: State)
    ensures OneTask(s, Checking(0))
  {
    SceneReading(false);
    var s1 := DoRead(SceneInRead(false), 0, "x");
    Then(SceneInRead(false), ByIo(0, Read("x")), s1);
    var s2 := DoSubmit(s1, 0);
    Then(s1, ByIo(0, Submit), s2);
    s := DoPop(s2, 0);
    Then(s2, ByWorker(0, Pop), s);
  }

  lemma TaskProcessed() returns (s: State)
    ensures OneTask(s, Confirming(0)) && Unsent(s.heap, 0)
  {
    var s3 := TaskPopped();
    var s4 := DoTest(s3, 0, 0, Processing(0));
    Then(s3, ByWorker(0, Check), s4);
    s := DoProcess(s4, 0);
    FormatFits("x");
    Then(s4, ByWorker(0, Process), s);
  }

  /** When the message cannot be allocated, the response is never announced to the I/O thread. */
  lemma ResponseCanBeStranded() returns (s: State)
    ensures Reachable(s) && !s.misled && Unsent(s.heap, 0) && 0 in s.stranded && !Covered(s, 0)
  {
    var s5 := TaskProcessed();
    var s6 := DoTest(s5, 0, 0, Sending(0));
    Then(s5, ByWorker(0, Confirm), s6);
    s := DoSendFails(s6, 0);
    Then(s6, ByWorker(0, SendFails), s);
  }
}

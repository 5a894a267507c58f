/** What each open connection is watched for: reading, except while a response is to be sent. */
module ReactorInterest {
  import opened Connections
  import opened IoThreads
  import opened Reactor
  import opened ReactorHeap
  import opened ReactorOwners
  import opened ReactorIoSteps
  import opened ReactorSafety
  import opened ReactorResponses
  import opened ReactorStranded
  import opened ReactorWires

  /** The event loop watches the connection for data. */
  predicate Listening(h: Heap, c: ConnId) {
    && c < |h.slots| && h.slots[c].base.Registered?
    && var k := (h.slots[c].base.i, h.slots[c].conn.fd);
       k in h.reg && h.reg[k] == Reg(c, false)
  }

  /**
    A write event after which nothing is left to send puts the connection back to
    reading, one that leaves bytes changes no registration, and one that closes the
    connection leaves it none.
   */
  lemma WriteSwitches(s: State, i: nat, answers: seq<WriteResult>)
    requires Inv(s) && i < |s.ios| && s.ios[i].point.InWrite?
    ensures var t, c := DoWrite(s, i, answers), s.ios[i].point.f.conn;
            && c < |t.heap.slots|
            && (SeesValid(t.heap, c) && t.heap.slots[c].conn.out == [] ==>
                  && Listening(t.heap, c) && t.heap.slots[c].base == Registered(i)
                  && t.heap.slots[c].conn.state == ConnState.Reading)
            && (SeesValid(t.heap, c) && t.heap.slots[c].conn.out != [] ==> t.heap.reg == s.heap.reg)
            && (!SeesValid(t.heap, c) ==> forall k | k in t.heap.reg :: t.heap.reg[k].conn != c)
  {
    var c := s.ios[i].point.f.conn;
    IoFacts(s, i);
    RegisteredIsValid(s.heap, c, i);
    SlotFacts(s.heap, c);
    assert Watched(s.heap, c);
    WriteRegs(WriteLogged(s, i, answers), i, answers);
  }

  lemma WriteRegs(s: State, i: nat, answers: seq<WriteResult>)
    requires i < |s.ios| && s.ios[i].point.InWrite? && HeapOk(s.heap)
    requires Owns(s.heap, s.ios[i].point.f.conn, Registered(i)) && SeesValid(s.heap, s.ios[i].point.f.conn)
    requires (i, s.heap.slots[s.ios[i].point.f.conn].conn.fd) in s.heap.reg
    ensures var t, c := WriteOut(s, i, answers), s.ios[i].point.f.conn;
            && c < |t.heap.slots|
            && (SeesValid(t.heap, c) && t.heap.slots[c].conn.out == [] ==>
                  && Listening(t.heap, c) && t.heap.slots[c].base == Registered(i)
                  && t.heap.slots[c].conn.state == ConnState.Reading)
            && (SeesValid(t.heap, c) && t.heap.slots[c].conn.out != [] ==> t.heap.reg == s.heap.reg)
            && (!SeesValid(t.heap, c) ==> forall k | k in t.heap.reg :: t.heap.reg[k].conn != c)
  {
    var h, f := s.heap, s.ios[i].point.f;
    var x := h.slots[f.conn].conn;
    SlotFacts(h, f.conn);
    if x.out != [] && WriteLoop(x, answers).outcome == Broken {
      BreakRegs(h, f.conn, x.(pos := WriteLoop(x, answers).pos), i);
    }
  }

  lemma BreakRegs(h: Heap, c: ConnId, x: Conn, i: nat)
    requires HeapOk(h) && Owns(h, c, Registered(i)) && x == h.slots[c].conn.(pos := x.pos)
    ensures var g := MarkConn(SetConn(h, c, x), c, i);
            !SeesValid(g, c) && forall k | k in g.reg :: g.reg[k].conn != c
  {
    SlotFacts(h, c);
    forall k | k in h.reg && h.reg[k].conn == c ensures k.1 == x.fd {
      assert RegAt(h, k);
    }
  }

  // ---- Why a connection is armed ---------------------------------------------------

  /** A connection is watched for writability after a message was handled for it, or with bytes left to send. */
  predicate ArmedAt(s: State, c: ConnId) { Armed(s.heap, c) ==> c in s.roused || Unsent(s.heap, c) }

  ghost predicate ArmedOk(s: State) { forall c: ConnId :: ArmedAt(s, c) }

  /** A step that arms nothing and sends nothing. */
  lemma StillArmed(s: State, t: State, c: ConnId)
    requires ArmedAt(s, c) && SlotsOk(t.heap) && OldArm(s.heap, t.heap, c) && OutAlone(s.heap, t.heap)
    requires c in s.roused ==> c in t.roused
    ensures ArmedAt(t, c)
  {
    if Armed(t.heap, c) {
      SlotFacts(t.heap, c);
    }
  }

  lemma DropArm(s: State, i: nat, x: IoAction, c: ConnId)
    requires Inv(s) && i < |s.ios| && CanIo(s, i, x) && (x.AddFails? || x.Unreference? || x.DropMsg?)
    ensures OldArm(s.heap, DoIo(s, i, x).heap, c) && DoIo(s, i, x).roused == s.roused
  {
    IoFacts(s, i);
    var h := s.heap;
    match x
    case DropMsg =>
      var m := s.ios[i].point.msg;
      MsgNamesLive(h, m);
      SlotFacts(h, h.msgs[m].conn);
      OldRelease(h.(msgs := h.msgs - {m}), h.msgs[m].conn, false, c);
    case AddFails =>
      SlotFacts(h, s.ios[i].point.conn);
      OldRelease(h, s.ios[i].point.conn, true, c);
    case Unreference =>
      SlotFacts(h, s.ios[i].point.f.conn);
      OldRelease(h, s.ios[i].point.f.conn, true, c);
  }

  lemma CloseArm(s: State, i: nat, x: IoAction, c: ConnId)
    requires Inv(s) && i < |s.ios| && CanIo(s, i, x) && (x.ReadClose? || x.Hangup? || x.Unregister?)
    ensures OldArm(s.heap, DoIo(s, i, x).heap, c) && DoIo(s, i, x).roused == s.roused
  {
    match x
    case ReadClose => OldClose(s, i, s.heap, s.ios[i].point.f, ToRead, c);
    case Hangup => OldClose(s, i, s.heap, s.ios[i].point.f, ToDone, c);
    case Unregister => KeepUnregister(s, i);
  }

  lemma AddArm(s: State, i: nat, c: ConnId)
    requires Inv(s) && i < |s.ios| && s.ios[i].point.Adding?
    ensures OldArm(s.heap, DoAdd(s, i).heap, c) && DoAdd(s, i).roused == s.roused
  {
    IoFacts(s, i);
    SlotFacts(s.heap, s.ios[i].point.conn);
    assert FdsApart(s.heap, s.ios[i].point.conn, c);
  }

  lemma NextArm(s: State, i: nat, c: ConnId)
    requires Inv(s) && i < |s.ios| && s.ios[i].point.Dispatch?
    ensures OldArm(s.heap, DoNext(s, i).heap, c) && DoNext(s, i).roused == s.roused
  {
    NextHeap(s, i);
  }

  lemma OtherArm(s: State, i: nat, x: IoAction, c: ConnId)
    requires Inv(s) && i < |s.ios| && CanIo(s, i, x)
    requires x.Poll? || x.Drain? || x.Submit? || x.SubmitRefused? || x.ReadStop? || x.Recheck?
    ensures OldArm(s.heap, DoIo(s, i, x).heap, c) && DoIo(s, i, x).roused == s.roused
  {
  }

  lemma ReadRouses(s: State, i: nat, x: IoAction)
    requires i < |s.ios| && CanIo(s, i, x) && (x.Read? || x.ReadNoTask? || x.ReadNoPayload?)
    ensures DoIo(s, i, x).roused == s.roused
  {
  }

  lemma QuietArm(s: State, i: nat, x: IoAction, c: ConnId)
    requires Inv(s) && i < |s.ios| && CanIo(s, i, x) && !x.Write? && !x.Handle?
    ensures OldArm(s.heap, DoIo(s, i, x).heap, c) && DoIo(s, i, x).roused == s.roused
  {
    if x.Read? || x.ReadNoTask? || x.ReadNoPayload? {
      ReadArm(s, i, x, c);
      ReadRouses(s, i, x);
    } else if x.AddFails? || x.Unreference? || x.DropMsg? {
      DropArm(s, i, x, c);
    } else if x.ReadClose? || x.Hangup? || x.Unregister? {
      CloseArm(s, i, x, c);
    } else if x.Add? {
      AddArm(s, i, c);
    } else if x.Next? {
      NextArm(s, i, c);
    } else {
      OtherArm(s, i, x, c);
    }
  }

  /** Handling a message arms its own connection, and records that it did. */
  lemma HandleArms(s: State, i: nat, c: ConnId)
    requires Inv(s) && ArmedAt(s, c) && i < |s.ios| && s.ios[i].point.Handling?
    ensures ArmedAt(DoHandle(s, i), c)
  {
    var t, h, m := DoHandle(s, i), s.heap, s.ios[i].point.msg;
    IoFacts(s, i);
    MsgNamesLive(h, m);
    var d := h.msgs[m].conn;
    SlotFacts(h, d);
    assert FdsApart(h, d, c);
    if d != c {
      assert OldArm(h, t.heap, c);
      assert Unsent(h, c) ==> Unsent(t.heap, c);
    } else if !SeesValid(h, c) {
      assert t.heap == h;
    }
  }

  /** A write event that leaves its connection armed left bytes to send. */
  lemma WriteArms(s: State, i: nat, answers: seq<WriteResult>, c: ConnId)
    requires Inv(s) && ArmedAt(s, c) && i < |s.ios| && s.ios[i].point.InWrite?
    ensures ArmedAt(DoWrite(s, i, answers), c)
  {
    var t := DoWrite(s, i, answers);
    KeepWrite(s, i, answers);
    if Armed(t.heap, c) {
      SlotFacts(t.heap, c);
      if c == s.ios[i].point.f.conn {
        WriteSwitches(s, i, answers);
        WriteLeaves(s, i, answers);
      } else {
        WriteArmsOther(s, i, answers, c);
      }
    }
  }

  lemma WriteArmsOther(s: State, i: nat, answers: seq<WriteResult>, c: ConnId)
    requires Inv(s) && i < |s.ios| && s.ios[i].point.InWrite? && c != s.ios[i].point.f.conn
    ensures var t := DoWrite(s, i, answers);
            && OldArm(s.heap, t.heap, c) && (c in s.roused <==> c in t.roused)
            && (c < |s.heap.slots| ==> c < |t.heap.slots| && t.heap.slots[c].conn == s.heap.slots[c].conn)
  {
    IoFacts(s, i);
    RegisteredIsValid(s.heap, s.ios[i].point.f.conn, i);
    WriteArm(WriteLogged(s, i, answers), i, answers, c);
    WriteMoves(WriteLogged(s, i, answers), i, answers);
    assert DoWrite(s, i, answers).roused == s.roused - {s.ios[i].point.f.conn};
  }

  /** What is left after a write event lies beyond the position. */
  lemma WriteLeaves(s: State, i: nat, answers: seq<WriteResult>)
    requires Inv(s) && i < |s.ios| && s.ios[i].point.InWrite?
    ensures var t, c := DoWrite(s, i, answers), s.ios[i].point.f.conn;
            && c < |t.heap.slots|
            && var y := t.heap.slots[c].conn;
               y.out != [] ==> y.pos < |y.out|
  {
    var c := s.ios[i].point.f.conn;
    IoFacts(s, i);
    RegisteredIsValid(s.heap, c, i);
    SlotFacts(s.heap, c);
    WriteMoves(WriteLogged(s, i, answers), i, answers);
  }

  lemma IoArms(s: State, i: nat, x: IoAction, c: ConnId)
    requires Inv(s) && ArmedAt(s, c) && i < |s.ios| && CanIo(s, i, x) && !DoIo(s, i, x).misled
    ensures ArmedAt(DoIo(s, i, x), c)
  {
    if x.Write? {
      WriteArms(s, i, x.answers, c);
    } else if x.Handle? {
      HandleArms(s, i, c);
    } else {
      QuietArm(s, i, x, c);
      QuietSends(s, i, x);
      KeepIo(s, i, x);
      StillArmed(s, DoIo(s, i, x), c);
    }
  }

  // ---- Workers and accept thread --------------------------------------------------------

  lemma WorkerArm(s: State, w: nat, y: WorkerAction, c: ConnId)
    requires Inv(s) && w < |s.workers| && CanWorker(s, w, y)
    ensures OldArm(s.heap, DoWorker(s, w, y).heap, c) && DoWorker(s, w, y).roused == s.roused
  {
    if y.Finish? {
      FinishArm(s, w, c);
    } else if y.Process? || y.Send? {
      SetArm(s, w, y, c);
    }
  }

  lemma FinishArm(s: State, w: nat, c: ConnId)
    requires Inv(s) && w < |s.workers| && s.workers[w].Finishing?
    ensures OldArm(s.heap, DoFinish(s, w).heap, c) && DoFinish(s, w).roused == s.roused
  {
    WorkerHolds(s, w);
    var x := s.workers[w].task;
    OldRelease(s.heap.(tasks := s.heap.tasks - {x}), s.heap.tasks[x].conn, false, c);
  }

  lemma SetArm(s: State, w: nat, y: WorkerAction, c: ConnId)
    requires w < |s.workers| && CanWorker(s, w, y) && (y.Process? || y.Send?)
    ensures OldArm(s.heap, DoWorker(s, w, y).heap, c) && DoWorker(s, w, y).roused == s.roused
  {
    var t := s.workers[w].task;
    if y.Send? && t in s.heap.tasks {
      AcquireArm(s.heap, s.heap.tasks[t].conn, false, c);
    }
  }

  /** Installing a response leaves bytes to send. */
  lemma ProcessArms(s: State, w: nat, c: ConnId)
    requires Inv(s) && ArmedAt(s, c) && w < |s.workers| && s.workers[w].Processing?
    ensures ArmedAt(DoProcess(s, w), c)
  {
    WorkerHolds(s, w);
    WorkerArm(s, w, Process, c);
  }

  lemma WorkerArms(s: State, w: nat, y: WorkerAction, c: ConnId)
    requires Inv(s) && ArmedAt(s, c) && w < |s.workers| && CanWorker(s, w, y)
    ensures ArmedAt(DoWorker(s, w, y), c)
  {
    if y.Process? {
      ProcessArms(s, w, c);
    } else {
      WorkerArm(s, w, y, c);
      WorkerSends(s, w, y);
      KeepWorker(s, w, y);
      StillArmed(s, DoWorker(s, w, y), c);
    }
  }

  lemma AcceptArms(s: State, a: AcceptAction, c: ConnId)
    requires Inv(s) && ArmedAt(s, c) && CanAccept(s, a)
    ensures ArmedAt(DoAccept(s, a), c)
  {
    var t := DoAccept(s, a);
    KeepAccept(s, a);
    match a {
      case HandOffFails =>
        SlotFacts(s.heap, s.accept.conn);
        OldRelease(s.heap, s.accept.conn, true, c);
        ReleaseOut(s.heap, s.accept.conn, true);
      case Reclose => KeepReclose(s);
      case _ =>
    }
    StillArmed(s, t, c);
  }

  // ---- Whole runs ---------------------------------------------------------------------------

  lemma ArmStep(s: State, a: Action)
    requires Inv(s) && ArmedOk(s) && Can(s, a) && !Do(s, a).misled
    ensures ArmedOk(Do(s, a))
  {
    forall c: ConnId ensures ArmedAt(Do(s, a), c) {
      assert ArmedAt(s, c);
      match a
      case ByAccept(b) => AcceptArms(s, b, c);
      case ByIo(i, x) => IoArms(s, i, x, c);
      case ByWorker(w, y) => WorkerArms(s, w, y, c);
      case Shutdown =>
    }
  }

  lemma {:induction false} ArmRun(s: State, acts: seq<Action>, t: State)
    requires Inv(s) && ArmedOk(s) && Run(s, acts, t) && !t.misled
    ensures ArmedOk(t)
    decreases |acts|
  {
    if acts != [] {
      NeverMisled(Do(s, acts[0]), acts[1..], t);
      ArmStep(s, acts[0]);
      KeepStep(s, acts[0]);
      ArmRun(Do(s, acts[0]), acts[1..], t);
    }
  }

  /**
    In every reachable state an open connection of an I/O thread with nothing to
    send is watched for data, or a message was handled for it since its last write
    event, and then its next write event puts it back to reading.
   */
  lemma IdleConnectionListens(s: State, c: ConnId)
    requires Reachable(s) && !s.misled && c < |s.heap.slots| && s.heap.slots[c].base.Registered?
    requires !Unsent(s.heap, c)
    ensures SeesValid(s.heap, c) && s.heap.slots[c].conn.out == []
    ensures Listening(s.heap, c) || (Armed(s.heap, c) && c in s.roused)
    ensures forall i, answers | 0 <= i < |s.ios| && s.ios[i].point.InWrite? && s.ios[i].point.f.conn == c ::
              Listening(DoWrite(s, i, answers).heap, c)
  {
    var s0: State, acts: seq<Action> :| Init(s0) && Run(s0, acts, s);
    InvInit(s0);
    ArmRun(s0, acts, s);
    assert ArmedAt(s, c);
    ReachableInv(s);
    SlotFacts(s.heap, c);
    assert Watched(s.heap, c);
    var _ := ClientIsSentPrefix(s, c);
    forall i, answers | 0 <= i < |s.ios| && s.ios[i].point.InWrite? && s.ios[i].point.f.conn == c
      ensures Listening(DoWrite(s, i, answers).heap, c)
    {
      EmptyWriteListens(s, i, answers);
    }
  }

  lemma EmptyWriteListens(s: State, i: nat, answers: seq<WriteResult>)
    requires Inv(s) && i < |s.ios| && s.ios[i].point.InWrite?
    requires var c := s.ios[i].point.f.conn; c < |s.heap.slots| ==> s.heap.slots[c].conn.out == []
    ensures Listening(DoWrite(s, i, answers).heap, s.ios[i].point.f.conn)
  {
    var c := s.ios[i].point.f.conn;
    IoFacts(s, i);
    RegisteredIsValid(s.heap, c, i);
    WriteSwitches(s, i, answers);
    WriteMoves(WriteLogged(s, i, answers), i, answers);
  }
}

/** What a client is sent: under every interleaving a prefix of the response that was last installed. */
module ReactorWires {
  import opened Responses
  import opened IoThreads
  import opened Reactor
  import opened ReactorHeap
  import opened ReactorOwners
  import opened ReactorIoSteps
  import opened ReactorSafety

  const EMPTY_SIDE: Side := Side([], 0, [], [])

  /** The write side of connection `c`, before and after it is created. */
  function SideOf(s: State, c: ConnId): Side {
    if c < |s.heap.slots| && c < |s.wires| then
      var x := s.heap.slots[c].conn;
      Side(x.out, x.pos, s.wires[c].installed, s.wires[c].sent)
    else EMPTY_SIDE
  }

  /** The bytes still to be sent are those of `h`, for every connection of `h`. */
  predicate OutAlone(h: Heap, g: Heap) {
    && |h.slots| <= |g.slots|
    && forall c | 0 <= c < |h.slots| ::
         g.slots[c].conn.out == h.slots[c].conn.out && g.slots[c].conn.pos == h.slots[c].conn.pos
  }

  lemma ReleaseOut(h: Heap, c: ConnId, base: bool)
    ensures OutAlone(h, ReleaseConn(h, c, base))
  {
  }

  lemma CloseOut(s: State, i: nat, h: Heap, f: Frame, ret: Return)
    requires i < |s.ios|
    ensures OutAlone(h, BeginClose(s, i, h, f, ret).heap)
  {
  }

  // ---- Steps that send nothing --------------------------------------------------

  lemma AcceptSends(s: State, a: AcceptAction, c: ConnId)
    requires CanAccept(s, a) && |s.wires| == |s.heap.slots|
    ensures var t := DoAccept(s, a); SideOf(t, c) == SideOf(s, c) && |t.wires| == |t.heap.slots|
  {
    if a.HandOffFails? {
      ReleaseOut(s.heap, s.accept.conn, true);
    }
  }

  lemma ReadSends(s: State, i: nat, x: IoAction)
    requires i < |s.ios| && CanIo(s, i, x) && (x.Read? || x.ReadNoTask? || x.ReadNoPayload?)
    ensures OutAlone(s.heap, DoIo(s, i, x).heap) && DoIo(s, i, x).wires == s.wires
    ensures |DoIo(s, i, x).heap.slots| == |s.heap.slots|
  {
    var fate := if x.Read? then Passed else if x.ReadNoTask? then NoTask else NoPayload;
    var h := Receive(s, i, x.data, fate).heap;
    assert OutAlone(s.heap, h);
    AcquireOut(h, s.ios[i].point.f.conn, !x.Read?);
  }

  lemma AcquireOut(h: Heap, c: ConnId, orphan: bool)
    ensures OutAlone(h, AcquireConn(h, c, orphan))
  {
  }

  lemma MailSends(s: State, i: nat, x: IoAction)
    requires i < |s.ios| && CanIo(s, i, x) && (x.Drain? || x.Handle? || x.DropMsg?)
    ensures OutAlone(s.heap, DoIo(s, i, x).heap) && DoIo(s, i, x).wires == s.wires
    ensures |DoIo(s, i, x).heap.slots| == |s.heap.slots|
  {
    if x.DropMsg? && s.ios[i].point.msg in s.heap.msgs {
      var m := s.ios[i].point.msg;
      ReleaseOut(s.heap.(msgs := s.heap.msgs - {m}), s.heap.msgs[m].conn, false);
    }
  }

  lemma CloseSends(s: State, i: nat, x: IoAction)
    requires i < |s.ios| && CanIo(s, i, x)
    requires x.AddFails? || x.ReadClose? || x.Hangup? || x.Unregister? || x.Unreference?
    ensures OutAlone(s.heap, DoIo(s, i, x).heap) && DoIo(s, i, x).wires == s.wires
    ensures |DoIo(s, i, x).heap.slots| == |s.heap.slots|
  {
    match x
    case AddFails => ReleaseOut(s.heap, s.ios[i].point.conn, true);
    case Unreference => ReleaseOut(s.heap, s.ios[i].point.f.conn, true);
    case ReadClose => CloseOut(s, i, s.heap, s.ios[i].point.f, ToRead);
    case Hangup => CloseOut(s, i, s.heap, s.ios[i].point.f, ToDone);
    case Unregister =>
  }

  lemma NextSends(s: State, i: nat)
    requires i < |s.ios| && s.ios[i].point.Dispatch?
    ensures OutAlone(s.heap, DoNext(s, i).heap) && DoNext(s, i).wires == s.wires
    ensures |DoNext(s, i).heap.slots| == |s.heap.slots|
  {
    var batch, h := s.ios[i].point.batch, s.heap;
    if batch != [] {
      match batch[0]
      case PipeReady =>
        if s.ios[i].pipe != [] {
          assert DoNext(s, i).heap == SetBase(h, s.ios[i].pipe[0], BeingAdded(i));
        }
      case MailReady => assert DoNext(s, i).heap == h;
      case Ready(c, _, _, _) => assert DoNext(s, i).heap == Touch(h, c);
    }
  }

  lemma AddSends(s: State, i: nat)
    requires i < |s.ios| && s.ios[i].point.Adding?
    ensures OutAlone(s.heap, DoAdd(s, i).heap) && DoAdd(s, i).wires == s.wires
    ensures |DoAdd(s, i).heap.slots| == |s.heap.slots|
  {
  }

  lemma OtherSends(s: State, i: nat, x: IoAction)
    requires i < |s.ios| && CanIo(s, i, x)
    requires x.Poll? || x.Submit? || x.SubmitRefused? || x.ReadStop? || x.Recheck?
    ensures OutAlone(s.heap, DoIo(s, i, x).heap) && DoIo(s, i, x).wires == s.wires
    ensures |DoIo(s, i, x).heap.slots| == |s.heap.slots|
  {
  }

  lemma QuietSends(s: State, i: nat, x: IoAction)
    requires i < |s.ios| && CanIo(s, i, x) && !x.Write?
    ensures OutAlone(s.heap, DoIo(s, i, x).heap) && DoIo(s, i, x).wires == s.wires
    ensures |DoIo(s, i, x).heap.slots| == |s.heap.slots|
  {
    if x.Read? || x.ReadNoTask? || x.ReadNoPayload? {
      ReadSends(s, i, x);
    } else if x.Drain? || x.Handle? || x.DropMsg? {
      MailSends(s, i, x);
    } else if x.AddFails? || x.ReadClose? || x.Hangup? || x.Unregister? || x.Unreference? {
      CloseSends(s, i, x);
    } else if x.Next? {
      NextSends(s, i);
    } else if x.Add? {
      AddSends(s, i);
    } else {
      OtherSends(s, i, x);
    }
  }

  lemma WorkerSends(s: State, w: nat, y: WorkerAction)
    requires w < |s.workers| && CanWorker(s, w, y) && !y.Process?
    ensures OutAlone(s.heap, DoWorker(s, w, y).heap) && DoWorker(s, w, y).wires == s.wires
    ensures |DoWorker(s, w, y).heap.slots| == |s.heap.slots|
  {
    if y.Finish? && s.workers[w].task in s.heap.tasks {
      var x := s.workers[w].task;
      ReleaseOut(s.heap.(tasks := s.heap.tasks - {x}), s.heap.tasks[x].conn, false);
    }
  }

  // ---- Steps that install or send -------------------------------------------------

  /** handle_write moves the position of its own connection, or resets it with the response. */
  lemma WriteMoves(s: State, i: nat, answers: seq<WriteResult>)
    requires i < |s.ios| && s.ios[i].point.InWrite? && Live(s.heap, s.ios[i].point.f.conn)
    ensures var h, g, c := s.heap, WriteOut(s, i, answers).heap, s.ios[i].point.f.conn;
            var x, y := h.slots[c].conn, g.slots[c].conn;
            var r := WriteLoop(x, answers);
            && WriteOut(s, i, answers).wires == s.wires
            && (forall d | 0 <= d < |h.slots| && d != c :: g.slots[d].conn == h.slots[d].conn)
            && (x.out == [] ==> y.out == x.out && y.pos == x.pos)
            && (x.out != [] && r.outcome == Finished ==> y.out == [] && y.pos == 0)
            && (x.out != [] && r.outcome != Finished ==> y.out == x.out && y.pos == r.pos)
  {
    var h, f := s.heap, s.ios[i].point.f;
    var x := h.slots[f.conn].conn;
    var r := WriteLoop(x, answers);
    if x.out != [] && r.outcome == Broken {
      MarkMoves(SetConn(h, f.conn, x.(pos := r.pos)), f.conn, i);
    }
  }

  lemma MarkMoves(h: Heap, c: ConnId, i: nat)
    requires Live(h, c)
    ensures var g := MarkConn(h, c, i);
            && g.slots[c].conn.out == h.slots[c].conn.out && g.slots[c].conn.pos == h.slots[c].conn.pos
            && forall d | 0 <= d < |h.slots| && d != c :: g.slots[d] == h.slots[d]
  {
  }

  /** One handle_write call is one write event of the connection's write side. */
  lemma WriteSends(s: State, i: nat, answers: seq<WriteResult>, c: ConnId)
    requires Inv(s) && |s.wires| == |s.heap.slots| && i < |s.ios| && s.ios[i].point.InWrite?
    requires SendsPrefix(SideOf(s, c))
    ensures var t := DoWrite(s, i, answers);
            && |t.wires| == |t.heap.slots|
            && SideOf(t, c) == if c == s.ios[i].point.f.conn then IoThreads.Next(SideOf(s, c), Writable(answers))
                               else SideOf(s, c)
  {
    var h, f := s.heap, s.ios[i].point.f;
    IoFacts(s, i);
    RegisteredIsValid(h, f.conn, i);
    SlotFacts(h, f.conn);
    WriteMoves(WriteLogged(s, i, answers), i, answers);
  }

  /** Processing a request is one install event of the connection's write side. */
  lemma ProcessSends(s: State, w: nat, c: ConnId)
    requires Inv(s) && |s.wires| == |s.heap.slots| && w < |s.workers| && s.workers[w].Processing?
    requires SendsPrefix(SideOf(s, c))
    ensures var t, x := DoProcess(s, w), s.workers[w].task;
            && |t.wires| == |t.heap.slots| && x in s.heap.tasks
            && SideOf(t, c) == if c == s.heap.tasks[x].conn
                               then IoThreads.Next(SideOf(s, c), Install(Format(s.heap.tasks[x].payload)))
                               else SideOf(s, c)
  {
    WorkerHolds(s, w);
  }

  /** Seen at one connection, every step is an install, a write event, or nothing. */
  lemma WireStep(s: State, a: Action, c: ConnId) returns (events: seq<SideEvent>)
    requires Inv(s) && Can(s, a) && |s.wires| == |s.heap.slots| && SendsPrefix(SideOf(s, c))
    ensures |Do(s, a).wires| == |Do(s, a).heap.slots|
    ensures IoThreads.After(SideOf(s, c), events, SideOf(Do(s, a), c))
  {
    events := [];
    match a {
      case ByAccept(b) => AcceptSends(s, b, c);
      case ByIo(i, x) => events := IoWire(s, i, x, c);
      case ByWorker(w, y) => events := WorkerWire(s, w, y, c);
      case Shutdown =>
    }
  }

  lemma OneEvent(s: Side, e: SideEvent)
    requires SendsPrefix(s)
    ensures IoThreads.After(s, [e], IoThreads.Next(s, e))
  {
    IoThreads.NextKeeps(s, e);
    assert [e][1..] == [];
  }

  lemma IoWire(s: State, i: nat, x: IoAction, c: ConnId) returns (events: seq<SideEvent>)
    requires Inv(s) && i < |s.ios| && CanIo(s, i, x) && |s.wires| == |s.heap.slots| && SendsPrefix(SideOf(s, c))
    ensures |DoIo(s, i, x).wires| == |DoIo(s, i, x).heap.slots|
    ensures IoThreads.After(SideOf(s, c), events, SideOf(DoIo(s, i, x), c))
  {
    events := [];
    if x.Write? {
      WriteSends(s, i, x.answers, c);
      if c == s.ios[i].point.f.conn {
        events := [Writable(x.answers)];
        OneEvent(SideOf(s, c), Writable(x.answers));
      }
    } else {
      QuietSends(s, i, x);
    }
  }

  lemma WorkerWire(s: State, w: nat, y: WorkerAction, c: ConnId) returns (events: seq<SideEvent>)
    requires Inv(s) && w < |s.workers| && CanWorker(s, w, y)
    requires |s.wires| == |s.heap.slots| && SendsPrefix(SideOf(s, c))
    ensures |DoWorker(s, w, y).wires| == |DoWorker(s, w, y).heap.slots|
    ensures IoThreads.After(SideOf(s, c), events, SideOf(DoWorker(s, w, y), c))
  {
    events := [];
    if y.Process? {
      ProcessSends(s, w, c);
      var t := s.heap.tasks[s.workers[w].task];
      if c == t.conn {
        events := [Install(Format(t.payload))];
        OneEvent(SideOf(s, c), Install(Format(t.payload)));
      }
    } else {
      WorkerSends(s, w, y);
    }
  }

  lemma {:induction false} AfterAppend(s: Side, e1: seq<SideEvent>, t: Side, e2: seq<SideEvent>, u: Side)
    requires SendsPrefix(s) && IoThreads.After(s, e1, t) && SendsPrefix(t) && IoThreads.After(t, e2, u)
    ensures IoThreads.After(s, e1 + e2, u)
    decreases |e1|
  {
    if e1 == [] {
      assert e1 + e2 == e2;
    } else {
      IoThreads.NextKeeps(s, e1[0]);
      AfterAppend(IoThreads.Next(s, e1[0]), e1[1..], t, e2, u);
      assert (e1 + e2)[1..] == e1[1..] + e2;
    }
  }

  lemma {:induction false} WireRun(s: State, acts: seq<Action>, t: State, c: ConnId)
    returns (events: seq<SideEvent>)
    requires Inv(s) && Run(s, acts, t) && !t.misled && |s.wires| == |s.heap.slots| && SendsPrefix(SideOf(s, c))
    ensures |t.wires| == |t.heap.slots| && IoThreads.After(SideOf(s, c), events, SideOf(t, c))
    ensures SendsPrefix(SideOf(t, c))
    decreases |acts|
  {
    if acts == [] {
      events := [];
    } else {
      var u := Do(s, acts[0]);
      NeverMisled(u, acts[1..], t);
      var first := WireStep(s, acts[0], c);
      ResponseIsSentInOrder(SideOf(s, c), first, SideOf(u, c));
      KeepStep(s, acts[0]);
      var rest := WireRun(u, acts[1..], t, c);
      AfterAppend(SideOf(s, c), first, SideOf(u, c), rest, SideOf(t, c));
      events := first + rest;
    }
  }

  /**
    Under every interleaving of the server's threads, a connection's write side is
    one that installs and write events could have produced: its client was sent a
    prefix of the response last installed, all of it exactly when the positions
    were reset, and the positions stay within the buffer.
   */
  lemma ClientIsSentPrefix(s: State, c: ConnId) returns (events: seq<SideEvent>)
    requires Reachable(s) && !s.misled && c < |s.heap.slots|
    ensures |s.wires| == |s.heap.slots|
    ensures IoThreads.After(EMPTY_SIDE, events, SideOf(s, c)) && SendsPrefix(SideOf(s, c))
  {
    var s0: State, acts: seq<Action> :| Init(s0) && Run(s0, acts, s);
    InvInit(s0);
    events := WireRun(s0, acts, s, c);
  }
}

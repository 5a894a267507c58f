/** From request to response: whatever a client sends on an idle connection, the server can send back its echo. */
module ReactorEcho {
  import opened Responses
  import opened Connections
  import opened IoThreads
  import opened Reactor
  import opened ReactorHeap
  import opened ReactorOwners
  import opened ReactorIoSteps
  import opened ReactorSafety
  import opened ReactorTheorems
  import opened ReactorWires
  import opened ReactorDispatch
  import opened ReactorInterest

  // ---- What one connection, its I/O thread and one worker show ------------------------

  /** `write` tells whether the connection is watched for writability, and not for data. */
  datatype View = View(point: IoPoint, inbox: seq<MsgId>, queue: seq<TaskId>, worker: WorkerPoint,
                       out: string, pos: nat, write: bool, wire: Wire, chunks: seq<Chunk>)

  /** In a reachable state, connection `c` of thread `i`, that thread and worker `w` show `v`. */
  ghost predicate Shows(s: State, i: nat, w: nat, c: ConnId, v: View) {
    && Reachable(s) && !s.misled
    && i < |s.ios| && w < |s.workers| && c < |s.heap.slots| && c < |s.wires| && c < |s.chunks|
    && s.heap.slots[c].base == Registered(i)
    && var x := s.heap.slots[c].conn;
       && (i, x.fd) in s.heap.reg && s.heap.reg[(i, x.fd)] == Reg(c, v.write)
       && v == View(s.ios[i].point, s.ios[i].inbox, s.queue, s.workers[w],
                    x.out, x.pos, v.write, s.wires[c], s.chunks[c])
  }

  /** Task `x`, or message `m`, is for `c`. */
  predicate HasTask(s: State, x: TaskId, c: ConnId, data: string) {
    x in s.heap.tasks && s.heap.tasks[x].conn == c && s.heap.tasks[x].payload == data
  }

  predicate HasMsg(s: State, m: MsgId, c: ConnId) { m in s.heap.msgs && s.heap.msgs[m].conn == c }

  /** The run so far goes on with one step. */
  lemma Go(s0: State, acts: seq<Action>, s: State, a: Action) returns (more: seq<Action>, t: State)
    requires Reachable(s0) && Run(s0, acts, s) && Can(s, a)
    ensures t == Do(s, a) && more == acts + [a] && Run(s0, more, t) && Reachable(t)
  {
    more, t := acts + [a], Do(s, a);
    assert Run(t, [], t) && [a] + [] == [a];
    RunCons(s, a, [], t);
    RunTo(s0, acts, s, [a], t);
    ReachableRun(s0, more, t);
  }

  // ---- Steps of the I/O thread ----------------------------------------------------------

  /** A wait reports the connection for what it is watched for. */
  lemma CanPoll(s: State, i: nat, w: nat, c: ConnId, v: View)
    requires Shows(s, i, w, c, v) && v.point == Polling
    ensures CanIo(s, i, Poll([Ready(c, !v.write, v.write, false)]))
    ensures CanIo(s, i, Poll([MailReady]))
  {
    var e, fd := Ready(c, !v.write, v.write, false), s.heap.slots[c].conn.fd;
    assert Named([e]) == [c] + Named([]) == [c];
    assert Named([MailReady]) == [] + Named([]) == [];
    assert (i, fd) in s.heap.reg && s.heap.reg[(i, fd)].conn == c;
    assert Asked(s.heap, i, e) && Asked(s.heap, i, MailReady);
  }

  lemma ShowsMoved(s: State, t: State, i: nat, w: nat, c: ConnId, v: View)
    requires Shows(s, i, w, c, v) && Reachable(t) && !t.misled && i < |t.ios|
    requires t.heap == s.heap && t.workers == s.workers && t.queue == s.queue
    requires t.wires == s.wires && t.chunks == s.chunks && t.ios[i].inbox == s.ios[i].inbox
    ensures Shows(t, i, w, c, v.(point := t.ios[i].point))
  {
  }

  lemma ShowsTaken(s: State, t: State, i: nat, w: nat, c: ConnId, v: View, e: Event)
    requires Shows(s, i, w, c, v) && v.point == Dispatch([e]) && t == DoNext(s, i) && Reachable(t)
    requires e == Ready(c, true, false, false) || e == Ready(c, false, true, false) || e == MailReady
    ensures var f := Frame(c, e.Ready? && e.w, false, []);
            Shows(t, i, w, c, v.(point := if e.MailReady? then Draining([]) else if e.r then InRead(f) else InWrite(f)))
    ensures t.nextTask == s.nextTask && t.nextMsg == s.nextMsg && t.heap == s.heap
  {
    ReachableInv(s);
    RegisteredIsValid(s.heap, c, i);
    assert s.ios[i].point.batch[1..] == [];
    ShowsMoved(s, t, i, w, c, v);
  }

  lemma ShowsRead(s: State, t: State, i: nat, w: nat, c: ConnId, v: View, data: string)
    requires Shows(s, i, w, c, v) && v.point.InRead? && v.point.f.conn == c
    requires t == DoRead(s, i, data) && Reachable(t)
    ensures Shows(t, i, w, c, v.(point := Submitting(s.nextTask, v.point.f),
                                 chunks := v.chunks + [Chunk(data, Passed)]))
    ensures HasTask(t, s.nextTask, c, data) && t.nextMsg == s.nextMsg
  {
    ReachableInv(s);
    RegisteredIsValid(s.heap, c, i);
  }

  lemma ShowsSubmit(s: State, t: State, i: nat, w: nat, c: ConnId, v: View, data: string)
    requires Shows(s, i, w, c, v) && v.point.Submitting? && t == DoSubmit(s, i) && Reachable(t)
    requires HasTask(s, v.point.task, c, data)
    ensures Shows(t, i, w, c, v.(point := InRead(v.point.f), queue := v.queue + [v.point.task]))
    ensures HasTask(t, v.point.task, c, data) && t.nextMsg == s.nextMsg
  {
  }

  lemma ShowsTested(s: State, t: State, i: nat, w: nat, c: ConnId, v: View)
    requires Shows(s, i, w, c, v) && (v.point.AfterRead? || v.point.AfterWrite?)
    requires v.point.f == Frame(c, v.point.AfterWrite?, false, [])
    requires t == DoRecheck(s, i, false) && Reachable(t)
    ensures Shows(t, i, w, c, v.(point := Dispatch([]))) && t.heap == s.heap && t.nextMsg == s.nextMsg
  {
    ReachableInv(s);
    RegisteredIsValid(s.heap, c, i);
    ShowsMoved(s, t, i, w, c, v);
  }

  lemma ShowsDrain(s: State, t: State, i: nat, w: nat, c: ConnId, v: View)
    requires Shows(s, i, w, c, v) && v.point == Draining([]) && t == DoDrain(s, i) && Reachable(t)
    ensures if v.inbox == [] then Shows(t, i, w, c, v.(point := Dispatch([])))
            else Shows(t, i, w, c, v.(point := Handling(v.inbox[0], []), inbox := v.inbox[1..]))
    ensures v.inbox != [] && HasMsg(s, v.inbox[0], c) ==> HasMsg(t, v.inbox[0], c)
  {
  }

  /** Handling the message switches the connection to writing. */
  lemma ShowsHandle(s: State, t: State, i: nat, w: nat, c: ConnId, v: View)
    requires Shows(s, i, w, c, v) && v.point.Handling? && HasMsg(s, v.point.msg, c)
    requires t == DoHandle(s, i) && Reachable(t)
    ensures Shows(t, i, w, c, v.(point := Dropping(v.point.msg, v.point.rest), write := true))
    ensures HasMsg(t, v.point.msg, c)
  {
    ReachableInv(s);
    RegisteredIsValid(s.heap, c, i);
  }

  lemma ShowsDrop(s: State, t: State, i: nat, w: nat, c: ConnId, v: View)
    requires Shows(s, i, w, c, v) && v.point.Dropping? && HasMsg(s, v.point.msg, c)
    requires t == DoDropMsg(s, i) && Reachable(t)
    ensures Shows(t, i, w, c, v.(point := Draining(v.point.rest)))
  {
    ReachableInv(s);
    MsgNamesLive(s.heap, v.point.msg);
    SlotFacts(s.heap, c);
  }

  /** A kernel that takes everything gets the whole response, and the connection goes back to reading. */
  lemma ShowsWrite(s: State, t: State, i: nat, w: nat, c: ConnId, v: View)
    requires Shows(s, i, w, c, v) && v.point.InWrite? && v.point.f.conn == c && v.out != []
    requires t == DoWrite(s, i, [Wrote(|v.out|, false)]) && Reachable(t)
    ensures Shows(t, i, w, c, v.(point := AfterWrite(v.point.f), out := [], pos := 0, write := false,
                                 wire := Wire(v.wire.installed, v.wire.installed)))
  {
    var answers := [Wrote(|v.out|, false)];
    ReachableInv(s);
    RegisteredIsValid(s.heap, c, i);
    SlotFacts(s.heap, c);
    TransmitLaw(|v.out|, v.pos, answers, 1);
    assert TakenBy(answers, 1) == TakenBy(answers, 0) + |v.out|;
    WriteKeeps(WriteLogged(s, i, answers), i, answers);
    WriteMoves(WriteLogged(s, i, answers), i, answers);
    WriteEventSends(s, i, answers, 1);
    WriteEventCloses(s, i, answers, 1);
    WriteSwitches(s, i, answers);
    var _ := ClientIsSentPrefix(s, c);
  }

  /** What the end of a write event leaves alone. */
  predicate Kept(s: State, t: State, i: nat, f: Frame) {
    && i < |s.ios| == |t.ios| && f.conn < |s.heap.slots| == |t.heap.slots|
    && t.workers == s.workers && t.queue == s.queue && t.chunks == s.chunks && t.misled == s.misled
    && t.wires == s.wires && t.ios[i].inbox == s.ios[i].inbox && t.ios[i].point == AfterWrite(f)
    && var x, y := s.heap.slots[f.conn], t.heap.slots[f.conn];
       y.base == x.base && y.conn.fd == x.conn.fd
  }

  lemma EndKeeps(s: State, i: nat, f: Frame, x: Conn, toRead: bool)
    requires i < |s.ios| && f.conn < |s.heap.slots| && x.fd == s.heap.slots[f.conn].conn.fd
    ensures Kept(s, EndWrite(s, i, f, x, toRead), i, f)
  {
  }

  /** What a write event that does not break the connection leaves alone. */
  lemma WriteKeeps(s: State, i: nat, answers: seq<WriteResult>)
    requires i < |s.ios| && s.ios[i].point.InWrite? && Live(s.heap, s.ios[i].point.f.conn)
    requires WriteLoop(s.heap.slots[s.ios[i].point.f.conn].conn, answers).outcome != Broken
    ensures Kept(s, WriteOut(s, i, answers), i, s.ios[i].point.f)
  {
    var f := s.ios[i].point.f;
    var x := s.heap.slots[f.conn].conn;
    var r := WriteLoop(x, answers);
    if |x.out| == 0 {
      EndKeeps(s, i, f, x.(state := ConnState.Reading), true);
    } else if r.outcome == Finished {
      EndKeeps(s, i, f, x.(out := [], pos := 0, state := ConnState.Reading), true);
    } else {
      EndKeeps(s, i, f, x.(pos := r.pos), false);
    }
  }

  // ---- Steps of the worker -----------------------------------------------------------------

  lemma ShowsPop(s: State, t: State, i: nat, w: nat, c: ConnId, v: View, x: TaskId, data: string)
    requires Shows(s, i, w, c, v) && v.worker == Free && v.queue == [x] && t == DoPop(s, w) && Reachable(t)
    requires HasTask(s, x, c, data)
    ensures Shows(t, i, w, c, v.(worker := Checking(x), queue := []))
    ensures HasTask(t, x, c, data)
  {
  }

  /** A worker finds its connection open and goes on. */
  lemma ShowsTest(s: State, t: State, i: nat, w: nat, c: ConnId, v: View, x: TaskId, data: string, open: WorkerPoint)
    requires Shows(s, i, w, c, v) && t == DoTest(s, w, x, open) && Reachable(t) && HasTask(s, x, c, data)
    ensures Shows(t, i, w, c, v.(worker := open)) && HasTask(t, x, c, data)
  {
    ReachableInv(s);
    RegisteredIsValid(s.heap, c, i);
  }

  /** Processing installs the echo of the task's bytes. */
  lemma ShowsProcess(s: State, t: State, i: nat, w: nat, c: ConnId, v: View, x: TaskId, data: string)
    requires Shows(s, i, w, c, v) && v.worker == Processing(x) && t == DoProcess(s, w) && Reachable(t)
    requires HasTask(s, x, c, data) && |data| <= BUFFER_SIZE
    ensures Shows(t, i, w, c, v.(worker := Confirming(x), out := Format(data), pos := 0,
                                 wire := Wire(Format(data), [])))
    ensures HasTask(t, x, c, data)
  {
    ReachableInv(s);
    RegisteredIsValid(s.heap, c, i);
    FormatFits(data);
  }

  lemma ShowsSend(s: State, t: State, i: nat, w: nat, c: ConnId, v: View, x: TaskId, data: string)
    requires Shows(s, i, w, c, v) && v.worker == Sending(x) && t == DoSend(s, w) && Reachable(t)
    requires HasTask(s, x, c, data)
    ensures Shows(t, i, w, c, v.(worker := Finishing(x), inbox := v.inbox + [s.nextMsg]))
    ensures HasTask(t, x, c, data) && HasMsg(t, s.nextMsg, c)
  {
    ReachableInv(s);
    RegisteredIsValid(s.heap, c, i);
    SlotFacts(s.heap, c);
  }

  lemma ShowsFinish(s: State, t: State, i: nat, w: nat, c: ConnId, v: View, x: TaskId, data: string, m: MsgId)
    requires Shows(s, i, w, c, v) && v.worker == Finishing(x) && t == DoFinish(s, w) && Reachable(t)
    requires HasTask(s, x, c, data) && HasMsg(s, m, c)
    ensures Shows(t, i, w, c, v.(worker := Free)) && HasMsg(t, m, c)
  {
    ReachableInv(s);
    TaskNamesLive(s.heap, x);
    SlotFacts(s.heap, c);
  }

  // ---- Steps of a run --------------------------------------------------------------------------

  lemma GoTaken(s0: State, acts: seq<Action>, s: State, i: nat, w: nat, c: ConnId, v: View, e: Event)
    returns (more: seq<Action>, t: State)
    requires Reachable(s0) && Run(s0, acts, s) && Shows(s, i, w, c, v) && v.point == Dispatch([e])
    requires e == Ready(c, true, false, false) || e == Ready(c, false, true, false) || e == MailReady
    ensures Run(s0, more, t) && t.heap == s.heap
    ensures var f := Frame(c, e.Ready? && e.w, false, []);
            Shows(t, i, w, c, v.(point := if e.MailReady? then Draining([]) else if e.r then InRead(f) else InWrite(f)))
  {
    more, t := Go(s0, acts, s, ByIo(i, Next));
    ShowsTaken(s, t, i, w, c, v, e);
  }

  lemma GoTested(s0: State, acts: seq<Action>, s: State, i: nat, w: nat, c: ConnId, v: View)
    returns (more: seq<Action>, t: State)
    requires Reachable(s0) && Run(s0, acts, s) && Shows(s, i, w, c, v)
    requires (v.point.AfterRead? || v.point.AfterWrite?) && v.point.f == Frame(c, v.point.AfterWrite?, false, [])
    ensures Run(s0, more, t) && t.heap == s.heap && Shows(t, i, w, c, v.(point := Dispatch([])))
  {
    more, t := Go(s0, acts, s, ByIo(i, Recheck(false)));
    ShowsTested(s, t, i, w, c, v);
  }

  lemma GoRest(s0: State, acts: seq<Action>, s: State, i: nat, w: nat, c: ConnId, v: View)
    returns (more: seq<Action>, t: State)
    requires Reachable(s0) && Run(s0, acts, s) && Shows(s, i, w, c, v) && v.point == Dispatch([])
    ensures Run(s0, more, t) && t.heap == s.heap && Shows(t, i, w, c, v.(point := Polling))
  {
    more, t := Go(s0, acts, s, ByIo(i, Next));
    ShowsMoved(s, t, i, w, c, v);
  }

  lemma GoDrained(s0: State, acts: seq<Action>, s: State, i: nat, w: nat, c: ConnId, v: View)
    returns (more: seq<Action>, t: State)
    requires Reachable(s0) && Run(s0, acts, s) && Shows(s, i, w, c, v) && v.point == Draining([]) && v.inbox == []
    ensures Run(s0, more, t) && Shows(t, i, w, c, v.(point := Polling))
  {
    var acts1, s1 := Go(s0, acts, s, ByIo(i, Drain));
    ShowsDrain(s, s1, i, w, c, v);
    more, t := GoRest(s0, acts1, s1, i, w, c, v.(point := Dispatch([])));
  }

  lemma GoWrite(s0: State, acts: seq<Action>, s: State, i: nat, w: nat, c: ConnId, v: View)
    returns (more: seq<Action>, t: State)
    requires Reachable(s0) && Run(s0, acts, s) && Shows(s, i, w, c, v)
    requires v.point.InWrite? && v.point.f.conn == c && v.out != []
    ensures Run(s0, more, t)
    ensures Shows(t, i, w, c, v.(point := AfterWrite(v.point.f), out := [], pos := 0, write := false,
                                 wire := Wire(v.wire.installed, v.wire.installed)))
  {
    more, t := Go(s0, acts, s, ByIo(i, Write([Wrote(|v.out|, false)])));
    ShowsWrite(s, t, i, w, c, v);
  }

  lemma GoSend(s0: State, acts: seq<Action>, s: State, i: nat, w: nat, c: ConnId, v: View, x: TaskId, data: string)
    returns (more: seq<Action>, t: State, m: MsgId)
    requires Reachable(s0) && Run(s0, acts, s) && Shows(s, i, w, c, v) && HasTask(s, x, c, data)
    requires v.worker == Sending(x) && v.inbox == []
    ensures Run(s0, more, t) && Shows(t, i, w, c, v.(worker := Finishing(x), inbox := [m]))
    ensures HasTask(t, x, c, data) && HasMsg(t, m, c)
  {
    m := s.nextMsg;
    more, t := Go(s0, acts, s, ByWorker(w, Send));
    ShowsSend(s, t, i, w, c, v, x, data);
    assert [] + [m] == [m];
  }

  lemma GoConfirm(s0: State, acts: seq<Action>, s: State, i: nat, w: nat, c: ConnId, v: View, x: TaskId, data: string)
    returns (more: seq<Action>, t: State)
    requires Reachable(s0) && Run(s0, acts, s) && Shows(s, i, w, c, v) && HasTask(s, x, c, data)
    requires v.worker == Confirming(x)
    ensures Run(s0, more, t) && Shows(t, i, w, c, v.(worker := Sending(x))) && HasTask(t, x, c, data)
  {
    more, t := Go(s0, acts, s, ByWorker(w, Confirm));
    ShowsTest(s, t, i, w, c, v, x, data, Sending(x));
  }

  // ---- The phases of a request ---------------------------------------------------------------

  /** An open connection with nothing to send, its thread waiting and a worker free. */
  function Idle(wire: Wire, chunks: seq<Chunk>): View {
    View(Polling, [], [], Free, [], 0, false, wire, chunks)
  }

  /** The thread reads the request and submits it. */
  lemma Reading(s: State, i: nat, w: nat, c: ConnId, v: View, data: string)
    returns (acts: seq<Action>, t: State, x: TaskId)
    requires Shows(s, i, w, c, v) && v == Idle(v.wire, v.chunks) && 0 < |data| <= BUFFER_SIZE
    ensures Run(s, acts, t)
    ensures Shows(t, i, w, c, v.(point := InRead(Frame(c, false, false, [])), queue := [x],
                                 chunks := v.chunks + [Chunk(data, Passed)]))
    ensures HasTask(t, x, c, data)
  {
    var e := Ready(c, true, false, false);
    CanPoll(s, i, w, c, v);
    assert Run(s, [], s);
    var acts1, s1 := Go(s, [], s, ByIo(i, Poll([e])));
    ShowsMoved(s, s1, i, w, c, v);
    var v1 := v.(point := Dispatch([e]));
    var acts2, s2 := GoTaken(s, acts1, s1, i, w, c, v1, e);
    var v2 := v1.(point := InRead(Frame(c, false, false, [])));
    acts, t, x := ReadingOn(s, acts2, s2, i, w, c, v2, data);
  }

  lemma ReadingOn(s0: State, acts2: seq<Action>, s2: State, i: nat, w: nat, c: ConnId, v2: View, data: string)
    returns (acts: seq<Action>, t: State, x: TaskId)
    requires Reachable(s0) && Run(s0, acts2, s2) && Shows(s2, i, w, c, v2) && 0 < |data| <= BUFFER_SIZE
    requires v2.point == InRead(Frame(c, false, false, [])) && v2.queue == []
    ensures Run(s0, acts, t)
    ensures Shows(t, i, w, c, v2.(queue := [x], chunks := v2.chunks + [Chunk(data, Passed)])) && HasTask(t, x, c, data)
  {
    x := s2.nextTask;
    var acts3, s3 := Go(s0, acts2, s2, ByIo(i, Read(data)));
    ShowsRead(s2, s3, i, w, c, v2, data);
    var v3 := v2.(point := Submitting(x, v2.point.f), chunks := v2.chunks + [Chunk(data, Passed)]);
    acts, t := Go(s0, acts3, s3, ByIo(i, Submit));
    ShowsSubmit(s3, t, i, w, c, v3, data);
    assert [] + [x] == [x];
  }

  /** The thread finds no more data, tests the connection and waits again. */
  lemma Resting(s0: State, acts0: seq<Action>, s: State, i: nat, w: nat, c: ConnId, v: View, x: TaskId, data: string)
    returns (acts: seq<Action>, t: State)
    requires Reachable(s0) && Run(s0, acts0, s) && Shows(s, i, w, c, v) && HasTask(s, x, c, data)
    requires v.point == InRead(Frame(c, false, false, []))
    ensures Run(s0, acts, t) && Shows(t, i, w, c, v.(point := Polling)) && HasTask(t, x, c, data)
  {
    var acts1, s1 := Go(s0, acts0, s, ByIo(i, ReadStop));
    ShowsMoved(s, s1, i, w, c, v);
    var v1 := v.(point := AfterRead(v.point.f));
    var acts2, s2 := GoTested(s0, acts1, s1, i, w, c, v1);
    acts, t := GoRest(s0, acts2, s2, i, w, c, v1.(point := Dispatch([])));
  }

  /** The worker takes the task, finds the connection open and installs the response. */
  lemma Answering(s0: State, acts0: seq<Action>, s: State, i: nat, w: nat, c: ConnId, v: View,
                  x: TaskId, data: string)
    returns (acts: seq<Action>, t: State)
    requires Reachable(s0) && Run(s0, acts0, s) && Shows(s, i, w, c, v) && HasTask(s, x, c, data)
    requires v.worker == Free && v.queue == [x] && |data| <= BUFFER_SIZE
    ensures Run(s0, acts, t) && HasTask(t, x, c, data)
    ensures Shows(t, i, w, c, v.(worker := Confirming(x), queue := [], out := Format(data), pos := 0,
                                 wire := Wire(Format(data), [])))
  {
    var acts1, s1 := Go(s0, acts0, s, ByWorker(w, Pop));
    ShowsPop(s, s1, i, w, c, v, x, data);
    var v1 := v.(worker := Checking(x), queue := []);
    var acts2, s2 := Go(s0, acts1, s1, ByWorker(w, Check));
    ShowsTest(s1, s2, i, w, c, v1, x, data, Processing(x));
    var v2 := v1.(worker := Processing(x));
    acts, t := Go(s0, acts2, s2, ByWorker(w, Process));
    ShowsProcess(s2, t, i, w, c, v2, x, data);
  }

  /** The worker announces the response and destroys the task. */
  lemma Notifying(s0: State, acts0: seq<Action>, s: State, i: nat, w: nat, c: ConnId, v: View,
                  x: TaskId, data: string)
    returns (acts: seq<Action>, t: State, m: MsgId)
    requires Reachable(s0) && Run(s0, acts0, s) && Shows(s, i, w, c, v) && HasTask(s, x, c, data)
    requires v.worker == Confirming(x) && v.inbox == []
    ensures Run(s0, acts, t) && Shows(t, i, w, c, v.(worker := Free, inbox := [m])) && HasMsg(t, m, c)
  {
    var acts1, s1 := GoConfirm(s0, acts0, s, i, w, c, v, x, data);
    var v1 := v.(worker := Sending(x));
    var acts2, s2, m' := GoSend(s0, acts1, s1, i, w, c, v1, x, data);
    m := m';
    var v2 := v1.(worker := Finishing(x), inbox := [m]);
    acts, t := Go(s0, acts2, s2, ByWorker(w, Finish));
    ShowsFinish(s2, t, i, w, c, v2, x, data, m);
  }

  /** The thread is woken, and takes the message up. */
  lemma Waking(s0: State, acts0: seq<Action>, s: State, i: nat, w: nat, c: ConnId, v: View, m: MsgId)
    returns (acts: seq<Action>, t: State)
    requires Reachable(s0) && Run(s0, acts0, s) && Shows(s, i, w, c, v) && HasMsg(s, m, c)
    requires v.point == Polling && v.inbox == [m]
    ensures Run(s0, acts, t) && Shows(t, i, w, c, v.(point := Handling(m, []), inbox := [])) && HasMsg(t, m, c)
  {
    CanPoll(s, i, w, c, v);
    var acts1, s1 := Go(s0, acts0, s, ByIo(i, Poll([MailReady])));
    ShowsMoved(s, s1, i, w, c, v);
    var v1 := v.(point := Dispatch([MailReady]));
    var acts2, s2 := GoTaken(s0, acts1, s1, i, w, c, v1, MailReady);
    var v2 := v1.(point := Draining([]));
    acts, t := Go(s0, acts2, s2, ByIo(i, Drain));
    ShowsDrain(s2, t, i, w, c, v2);
  }

  /** It switches the connection to writing, drops the message and waits again. */
  lemma Arming(s0: State, acts0: seq<Action>, s: State, i: nat, w: nat, c: ConnId, v: View, m: MsgId)
    returns (acts: seq<Action>, t: State)
    requires Reachable(s0) && Run(s0, acts0, s) && Shows(s, i, w, c, v) && HasMsg(s, m, c)
    requires v.point == Handling(m, []) && v.inbox == []
    ensures Run(s0, acts, t) && Shows(t, i, w, c, v.(point := Polling, write := true))
  {
    var acts1, s1 := Go(s0, acts0, s, ByIo(i, Handle));
    ShowsHandle(s, s1, i, w, c, v);
    var v1 := v.(point := Dropping(m, []), write := true);
    var acts2, s2 := Go(s0, acts1, s1, ByIo(i, DropMsg));
    ShowsDrop(s1, s2, i, w, c, v1);
    acts, t := GoDrained(s0, acts2, s2, i, w, c, v1.(point := Draining([])));
  }

  /** The connection is reported writable, and the kernel takes the response. */
  lemma Writing(s0: State, acts0: seq<Action>, s: State, i: nat, w: nat, c: ConnId, v: View)
    returns (acts: seq<Action>, t: State)
    requires Reachable(s0) && Run(s0, acts0, s) && Shows(s, i, w, c, v)
    requires v.point == Polling && v.write && v.out != []
    ensures Run(s0, acts, t)
    ensures Shows(t, i, w, c, v.(out := [], pos := 0, write := false, wire := Wire(v.wire.installed, v.wire.installed)))
  {
    var e := Ready(c, false, true, false);
    CanPoll(s, i, w, c, v);
    var acts1, s1 := Go(s0, acts0, s, ByIo(i, Poll([e])));
    ShowsMoved(s, s1, i, w, c, v);
    acts, t := SendingOut(s0, acts1, s1, i, w, c, v.(point := Dispatch([e])));
  }

  /** From the event on: four steps of the thread send the response and go back to waiting. */
  lemma SendingOut(s0: State, acts0: seq<Action>, s: State, i: nat, w: nat, c: ConnId, v: View)
    returns (acts: seq<Action>, t: State)
    requires Reachable(s0) && Run(s0, acts0, s) && Shows(s, i, w, c, v)
    requires v.point == Dispatch([Ready(c, false, true, false)]) && v.out != []
    ensures Run(s0, acts, t)
    ensures Shows(t, i, w, c, v.(point := Polling, out := [], pos := 0, write := false,
                                 wire := Wire(v.wire.installed, v.wire.installed)))
  {
    var f := Frame(c, true, false, []);
    var acts2, s2 := GoTaken(s0, acts0, s, i, w, c, v, Ready(c, false, true, false));
    var v2 := v.(point := InWrite(f));
    var acts3, s3 := GoWrite(s0, acts2, s2, i, w, c, v2);
    var v3 := v2.(point := AfterWrite(f), out := [], pos := 0, write := false,
                  wire := Wire(v.wire.installed, v.wire.installed));
    var acts4, s4 := GoTested(s0, acts3, s3, i, w, c, v3);
    acts, t := GoRest(s0, acts4, s4, i, w, c, v3.(point := Dispatch([])));
  }

  // ---- The echo ----------------------------------------------------------------------------

  /**
    Whatever 1 to 4096 bytes a client sends on an idle connection, a run of its I/O
    thread and a free worker reads them, sends back exactly the formatted echo of
    them, and leaves the connection idle again: watched for data, with nothing to
    send.  So requests can be served one after the other.
   */
  lemma EchoIsServed(s: State, i: nat, w: nat, c: ConnId, v: View, data: string)
    returns (acts: seq<Action>, t: State)
    requires Shows(s, i, w, c, v) && v == Idle(v.wire, v.chunks) && 0 < |data| <= BUFFER_SIZE
    ensures Run(s, acts, t)
    ensures Shows(t, i, w, c, Idle(Answered(data), v.chunks + [Chunk(data, Passed)]))
  {
    var acts1, s1, x := Reading(s, i, w, c, v, data);
    var chunks := v.chunks + [Chunk(data, Passed)];
    var v1 := v.(point := InRead(Frame(c, false, false, [])), queue := [x], chunks := chunks);
    var acts2, s2 := Resting(s, acts1, s1, i, w, c, v1, x, data);
    var v2 := v1.(point := Polling);
    var acts3, s3 := Answering(s, acts2, s2, i, w, c, v2, x, data);
    var v3 := v2.(worker := Confirming(x), queue := [], out := Format(data), pos := 0, wire := Wire(Format(data), []));
    var acts4, s4, m := Notifying(s, acts3, s3, i, w, c, v3, x, data);
    var v4 := v3.(worker := Free, inbox := [m]);
    var acts5, s5 := Waking(s, acts4, s4, i, w, c, v4, m);
    var v5 := v4.(point := Handling(m, []), inbox := []);
    var acts6, s6 := Arming(s, acts5, s5, i, w, c, v5, m);
    FormatFits(data);
    acts, t := Writing(s, acts6, s6, i, w, c, v5.(point := Polling, write := true));
  }

  /** The chunks of requests that were all passed on. */
  function AllPassed(requests: seq<string>): seq<Chunk> {
    seq(|requests|, k requires 0 <= k < |requests| => Chunk(requests[k], Passed))
  }

  /** Requests as one read can take them. */
  predicate Readable(requests: seq<string>) { forall k | 0 <= k < |requests| :: 0 < |requests[k]| <= BUFFER_SIZE }

  /** The wire after the last request, if there was one. */
  function LastWire(wire: Wire, requests: seq<string>): Wire {
    if requests == [] then wire else Answered(requests[|requests| - 1])
  }

  /** Any number of requests can be served like that, one after the other: all are read, in order, and answered. */
  lemma {:induction false} EchoesAreServed(s: State, i: nat, w: nat, c: ConnId, wire: Wire, chunks: seq<Chunk>,
                                           requests: seq<string>)
    returns (acts: seq<Action>, t: State)
    requires Shows(s, i, w, c, Idle(wire, chunks)) && Readable(requests)
    ensures Run(s, acts, t) && Shows(t, i, w, c, Idle(LastWire(wire, requests), chunks + AllPassed(requests)))
    decreases |requests|
  {
    if requests == [] {
      acts, t := [], s;
      assert chunks + AllPassed([]) == chunks;
    } else {
      var before := requests[..|requests| - 1];
      var acts', u := EchoesAreServed(s, i, w, c, wire, chunks, before);
      acts, t := EchoAgain(s, acts', u, i, w, c, LastWire(wire, before), chunks, requests);
    }
  }

  /** The last of the requests, after the others. */
  lemma EchoAgain(s0: State, acts: seq<Action>, s: State, i: nat, w: nat, c: ConnId,
                  wire: Wire, chunks: seq<Chunk>, requests: seq<string>)
    returns (more: seq<Action>, t: State)
    requires requests != [] && 0 < |requests[|requests| - 1]| <= BUFFER_SIZE && Run(s0, acts, s)
    requires Shows(s, i, w, c, Idle(wire, chunks + AllPassed(requests[..|requests| - 1])))
    ensures Run(s0, more, t)
    ensures Shows(t, i, w, c, Idle(Answered(requests[|requests| - 1]), chunks + AllPassed(requests)))
  {
    var n := |requests| - 1;
    var last;
    last, t := EchoIsServed(s, i, w, c, Idle(wire, chunks + AllPassed(requests[..n])), requests[n]);
    more := acts + last;
    RunTo(s0, acts, s, last, t);
    Appended(chunks, requests);
  }

  lemma Appended(chunks: seq<Chunk>, requests: seq<string>)
    requires requests != []
    ensures var n := |requests| - 1;
            (chunks + AllPassed(requests[..n])) + [Chunk(requests[n], Passed)] == chunks + AllPassed(requests)
  {
  }

  /** The wire on which the response to `data` was sent completely. */
  function Answered(data: string): Wire { Wire(Format(data), Format(data)) }

  /** A server that has just registered its first connection is idle. */
  lemma IdleIsReachable() returns (s: State)
    ensures Shows(s, 0, 0, 0, Idle(Wire([], []), []))
  {
    SceneRegistered();
    s := Scene(NewSlot(Registered(0)), {5}, ONE_REG, Accepting, Polling, []);
  }

  // ---- A writable connection -----------------------------------------------------------------

  /** Taking up a writable event leads to the write handler in at most three steps of the thread. */
  lemma ReachesWrite(s: State, i: nat, c: ConnId, r: bool, e: bool, rest: seq<Event>)
    returns (acts: seq<Action>, t: State)
    requires Reachable(s) && !s.misled && i < |s.ios| && s.ios[i].point == Dispatch([Ready(c, r, true, e)] + rest)
    ensures Run(s, acts, t) && |acts| <= 3 && forall k | 0 <= k < |acts| :: acts[k].ByIo? && acts[k].i == i
    ensures Reachable(t) && !t.misled && i < |t.ios| && t.ios[i].point == InWrite(Frame(c, true, e, rest))
    ensures t.wires == s.wires
  {
    acts, t := TakenUp(s, i, c, r, e, rest);
    if r {
      acts, t := PastRead(s, acts, t, i, Frame(c, true, e, rest));
    }
  }

  lemma TakenUp(s: State, i: nat, c: ConnId, r: bool, e: bool, rest: seq<Event>) returns (acts: seq<Action>, t: State)
    requires Reachable(s) && !s.misled && i < |s.ios| && s.ios[i].point == Dispatch([Ready(c, r, true, e)] + rest)
    ensures Run(s, acts, t) && acts == [ByIo(i, Next)] && Reachable(t) && !t.misled && i < |t.ios| && t.wires == s.wires
    ensures t.ios[i].point == if r then InRead(Frame(c, true, e, rest)) else InWrite(Frame(c, true, e, rest))
  {
    ReachableInv(s);
    TakesUp(s, i, c, r, true, e, rest);
    assert Run(s, [], s);
    acts, t := Go(s, [], s, ByIo(i, Next));
  }

  /** No data: the thread leaves the read handler, tests the connection and goes on to write. */
  lemma PastRead(s0: State, acts0: seq<Action>, s: State, i: nat, f: Frame) returns (acts: seq<Action>, t: State)
    requires Reachable(s0) && Run(s0, acts0, s) && Reachable(s) && !s.misled
    requires i < |s.ios| && s.ios[i].point == InRead(f) && f.w
    ensures Run(s0, acts, t) && acts == acts0 + [ByIo(i, ReadStop), ByIo(i, Recheck(false))]
    ensures Reachable(t) && !t.misled && i < |t.ios| && t.ios[i].point == InWrite(f) && t.wires == s.wires
  {
    ReachableInv(s);
    IoFacts(s, i);
    RegisteredIsValid(s.heap, f.conn, i);
    var acts1, u := Go(s0, acts0, s, ByIo(i, ReadStop));
    acts, t := Go(s0, acts1, u, ByIo(i, Recheck(false)));
  }

  /**
    When a connection was reported writable and the kernel takes everything, at most
    four steps of its I/O thread send the whole of the installed response, whatever
    else the event says, and put the connection back to reading.
   */
  lemma WritableIsSent(s: State, i: nat, c: ConnId, r: bool, e: bool, rest: seq<Event>)
    returns (acts: seq<Action>, t: State)
    requires Reachable(s) && !s.misled && i < |s.ios| && s.ios[i].point == Dispatch([Ready(c, r, true, e)] + rest)
    ensures Run(s, acts, t) && |acts| <= 4 && forall k | 0 <= k < |acts| :: acts[k].ByIo? && acts[k].i == i
    ensures c < |s.wires| && c < |t.wires| && t.wires[c].installed == s.wires[c].installed
    ensures t.wires[c].sent == t.wires[c].installed && Listening(t.heap, c)
  {
    var acts1, u := ReachesWrite(s, i, c, r, e, rest);
    var n := if c < |u.wires| then |u.wires[c].installed| + 1 else 1;
    var answers := [Wrote(n, false)];
    acts, t := Go(s, acts1, u, ByIo(i, Write(answers)));
    assert TakenBy(answers, 1) == TakenBy(answers, 0) + n;
    WriteEventSends(u, i, answers, 1);
    AllWritten(u, i, n);
  }

  lemma AllWritten(s: State, i: nat, n: nat)
    requires Reachable(s) && !s.misled && i < |s.ios| && s.ios[i].point.InWrite?
    requires var c := s.ios[i].point.f.conn; c < |s.wires| ==> n > |s.wires[c].installed|
    ensures Listening(DoWrite(s, i, [Wrote(n, false)]).heap, s.ios[i].point.f.conn)
  {
    var c, answers := s.ios[i].point.f.conn, [Wrote(n, false)];
    ReachableInv(s);
    IoFacts(s, i);
    RegisteredIsValid(s.heap, c, i);
    var _ := ClientIsSentPrefix(s, c);
    assert TakenBy(answers, 1) == TakenBy(answers, 0) + n;
    WriteEventCloses(s, i, answers, 1);
    WriteSwitches(s, i, answers);
    WriteMoves(WriteLogged(s, i, answers), i, answers);
    if s.heap.slots[c].conn.out != [] {
      TransmitLaw(|s.heap.slots[c].conn.out|, s.heap.slots[c].conn.pos, answers, 1);
    }
  }
}

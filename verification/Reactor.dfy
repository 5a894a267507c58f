/**
  The connection protocol of the server: one accept thread, the I/O threads and
  the workers, interleaved step by step.

  Connections, tasks and messages are heap objects.  A step that reaches an
  object which is no longer allocated sets `fault`; nothing in the enabling
  conditions rules that out.  The one exception is the validity test after a
  handler: on a freed connection it may answer anything, which `stale` records,
  and when it answers that the connection is open the run is `misled`.
  Allocation failures, failed hand-offs, short writes and socket errors are
  choices of the environment.

  The fields of a slot other than `conn` and `live`, the `at` fields of tasks and
  messages, and the histories at the end of `State` are auxiliary: they record who
  owns what, and no step decides anything by them.
 */
module Reactor {
  import opened Connections
  import opened IoThreads
  import opened Responses

  type ConnId = nat
  type TaskId = nat
  type MsgId = nat

  // ---- Heap objects ---------------------------------------------------------

  datatype TaskAt = IoHand(i: nat) | Queued | WorkerHand(w: nat) | Leaked
  datatype Task = Task(conn: ConnId, payload: string, at: TaskAt)

  datatype MsgAt = Inbox(i: nat) | Taken(i: nat)
  datatype Msg = Msg(conn: ConnId, at: MsgAt)

  /** The owner of a connection's first reference. */
  datatype Base = AtAccept | InPipe(i: nat) | BeingAdded(i: nat) | Registered(i: nat) | BeingClosed(i: nat) | Released

  /** An event-loop registration: the connection it names and whether it asks for writability. */
  datatype Reg = Reg(conn: ConnId, write: bool)

  /**
    Every connection ever created, with its auxiliary records: who owns the base
    reference, how many tasks and messages hold one, how many were taken without
    a holder, and how often the object was freed and its descriptor closed.
   */
  datatype Slot = Slot(conn: Conn, live: bool, base: Base, held: int, lost: nat, frees: nat, closes: nat)

  /** Allocated objects and the kernel's tables; `reg` is keyed by event loop and descriptor. */
  datatype Heap = Heap(
    slots: seq<Slot>,
    tasks: map<TaskId, Task>,
    msgs: map<MsgId, Msg>,
    openFds: set<int>,
    reg: map<(nat, int), Reg>,
    fault: bool)

  /** Connection `c` is allocated. */
  predicate Live(h: Heap, c: ConnId) {
    c < |h.slots| && h.slots[c].live
  }

  /** The same tasks and messages, and as many connections. */
  predicate SameObjects(h: Heap, g: Heap) {
    g.tasks == h.tasks && g.msgs == h.msgs && |g.slots| == |h.slots|
  }

  function SetSlot(h: Heap, c: ConnId, x: Slot): Heap
    requires c < |h.slots|
  {
    h.(slots := h.slots[c := x])
  }

  function SetBase(h: Heap, c: ConnId, b: Base): (g: Heap)
    ensures SameObjects(h, g)
  {
    if c < |h.slots| then SetSlot(h, c, h.slots[c].(base := b)) else h
  }

  function SetConn(h: Heap, c: ConnId, x: Conn): Heap
    requires c < |h.slots|
  {
    SetSlot(h, c, h.slots[c].(conn := x))
  }

  /** close(2) also removes the descriptor from every event loop. */
  function CloseFd(h: Heap, fd: int): Heap {
    h.(openFds := h.openFds - {fd}, reg := map k | k in h.reg && k.1 != fd :: h.reg[k])
  }

  function Fault(h: Heap): Heap { h.(fault := true) }

  function Touch(h: Heap, c: ConnId): Heap {
    if Live(h, c) then h else Fault(h)
  }

  predicate SeesValid(h: Heap, c: ConnId) {
    Live(h, c) && IsValid(h.slots[c].conn)
  }

  /** conn_acquire, on behalf of a task or message unless `orphan`. */
  function AcquireConn(h: Heap, c: ConnId, orphan: bool): (g: Heap)
    ensures SameObjects(h, g)
  {
    if !Live(h, c) then Fault(h)
    else
      var x := h.slots[c].(conn := Acquired(h.slots[c].conn));
      SetSlot(h, c, if orphan then x.(lost := x.lost + 1) else x.(held := x.held + 1))
  }

  /** conn_release, of the base reference or of a task's or message's. */
  function ReleaseConn(h: Heap, c: ConnId, base: bool): (g: Heap)
    ensures SameObjects(h, g)
  {
    if !Live(h, c) then Fault(h)
    else
      var x := if base then h.slots[c].(base := Released) else h.slots[c].(held := h.slots[c].held - 1);
      var d := Dropped(x.conn);
      if d.refCount > 0 then SetSlot(h, c, x.(conn := d))
      else if d.fd < 0 then SetSlot(h, c, x.(conn := d, live := false, frees := x.frees + 1))
      else
        SetSlot(CloseFd(h, d.fd), c,
                x.(conn := d.(fd := -1), live := false, frees := x.frees + 1, closes := x.closes + 1))
  }

  /** conn_mark_closing by I/O thread `i`, which now owes the release of the base reference. */
  function MarkConn(h: Heap, c: ConnId, i: nat): (g: Heap)
    ensures SameObjects(h, g)
  {
    if !Live(h, c) then Fault(h)
    else
      var x := h.slots[c].(base := BeingClosed(i));
      if !x.conn.closing && x.conn.fd >= 0 then
        SetSlot(CloseFd(h, x.conn.fd), c, x.(conn := Marked(x.conn), closes := x.closes + 1))
      else SetSlot(h, c, x.(conn := Marked(x.conn)))
  }

  /** event_loop_mod: without effect unless the descriptor is registered. */
  function SetInterest(h: Heap, i: nat, fd: int, c: ConnId, write: bool): Heap {
    if (i, fd) in h.reg then h.(reg := h.reg[(i, fd) := Reg(c, write)]) else h
  }

  /** conn_create: one reference, owned by the accept thread. */
  function CreateConn(h: Heap, fd: int, i: nat): Heap {
    h.(slots := h.slots + [Slot(Created(fd, i), true, AtAccept, 0, 0, 0, 0)])
  }

  /** event_loop_add for a connection that was handed over. */
  function RegisterConn(h: Heap, c: ConnId, i: nat): Heap
    requires c < |h.slots|
  {
    var x := h.slots[c].conn.(io := i);
    SetBase(SetConn(h, c, x), c, Registered(i)).(reg := h.reg[(i, x.fd) := Reg(c, false)])
  }

  /** Unlinking a message from the inbox of I/O thread `i`. */
  function TakeMsg(h: Heap, m: MsgId, i: nat): Heap
    requires m in h.msgs
  {
    h.(msgs := h.msgs[m := h.msgs[m].(at := Taken(i))])
  }

  /** task_destroy */
  function DestroyTask(h: Heap, t: TaskId): Heap
    requires t in h.tasks
  {
    ReleaseConn(h.(tasks := h.tasks - {t}), h.tasks[t].conn, false)
  }

  /** The end of a message: conn_release and free. */
  function DestroyMsg(h: Heap, m: MsgId): Heap
    requires m in h.msgs
  {
    ReleaseConn(h.(msgs := h.msgs - {m}), h.msgs[m].conn, false)
  }

  // ---- Program points -------------------------------------------------------

  datatype AcceptPoint = Accepting | Accepted(fd: int) | Handing(conn: ConnId, io: nat, fd: int) | Reclosing(fd: int)

  datatype Event = PipeReady | MailReady | Ready(conn: ConnId, r: bool, w: bool, e: bool)

  /** The event being dispatched and the events of the same wait still to come. */
  datatype Frame = Frame(conn: ConnId, w: bool, e: bool, rest: seq<Event>)

  datatype Return = ToRead | ToWrite | ToDone

  datatype IoPoint =
    | Polling
    | Dispatch(batch: seq<Event>)
    | Adding(conn: ConnId, rest: seq<Event>)
    | Draining(rest: seq<Event>)
    | Handling(msg: MsgId, rest: seq<Event>)
    | Dropping(msg: MsgId, rest: seq<Event>)
    | InRead(f: Frame)
    | Submitting(task: TaskId, f: Frame)
    | AfterRead(f: Frame)
    | InWrite(f: Frame)
    | AfterWrite(f: Frame)
    | InError(f: Frame)
    | Unregistering(fd: int, f: Frame, ret: Return)
    | Unreferencing(f: Frame, ret: Return)

  datatype Io = Io(point: IoPoint, pipe: seq<ConnId>, inbox: seq<MsgId>, bytesRead: nat)

  datatype WorkerPoint =
    | Free
    | Checking(task: TaskId)
    | Processing(task: TaskId)
    | Confirming(task: TaskId)
    | Sending(task: TaskId)
    | Finishing(task: TaskId)

  datatype Entry = Entry(task: TaskId, conn: ConnId, payload: string)

  /** The response last installed in a connection, and what the client was sent of it. */
  datatype Wire = Wire(installed: string, sent: string)

  datatype State = State(
    heap: Heap,
    nextTask: nat,
    nextMsg: nat,
    accept: AcceptPoint,
    ios: seq<Io>,
    workers: seq<WorkerPoint>,
    queue: seq<TaskId>,
    down: bool,                 // the pool's shutdown flag
    // histories
    stale: seq<ConnId>,         // freed connections that were tested
    misled: bool,               // such a test answered that the connection is open
    chunks: seq<seq<Chunk>>,    // what was read from each connection
    wires: seq<Wire>,           // what was sent on each connection
    accepted: seq<Entry>,       // tasks that the queue accepted
    popped: nat,                // how many of them were popped
    stranded: set<ConnId>,      // connections whose response a failed message left to nobody
    roused: set<ConnId>)        // connections for which a message was handled since their last write event

  datatype AcceptAction = Accept(fd: nat) | Create(i: nat) | CreateFails | HandOff | HandOffFails | Reclose

  datatype IoAction =
    | Poll(batch: seq<Event>)
    | Next
    | Add
    | AddFails
    | Drain
    | Handle
    | DropMsg
    | Read(data: string)
    | ReadNoTask(data: string)
    | ReadNoPayload(data: string)
    | Submit
    | SubmitRefused
    | ReadStop
    | ReadClose
    | Write(answers: seq<WriteResult>)
    | Hangup
    | Unregister
    | Unreference
    | Recheck(guess: bool)

  datatype WorkerAction = Pop | Check | Process | Confirm | Send | SendFails | Finish

  /** `Shutdown` is the first statement of thread_pool_destroy. */
  datatype Action =
    | ByAccept(a: AcceptAction)
    | ByIo(i: nat, x: IoAction)
    | ByWorker(w: nat, y: WorkerAction)
    | Shutdown

  predicate Init(s: State) {
    && s.heap == Heap([], map[], map[], {}, map[], false)
    && s.nextTask == 0 && s.nextMsg == 0 && s.accept == Accepting && s.queue == []
    && (forall i | 0 <= i < |s.ios| :: s.ios[i] == Io(Polling, [], [], 0))
    && (forall w | 0 <= w < |s.workers| :: s.workers[w] == Free)
    && !s.down && s.stale == [] && !s.misled && s.chunks == [] && s.wires == []
    && s.accepted == [] && s.popped == 0 && s.stranded == {} && s.roused == {}
  }

  // ---- Responses to be sent ---------------------------------------------------

  /** An open connection with bytes of a response still to send. */
  predicate Unsent(h: Heap, c: ConnId) {
    SeesValid(h, c) && h.slots[c].conn.pos < |h.slots[c].conn.out|
  }

  /** The event loop watches the connection for writability. */
  predicate Armed(h: Heap, c: ConnId) {
    && c < |h.slots| && h.slots[c].base.Registered?
    && var k := (h.slots[c].base.i, h.slots[c].conn.fd);
       k in h.reg && h.reg[k].write
  }

  /** A response-ready message for `c` that is queued or about to be acted upon. */
  predicate Pending(s: State, m: MsgId, c: ConnId) {
    && m in s.heap.msgs && s.heap.msgs[m].conn == c
    && (s.heap.msgs[m].at.Taken? ==> s.heap.msgs[m].at.i < |s.ios| && s.ios[s.heap.msgs[m].at.i].point.Handling?)
  }

  /** Worker `w` installed a response for `c` and has not sent its message yet. */
  predicate Announcing(s: State, w: nat, c: ConnId) {
    && w < |s.workers| && (s.workers[w].Confirming? || s.workers[w].Sending?)
    && s.workers[w].task in s.heap.tasks && s.heap.tasks[s.workers[w].task].conn == c
  }

  /** Someone will see to it that the response of `c` is sent. */
  predicate Covered(s: State, c: ConnId) {
    || Armed(s.heap, c)
    || (exists m | m in s.heap.msgs :: Pending(s, m, c))
    || (exists w | 0 <= w < |s.workers| :: Announcing(s, w, c))
  }

  // ---- Enabling conditions --------------------------------------------------

  predicate Apart<T(==)>(s: seq<T>, k: nat, l: nat) {
    k < l < |s| ==> s[k] != s[l]
  }

  predicate Distinct<T(==)>(s: seq<T>) {
    forall k, l | 0 <= k < l < |s| :: Apart(s, k, l)
  }

  /** The connections that a batch of events names, in order. */
  function Named(batch: seq<Event>): seq<ConnId> {
    if batch == [] then []
    else (if batch[0].Ready? then [batch[0].conn] else []) + Named(batch[1..])
  }

  ghost predicate Reported(h: Heap, i: nat, c: ConnId) {
    exists fd :: (i, fd) in h.reg && h.reg[(i, fd)].conn == c
  }

  /** A connection is reported readable or writable only as its registration asks. */
  ghost predicate Asked(h: Heap, i: nat, e: Event) {
    e.Ready? ==>
      exists fd ::
        && (i, fd) in h.reg && h.reg[(i, fd)].conn == e.conn
        && (e.r ==> !h.reg[(i, fd)].write) && (e.w ==> h.reg[(i, fd)].write)
  }

  /** One wait reports a connection at most once, and only registered ones, for what they are watched for. */
  ghost predicate Reports(h: Heap, i: nat, batch: seq<Event>) {
    && Distinct(Named(batch)) && (forall c | c in Named(batch) :: Reported(h, i, c))
    && (forall k | 0 <= k < |batch| :: Asked(h, i, batch[k]))
  }

  predicate CanAccept(s: State, a: AcceptAction) {
    match a
    case Accept(fd) => s.accept == Accepting && fd !in s.heap.openFds
    case Create(i) => s.accept.Accepted? && i < |s.ios|
    case CreateFails => s.accept.Accepted?
    case HandOff => s.accept.Handing? && s.accept.io < |s.ios|
    case HandOffFails => s.accept.Handing?
    case Reclose => s.accept.Reclosing?
  }

  ghost predicate CanIo(s: State, i: nat, x: IoAction)
    requires i < |s.ios|
  {
    var p := s.ios[i].point;
    match x
    case Poll(batch) => p.Polling? && Reports(s.heap, i, batch)
    case Next => p.Dispatch?
    case Add => p.Adding?
    case AddFails => p.Adding?
    case Drain => p.Draining?
    case Handle => p.Handling?
    case DropMsg => p.Dropping?
    case Read(data) => p.InRead? && 0 < |data| <= BUFFER_SIZE
    case ReadNoTask(data) => p.InRead? && 0 < |data| <= BUFFER_SIZE
    case ReadNoPayload(data) => p.InRead? && 0 < |data| <= BUFFER_SIZE
    case Submit => p.Submitting?
    case SubmitRefused => p.Submitting? && s.down
    case ReadStop => p.InRead?
    case ReadClose => p.InRead?
    case Write(_) => p.InWrite?
    case Hangup => p.InError?
    case Unregister => p.Unregistering?
    case Unreference => p.Unreferencing?
    case Recheck(_) => p.AfterRead? || p.AfterWrite?
  }

  predicate CanWorker(s: State, w: nat, y: WorkerAction)
    requires w < |s.workers|
  {
    var p := s.workers[w];
    match y
    case Pop => p == Free && s.queue != []
    case Check => p.Checking?
    case Process => p.Processing?
    case Confirm => p.Confirming?
    case Send => p.Sending?
    case SendFails => p.Sending?
    case Finish => p.Finishing?
  }

  ghost predicate Can(s: State, a: Action) {
    match a
    case ByAccept(b) => CanAccept(s, b)
    case ByIo(i, x) => i < |s.ios| && CanIo(s, i, x)
    case ByWorker(w, y) => w < |s.workers| && CanWorker(s, w, y)
    case Shutdown => true
  }

  // ---- Accept thread --------------------------------------------------------

  function DoCreate(s: State, i: nat): State
    requires s.accept.Accepted?
  {
    var h := s.heap;
    var c := |h.slots|;
    s.(heap := CreateConn(h, s.accept.fd, i),
       chunks := s.chunks + [[]],
       wires := s.wires + [Wire([], [])],
       accept := Handing(c, i, s.accept.fd))
  }

  function DoHandOff(s: State): State
    requires s.accept.Handing? && s.accept.io < |s.ios|
  {
    var c, i := s.accept.conn, s.accept.io;
    s.(heap := SetBase(s.heap, c, InPipe(i)),
       ios := s.ios[i := s.ios[i].(pipe := s.ios[i].pipe + [c])],
       accept := Accepting)
  }

  function DoHandOffFails(s: State): State
    requires s.accept.Handing?
  {
    var c := s.accept.conn;
    s.(heap := ReleaseConn(s.heap, c, true), accept := Reclosing(s.accept.fd))
  }

  // ---- I/O threads ----------------------------------------------------------

  function Goto(s: State, i: nat, p: IoPoint): State
    requires i < |s.ios|
  {
    s.(ios := s.ios[i := s.ios[i].(point := p)])
  }

  /** Where dispatching continues after the read handler left the connection open. */
  function AfterReadPart(f: Frame): IoPoint {
    if f.w then InWrite(f) else AfterWritePart(f)
  }

  function AfterWritePart(f: Frame): IoPoint {
    if f.e then InError(f) else Dispatch(f.rest)
  }

  function DoNext(s: State, i: nat): State
    requires i < |s.ios| && s.ios[i].point.Dispatch?
  {
    var batch := s.ios[i].point.batch;
    if batch == [] then Goto(s, i, Polling)
    else
      var rest := batch[1..];
      match batch[0]
      case PipeReady =>
        if s.ios[i].pipe == [] then Goto(s, i, Dispatch(rest))
        else
          var c := s.ios[i].pipe[0];
          s.(heap := SetBase(s.heap, c, BeingAdded(i)),
             ios := s.ios[i := s.ios[i].(pipe := s.ios[i].pipe[1..], point := Adding(c, rest))])
      case MailReady => Goto(s, i, Draining(rest))
      case Ready(c, r, w, e) =>
        var f := Frame(c, w, e, rest);
        var t := s.(heap := Touch(s.heap, c));
        if !SeesValid(s.heap, c) then Goto(t, i, Dispatch(rest))
        else if r then Goto(t, i, InRead(f))
        else Goto(t, i, AfterReadPart(f))
  }

  function DoAdd(s: State, i: nat): State
    requires i < |s.ios| && s.ios[i].point.Adding?
  {
    var h, c := s.heap, s.ios[i].point.conn;
    var t := Goto(s, i, Dispatch(s.ios[i].point.rest));
    t.(heap := if Live(h, c) then RegisterConn(h, c, i) else Fault(h))
  }

  function DoAddFails(s: State, i: nat): State
    requires i < |s.ios| && s.ios[i].point.Adding?
  {
    var c := s.ios[i].point.conn;
    Goto(s, i, Dispatch(s.ios[i].point.rest)).(heap := ReleaseConn(s.heap, c, true))
  }

  function DoDrain(s: State, i: nat): State
    requires i < |s.ios| && s.ios[i].point.Draining?
  {
    var h, rest, inbox := s.heap, s.ios[i].point.rest, s.ios[i].inbox;
    if inbox == [] then Goto(s, i, Dispatch(rest))
    else
      var m := inbox[0];
      s.(heap := if m in h.msgs then TakeMsg(h, m, i) else Fault(h),
         ios := s.ios[i := s.ios[i].(inbox := inbox[1..], point := Handling(m, rest))])
  }

  function DoHandle(s: State, i: nat): State
    requires i < |s.ios| && s.ios[i].point.Handling?
  {
    var h, m := s.heap, s.ios[i].point.msg;
    var t := Goto(s, i, Dropping(m, s.ios[i].point.rest));
    if m !in h.msgs then t.(heap := Fault(h))
    else
      var c := h.msgs[m].conn;
      t.(heap := if SeesValid(h, c) then SetInterest(h, i, h.slots[c].conn.fd, c, true) else Touch(h, c),
         roused := if SeesValid(h, c) then s.roused + {c} else s.roused)
  }

  function DoDropMsg(s: State, i: nat): State
    requires i < |s.ios| && s.ios[i].point.Dropping?
  {
    var h, m := s.heap, s.ios[i].point.msg;
    var t := Goto(s, i, Draining(s.ios[i].point.rest));
    t.(heap := if m in h.msgs then DestroyMsg(h, m) else Fault(h))
  }

  function Logged(chunks: seq<seq<Chunk>>, c: ConnId, x: Chunk): seq<seq<Chunk>> {
    if c < |chunks| then chunks[c := chunks[c] + [x]] else chunks
  }

  /** The latest chunk of `c` was refused after all. */
  function LoggedRefusal(chunks: seq<seq<Chunk>>, c: ConnId): seq<seq<Chunk>> {
    if c < |chunks| && chunks[c] != [] then
      var n := |chunks[c]| - 1;
      chunks[c := chunks[c][..n] + [Chunk(chunks[c][n].data, Refused)]]
    else chunks
  }

  /** The part of a successful read that precedes task_create, and the fate of the chunk. */
  function Receive(s: State, i: nat, data: string, fate: Fate): State
    requires i < |s.ios| && s.ios[i].point.InRead?
  {
    var h, c := s.heap, s.ios[i].point.f.conn;
    s.(heap := if Live(h, c) then SetConn(h, c, h.slots[c].conn.(state := ConnState.Reading)) else Fault(h),
       ios := s.ios[i := s.ios[i].(bytesRead := s.ios[i].bytesRead + |data|)],
       chunks := Logged(s.chunks, c, Chunk(data, fate)))
  }

  function DoRead(s: State, i: nat, data: string): State
    requires i < |s.ios| && s.ios[i].point.InRead?
  {
    var r := Receive(s, i, data, Passed);
    var f, t := s.ios[i].point.f, s.nextTask;
    var h := AcquireConn(r.heap, f.conn, false);
    Goto(r, i, Submitting(t, f)).(
      heap := h.(tasks := h.tasks[t := Task(f.conn, data, IoHand(i))]),
      nextTask := t + 1)
  }

  /** malloc of the task fails: the bytes are dropped before a reference is taken. */
  function DoReadNoTask(s: State, i: nat, data: string): State
    requires i < |s.ios| && s.ios[i].point.InRead?
  {
    Receive(s, i, data, NoTask)
  }

  /** malloc of the payload fails: the task is freed but its reference stays taken. */
  function DoReadNoPayload(s: State, i: nat, data: string): State
    requires i < |s.ios| && s.ios[i].point.InRead?
  {
    var r := Receive(s, i, data, NoPayload);
    r.(heap := AcquireConn(r.heap, s.ios[i].point.f.conn, true))
  }

  function MoveTask(h: Heap, t: TaskId, at: TaskAt): Heap {
    if t in h.tasks then h.(tasks := h.tasks[t := h.tasks[t].(at := at)]) else Fault(h)
  }

  function DoSubmit(s: State, i: nat): State
    requires i < |s.ios| && s.ios[i].point.Submitting?
  {
    var t, f := s.ios[i].point.task, s.ios[i].point.f;
    var payload := if t in s.heap.tasks then s.heap.tasks[t].payload else [];
    Goto(s, i, InRead(f)).(
      heap := MoveTask(s.heap, t, Queued),
      queue := s.queue + [t],
      accepted := s.accepted + [Entry(t, f.conn, payload)])
  }

  /** The queue was shut down: the caller ignores the result and forgets the task. */
  function DoSubmitRefused(s: State, i: nat): State
    requires i < |s.ios| && s.ios[i].point.Submitting?
  {
    var t, f := s.ios[i].point.task, s.ios[i].point.f;
    Goto(s, i, InRead(f)).(heap := MoveTask(s.heap, t, Leaked), chunks := LoggedRefusal(s.chunks, f.conn))
  }

  /** conn_mark_closing on a close path; the descriptor was saved before it is closed. */
  function BeginClose(s: State, i: nat, h: Heap, f: Frame, ret: Return): (t: State)
    requires i < |s.ios|
    ensures SameObjects(h, t.heap)
  {
    var c := f.conn;
    var fd := if Live(h, c) then h.slots[c].conn.fd else -1;
    Goto(s, i, Unregistering(fd, f, ret)).(heap := MarkConn(h, c, i))
  }

  /** handle_write returns with the connection updated, and back in read mode when nothing is left to send. */
  function EndWrite(s: State, i: nat, f: Frame, x: Conn, toRead: bool): (t: State)
    requires i < |s.ios| && f.conn < |s.heap.slots|
    ensures SameObjects(s.heap, t.heap)
  {
    var h := SetConn(s.heap, f.conn, x);
    Goto(s, i, AfterWrite(f)).(heap := if toRead then SetInterest(h, i, x.fd, f.conn, false) else h)
  }

  /** What the write loop does for connection `x`. */
  function WriteLoop(x: Conn, answers: seq<WriteResult>): Sent {
    if x.pos <= |x.out| then Transmit(|x.out|, x.pos, answers) else Sent(x.pos, Finished)
  }

  /** handle_write leaves the log of sent bytes to `DoWrite`. */
  function WriteOut(s: State, i: nat, answers: seq<WriteResult>): (t: State)
    requires i < |s.ios| && s.ios[i].point.InWrite?
    ensures SameObjects(s.heap, t.heap)
  {
    var h, f := s.heap, s.ios[i].point.f;
    var c := f.conn;
    if !Live(h, c) then Goto(s, i, AfterWrite(f)).(heap := Fault(h))
    else
      var x := h.slots[c].conn;
      if |x.out| == 0 then EndWrite(s, i, f, x.(state := ConnState.Reading), true)
      else
        var r := WriteLoop(x, answers);
        match r.outcome
        case Finished => EndWrite(s, i, f, x.(out := [], pos := 0, state := ConnState.Reading), true)
        case Blocked => EndWrite(s, i, f, x.(pos := r.pos), false)
        case Broken => BeginClose(s, i, SetConn(h, c, x.(pos := r.pos)), f, ToWrite)
  }

  /** The bytes that connection `c` hands to the kernel are logged on its wire. */
  function Written(s: State, c: ConnId, answers: seq<WriteResult>): seq<Wire> {
    if Live(s.heap, c) && c < |s.wires| then
      var x := s.heap.slots[c].conn;
      var r := WriteLoop(x, answers);
      if x.pos <= r.pos <= |x.out| then
        s.wires[c := s.wires[c].(sent := s.wires[c].sent + x.out[x.pos..r.pos])]
      else s.wires
    else s.wires
  }

  /** The histories of a write event. */
  function WriteLogged(s: State, i: nat, answers: seq<WriteResult>): State
    requires i < |s.ios| && s.ios[i].point.InWrite?
  {
    var c := s.ios[i].point.f.conn;
    s.(wires := Written(s, c, answers), roused := s.roused - {c})
  }

  /** One handle_write call. */
  function DoWrite(s: State, i: nat, answers: seq<WriteResult>): State
    requires i < |s.ios| && s.ios[i].point.InWrite?
  {
    WriteOut(WriteLogged(s, i, answers), i, answers)
  }

  function DoUnregister(s: State, i: nat): State
    requires i < |s.ios| && s.ios[i].point.Unregistering?
  {
    var p := s.ios[i].point;
    Goto(s, i, Unreferencing(p.f, p.ret)).(heap := s.heap.(reg := s.heap.reg - {(i, p.fd)}))
  }

  function DoUnreference(s: State, i: nat): State
    requires i < |s.ios| && s.ios[i].point.Unreferencing?
  {
    var p := s.ios[i].point;
    var c := p.f.conn;
    var next :=
      match p.ret
      case ToRead => AfterRead(p.f)
      case ToWrite => AfterWrite(p.f)
      case ToDone => Dispatch(p.f.rest);
    Goto(s, i, next).(heap := ReleaseConn(s.heap, c, true))
  }

  /** The validity test after a handler returned; it reads the object again, and of a freed one it reads `guess`. */
  function DoRecheck(s: State, i: nat, guess: bool): State
    requires i < |s.ios| && (s.ios[i].point.AfterRead? || s.ios[i].point.AfterWrite?)
  {
    var p := s.ios[i].point;
    var live := Live(s.heap, p.f.conn);
    var next :=
      if !(if live then SeesValid(s.heap, p.f.conn) else guess) then Dispatch(p.f.rest)
      else if p.AfterRead? then AfterReadPart(p.f)
      else AfterWritePart(p.f);
    Goto(s, i, next).(
      stale := if live then s.stale else s.stale + [p.f.conn],
      misled := s.misled || (!live && guess))
  }

  // ---- Workers --------------------------------------------------------------

  function WorkerGoto(s: State, w: nat, p: WorkerPoint): State
    requires w < |s.workers|
  {
    s.(workers := s.workers[w := p])
  }

  function DoPop(s: State, w: nat): State
    requires w < |s.workers| && s.queue != []
  {
    var t := s.queue[0];
    WorkerGoto(s, w, Checking(t)).(
      heap := MoveTask(s.heap, t, WorkerHand(w)),
      queue := s.queue[1..],
      popped := s.popped + 1)
  }

  /** conn_is_valid on the connection of task `t`. */
  function DoTest(s: State, w: nat, t: TaskId, open: WorkerPoint): State
    requires w < |s.workers|
  {
    var h := s.heap;
    if t !in h.tasks then WorkerGoto(s, w, Finishing(t)).(heap := Fault(h))
    else
      var c := h.tasks[t].conn;
      WorkerGoto(s, w, if SeesValid(h, c) then open else Finishing(t)).(heap := Touch(h, c))
  }

  /** A response installed in `c` starts a new wire. */
  function Rewired(wires: seq<Wire>, c: ConnId, response: string): seq<Wire> {
    if c < |wires| && 0 < |response| < BUFFER_SIZE then wires[c := Wire(response, [])] else wires
  }

  function DoProcess(s: State, w: nat): State
    requires w < |s.workers| && s.workers[w].Processing?
  {
    var h, t := s.heap, s.workers[w].task;
    var u := WorkerGoto(s, w, Confirming(t));
    if t !in h.tasks || !Live(h, h.tasks[t].conn) then u.(heap := Fault(h))
    else
      var c, payload := h.tasks[t].conn, h.tasks[t].payload;
      u.(heap := SetConn(h, c, Installed(h.slots[c].conn, payload)),
         wires := Rewired(s.wires, c, Format(payload)),
         stranded := s.stranded - {c})
  }

  /** io_thread_send_message: the reference is taken before the message can be seen. */
  function DoSend(s: State, w: nat): State
    requires w < |s.workers| && s.workers[w].Sending?
  {
    var h, t := s.heap, s.workers[w].task;
    var u := WorkerGoto(s, w, Finishing(t));
    if t !in h.tasks || !Live(h, h.tasks[t].conn) || h.slots[h.tasks[t].conn].conn.io >= |s.ios| then
      u.(heap := Fault(h))
    else
      var c := h.tasks[t].conn;
      var i, m := h.slots[c].conn.io, s.nextMsg;
      var g := AcquireConn(h, c, false);
      u.(heap := g.(msgs := g.msgs[m := Msg(c, Inbox(i))]),
         nextMsg := m + 1,
         ios := s.ios[i := s.ios[i].(inbox := s.ios[i].inbox + [m])])
  }

  /** The response of task `t` is recorded if it is unsent and nobody else will send it. */
  function Recorded(s: State, t: TaskId): set<ConnId> {
    if t in s.heap.tasks && Unsent(s.heap, s.heap.tasks[t].conn) && !Covered(s, s.heap.tasks[t].conn)
    then s.stranded + {s.heap.tasks[t].conn} else s.stranded
  }

  /** The message cannot be allocated. */
  function DoSendFails(s: State, w: nat): State
    requires w < |s.workers| && s.workers[w].Sending?
  {
    var u := WorkerGoto(s, w, Finishing(s.workers[w].task));
    u.(stranded := Recorded(u, s.workers[w].task))
  }

  function DoFinish(s: State, w: nat): State
    requires w < |s.workers| && s.workers[w].Finishing?
  {
    var h, t := s.heap, s.workers[w].task;
    var u := WorkerGoto(s, w, Free);
    u.(heap := if t in h.tasks then DestroyTask(h, t) else Fault(h))
  }

  // ---- Runs -----------------------------------------------------------------

  function DoAccept(s: State, a: AcceptAction): State
    requires CanAccept(s, a)
  {
    match a
    case Accept(fd) => s.(heap := s.heap.(openFds := s.heap.openFds + {fd}), accept := Accepted(fd))
    case Create(i) => DoCreate(s, i)
    case CreateFails => s.(accept := Reclosing(s.accept.fd))
    case HandOff => DoHandOff(s)
    case HandOffFails => DoHandOffFails(s)
    case Reclose => s.(heap := CloseFd(s.heap, s.accept.fd), accept := Accepting)
  }

  ghost function DoIo(s: State, i: nat, x: IoAction): State
    requires i < |s.ios| && CanIo(s, i, x)
  {
    match x
    case Poll(batch) => Goto(s, i, Dispatch(batch))
    case Next => DoNext(s, i)
    case Add => DoAdd(s, i)
    case AddFails => DoAddFails(s, i)
    case Drain => DoDrain(s, i)
    case Handle => DoHandle(s, i)
    case DropMsg => DoDropMsg(s, i)
    case Read(data) => DoRead(s, i, data)
    case ReadNoTask(data) => DoReadNoTask(s, i, data)
    case ReadNoPayload(data) => DoReadNoPayload(s, i, data)
    case Submit => DoSubmit(s, i)
    case SubmitRefused => DoSubmitRefused(s, i)
    case ReadStop => Goto(s, i, AfterRead(s.ios[i].point.f))
    case ReadClose => BeginClose(s, i, s.heap, s.ios[i].point.f, ToRead)
    case Write(answers) => DoWrite(s, i, answers)
    case Hangup => BeginClose(s, i, s.heap, s.ios[i].point.f, ToDone)
    case Unregister => DoUnregister(s, i)
    case Unreference => DoUnreference(s, i)
    case Recheck(guess) => DoRecheck(s, i, guess)
  }

  function DoWorker(s: State, w: nat, y: WorkerAction): State
    requires w < |s.workers| && CanWorker(s, w, y)
  {
    match y
    case Pop => DoPop(s, w)
    case Check => DoTest(s, w, s.workers[w].task, Processing(s.workers[w].task))
    case Process => DoProcess(s, w)
    case Confirm => DoTest(s, w, s.workers[w].task, Sending(s.workers[w].task))
    case Send => DoSend(s, w)
    case SendFails => DoSendFails(s, w)
    case Finish => DoFinish(s, w)
  }

  ghost function Do(s: State, a: Action): State
    requires Can(s, a)
  {
    match a
    case ByAccept(b) => DoAccept(s, b)
    case ByIo(i, x) => DoIo(s, i, x)
    case ByWorker(w, y) => DoWorker(s, w, y)
    case Shutdown => s.(down := true)
  }

  ghost predicate Run(s: State, acts: seq<Action>, t: State)
    decreases |acts|
  {
    if acts == [] then t == s
    else Can(s, acts[0]) && Run(Do(s, acts[0]), acts[1..], t)
  }

  ghost predicate Reachable(s: State) {
    exists s0: State, acts: seq<Action> :: Init(s0) && Run(s0, acts, s)
  }
}

/** Where the bytes of a connection go: the payloads of its tasks, in order, are what was read and not lost. */
module ReactorFlow {
  import opened Basics
  import opened Connections
  import opened IoThreads
  import opened Reactor
  import opened ReactorHeap
  import opened ReactorOwners
  import opened ReactorIoSteps
  import opened ReactorSafety

  /** The payloads that entries of the queue carry for `c`, in order. */
  function Flow(entries: seq<Entry>, c: ConnId): string {
    if entries == [] then []
    else
      var last := entries[|entries| - 1];
      Flow(entries[..|entries| - 1], c) + (if last.conn == c then last.payload else [])
  }

  function Ids(entries: seq<Entry>): seq<TaskId> {
    seq(|entries|, k requires 0 <= k < |entries| => entries[k].task)
  }

  /** The payload of a task for `c` that its I/O thread is still submitting. */
  function InHand(s: State, c: ConnId): string {
    if c < |s.heap.slots| && s.heap.slots[c].conn.io < |s.ios| then
      var p := s.ios[s.heap.slots[c].conn.io].point;
      if p.Submitting? && p.f.conn == c && p.task in s.heap.tasks then s.heap.tasks[p.task].payload else []
    else []
  }

  /** The chunks of `c` that were passed on are in its tasks, in order. */
  predicate FlowAt(s: State, c: ConnId) {
    c < |s.chunks| ==> Concat(Payloads(s.chunks[c])) == Flow(s.accepted, c) + InHand(s, c)
  }

  /** The task that thread `i` is submitting carries the latest chunk of its connection. */
  predicate HandAt(s: State, i: nat) {
    i < |s.ios| && s.ios[i].point.Submitting? ==>
      var c, t := s.ios[i].point.f.conn, s.ios[i].point.task;
      && c < |s.chunks| && s.chunks[c] != [] && t in s.heap.tasks
      && s.chunks[c][|s.chunks[c]| - 1] == Chunk(s.heap.tasks[t].payload, Passed)
  }

  ghost function LeakedOf(tasks: map<TaskId, Task>, c: ConnId): set<TaskId> {
    set t | t in tasks && tasks[t].conn == c && tasks[t].at == Leaked
  }

  /** A task that was not leaked is written. */
  lemma LeakedSet(tasks: map<TaskId, Task>, t: TaskId, x: Task, c: ConnId)
    requires t in tasks ==> tasks[t].at != Leaked
    ensures LeakedOf(tasks[t := x], c) == LeakedOf(tasks, c) + (if x.conn == c && x.at == Leaked then {t} else {})
    ensures t !in LeakedOf(tasks, c)
  {
  }

  lemma LeakedKept(tasks: map<TaskId, Task>, t: TaskId, x: Task, c: ConnId)
    requires (t in tasks ==> tasks[t].at != Leaked) && x.at != Leaked
    ensures LeakedOf(tasks[t := x], c) == LeakedOf(tasks, c)
  {
  }

  /** References and tasks that nobody gives back are exactly the chunks that met one of the two failures. */
  ghost predicate LostAt(s: State, c: ConnId) {
    c < |s.chunks| == |s.heap.slots| ==>
      && s.heap.slots[c].lost == CountOf(NoPayload, s.chunks[c])
      && |LeakedOf(s.heap.tasks, c)| == CountOf(Refused, s.chunks[c])
  }

  predicate NoEmptyChunk(s: State, c: ConnId) {
    c < |s.chunks| ==> forall k | 0 <= k < |s.chunks[c]| :: s.chunks[c][k].data != []
  }

  /** The bytes received on the first `n` connections that belong to I/O thread `i`. */
  function ReadOn(slots: seq<Slot>, chunks: seq<seq<Chunk>>, i: nat, n: nat): nat
    requires n <= |slots| && n <= |chunks|
  {
    if n == 0 then 0
    else ReadOn(slots, chunks, i, n - 1) + (if slots[n - 1].conn.io == i then |Arrived(chunks[n - 1])| else 0)
  }

  predicate CountAt(s: State, i: nat) {
    i < |s.ios| && |s.chunks| == |s.heap.slots| ==>
      s.ios[i].bytesRead == ReadOn(s.heap.slots, s.chunks, i, |s.chunks|)
  }

  /** The queue is what was accepted and not popped yet, in order. */
  predicate QueueIsSuffix(s: State) {
    s.popped <= |s.accepted| && s.queue == Ids(s.accepted[s.popped..])
  }

  /** A task that was accepted and not destroyed yet carries its entry's bytes, in the queue or with a worker. */
  predicate EntryAt(s: State, k: nat) {
    k < |s.accepted| ==>
      var e := s.accepted[k];
      && e.conn < |s.heap.slots| && e.task < s.nextTask
      && (e.task in s.heap.tasks ==>
            var x := s.heap.tasks[e.task];
            x.conn == e.conn && x.payload == e.payload && (x.at.Queued? || x.at.WorkerHand?))
  }

  predicate PoppedAt(s: State, w: nat) {
    w < |s.workers| && !s.workers[w].Free? && s.popped <= |s.accepted| ==>
      s.workers[w].task in Ids(s.accepted[..s.popped])
  }

  ghost predicate FlowOk(s: State) {
    && |s.chunks| == |s.heap.slots|
    && QueueIsSuffix(s)
    && (forall k | 0 <= k < |s.accepted| :: EntryAt(s, k))
    && (forall w | 0 <= w < |s.workers| :: PoppedAt(s, w))
    && (forall c | 0 <= c < |s.chunks| :: FlowAt(s, c) && LostAt(s, c) && NoEmptyChunk(s, c))
    && (forall i | 0 <= i < |s.ios| :: HandAt(s, i) && CountAt(s, i))
  }

  // ---- Steps that read nothing ----------------------------------------------------

  lemma {:induction false} ReadOnSame(a: seq<Slot>, b: seq<Slot>, ca: seq<seq<Chunk>>, cb: seq<seq<Chunk>>,
                                      i: nat, n: nat)
    requires n <= |a| && n <= |b| && n <= |ca| && n <= |cb|
    requires forall c | 0 <= c < n :: b[c].conn.io == a[c].conn.io && |Arrived(cb[c])| == |Arrived(ca[c])|
    ensures ReadOn(b, cb, i, n) == ReadOn(a, ca, i, n)
  {
    if n != 0 {
      ReadOnSame(a, b, ca, cb, i, n - 1);
    }
  }

  lemma {:induction false} ReadOnMore(slots: seq<Slot>, ca: seq<seq<Chunk>>, cb: seq<seq<Chunk>>,
                                      i: nat, n: nat, c: ConnId)
    requires n <= |slots| && n <= |ca| == |cb| && c < |ca| && cb == ca[c := cb[c]]
    ensures ReadOn(slots, cb, i, n)
            == ReadOn(slots, ca, i, n)
               + (if c < n && slots[c].conn.io == i then |Arrived(cb[c])| - |Arrived(ca[c])| else 0)
  {
    if n != 0 {
      ReadOnMore(slots, ca, cb, i, n - 1, c);
    }
  }

  /** Connection `c` as the flow sees it is as before. */
  ghost predicate Still(s: State, t: State, c: ConnId) {
    c < |s.heap.slots| ==>
      && c < |t.heap.slots| && t.heap.slots[c].conn.io == s.heap.slots[c].conn.io
      && t.heap.slots[c].lost == s.heap.slots[c].lost
      && LeakedOf(t.heap.tasks, c) == LeakedOf(s.heap.tasks, c)
      && InHand(t, c) == InHand(s, c)
  }

  /** Task `x` is gone, or is as it was except that a worker may have popped it. */
  predicate TaskCarried(s: State, t: State, x: TaskId) {
    x in t.heap.tasks ==>
      && x in s.heap.tasks && t.heap.tasks[x].conn == s.heap.tasks[x].conn
      && t.heap.tasks[x].payload == s.heap.tasks[x].payload
      && (t.heap.tasks[x].at == s.heap.tasks[x].at || (s.heap.tasks[x].at.Queued? && t.heap.tasks[x].at.WorkerHand?))
  }

  /** Thread `i` has read nothing and submits what it submitted before, if anything. */
  predicate HandCarried(s: State, t: State, i: nat) {
    i < |s.ios| == |t.ios| ==>
      && t.ios[i].bytesRead == s.ios[i].bytesRead
      && (t.ios[i].point.Submitting? ==> t.ios[i].point == s.ios[i].point && t.ios[i].point.task in t.heap.tasks)
  }

  lemma FlowStill(s: State, t: State)
    requires FlowOk(s) && t.chunks == s.chunks && t.accepted == s.accepted && t.nextTask == s.nextTask
    requires |t.heap.slots| == |s.heap.slots| && |t.ios| == |s.ios| && QueueIsSuffix(t)
    requires forall c | 0 <= c < |s.heap.slots| :: Still(s, t, c)
    requires forall x | x in t.heap.tasks :: TaskCarried(s, t, x)
    requires forall i | 0 <= i < |s.ios| :: HandCarried(s, t, i)
    requires forall w | 0 <= w < |t.workers| :: PoppedAt(t, w)
    ensures FlowOk(t)
  {
    forall k | 0 <= k < |t.accepted| ensures EntryAt(t, k) {
      assert EntryAt(s, k);
      assert t.accepted[k].task in t.heap.tasks ==> TaskCarried(s, t, t.accepted[k].task);
    }
    forall c | 0 <= c < |t.chunks| ensures FlowAt(t, c) && LostAt(t, c) && NoEmptyChunk(t, c) {
      assert FlowAt(s, c) && LostAt(s, c) && NoEmptyChunk(s, c) && Still(s, t, c);
    }
    forall i | 0 <= i < |t.ios| ensures HandAt(t, i) && CountAt(t, i) {
      assert HandAt(s, i) && CountAt(s, i) && HandCarried(s, t, i);
      assert t.ios[i].point.Submitting? ==> TaskCarried(s, t, t.ios[i].point.task);
      forall c | 0 <= c < |s.chunks| ensures t.heap.slots[c].conn.io == s.heap.slots[c].conn.io {
        assert Still(s, t, c);
      }
      ReadOnSame(s.heap.slots, t.heap.slots, s.chunks, t.chunks, i, |s.chunks|);
    }
  }

  /** A step that keeps all tasks, all workers' hands and every program point that submits. */
  lemma FlowQuiet(s: State, t: State)
    requires FlowOk(s) && t.chunks == s.chunks && t.accepted == s.accepted && t.nextTask == s.nextTask
    requires t.queue == s.queue && t.popped == s.popped && |t.ios| == |s.ios| && t.workers == s.workers
    requires |t.heap.slots| == |s.heap.slots| && t.heap.tasks == s.heap.tasks
    requires forall c | 0 <= c < |s.heap.slots| ::
               && t.heap.slots[c].conn.io == s.heap.slots[c].conn.io && t.heap.slots[c].lost == s.heap.slots[c].lost
    requires forall i | 0 <= i < |s.ios| ::
               && t.ios[i].bytesRead == s.ios[i].bytesRead
               && (t.ios[i].point == s.ios[i].point || (!t.ios[i].point.Submitting? && !s.ios[i].point.Submitting?))
    ensures FlowOk(t)
  {
    forall w | 0 <= w < |t.workers| ensures PoppedAt(t, w) {
      assert PoppedAt(s, w);
    }
    forall i | 0 <= i < |s.ios| ensures HandCarried(s, t, i) {
      assert HandAt(s, i);
    }
    forall c | 0 <= c < |s.heap.slots| ensures Still(s, t, c) {
    }
    FlowStill(s, t);
  }

  // ---- I/O threads --------------------------------------------------------------------

  /** The steps of an I/O thread that neither read nor submit. */
  predicate MovesNoBytes(x: IoAction) {
    !x.Read? && !x.ReadNoTask? && !x.ReadNoPayload? && !x.Submit? && !x.SubmitRefused?
  }

  /** What such a step leaves alone. */
  predicate BytesAlone(s: State, t: State, i: nat) {
    && i < |s.ios| == |t.ios|
    && t == s.(heap := t.heap, ios := t.ios, stale := t.stale, misled := t.misled, wires := t.wires, roused := t.roused)
    && t.ios == s.ios[i := t.ios[i]] && t.ios[i].bytesRead == s.ios[i].bytesRead
    && !t.ios[i].point.Submitting?
    && SlotsAlone(s.heap, t.heap)
  }

  predicate SlotsAlone(h: Heap, g: Heap) {
    && |g.slots| == |h.slots| && g.tasks == h.tasks
    && forall c | 0 <= c < |h.slots| ::
         g.slots[c].conn.io == h.slots[c].conn.io && g.slots[c].lost == h.slots[c].lost
  }

  lemma EndAlone(s: State, i: nat, f: Frame, x: Conn, toRead: bool)
    requires i < |s.ios| && f.conn < |s.heap.slots| && x.io == s.heap.slots[f.conn].conn.io
    ensures BytesAlone(s, EndWrite(s, i, f, x, toRead), i)
  {
  }

  lemma BreakAlone(s: State, i: nat, h: Heap, f: Frame, ret: Return)
    requires i < |s.ios| && SlotsAlone(s.heap, h)
    ensures BytesAlone(s, BeginClose(s, i, h, f, ret), i)
  {
  }

  lemma WriteAlone(s: State, i: nat, answers: seq<WriteResult>)
    requires i < |s.ios| && s.ios[i].point.InWrite?
    ensures BytesAlone(s, WriteOut(s, i, answers), i)
  {
    var h, f := s.heap, s.ios[i].point.f;
    if Live(h, f.conn) {
      var x := h.slots[f.conn].conn;
      if |x.out| == 0 {
        EndAlone(s, i, f, x.(state := ConnState.Reading), true);
      } else {
        var r := WriteLoop(x, answers);
        match r.outcome
        case Finished => EndAlone(s, i, f, x.(out := [], pos := 0, state := ConnState.Reading), true);
        case Blocked => EndAlone(s, i, f, x.(pos := r.pos), false);
        case Broken => BreakAlone(s, i, SetConn(h, f.conn, x.(pos := r.pos)), f, ToWrite);
      }
    }
  }

  lemma MailAlone(s: State, i: nat, x: IoAction)
    requires i < |s.ios| && CanIo(s, i, x) && (x.Drain? || x.Handle? || x.DropMsg?)
    ensures BytesAlone(s, DoIo(s, i, x), i)
  {
    match x
    case Drain =>
    case Handle =>
    case DropMsg =>
      var m := s.ios[i].point.msg;
      if m in s.heap.msgs {
        ReleaseAlone(s.heap.(msgs := s.heap.msgs - {m}), s.heap.msgs[m].conn, false);
      }
  }

  lemma ReleaseAlone(h: Heap, c: ConnId, base: bool)
    ensures SlotsAlone(h, ReleaseConn(h, c, base))
  {
  }

  lemma NextAlone(s: State, i: nat)
    requires Inv(s) && i < |s.ios| && s.ios[i].point.Dispatch?
    ensures BytesAlone(s, DoNext(s, i), i)
  {
    var batch := s.ios[i].point.batch;
    if batch == [] || !batch[0].PipeReady? || s.ios[i].pipe == [] {
      IoFacts(s, i);
      NextMovesPoint(s, i);
    }
  }

  lemma AddAlone(s: State, i: nat, x: IoAction)
    requires Inv(s) && i < |s.ios| && CanIo(s, i, x) && (x.Add? || x.AddFails?)
    ensures BytesAlone(s, DoIo(s, i, x), i)
  {
    IoFacts(s, i);
    SlotFacts(s.heap, s.ios[i].point.conn);
  }

  lemma TestAlone(s: State, i: nat, x: IoAction)
    requires i < |s.ios| && CanIo(s, i, x) && (x.Poll? || x.Recheck?)
    ensures BytesAlone(s, DoIo(s, i, x), i)
  {
  }

  lemma CloseAlone(s: State, i: nat, x: IoAction)
    requires i < |s.ios| && CanIo(s, i, x)
    requires x.ReadStop? || x.ReadClose? || x.Hangup? || x.Unregister? || x.Unreference?
    ensures BytesAlone(s, DoIo(s, i, x), i)
  {
    match x
    case ReadClose => BreakAlone(s, i, s.heap, s.ios[i].point.f, ToRead);
    case Hangup => BreakAlone(s, i, s.heap, s.ios[i].point.f, ToDone);
    case Unreference => ReleaseAlone(s.heap, s.ios[i].point.f.conn, true);
    case _ =>
  }

  lemma QuietIo(s: State, i: nat, x: IoAction)
    requires Inv(s) && i < |s.ios| && CanIo(s, i, x) && MovesNoBytes(x)
    ensures BytesAlone(s, DoIo(s, i, x), i)
  {
    match x {
      case Write(answers) => WriteAlone(WriteLogged(s, i, answers), i, answers);
      case Drain => MailAlone(s, i, x);
      case Handle => MailAlone(s, i, x);
      case DropMsg => MailAlone(s, i, x);
      case Next => NextAlone(s, i);
      case Add => AddAlone(s, i, x);
      case AddFails => AddAlone(s, i, x);
      case Poll(_) => TestAlone(s, i, x);
      case Recheck(_) => TestAlone(s, i, x);
      case _ => CloseAlone(s, i, x);
    }
  }

  lemma FlowQuietIo(s: State, i: nat, x: IoAction)
    requires Inv(s) && FlowOk(s) && i < |s.ios| && CanIo(s, i, x) && MovesNoBytes(x)
    ensures FlowOk(DoIo(s, i, x))
  {
    QuietIo(s, i, x);
    FlowQuiet(s, DoIo(s, i, x));
  }

  // ---- Reading ---------------------------------------------------------------------------

  /** The hands of other threads are not touched by a read of thread `i`. */
  lemma OthersInHand(s: State, t: State, i: nat, d: ConnId)
    requires i < |s.ios| == |t.ios| && t.ios == s.ios[i := t.ios[i]] && s.ios[i].point.InRead?
    requires t.ios[i].point.InRead? || (t.ios[i].point.Submitting? && t.ios[i].point.f.conn != d)
    requires ThreadsOk(s) && |t.heap.slots| == |s.heap.slots|
    requires d < |s.heap.slots| ==> t.heap.slots[d].conn.io == s.heap.slots[d].conn.io
    requires forall x | x in s.heap.tasks :: x in t.heap.tasks && t.heap.tasks[x] == s.heap.tasks[x]
    ensures InHand(t, d) == InHand(s, d)
  {
    if d < |s.heap.slots| && s.heap.slots[d].conn.io < |s.ios| {
      IoFacts(s, s.heap.slots[d].conn.io);
    }
  }

  /** What a read that met `fate` does: one more chunk, and a task in hand if the chunk was passed on. */
  predicate ChunkRead(s: State, t: State, i: nat, x: Chunk) {
    && t.accepted == s.accepted && t.popped == s.popped && t.queue == s.queue && t.workers == s.workers
    && i < |s.ios| == |t.ios| && s.ios[i].point.InRead? && x.data != [] && x.fate != Refused
    && t.ios == s.ios[i := t.ios[i]] && t.ios[i].bytesRead == s.ios[i].bytesRead + |x.data|
    && ChunkLogged(s, t, s.ios[i].point.f.conn, x)
    && (if x.fate == Passed
        then t.ios[i].point == Submitting(s.nextTask, s.ios[i].point.f)
             && t.heap.tasks == s.heap.tasks[s.nextTask := Task(s.ios[i].point.f.conn, x.data, IoHand(i))]
             && t.nextTask == s.nextTask + 1
        else t.ios[i].point.InRead? && t.heap.tasks == s.heap.tasks && t.nextTask == s.nextTask)
  }

  predicate ChunkLogged(s: State, t: State, c: ConnId, x: Chunk) {
    && c < |s.chunks| && t.chunks == s.chunks[c := s.chunks[c] + [x]]
    && |t.heap.slots| == |s.heap.slots| && c < |s.heap.slots|
    && (forall d | 0 <= d < |s.heap.slots| :: t.heap.slots[d].conn.io == s.heap.slots[d].conn.io)
    && (forall d | 0 <= d < |s.heap.slots| ::
          t.heap.slots[d].lost == s.heap.slots[d].lost + (if d == c && x.fate == NoPayload then 1 else 0))
  }

  lemma ReadPassed(s: State, i: nat, data: string)
    requires Inv(s) && |s.chunks| == |s.heap.slots| && i < |s.ios| && CanIo(s, i, Read(data))
    ensures ChunkRead(s, DoRead(s, i, data), i, Chunk(data, Passed))
  {
    IoFacts(s, i);
    RegisteredIsValid(s.heap, s.ios[i].point.f.conn, i);
  }

  lemma ReadLost(s: State, i: nat, data: string)
    requires Inv(s) && |s.chunks| == |s.heap.slots| && i < |s.ios| && CanIo(s, i, Read(data))
    ensures ChunkRead(s, DoReadNoTask(s, i, data), i, Chunk(data, NoTask))
    ensures ChunkRead(s, DoReadNoPayload(s, i, data), i, Chunk(data, NoPayload))
  {
    IoFacts(s, i);
    RegisteredIsValid(s.heap, s.ios[i].point.f.conn, i);
  }

  lemma LostChunkAt(s: State, t: State, i: nat, x: Chunk, d: ConnId)
    requires ChunkRead(s, t, i, x) && s.nextTask !in s.heap.tasks && d < |t.chunks| == |s.heap.slots|
    requires LostAt(s, d)
    ensures LostAt(t, d)
  {
    var c := s.ios[i].point.f.conn;
    if d == c {
      CountSnoc(NoPayload, s.chunks[c], x);
      CountSnoc(Refused, s.chunks[c], x);
    }
    if x.fate == Passed {
      LeakedKept(s.heap.tasks, s.nextTask, Task(c, x.data, IoHand(i)), d);
    }
  }

  lemma ChunkBytes(chunks: seq<Chunk>, x: Chunk, flow: string)
    requires Concat(Payloads(chunks)) == flow + []
    ensures Concat(Payloads(chunks + [x])) == flow + (if x.fate == Passed then x.data else [])
  {
    ChunksSnoc(chunks, x);
    ConcatSnoc(Payloads(chunks), x.data);
    if x.fate != Passed {
      assert Payloads(chunks + [x]) == Payloads(chunks);
    }
  }

  lemma FlowChunkAt(s: State, t: State, i: nat, x: Chunk, d: ConnId)
    requires Inv(s) && |s.chunks| == |s.heap.slots| && ChunkRead(s, t, i, x) && d < |t.chunks| && FlowAt(s, d)
    ensures FlowAt(t, d)
  {
    var c := s.ios[i].point.f.conn;
    IoFacts(s, i);
    SlotFacts(s.heap, c);
    FreshTask(s);
    if d == c {
      ChunkBytes(s.chunks[c], x, Flow(s.accepted, c));
      assert InHand(s, c) == [] && InHand(t, c) == if x.fate == Passed then x.data else [];
    } else {
      OthersInHand(s, t, i, d);
    }
  }

  lemma HandChunkAt(s: State, t: State, i: nat, x: Chunk, j: nat)
    requires ThreadsOk(s) && s.nextTask !in s.heap.tasks && ChunkRead(s, t, i, x) && j < |t.ios| && HandAt(s, j)
    ensures HandAt(t, j)
  {
    IoFacts(s, i);
    IoFacts(s, j);
  }

  lemma CountChunkAt(s: State, t: State, i: nat, x: Chunk, j: nat)
    requires ChunkRead(s, t, i, x) && s.heap.slots[s.ios[i].point.f.conn].conn.io == i
    requires |s.chunks| == |s.heap.slots| && j < |t.ios| && CountAt(s, j)
    ensures CountAt(t, j)
  {
    var c := s.ios[i].point.f.conn;
    ChunksSnoc(s.chunks[c], x);
    ReadOnMore(s.heap.slots, s.chunks, t.chunks, j, |s.chunks|, c);
    ReadOnSame(s.heap.slots, t.heap.slots, t.chunks, t.chunks, j, |s.chunks|);
  }

  lemma FlowRead(s: State, i: nat, data: string)
    requires Inv(s) && FlowOk(s) && i < |s.ios| && CanIo(s, i, Read(data))
    ensures FlowOk(DoRead(s, i, data)) && FlowOk(DoReadNoTask(s, i, data)) && FlowOk(DoReadNoPayload(s, i, data))
  {
    ReadPassed(s, i, data);
    ReadLost(s, i, data);
    FlowChunk(s, DoRead(s, i, data), i, Chunk(data, Passed));
    FlowChunk(s, DoReadNoTask(s, i, data), i, Chunk(data, NoTask));
    FlowChunk(s, DoReadNoPayload(s, i, data), i, Chunk(data, NoPayload));
  }

  lemma FlowChunk(s: State, t: State, i: nat, x: Chunk)
    requires Inv(s) && FlowOk(s) && ChunkRead(s, t, i, x)
    ensures FlowOk(t)
  {
    FreshTask(s);
    IoFacts(s, i);
    SlotFacts(s.heap, s.ios[i].point.f.conn);
    forall k | 0 <= k < |t.accepted| ensures EntryAt(t, k) {
      assert EntryAt(s, k);
    }
    forall w | 0 <= w < |t.workers| ensures PoppedAt(t, w) {
      assert PoppedAt(s, w);
    }
    forall d | 0 <= d < |t.chunks| ensures FlowAt(t, d) && LostAt(t, d) && NoEmptyChunk(t, d) {
      assert FlowAt(s, d) && LostAt(s, d) && NoEmptyChunk(s, d);
      FlowChunkAt(s, t, i, x, d);
      LostChunkAt(s, t, i, x, d);
    }
    forall j | 0 <= j < |t.ios| ensures HandAt(t, j) && CountAt(t, j) {
      HandChunkAt(s, t, i, x, j);
      CountChunkAt(s, t, i, x, j);
    }
  }

  // ---- Submitting -------------------------------------------------------------------------

  lemma FlowSnoc(entries: seq<Entry>, e: Entry, c: ConnId)
    ensures Flow(entries + [e], c) == Flow(entries, c) + (if e.conn == c then e.payload else [])
  {
    assert (entries + [e])[..|entries|] == entries;
  }

  /** Nobody but thread `i` submits for its connection. */
  lemma HandsAfterSubmit(s: State, t: State, i: nat, d: ConnId)
    requires ThreadsOk(s) && SlotsOk(s.heap) && i < |s.ios| && s.ios[i].point.Submitting? && d < |s.heap.slots|
    requires t.heap.slots == s.heap.slots && t.ios == s.ios[i := s.ios[i].(point := InRead(s.ios[i].point.f))]
    requires s.ios[i].point.task in t.heap.tasks
    requires t.heap.tasks == s.heap.tasks[s.ios[i].point.task := t.heap.tasks[s.ios[i].point.task]]
    ensures InHand(t, d) == if d == s.ios[i].point.f.conn then [] else InHand(s, d)
  {
    IoFacts(s, i);
    SlotFacts(s.heap, s.ios[i].point.f.conn);
    if s.heap.slots[d].conn.io < |s.ios| {
      IoFacts(s, s.heap.slots[d].conn.io);
    }
  }

  /** The queue accepts the task: its entry carries on what was in hand. */
  lemma FlowSubmit(s: State, i: nat)
    requires Inv(s) && FlowOk(s) && i < |s.ios| && s.ios[i].point.Submitting?
    ensures FlowOk(DoSubmit(s, i))
  {
    var t, x, f := DoSubmit(s, i), s.ios[i].point.task, s.ios[i].point.f;
    IoFacts(s, i);
    SlotFacts(s.heap, f.conn);
    var e := Entry(x, f.conn, s.heap.tasks[x].payload);
    assert t.accepted[t.popped..] == s.accepted[s.popped..] + [e];
    assert TaskAtOk(s, x);
    forall k | 0 <= k < |t.accepted| ensures EntryAt(t, k) {
      assert EntryAt(s, k);
    }
    assert t.accepted[..t.popped] == s.accepted[..s.popped];
    forall w | 0 <= w < |t.workers| ensures PoppedAt(t, w) {
      assert PoppedAt(s, w);
    }
    forall d | 0 <= d < |t.chunks| ensures FlowAt(t, d) && LostAt(t, d) && NoEmptyChunk(t, d) {
      FlowSubmitAt(s, i, d);
    }
    SubmitThreads(s, t, i);
  }

  lemma SubmitThreads(s: State, t: State, i: nat)
    requires Inv(s) && FlowOk(s) && i < |s.ios| && s.ios[i].point.Submitting?
    requires t == DoSubmit(s, i)
    ensures forall j | 0 <= j < |t.ios| :: HandAt(t, j) && CountAt(t, j)
  {
    IoFacts(s, i);
    forall j | 0 <= j < |t.ios| ensures HandAt(t, j) && CountAt(t, j) {
      IoFacts(s, j);
      assert HandAt(s, j) && CountAt(s, j);
    }
  }

  lemma FlowSubmitAt(s: State, i: nat, d: ConnId)
    requires Inv(s) && |s.chunks| == |s.heap.slots| && i < |s.ios| && s.ios[i].point.Submitting? && d < |s.chunks|
    requires FlowAt(s, d) && LostAt(s, d) && NoEmptyChunk(s, d)
    ensures FlowAt(DoSubmit(s, i), d) && LostAt(DoSubmit(s, i), d) && NoEmptyChunk(DoSubmit(s, i), d)
  {
    var t, x, f := DoSubmit(s, i), s.ios[i].point.task, s.ios[i].point.f;
    IoFacts(s, i);
    SlotFacts(s.heap, f.conn);
    FlowSnoc(s.accepted, Entry(x, f.conn, s.heap.tasks[x].payload), d);
    HandsAfterSubmit(s, t, i, d);
    LeakedKept(s.heap.tasks, x, t.heap.tasks[x], d);
  }

  /** Turning the latest chunk from passed on to refused. */
  lemma ChunkRefused(chunks: seq<Chunk>)
    requires chunks != [] && chunks[|chunks| - 1].fate == Passed
    ensures var n := |chunks| - 1;
            var after := chunks[..n] + [Chunk(chunks[n].data, Refused)];
            && Arrived(after) == Arrived(chunks)
            && Concat(Payloads(chunks)) == Concat(Payloads(after)) + chunks[n].data
            && CountOf(Refused, after) == CountOf(Refused, chunks) + 1
            && CountOf(NoPayload, after) == CountOf(NoPayload, chunks)
  {
    var n := |chunks| - 1;
    var after := chunks[..n] + [Chunk(chunks[n].data, Refused)];
    ChunksSnoc(chunks[..n], Chunk(chunks[n].data, Refused));
    CountSnoc(Refused, chunks[..n], Chunk(chunks[n].data, Refused));
    CountSnoc(NoPayload, chunks[..n], Chunk(chunks[n].data, Refused));
    ConcatSnoc(Payloads(chunks[..n]), chunks[n].data);
    assert Payloads(after) == Payloads(chunks[..n]);
  }

  lemma FlowRefusedAt(s: State, i: nat, d: ConnId)
    requires Inv(s) && |s.chunks| == |s.heap.slots| && i < |s.ios| && s.ios[i].point.Submitting? && d < |s.chunks|
    requires FlowAt(s, d) && HandAt(s, i)
    ensures FlowAt(DoSubmitRefused(s, i), d)
  {
    var t, x, c := DoSubmitRefused(s, i), s.ios[i].point.task, s.ios[i].point.f.conn;
    IoFacts(s, i);
    SlotFacts(s.heap, c);
    HandsAfterSubmit(s, t, i, d);
    if d == c {
      RefusedBytes(s.chunks[c], Flow(s.accepted, c), s.heap.tasks[x].payload);
    }
  }

  lemma RefusedBytes(chunks: seq<Chunk>, flow: string, payload: string)
    requires chunks != [] && chunks[|chunks| - 1] == Chunk(payload, Passed)
    requires Concat(Payloads(chunks)) == flow + payload
    ensures Concat(Payloads(chunks[..|chunks| - 1] + [Chunk(payload, Refused)])) == flow + []
  {
    ChunkRefused(chunks);
    AppendedEqual(Concat(Payloads(chunks[..|chunks| - 1] + [Chunk(payload, Refused)])), flow, payload);
  }

  lemma LostRefusedAt(s: State, i: nat, d: ConnId)
    requires i < |s.ios| && s.ios[i].point.Submitting? && d < |s.chunks| == |s.heap.slots|
    requires TaskIs(s.heap, s.ios[i].point.task, IoHand(i))
    requires s.heap.tasks[s.ios[i].point.task].conn == s.ios[i].point.f.conn
    requires LostAt(s, d) && NoEmptyChunk(s, d) && HandAt(s, i)
    ensures LostAt(DoSubmitRefused(s, i), d) && NoEmptyChunk(DoSubmitRefused(s, i), d)
  {
    var t, x, c := DoSubmitRefused(s, i), s.ios[i].point.task, s.ios[i].point.f.conn;
    LeakedSet(s.heap.tasks, x, t.heap.tasks[x], d);
    ChunkRefused(s.chunks[c]);
  }

  /** The pool refuses the task: its chunk is recorded as refused. */
  lemma FlowRefused(s: State, i: nat)
    requires Inv(s) && FlowOk(s) && i < |s.ios| && s.ios[i].point.Submitting?
    ensures FlowOk(DoSubmitRefused(s, i))
  {
    var t, x, c := DoSubmitRefused(s, i), s.ios[i].point.task, s.ios[i].point.f.conn;
    IoFacts(s, i);
    SlotFacts(s.heap, c);
    forall k | 0 <= k < |t.accepted| ensures EntryAt(t, k) {
      assert EntryAt(s, k);
    }
    forall w | 0 <= w < |t.workers| ensures PoppedAt(t, w) {
      assert PoppedAt(s, w);
    }
    forall d | 0 <= d < |t.chunks| ensures FlowAt(t, d) && LostAt(t, d) && NoEmptyChunk(t, d) {
      assert HandAt(s, i) && FlowAt(s, d) && LostAt(s, d) && NoEmptyChunk(s, d);
      FlowRefusedAt(s, i, d);
      LostRefusedAt(s, i, d);
    }
    RefusedThreads(s, t, i);
  }

  lemma RefusedThreads(s: State, t: State, i: nat)
    requires Inv(s) && FlowOk(s) && i < |s.ios| && s.ios[i].point.Submitting?
    requires t == DoSubmitRefused(s, i)
    ensures forall j | 0 <= j < |t.ios| :: HandAt(t, j) && CountAt(t, j)
  {
    IoFacts(s, i);
    assert HandAt(s, i);
    forall j | 0 <= j < |t.ios| ensures HandAt(t, j) && CountAt(t, j) {
      IoFacts(s, j);
      assert HandAt(s, j) && CountAt(s, j);
      RefusedCount(s, i, j);
    }
  }

  lemma RefusedCount(s: State, i: nat, j: nat)
    requires i < |s.ios| && s.ios[i].point.Submitting? && HandAt(s, i) && |s.chunks| == |s.heap.slots|
    requires j < |s.ios| && CountAt(s, j) && s.ios[i].point.task in s.heap.tasks
    ensures CountAt(DoSubmitRefused(s, i), j)
  {
    var t, c := DoSubmitRefused(s, i), s.ios[i].point.f.conn;
    ChunkRefused(s.chunks[c]);
    ReadOnMore(s.heap.slots, s.chunks, t.chunks, j, |s.chunks|, c);
  }

  lemma FlowIo(s: State, i: nat, x: IoAction)
    requires Inv(s) && FlowOk(s) && i < |s.ios| && CanIo(s, i, x)
    ensures FlowOk(DoIo(s, i, x))
  {
    match x
    case Read(data) => FlowRead(s, i, data);
    case ReadNoTask(data) => FlowRead(s, i, data);
    case ReadNoPayload(data) => FlowRead(s, i, data);
    case Submit => FlowSubmit(s, i);
    case SubmitRefused => FlowRefused(s, i);
    case _ => FlowQuietIo(s, i, x);
  }

  // ---- Workers and accept thread ---------------------------------------------------------

  /** A step that changes at most slots and where worker `w` is with its task. */
  lemma StageAlone(s: State, w: nat, y: WorkerAction)
    requires Inv(s) && w < |s.workers| && CanWorker(s, w, y) && !y.Pop? && !y.Finish?
    ensures var t := DoWorker(s, w, y);
            && SlotsAlone(s.heap, t.heap) && |t.ios| == |s.ios| && |t.workers| == |s.workers|
            && t.chunks == s.chunks && t.accepted == s.accepted && t.nextTask == s.nextTask
            && t.queue == s.queue && t.popped == s.popped
            && (forall i | 0 <= i < |s.ios| ::
                  t.ios[i].bytesRead == s.ios[i].bytesRead && t.ios[i].point == s.ios[i].point)
            && (forall v | 0 <= v < |s.workers| && !t.workers[v].Free? ::
                  !s.workers[v].Free? && t.workers[v].task == s.workers[v].task)
  {
    WorkerHolds(s, w);
  }

  lemma FlowStage(s: State, w: nat, y: WorkerAction)
    requires Inv(s) && FlowOk(s) && w < |s.workers| && CanWorker(s, w, y) && !y.Pop? && !y.Finish?
    ensures FlowOk(DoWorker(s, w, y))
  {
    var t := DoWorker(s, w, y);
    StageAlone(s, w, y);
    forall v | 0 <= v < |t.workers| ensures PoppedAt(t, v) {
      assert PoppedAt(s, v);
    }
    forall i | 0 <= i < |s.ios| ensures HandCarried(s, t, i) {
      assert HandAt(s, i);
    }
    forall c | 0 <= c < |s.heap.slots| ensures Still(s, t, c) {
    }
    FlowStill(s, t);
  }

  lemma FlowPop(s: State, w: nat)
    requires Inv(s) && FlowOk(s) && w < |s.workers| && s.workers[w] == Free && s.queue != []
    ensures FlowOk(DoPop(s, w))
  {
    var t, x := DoPop(s, w), s.queue[0];
    assert QueueAt(s.heap, s.queue, 0);
    assert s.accepted[t.popped..] == s.accepted[s.popped..][1..];
    var before, now := Ids(s.accepted[..s.popped]), Ids(s.accepted[..t.popped]);
    assert now == before + [x];
    forall v | 0 <= v < |t.workers| ensures PoppedAt(t, v) {
      assert PoppedAt(s, v);
    }
    forall i | 0 <= i < |s.ios| ensures HandCarried(s, t, i) {
      assert HandAt(s, i);
    }
    forall c | 0 <= c < |s.heap.slots| ensures Still(s, t, c) {
    }
    FlowStill(s, t);
  }

  lemma FinishStill(s: State, w: nat, c: ConnId)
    requires Inv(s) && w < |s.workers| && s.workers[w].Finishing? && c < |s.heap.slots|
    ensures Still(s, DoFinish(s, w), c)
  {
    WorkerHolds(s, w);
    var x, t := s.workers[w].task, DoFinish(s, w);
    var k := s.heap.(tasks := s.heap.tasks - {x});
    ReleaseAlone(k, s.heap.tasks[x].conn, false);
    LeakedWithout(s.heap.tasks, x, c);
    FinishHand(s, t, w, c);
  }

  lemma LeakedWithout(tasks: map<TaskId, Task>, t: TaskId, c: ConnId)
    requires t in tasks && tasks[t].at != Leaked
    ensures LeakedOf(tasks - {t}, c) == LeakedOf(tasks, c)
  {
  }

  /** No I/O thread submits the task that a worker destroys. */
  lemma FinishHand(s: State, t: State, w: nat, c: ConnId)
    requires ThreadsOk(s) && w < |s.workers| && !s.workers[w].Free? && c < |s.heap.slots| == |t.heap.slots|
    requires t.ios == s.ios && t.heap.slots[c].conn.io == s.heap.slots[c].conn.io
    requires t.heap.tasks == s.heap.tasks - {s.workers[w].task}
    ensures InHand(t, c) == InHand(s, c)
  {
    WorkerFacts(s, w);
    if s.heap.slots[c].conn.io < |s.ios| {
      IoFacts(s, s.heap.slots[c].conn.io);
    }
  }

  lemma FlowFinish(s: State, w: nat)
    requires Inv(s) && FlowOk(s) && w < |s.workers| && s.workers[w].Finishing?
    ensures FlowOk(DoFinish(s, w))
  {
    var t := DoFinish(s, w);
    WorkerHolds(s, w);
    forall v | 0 <= v < |t.workers| ensures PoppedAt(t, v) {
      assert PoppedAt(s, v);
    }
    forall i | 0 <= i < |s.ios| ensures HandCarried(s, t, i) {
      IoFacts(s, i);
    }
    forall c | 0 <= c < |s.heap.slots| ensures Still(s, t, c) {
      FinishStill(s, w, c);
    }
    FlowStill(s, t);
  }

  lemma FlowWorker(s: State, w: nat, y: WorkerAction)
    requires Inv(s) && FlowOk(s) && w < |s.workers| && CanWorker(s, w, y)
    ensures FlowOk(DoWorker(s, w, y))
  {
    match y
    case Pop => FlowPop(s, w);
    case Finish => FlowFinish(s, w);
    case _ => FlowStage(s, w, y);
  }

  lemma {:induction false} FlowNone(entries: seq<Entry>, c: ConnId)
    requires forall k | 0 <= k < |entries| :: entries[k].conn != c
    ensures Flow(entries, c) == []
  {
    if entries != [] {
      FlowNone(entries[..|entries| - 1], c);
    }
  }

  /** A connection that was just created has no tasks and no bytes. */
  lemma FlowNew(s: State, i: nat)
    requires Inv(s) && FlowOk(s) && s.accept.Accepted? && i < |s.ios|
    ensures var t, n := DoCreate(s, i), |s.heap.slots|; FlowAt(t, n) && LostAt(t, n) && NoEmptyChunk(t, n)
  {
    var t, n := DoCreate(s, i), |s.heap.slots|;
    IoFacts(s, i);
    forall k | 0 <= k < |s.accepted| ensures s.accepted[k].conn != n {
      assert EntryAt(s, k);
    }
    FlowNone(s.accepted, n);
    forall x | x in s.heap.tasks ensures s.heap.tasks[x].conn != n {
      TaskNamesLive(s.heap, x);
    }
    assert LeakedOf(t.heap.tasks, n) == {};
  }

  lemma FlowCreate(s: State, i: nat)
    requires Inv(s) && FlowOk(s) && s.accept.Accepted? && i < |s.ios|
    ensures FlowOk(DoCreate(s, i))
  {
    var t, n := DoCreate(s, i), |s.heap.slots|;
    forall k | 0 <= k < |s.accepted| ensures EntryAt(t, k) {
      assert EntryAt(s, k);
    }
    forall w | 0 <= w < |t.workers| ensures PoppedAt(t, w) {
      assert PoppedAt(s, w);
    }
    FlowNew(s, i);
    forall c | 0 <= c < |t.chunks| ensures FlowAt(t, c) && LostAt(t, c) && NoEmptyChunk(t, c) {
      assert c < n ==> FlowAt(s, c) && LostAt(s, c) && NoEmptyChunk(s, c);
    }
    forall j | 0 <= j < |t.ios| ensures HandAt(t, j) && CountAt(t, j) {
      assert HandAt(s, j) && CountAt(s, j);
      ReadOnSame(s.heap.slots, t.heap.slots, s.chunks, t.chunks, j, n);
    }
  }

  lemma FlowAccept(s: State, a: AcceptAction)
    requires Inv(s) && FlowOk(s) && CanAccept(s, a)
    ensures FlowOk(DoAccept(s, a))
  {
    match a
    case Create(i) => FlowCreate(s, i);
    case HandOffFails =>
      ReleaseAlone(s.heap, s.accept.conn, true);
      FlowQuiet(s, DoAccept(s, a));
    case _ => FlowQuiet(s, DoAccept(s, a));
  }

  // ---- Whole runs ---------------------------------------------------------------------------

  lemma FlowStep(s: State, a: Action)
    requires Inv(s) && FlowOk(s) && Can(s, a)
    ensures FlowOk(Do(s, a))
  {
    match a
    case ByAccept(b) => FlowAccept(s, b);
    case ByIo(i, x) => FlowIo(s, i, x);
    case ByWorker(w, y) => FlowWorker(s, w, y);
    case Shutdown => FlowQuiet(s, s.(down := true));
  }

  lemma {:induction false} FlowRun(s: State, acts: seq<Action>, t: State)
    requires Inv(s) && FlowOk(s) && Run(s, acts, t) && !t.misled
    ensures FlowOk(t)
    decreases |acts|
  {
    if acts != [] {
      NeverMisled(Do(s, acts[0]), acts[1..], t);
      FlowStep(s, acts[0]);
      KeepStep(s, acts[0]);
      FlowRun(Do(s, acts[0]), acts[1..], t);
    }
  }

  lemma ReachableFlow(s: State)
    requires Reachable(s) && !s.misled
    ensures Inv(s) && FlowOk(s)
  {
    var s0: State, acts: seq<Action> :| Init(s0) && Run(s0, acts, s);
    InvInit(s0);
    FlowRun(s0, acts, s);
    ReachableInv(s);
  }

  /**
    In every reachable state the payloads accepted by the queue for a connection,
    in push order and followed by the one its I/O thread is submitting, are the
    chunks read from it that were passed on.  They are everything that was read
    exactly when no chunk was lost.
   */
  lemma BytesFlowInOrder(s: State, c: ConnId)
    requires Reachable(s) && !s.misled && c < |s.heap.slots|
    ensures |s.chunks| == |s.heap.slots|
    ensures Concat(Payloads(s.chunks[c])) == Flow(s.accepted, c) + InHand(s, c)
    ensures Arrived(s.chunks[c]) == Flow(s.accepted, c) + InHand(s, c)
            <==> forall k | 0 <= k < |s.chunks[c]| :: s.chunks[c][k].fate == Passed
  {
    ReachableFlow(s);
    assert FlowAt(s, c) && NoEmptyChunk(s, c);
    PassedIffAllPassed(s.chunks[c]);
  }

  /** A chunk that was read is counted, logged with its fate, and becomes a task exactly when it is passed on. */
  lemma ReadReceives(s: State, i: nat, x: IoAction)
    requires Reachable(s) && !s.misled && i < |s.ios| && CanIo(s, i, x)
    requires x.Read? || x.ReadNoTask? || x.ReadNoPayload?
    ensures var t, f := DoIo(s, i, x), s.ios[i].point.f;
            && f.conn < |s.chunks| == |t.chunks| && f.conn < |t.heap.slots| && |t.ios| == |s.ios|
            && t.ios[i].bytesRead == s.ios[i].bytesRead + |x.data|
            && t.heap.slots[f.conn].conn.state == ConnState.Reading
            && t.chunks[f.conn] == s.chunks[f.conn]
               + [Chunk(x.data, if x.Read? then Passed else if x.ReadNoTask? then NoTask else NoPayload)]
            && t.ios[i].point == (if x.Read? then Submitting(s.nextTask, f) else InRead(f))
            && t.heap.tasks ==
               if x.Read? then s.heap.tasks[s.nextTask := Task(f.conn, x.data, IoHand(i))] else s.heap.tasks
  {
    ReachableFlow(s);
    IoFacts(s, i);
    RegisteredIsValid(s.heap, s.ios[i].point.f.conn, i);
  }

  /**
    The k-th queued task carries the bytes and the connection of the k-th entry
    that was not popped, and the task in a worker's hands those of a popped entry.
   */
  lemma BytesReachWorkers(s: State)
    requires Reachable(s) && !s.misled
    ensures |s.queue| + s.popped == |s.accepted|
    ensures forall k | 0 <= k < |s.queue| ::
              && s.queue[k] in s.heap.tasks
              && var e, x := s.accepted[s.popped + k], s.heap.tasks[s.queue[k]];
                 s.queue[k] == e.task && x.conn == e.conn && x.payload == e.payload
    ensures forall w | 0 <= w < |s.workers| && !s.workers[w].Free? ::
              && s.workers[w].task in s.heap.tasks
              && var x := s.heap.tasks[s.workers[w].task];
                 Entry(s.workers[w].task, x.conn, x.payload) in s.accepted[..s.popped]
  {
    ReachableFlow(s);
    forall k | 0 <= k < |s.queue|
      ensures s.queue[k] in s.heap.tasks && s.queue[k] == s.accepted[s.popped + k].task
      ensures s.heap.tasks[s.queue[k]].conn == s.accepted[s.popped + k].conn
      ensures s.heap.tasks[s.queue[k]].payload == s.accepted[s.popped + k].payload
    {
      assert QueueAt(s.heap, s.queue, k) && EntryAt(s, s.popped + k);
    }
    forall w | 0 <= w < |s.workers| && !s.workers[w].Free?
      ensures s.workers[w].task in s.heap.tasks
      ensures var x := s.heap.tasks[s.workers[w].task];
              Entry(s.workers[w].task, x.conn, x.payload) in s.accepted[..s.popped]
    {
      WorkerFacts(s, w);
      assert PoppedAt(s, w);
      var k :| 0 <= k < s.popped && s.accepted[..s.popped][k].task == s.workers[w].task;
      assert EntryAt(s, k) && s.accepted[..s.popped][k] == s.accepted[k];
    }
  }

  /** The byte counter of an I/O thread is the total over its connections. */
  lemma BytesAreCounted(s: State, i: nat)
    requires Reachable(s) && !s.misled && i < |s.ios|
    ensures |s.chunks| == |s.heap.slots|
    ensures s.ios[i].bytesRead == ReadOn(s.heap.slots, s.chunks, i, |s.chunks|)
  {
    ReachableFlow(s);
    assert CountAt(s, i);
  }
}

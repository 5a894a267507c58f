/** Who owns what: program points and heap objects agree about every reference. */
module ReactorOwners {
  import opened Reactor
  import opened ReactorHeap

  predicate Owns(h: Heap, c: ConnId, b: Base) {
    c < |h.slots| && h.slots[c].base == b
  }

  predicate NamedAt(h: Heap, i: nat, named: seq<ConnId>, k: nat) {
    k < |named| ==> Owns(h, named[k], Registered(i))
  }

  /** Events still to be dispatched name distinct connections that stay registered until then. */
  predicate BatchOk(h: Heap, i: nat, batch: seq<Event>) {
    var named := Named(batch);
    Distinct(named) && forall k | 0 <= k < |named| :: NamedAt(h, i, named, k)
  }

  /** The connection being dispatched is not reported again by the same wait. */
  predicate FrameOk(h: Heap, i: nat, f: Frame) {
    BatchOk(h, i, f.rest) && f.conn !in Named(f.rest)
  }

  predicate TaskIs(h: Heap, t: TaskId, at: TaskAt) {
    t in h.tasks && h.tasks[t].at == at
  }

  predicate MsgIs(h: Heap, m: MsgId, at: MsgAt) {
    m in h.msgs && h.msgs[m].at == at
  }

  /** What I/O thread `i` owns at its program point. */
  predicate PointOk(h: Heap, i: nat, p: IoPoint) {
    match p
    case Polling => true
    case Dispatch(batch) => BatchOk(h, i, batch)
    case Adding(c, rest) => Owns(h, c, BeingAdded(i)) && BatchOk(h, i, rest)
    case Draining(rest) => BatchOk(h, i, rest)
    case Handling(m, rest) => MsgIs(h, m, Taken(i)) && BatchOk(h, i, rest)
    case Dropping(m, rest) => MsgIs(h, m, Taken(i)) && BatchOk(h, i, rest)
    case InRead(f) => Owns(h, f.conn, Registered(i)) && FrameOk(h, i, f)
    case Submitting(t, f) =>
      TaskIs(h, t, IoHand(i)) && h.tasks[t].conn == f.conn && Owns(h, f.conn, Registered(i)) && FrameOk(h, i, f)
    case AfterRead(f) => (Owns(h, f.conn, Registered(i)) || Owns(h, f.conn, Released)) && FrameOk(h, i, f)
    case InWrite(f) => Owns(h, f.conn, Registered(i)) && FrameOk(h, i, f)
    case AfterWrite(f) => (Owns(h, f.conn, Registered(i)) || Owns(h, f.conn, Released)) && FrameOk(h, i, f)
    case InError(f) => Owns(h, f.conn, Registered(i)) && FrameOk(h, i, f)
    case Unregistering(fd, f, _) => Owns(h, f.conn, BeingClosed(i)) && (i, fd) !in h.reg && FrameOk(h, i, f)
    case Unreferencing(f, _) => Owns(h, f.conn, BeingClosed(i)) && FrameOk(h, i, f)
  }

  predicate PipeAt(h: Heap, i: nat, pipe: seq<ConnId>, k: nat) {
    k < |pipe| ==> Owns(h, pipe[k], InPipe(i))
  }

  predicate InboxAt(h: Heap, i: nat, inbox: seq<MsgId>, k: nat) {
    k < |inbox| ==> MsgIs(h, inbox[k], Inbox(i))
  }

  predicate PipeOk(h: Heap, i: nat, pipe: seq<ConnId>) {
    Distinct(pipe) && forall k | 0 <= k < |pipe| :: PipeAt(h, i, pipe, k)
  }

  predicate InboxOk(h: Heap, i: nat, inbox: seq<MsgId>) {
    Distinct(inbox) && forall k | 0 <= k < |inbox| :: InboxAt(h, i, inbox, k)
  }

  predicate IoOk(h: Heap, i: nat, x: Io) {
    PointOk(h, i, x.point) && PipeOk(h, i, x.pipe) && InboxOk(h, i, x.inbox)
  }

  predicate WorkerOk(h: Heap, w: nat, p: WorkerPoint) {
    p.Free? || TaskIs(h, p.task, WorkerHand(w))
  }

  predicate QueueAt(h: Heap, queue: seq<TaskId>, k: nat) {
    k < |queue| ==> TaskIs(h, queue[k], Queued)
  }

  predicate QueueOk(h: Heap, queue: seq<TaskId>) {
    Distinct(queue) && forall k | 0 <= k < |queue| :: QueueAt(h, queue, k)
  }

  predicate FdIsNot(h: Heap, fd: int, c: ConnId) { c < |h.slots| ==> h.slots[c].conn.fd != fd }

  /** No connection has this descriptor. */
  predicate Stray(h: Heap, fd: int) {
    fd >= 0 && forall c | 0 <= c < |h.slots| :: FdIsNot(h, fd, c)
  }

  predicate AcceptOk(h: Heap, n: nat, a: AcceptPoint) {
    match a
    case Accepting => true
    case Accepted(fd) => fd in h.openFds && Stray(h, fd)
    case Handing(c, i, fd) => Owns(h, c, AtAccept) && h.slots[c].conn.fd == fd && h.slots[c].conn.io == i && i < n
    case Reclosing(fd) => Stray(h, fd)
  }

  predicate IoAt(s: State, i: nat) { i < |s.ios| ==> IoOk(s.heap, i, s.ios[i]) }

  predicate WorkerAt(s: State, w: nat) { w < |s.workers| ==> WorkerOk(s.heap, w, s.workers[w]) }

  predicate ThreadsOk(s: State) {
    && (forall i | 0 <= i < |s.ios| :: IoAt(s, i))
    && (forall w | 0 <= w < |s.workers| :: WorkerAt(s, w))
    && QueueOk(s.heap, s.queue)
    && AcceptOk(s.heap, |s.ios|, s.accept)
  }

  // ---- From objects to threads ----------------------------------------------

  predicate BaseFound(s: State, c: ConnId, b: Base) {
    match b
    case AtAccept => s.accept.Handing? && s.accept.conn == c
    case InPipe(i) => i < |s.ios| && c in s.ios[i].pipe
    case BeingAdded(i) => i < |s.ios| && s.ios[i].point.Adding? && s.ios[i].point.conn == c
    case Registered(i) => i < |s.ios|
    case BeingClosed(i) =>
      && i < |s.ios|
      && (s.ios[i].point.Unregistering? || s.ios[i].point.Unreferencing?) && s.ios[i].point.f.conn == c
    case Released => true
  }

  predicate TaskFound(s: State, t: TaskId, at: TaskAt) {
    match at
    case IoHand(i) => i < |s.ios| && s.ios[i].point.Submitting? && s.ios[i].point.task == t
    case Queued => t in s.queue
    case WorkerHand(w) => w < |s.workers| && !s.workers[w].Free? && s.workers[w].task == t
    case Leaked => true
  }

  predicate MsgFound(s: State, m: MsgId, at: MsgAt) {
    match at
    case Inbox(i) => i < |s.ios| && m in s.ios[i].inbox
    case Taken(i) => i < |s.ios| && (s.ios[i].point.Handling? || s.ios[i].point.Dropping?) && s.ios[i].point.msg == m
  }

  predicate BaseAt(s: State, c: ConnId) {
    c < |s.heap.slots| ==>
      var x := s.heap.slots[c];
      BaseFound(s, c, x.base) && (x.live ==> x.conn.io < |s.ios|)
  }

  predicate TaskAtOk(s: State, t: TaskId) {
    t in s.heap.tasks ==> t < s.nextTask && TaskFound(s, t, s.heap.tasks[t].at)
  }

  predicate MsgAtOk(s: State, m: MsgId) {
    m in s.heap.msgs ==>
      var x := s.heap.msgs[m];
      m < s.nextMsg && MsgFound(s, m, x.at) && x.conn < |s.heap.slots| && s.heap.slots[x.conn].conn.io == x.at.i
  }

  /** Every owner recorded for an object is a thread that really has it. */
  predicate ObjectsOk(s: State) {
    && (forall c | 0 <= c < |s.heap.slots| :: BaseAt(s, c))
    && (forall t | t in s.heap.tasks :: TaskAtOk(s, t))
    && (forall m | m in s.heap.msgs :: MsgAtOk(s, m))
  }

  ghost predicate Inv(s: State) {
    HeapOk(s.heap) && ThreadsOk(s) && ObjectsOk(s)
  }

  /** The invariant does not speak of the flag and of the histories. */
  lemma InvSame(s: State, t: State)
    requires Inv(s) && t.heap == s.heap && t.nextTask == s.nextTask && t.nextMsg == s.nextMsg
    requires t.accept == s.accept && t.ios == s.ios && t.workers == s.workers && t.queue == s.queue
    ensures Inv(t)
  {
    forall i | 0 <= i < |t.ios| ensures IoAt(t, i) {
      assert IoAt(s, i);
    }
    forall w | 0 <= w < |t.workers| ensures WorkerAt(t, w) {
      assert WorkerAt(s, w);
    }
    forall c | 0 <= c < |t.heap.slots| ensures BaseAt(t, c) {
      assert BaseAt(s, c);
    }
    forall x | x in t.heap.tasks ensures TaskAtOk(t, x) {
      assert TaskAtOk(s, x);
    }
    forall m | m in t.heap.msgs ensures MsgAtOk(t, m) {
      assert MsgAtOk(s, m);
    }
  }

  lemma IoFacts(s: State, i: nat)
    requires ThreadsOk(s) && i < |s.ios|
    ensures IoOk(s.heap, i, s.ios[i])
  {
    assert IoAt(s, i);
  }

  lemma WorkerFacts(s: State, w: nat)
    requires ThreadsOk(s) && w < |s.workers|
    ensures WorkerOk(s.heap, w, s.workers[w])
  {
    assert WorkerAt(s, w);
  }

  // ---- Sequences of distinct names --------------------------------------------

  lemma DistinctTail<T>(s: seq<T>)
    requires Distinct(s) && s != []
    ensures Distinct(s[1..]) && s[0] !in s[1..]
  {
    forall k, l | 0 <= k < l < |s[1..]| ensures Apart(s[1..], k, l) {
      assert Apart(s, k + 1, l + 1);
    }
    forall k | 0 <= k < |s[1..]| ensures s[1..][k] != s[0] {
      assert Apart(s, 0, k + 1);
    }
  }

  lemma DistinctSnoc<T>(s: seq<T>, x: T)
    requires Distinct(s) && x !in s
    ensures Distinct(s + [x])
  {
    forall k, l | 0 <= k < l < |s + [x]| ensures Apart(s + [x], k, l) {
      assert Apart(s, k, l);
    }
  }

  /** Dispatching one event leaves a good batch, which does not name its connection. */
  lemma BatchTail(h: Heap, i: nat, batch: seq<Event>)
    requires BatchOk(h, i, batch) && batch != []
    ensures BatchOk(h, i, batch[1..])
    ensures batch[0].Ready? ==> Owns(h, batch[0].conn, Registered(i)) && batch[0].conn !in Named(batch[1..])
  {
    var named, rest := Named(batch), Named(batch[1..]);
    if batch[0].Ready? {
      assert named[1..] == rest;
      DistinctTail(named);
      assert NamedAt(h, i, named, 0);
      forall k | 0 <= k < |rest| ensures NamedAt(h, i, rest, k) {
        assert NamedAt(h, i, named, k + 1);
      }
    } else {
      assert named == rest;
    }
  }

  // ---- What a step of one thread leaves to the others -------------------------

  predicate BelongsTo(b: Base, j: nat) {
    !b.AtAccept? && !b.Released? && b.i == j
  }

  predicate KeepsBase(h: Heap, g: Heap, j: nat, c: ConnId) {
    c < |h.slots| && (BelongsTo(h.slots[c].base, j) || h.slots[c].base.Released?) ==>
      c < |g.slots| && g.slots[c].base == h.slots[c].base
  }

  predicate KeepsHand(h: Heap, g: Heap, j: nat, t: TaskId) {
    TaskIs(h, t, IoHand(j)) ==> TaskIs(g, t, IoHand(j)) && g.tasks[t].conn == h.tasks[t].conn
  }

  predicate KeepsMsg(h: Heap, g: Heap, j: nat, m: MsgId) {
    m in h.msgs && h.msgs[m].at.i == j ==> m in g.msgs && g.msgs[m] == h.msgs[m]
  }

  predicate KeepsUnwatched(h: Heap, g: Heap, k: (nat, int)) {
    k in g.reg ==> k in h.reg
  }

  /** `g` has everything that I/O thread `j` owns in `h`. */
  ghost predicate KeepsIo(h: Heap, g: Heap, j: nat) {
    && (forall c: ConnId :: KeepsBase(h, g, j, c))
    && (forall t: TaskId :: KeepsHand(h, g, j, t))
    && (forall m: MsgId :: KeepsMsg(h, g, j, m))
    && (forall fd :: KeepsUnwatched(h, g, (j, fd)))
  }

  predicate KeepsTaskAt(h: Heap, g: Heap, at: TaskAt, t: TaskId) {
    TaskIs(h, t, at) ==> TaskIs(g, t, at)
  }

  ghost predicate KeepsTasks(h: Heap, g: Heap, at: TaskAt) {
    forall t: TaskId :: KeepsTaskAt(h, g, at, t)
  }

  predicate KeepsNew(h: Heap, g: Heap, c: ConnId) {
    Owns(h, c, AtAccept) ==> c < |g.slots| && g.slots[c] == h.slots[c]
  }

  predicate KeepsStray(h: Heap, g: Heap, fd: int) {
    Stray(h, fd) ==> Stray(g, fd) && (fd in h.openFds ==> fd in g.openFds)
  }

  /** What the accept thread relies on. */
  ghost predicate KeepsAccept(h: Heap, g: Heap) {
    (forall c: ConnId :: KeepsNew(h, g, c)) && (forall fd :: KeepsStray(h, g, fd))
  }

  lemma BatchFrame(h: Heap, g: Heap, j: nat, batch: seq<Event>)
    requires BatchOk(h, j, batch) && KeepsIo(h, g, j)
    ensures BatchOk(g, j, batch)
  {
    var named := Named(batch);
    forall k | 0 <= k < |named| ensures NamedAt(g, j, named, k) {
      assert NamedAt(h, j, named, k) && KeepsBase(h, g, j, named[k]);
    }
  }

  function RestOf(p: IoPoint): seq<Event> {
    match p
    case Polling => []
    case Dispatch(batch) => batch
    case Adding(_, rest) => rest
    case Draining(rest) => rest
    case Handling(_, rest) => rest
    case Dropping(_, rest) => rest
    case InRead(f) => f.rest
    case Submitting(_, f) => f.rest
    case AfterRead(f) => f.rest
    case InWrite(f) => f.rest
    case AfterWrite(f) => f.rest
    case InError(f) => f.rest
    case Unregistering(_, f, _) => f.rest
    case Unreferencing(f, _) => f.rest
  }

  lemma PointFrame(h: Heap, g: Heap, j: nat, p: IoPoint)
    requires PointOk(h, j, p) && KeepsIo(h, g, j)
    ensures PointOk(g, j, p)
  {
    if !p.Polling? {
      BatchFrame(h, g, j, RestOf(p));
    }
    match p
    case Adding(c, _) => assert KeepsBase(h, g, j, c);
    case Handling(m, _) => assert KeepsMsg(h, g, j, m);
    case Dropping(m, _) => assert KeepsMsg(h, g, j, m);
    case InRead(f) => assert KeepsBase(h, g, j, f.conn);
    case Submitting(t, f) => assert KeepsBase(h, g, j, f.conn) && KeepsHand(h, g, j, t);
    case AfterRead(f) => assert KeepsBase(h, g, j, f.conn);
    case InWrite(f) => assert KeepsBase(h, g, j, f.conn);
    case AfterWrite(f) => assert KeepsBase(h, g, j, f.conn);
    case InError(f) => assert KeepsBase(h, g, j, f.conn);
    case Unregistering(fd, f, _) => assert KeepsBase(h, g, j, f.conn) && KeepsUnwatched(h, g, (j, fd));
    case Unreferencing(f, _) => assert KeepsBase(h, g, j, f.conn);
    case _ =>
  }

  lemma IoFrame(h: Heap, g: Heap, j: nat, x: Io)
    requires IoOk(h, j, x) && KeepsIo(h, g, j)
    ensures IoOk(g, j, x)
  {
    PointFrame(h, g, j, x.point);
    forall k | 0 <= k < |x.pipe| ensures PipeAt(g, j, x.pipe, k) {
      assert PipeAt(h, j, x.pipe, k) && KeepsBase(h, g, j, x.pipe[k]);
    }
    forall k | 0 <= k < |x.inbox| ensures InboxAt(g, j, x.inbox, k) {
      assert InboxAt(h, j, x.inbox, k) && KeepsMsg(h, g, j, x.inbox[k]);
    }
  }

  lemma QueueFrame(h: Heap, g: Heap, queue: seq<TaskId>)
    requires QueueOk(h, queue) && KeepsTasks(h, g, Queued)
    ensures QueueOk(g, queue)
  {
    forall k | 0 <= k < |queue| ensures QueueAt(g, queue, k) {
      assert QueueAt(h, queue, k) && KeepsTaskAt(h, g, Queued, queue[k]);
    }
  }

  lemma AcceptFrame(h: Heap, g: Heap, n: nat, a: AcceptPoint)
    requires AcceptOk(h, n, a) && KeepsAccept(h, g)
    ensures AcceptOk(g, n, a)
  {
    match a
    case Accepting =>
    case Accepted(fd) => assert KeepsStray(h, g, fd);
    case Handing(c, _, _) => assert KeepsNew(h, g, c);
    case Reclosing(fd) => assert KeepsStray(h, g, fd);
  }

  /** A step of I/O thread `i` that takes nothing from the other threads. */
  ghost predicate OnlyIo(h: Heap, g: Heap, i: nat) {
    && (forall j: nat | j != i :: KeepsIo(h, g, j))
    && (forall w: nat :: KeepsTasks(h, g, WorkerHand(w)))
    && KeepsTasks(h, g, Queued)
    && KeepsAccept(h, g)
  }

  /** A step of worker `w` that takes nothing from the other threads. */
  ghost predicate OnlyWorker(h: Heap, g: Heap, w: nat) {
    && (forall j: nat :: KeepsIo(h, g, j))
    && (forall v: nat | v != w :: KeepsTasks(h, g, WorkerHand(v)))
    && KeepsAccept(h, g)
  }

  lemma KeepsIoTrans(h: Heap, g: Heap, k: Heap, j: nat)
    requires KeepsIo(h, g, j) && KeepsIo(g, k, j)
    ensures KeepsIo(h, k, j)
  {
    forall c: ConnId ensures KeepsBase(h, k, j, c) {
      assert KeepsBase(h, g, j, c) && KeepsBase(g, k, j, c);
    }
    forall t: TaskId ensures KeepsHand(h, k, j, t) {
      assert KeepsHand(h, g, j, t) && KeepsHand(g, k, j, t);
    }
    forall m: MsgId ensures KeepsMsg(h, k, j, m) {
      assert KeepsMsg(h, g, j, m) && KeepsMsg(g, k, j, m);
    }
    forall fd ensures KeepsUnwatched(h, k, (j, fd)) {
      assert KeepsUnwatched(h, g, (j, fd)) && KeepsUnwatched(g, k, (j, fd));
    }
  }

  lemma KeepsTasksTrans(h: Heap, g: Heap, k: Heap, at: TaskAt)
    requires KeepsTasks(h, g, at) && KeepsTasks(g, k, at)
    ensures KeepsTasks(h, k, at)
  {
    forall t: TaskId ensures KeepsTaskAt(h, k, at, t) {
      assert KeepsTaskAt(h, g, at, t) && KeepsTaskAt(g, k, at, t);
    }
  }

  lemma KeepsAcceptTrans(h: Heap, g: Heap, k: Heap)
    requires KeepsAccept(h, g) && KeepsAccept(g, k)
    ensures KeepsAccept(h, k)
  {
    forall c: ConnId ensures KeepsNew(h, k, c) {
      assert KeepsNew(h, g, c) && KeepsNew(g, k, c);
    }
    forall fd ensures KeepsStray(h, k, fd) {
      assert KeepsStray(h, g, fd) && KeepsStray(g, k, fd);
    }
  }

  lemma OnlyIoTrans(h: Heap, g: Heap, k: Heap, i: nat)
    requires OnlyIo(h, g, i) && OnlyIo(g, k, i)
    ensures OnlyIo(h, k, i)
  {
    forall j: nat | j != i ensures KeepsIo(h, k, j) {
      KeepsIoTrans(h, g, k, j);
    }
    forall w: nat ensures KeepsTasks(h, k, WorkerHand(w)) {
      KeepsTasksTrans(h, g, k, WorkerHand(w));
    }
    KeepsTasksTrans(h, g, k, Queued);
    KeepsAcceptTrans(h, g, k);
  }

  lemma OnlyWorkerTrans(h: Heap, g: Heap, k: Heap, w: nat)
    requires OnlyWorker(h, g, w) && OnlyWorker(g, k, w)
    ensures OnlyWorker(h, k, w)
  {
    forall j: nat ensures KeepsIo(h, k, j) {
      KeepsIoTrans(h, g, k, j);
    }
    forall v: nat | v != w ensures KeepsTasks(h, k, WorkerHand(v)) {
      KeepsTasksTrans(h, g, k, WorkerHand(v));
    }
    KeepsAcceptTrans(h, g, k);
  }

  /** `g` differs from `h` in slot `c` only, which no accept thread is handing over. */
  predicate OneSlot(h: Heap, g: Heap, c: ConnId) {
    && |g.slots| == |h.slots| && g.tasks == h.tasks && g.msgs == h.msgs && c < |h.slots|
    && g.slots == h.slots[c := g.slots[c]]
    && h.slots[c].base != AtAccept
    && (g.slots[c].conn.fd == h.slots[c].conn.fd || g.slots[c].conn.fd < 0)
    && g.openFds >= h.openFds - {h.slots[c].conn.fd}
  }

  lemma OneSlotAccept(h: Heap, g: Heap, c: ConnId)
    requires OneSlot(h, g, c)
    ensures KeepsAccept(h, g)
  {
    forall fd ensures KeepsStray(h, g, fd) {
      if Stray(h, fd) {
        assert FdIsNot(h, fd, c);
        forall d | 0 <= d < |g.slots| ensures FdIsNot(g, fd, d) {
          assert FdIsNot(h, fd, d);
        }
      }
    }
  }

  /** Changing one slot, and registrations of loop `i` only, disturbs no other thread. */
  lemma OneSlotOnlyIo(h: Heap, g: Heap, c: ConnId, i: nat)
    requires OneSlot(h, g, c) && (g.slots[c].base == h.slots[c].base || BelongsTo(h.slots[c].base, i))
    requires forall k | k in g.reg :: k in h.reg || k.0 == i
    ensures OnlyIo(h, g, i)
  {
    OneSlotAccept(h, g, c);
  }

  lemma OneSlotOnlyWorker(h: Heap, g: Heap, c: ConnId, w: nat)
    requires OneSlot(h, g, c) && g.slots[c].base == h.slots[c].base
    requires forall k | k in g.reg :: k in h.reg
    ensures OnlyWorker(h, g, w) && KeepsTasks(h, g, WorkerHand(w)) && KeepsTasks(h, g, Queued)
  {
    OneSlotAccept(h, g, c);
  }

  // ---- Assembling a step ------------------------------------------------------

  /** Thread `i` moved and nobody else did. */
  predicate IoMoved(s: State, t: State, i: nat) {
    && i < |s.ios| == |t.ios|
    && t.ios == s.ios[i := t.ios[i]] && t.workers == s.workers && t.accept == s.accept
  }

  lemma IoStepThreads(s: State, t: State, i: nat)
    requires ThreadsOk(s) && IoMoved(s, t, i) && OnlyIo(s.heap, t.heap, i)
    requires IoOk(t.heap, i, t.ios[i])
    requires t.queue == s.queue || QueueOk(t.heap, t.queue)
    ensures ThreadsOk(t)
  {
    forall j | 0 <= j < |t.ios| ensures IoAt(t, j) {
      if j != i {
        assert IoAt(s, j);
        IoFrame(s.heap, t.heap, j, s.ios[j]);
      }
    }
    forall w | 0 <= w < |t.workers| ensures WorkerAt(t, w) {
      assert WorkerAt(s, w);
      if !t.workers[w].Free? {
        assert KeepsTaskAt(s.heap, t.heap, WorkerHand(w), t.workers[w].task);
      }
    }
    if t.queue == s.queue {
      QueueFrame(s.heap, t.heap, s.queue);
    }
    AcceptFrame(s.heap, t.heap, |s.ios|, s.accept);
  }

  lemma WorkerStepThreads(s: State, t: State, w: nat)
    requires ThreadsOk(s) && w < |s.workers| == |t.workers| && |s.ios| == |t.ios|
    requires t.workers == s.workers[w := t.workers[w]] && t.accept == s.accept
    requires forall j | 0 <= j < |s.ios| :: t.ios[j] == s.ios[j] || IoOk(t.heap, j, t.ios[j])
    requires OnlyWorker(s.heap, t.heap, w)
    requires WorkerOk(t.heap, w, t.workers[w]) && QueueOk(t.heap, t.queue)
    ensures ThreadsOk(t)
  {
    forall j | 0 <= j < |t.ios| ensures IoAt(t, j) {
      if t.ios[j] == s.ios[j] {
        assert IoAt(s, j);
        IoFrame(s.heap, t.heap, j, s.ios[j]);
      }
    }
    forall v | 0 <= v < |t.workers| ensures WorkerAt(t, v) {
      assert WorkerAt(s, v);
      if v != w && !t.workers[v].Free? {
        assert KeepsTasks(s.heap, t.heap, WorkerHand(v));
        assert KeepsTaskAt(s.heap, t.heap, WorkerHand(v), t.workers[v].task);
      }
    }
    AcceptFrame(s.heap, t.heap, |s.ios|, s.accept);
  }

  /** A connection that needs no second look after a step of thread `i`. */
  predicate BaseStays(s: State, t: State, i: nat, c: ConnId) {
    c < |t.heap.slots| ==>
      && c < |s.heap.slots|
      && (t.heap.slots[c].live ==> s.heap.slots[c].live)
      && t.heap.slots[c].conn.io == s.heap.slots[c].conn.io
      && ((t.heap.slots[c].base == s.heap.slots[c].base && !BelongsTo(s.heap.slots[c].base, i))
          || BaseFound(t, c, t.heap.slots[c].base))
  }

  predicate TaskStays(s: State, t: State, i: nat, x: TaskId) {
    x in t.heap.tasks ==>
      || (x in s.heap.tasks && t.heap.tasks[x] == s.heap.tasks[x] && s.heap.tasks[x].at != IoHand(i)
          && (x in s.queue ==> x in t.queue))
      || (x < t.nextTask && TaskFound(t, x, t.heap.tasks[x].at))
  }

  predicate MsgStays(s: State, t: State, i: nat, m: MsgId) {
    m in t.heap.msgs ==>
      && m in s.heap.msgs && t.heap.msgs[m].conn == s.heap.msgs[m].conn
      && t.heap.msgs[m].at.i == s.heap.msgs[m].at.i
      && ((t.heap.msgs[m].at == s.heap.msgs[m].at && s.heap.msgs[m].at.i != i) || MsgFound(t, m, t.heap.msgs[m].at))
  }

  /** The objects of a step of I/O thread `i`: only what it owned needs a second look. */
  lemma IoStepObjects(s: State, t: State, i: nat)
    requires ObjectsOk(s) && IoMoved(s, t, i)
    requires |t.heap.slots| == |s.heap.slots| && t.nextTask >= s.nextTask && t.nextMsg == s.nextMsg
    requires forall c | 0 <= c < |t.heap.slots| :: BaseStays(s, t, i, c)
    requires forall x | x in t.heap.tasks :: TaskStays(s, t, i, x)
    requires forall m | m in t.heap.msgs :: MsgStays(s, t, i, m)
    ensures ObjectsOk(t)
  {
    forall c | 0 <= c < |t.heap.slots| ensures BaseAt(t, c) {
      assert BaseAt(s, c) && BaseStays(s, t, i, c);
    }
    forall x | x in t.heap.tasks ensures TaskAtOk(t, x) {
      assert TaskAtOk(s, x) && TaskStays(s, t, i, x);
    }
    forall m | m in t.heap.msgs ensures MsgAtOk(t, m) {
      assert MsgAtOk(s, m) && MsgStays(s, t, i, m);
      assert BaseStays(s, t, i, s.heap.msgs[m].conn);
    }
  }

  /** The base reference of `c` is not hidden in a program point that thread `i` leaves. */
  predicate BaseCarried(s: State, t: State, i: nat, c: ConnId) {
    c < |t.heap.slots| ==>
      && c < |s.heap.slots|
      && (t.heap.slots[c].live ==> s.heap.slots[c].live)
      && t.heap.slots[c].conn.io == s.heap.slots[c].conn.io
      && (t.heap.slots[c].base == s.heap.slots[c].base || BaseFound(t, c, t.heap.slots[c].base))
      && (t.heap.slots[c].base == BeingAdded(i) || t.heap.slots[c].base == BeingClosed(i) ==>
            BaseFound(t, c, t.heap.slots[c].base))
  }

  /**
    A step that moves the program point of I/O thread `i` and changes slots, when
    the thread had no task or message in its hands.
   */
  lemma IoStep(s: State, t: State, i: nat)
    requires Inv(s) && HeapOk(t.heap) && IoMoved(s, t, i) && t.queue == s.queue
    requires t.ios[i].pipe == s.ios[i].pipe && t.ios[i].inbox == s.ios[i].inbox
    requires t.nextTask == s.nextTask && t.nextMsg == s.nextMsg
    requires t.heap.tasks == s.heap.tasks && t.heap.msgs == s.heap.msgs
    requires !s.ios[i].point.Submitting? && !s.ios[i].point.Handling? && !s.ios[i].point.Dropping?
    requires OnlyIo(s.heap, t.heap, i) && PointOk(t.heap, i, t.ios[i].point)
    requires |t.heap.slots| == |s.heap.slots|
    requires forall c | 0 <= c < |t.heap.slots| :: BaseCarried(s, t, i, c)
    requires forall k | 0 <= k < |t.ios[i].pipe| :: PipeAt(t.heap, i, t.ios[i].pipe, k)
    ensures Inv(t)
  {
    IoFacts(s, i);
    forall k | 0 <= k < |t.ios[i].inbox| ensures InboxAt(t.heap, i, t.ios[i].inbox, k) {
      assert InboxAt(s.heap, i, s.ios[i].inbox, k);
    }
    IoStepThreads(s, t, i);
    forall c | 0 <= c < |t.heap.slots| ensures BaseStays(s, t, i, c) {
      assert BaseAt(s, c) && BaseCarried(s, t, i, c);
    }
    forall x | x in t.heap.tasks ensures TaskStays(s, t, i, x) {
      assert TaskAtOk(s, x);
    }
    forall m | m in t.heap.msgs ensures MsgStays(s, t, i, m) {
      assert MsgAtOk(s, m);
    }
    IoStepObjects(s, t, i);
  }

  /** A step of thread `i` that changes one slot and its own program point. */
  lemma IoSlotStep(s: State, t: State, i: nat, c: ConnId)
    requires Inv(s) && HeapOk(t.heap) && IoMoved(s, t, i) && t.queue == s.queue
    requires t.ios[i].pipe == s.ios[i].pipe && t.ios[i].inbox == s.ios[i].inbox
    requires t.nextTask == s.nextTask && t.nextMsg == s.nextMsg
    requires !s.ios[i].point.Submitting? && !s.ios[i].point.Handling? && !s.ios[i].point.Dropping?
    requires OneSlot(s.heap, t.heap, c)
    requires forall k | k in t.heap.reg :: k in s.heap.reg || k.0 == i
    requires t.heap.slots[c].base == s.heap.slots[c].base || BelongsTo(s.heap.slots[c].base, i)
    requires !s.heap.slots[c].base.InPipe? && BaseCarried(s, t, i, c)
    requires s.ios[i].point.Adding? || s.ios[i].point.Unregistering? || s.ios[i].point.Unreferencing? ==>
               BaseFound(s, c, s.heap.slots[c].base) && BelongsTo(s.heap.slots[c].base, i)
               && !s.heap.slots[c].base.Registered?
    requires PointOk(t.heap, i, t.ios[i].point)
    ensures Inv(t)
  {
    OneSlotOnlyIo(s.heap, t.heap, c, i);
    IoFacts(s, i);
    forall d | 0 <= d < |t.heap.slots| ensures BaseCarried(s, t, i, d) {
      assert BaseAt(s, d);
    }
    forall k | 0 <= k < |t.ios[i].pipe| ensures PipeAt(t.heap, i, t.ios[i].pipe, k) {
      assert PipeAt(s.heap, i, s.ios[i].pipe, k);
    }
    IoStep(s, t, i);
  }
}

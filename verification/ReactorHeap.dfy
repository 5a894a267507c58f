/** What every use of a connection, task or message keeps: the reference counts are exact. */
module ReactorHeap {
  import opened Connections
  import opened Reactor

  // ---- Counting holders -----------------------------------------------------

  ghost function TasksOf(tasks: map<TaskId, Task>, c: ConnId): set<TaskId> {
    set t | t in tasks && tasks[t].conn == c
  }

  ghost function MsgsOf(msgs: map<MsgId, Msg>, c: ConnId): set<MsgId> {
    set m | m in msgs && msgs[m].conn == c
  }

  function One(b: bool): nat { if b then 1 else 0 }

  lemma TaskAdded(tasks: map<TaskId, Task>, t: TaskId, x: Task, c: ConnId)
    requires t !in tasks
    ensures |TasksOf(tasks[t := x], c)| == |TasksOf(tasks, c)| + One(x.conn == c)
  {
    assert TasksOf(tasks[t := x], c) == TasksOf(tasks, c) + (if x.conn == c then {t} else {});
  }

  lemma TaskRemoved(tasks: map<TaskId, Task>, t: TaskId, c: ConnId)
    requires t in tasks
    ensures |TasksOf(tasks - {t}, c)| == |TasksOf(tasks, c)| - One(tasks[t].conn == c)
  {
    assert TasksOf(tasks - {t}, c) == TasksOf(tasks, c) - (if tasks[t].conn == c then {t} else {});
  }

  lemma TaskMoved(tasks: map<TaskId, Task>, t: TaskId, x: Task, c: ConnId)
    requires t in tasks && x.conn == tasks[t].conn
    ensures TasksOf(tasks[t := x], c) == TasksOf(tasks, c)
  {
  }

  lemma MsgAdded(msgs: map<MsgId, Msg>, m: MsgId, x: Msg, c: ConnId)
    requires m !in msgs
    ensures |MsgsOf(msgs[m := x], c)| == |MsgsOf(msgs, c)| + One(x.conn == c)
  {
    assert MsgsOf(msgs[m := x], c) == MsgsOf(msgs, c) + (if x.conn == c then {m} else {});
  }

  lemma MsgRemoved(msgs: map<MsgId, Msg>, m: MsgId, c: ConnId)
    requires m in msgs
    ensures |MsgsOf(msgs - {m}, c)| == |MsgsOf(msgs, c)| - One(msgs[m].conn == c)
  {
    assert MsgsOf(msgs - {m}, c) == MsgsOf(msgs, c) - (if msgs[m].conn == c then {m} else {});
  }

  lemma MsgMoved(msgs: map<MsgId, Msg>, m: MsgId, x: Msg, c: ConnId)
    requires m in msgs && x.conn == msgs[m].conn
    ensures MsgsOf(msgs[m := x], c) == MsgsOf(msgs, c)
  {
  }

  // ---- The invariant --------------------------------------------------------

  predicate Early(b: Base) { b.AtAccept? || b.InPipe? || b.BeingAdded? }

  predicate Leaving(b: Base) { b.BeingClosed? || b.Released? }

  /**
    A live connection's count is its base reference, its holders and its lost
    references, and it is closed exactly when the base reference is on its way out
    or gone.  A freed connection was freed once, and its descriptor closed once.
   */
  predicate SlotOk(x: Slot) {
    && x.held >= 0
    && (x.live ==>
          && x.conn.refCount == One(x.base != Released) + x.held + x.lost
          && x.conn.refCount >= 1
          && x.conn.state != Closed
          && x.conn.pos <= |x.conn.out|
          && (x.conn.closing <==> Leaving(x.base))
          && (x.conn.closing <==> x.conn.fd < 0)
          && (Early(x.base) ==> x.held == 0 && x.lost == 0)
          && (!x.base.AtAccept? && !x.base.Released? ==> x.conn.io == x.base.i)
          && x.frees == 0
          && x.closes == One(x.conn.fd < 0))
    && (!x.live ==>
          x.base == Released && x.held == 0 && x.lost == 0 && x.frees == 1 && x.closes == 1 && x.conn.fd < 0)
  }

  // The quantified facts below are stated through one predicate per object, so that
  // a proof uses them for exactly the objects it mentions.

  predicate SlotAt(h: Heap, c: ConnId) { c < |h.slots| ==> SlotOk(h.slots[c]) }

  predicate SlotsOk(h: Heap) { forall c | 0 <= c < |h.slots| :: SlotAt(h, c) }

  predicate FdAt(h: Heap, c: ConnId) {
    c < |h.slots| && h.slots[c].conn.fd >= 0 ==> h.slots[c].conn.fd in h.openFds
  }

  predicate FdsApart(h: Heap, c: ConnId, d: ConnId) {
    c < |h.slots| && d < |h.slots| && c != d && h.slots[c].conn.fd >= 0 ==> h.slots[c].conn.fd != h.slots[d].conn.fd
  }

  /** Open connections have open descriptors of their own. */
  predicate FdsOk(h: Heap) {
    && (forall c | 0 <= c < |h.slots| :: FdAt(h, c))
    && (forall c, d | 0 <= c < |h.slots| && 0 <= d < |h.slots| :: FdsApart(h, c, d))
  }

  /** A registration names a registered connection by its own descriptor. */
  predicate RegAt(h: Heap, k: (nat, int)) {
    k in h.reg ==>
      var c := h.reg[k].conn;
      c < |h.slots| && h.slots[c].conn.fd == k.1 && h.slots[c].base == Registered(k.0)
  }

  predicate Watched(h: Heap, c: ConnId) {
    c < |h.slots| && h.slots[c].base.Registered? ==>
      var k := (h.slots[c].base.i, h.slots[c].conn.fd);
      k in h.reg && h.reg[k].conn == c
  }

  /** Registrations and registered connections correspond one to one. */
  predicate RegsOk(h: Heap) {
    && (forall k | k in h.reg :: RegAt(h, k))
    && (forall c | 0 <= c < |h.slots| :: Watched(h, c))
  }

  ghost predicate HeldAt(h: Heap, c: ConnId) {
    c < |h.slots| ==> h.slots[c].held == |TasksOf(h.tasks, c)| + |MsgsOf(h.msgs, c)|
  }

  predicate TaskNames(h: Heap, t: TaskId) { t in h.tasks ==> h.tasks[t].conn < |h.slots| }

  predicate MsgNames(h: Heap, m: MsgId) { m in h.msgs ==> h.msgs[m].conn < |h.slots| }

  ghost predicate HeldOk(h: Heap) {
    && (forall t | t in h.tasks :: TaskNames(h, t))
    && (forall m | m in h.msgs :: MsgNames(h, m))
    && (forall c | 0 <= c < |h.slots| :: HeldAt(h, c))
  }

  ghost predicate HeapOk(h: Heap) {
    !h.fault && SlotsOk(h) && FdsOk(h) && RegsOk(h) && HeldOk(h)
  }

  lemma SlotFacts(h: Heap, c: ConnId)
    requires SlotsOk(h) && c < |h.slots|
    ensures SlotOk(h.slots[c])
  {
    assert SlotAt(h, c);
  }

  /** Every task and every message names a live connection. */
  lemma TaskNamesLive(h: Heap, t: TaskId)
    requires SlotsOk(h) && HeldOk(h) && t in h.tasks
    ensures Live(h, h.tasks[t].conn) && h.slots[h.tasks[t].conn].held >= 1
  {
    var c := h.tasks[t].conn;
    assert TaskNames(h, t) && HeldAt(h, c);
    assert t in TasksOf(h.tasks, c);
    SlotFacts(h, c);
  }

  lemma MsgNamesLive(h: Heap, m: MsgId)
    requires SlotsOk(h) && HeldOk(h) && m in h.msgs
    ensures Live(h, h.msgs[m].conn) && h.slots[h.msgs[m].conn].held >= 1
  {
    var c := h.msgs[m].conn;
    assert MsgNames(h, m) && HeldAt(h, c);
    assert m in MsgsOf(h.msgs, c);
    SlotFacts(h, c);
  }

  // ---- Operations on the slots ----------------------------------------------

  /** Everything but the holders of objects. */
  predicate TablesOk(h: Heap) { SlotsOk(h) && FdsOk(h) && RegsOk(h) }

  lemma SlotsAfter(h: Heap, g: Heap, c: ConnId)
    requires SlotsOk(h) && |g.slots| == |h.slots| && c < |h.slots|
    requires forall d | 0 <= d < |h.slots| && d != c :: g.slots[d] == h.slots[d]
    requires SlotOk(g.slots[c])
    ensures SlotsOk(g)
  {
    forall d | 0 <= d < |g.slots| ensures SlotAt(g, d) {
      assert SlotAt(h, d);
    }
  }

  /** Descriptors stay apart when one slot keeps or loses its own. */
  lemma FdsAfter(h: Heap, g: Heap, c: ConnId)
    requires FdsOk(h) && |g.slots| == |h.slots| && c < |h.slots|
    requires forall d | 0 <= d < |h.slots| && d != c :: g.slots[d] == h.slots[d]
    requires g.slots[c].conn.fd == h.slots[c].conn.fd || g.slots[c].conn.fd < 0
    requires if g.slots[c].conn.fd < 0 then g.openFds >= h.openFds - {h.slots[c].conn.fd} else g.openFds >= h.openFds
    ensures FdsOk(g)
  {
    forall d | 0 <= d < |g.slots| ensures FdAt(g, d) {
      assert FdAt(h, d) && FdsApart(h, d, c);
    }
    forall d, e | 0 <= d < |g.slots| && 0 <= e < |g.slots| ensures FdsApart(g, d, e) {
      assert FdsApart(h, d, e);
    }
  }

  lemma RegsAfter(h: Heap, g: Heap, c: ConnId)
    requires RegsOk(h) && |g.slots| == |h.slots| && c < |h.slots| && g.reg == h.reg
    requires forall d | 0 <= d < |h.slots| && d != c :: g.slots[d] == h.slots[d]
    requires g.slots[c].conn.fd == h.slots[c].conn.fd
    requires g.slots[c].base == h.slots[c].base || (!g.slots[c].base.Registered? && !h.slots[c].base.Registered?)
    ensures RegsOk(g)
  {
    forall k | k in g.reg ensures RegAt(g, k) {
      assert RegAt(h, k);
    }
    forall d | 0 <= d < |g.slots| ensures Watched(g, d) {
      assert Watched(h, d);
    }
  }

  /** Changing one slot without its descriptor or registration. */
  lemma SlotChange(h: Heap, c: ConnId, x: Slot)
    requires TablesOk(h) && c < |h.slots| && SlotOk(x)
    requires x.conn.fd == h.slots[c].conn.fd
    requires x.base == h.slots[c].base || (!x.base.Registered? && !h.slots[c].base.Registered?)
    ensures TablesOk(SetSlot(h, c, x))
  {
    var g := SetSlot(h, c, x);
    SlotsAfter(h, g, c);
    FdsAfter(h, g, c);
    RegsAfter(h, g, c);
  }

  /** Closing the descriptor of one connection ends its registration and no other. */
  lemma SlotClose(h: Heap, c: ConnId, x: Slot)
    requires TablesOk(h) && c < |h.slots| && SlotOk(x)
    requires h.slots[c].conn.fd >= 0 && x.conn.fd < 0 && !x.base.Registered?
    ensures TablesOk(SetSlot(CloseFd(h, h.slots[c].conn.fd), c, x))
  {
    var fd := h.slots[c].conn.fd;
    var g := SetSlot(CloseFd(h, fd), c, x);
    SlotsAfter(h, g, c);
    FdsAfter(h, g, c);
    forall k | k in g.reg ensures RegAt(g, k) {
      assert RegAt(h, k);
    }
    forall d | 0 <= d < |g.slots| ensures Watched(g, d) {
      assert Watched(h, d) && FdsApart(h, c, d);
    }
  }

  lemma HeldSlots(h: Heap, g: Heap)
    requires HeldOk(h) && g.tasks == h.tasks && g.msgs == h.msgs && |g.slots| == |h.slots|
    requires forall c | 0 <= c < |h.slots| :: g.slots[c].held == h.slots[c].held
    ensures HeldOk(g)
  {
    forall t | t in g.tasks ensures TaskNames(g, t) {
      assert TaskNames(h, t);
    }
    forall m | m in g.msgs ensures MsgNames(g, m) {
      assert MsgNames(h, m);
    }
    forall c | 0 <= c < |g.slots| ensures HeldAt(g, c) {
      assert HeldAt(h, c);
    }
  }

  /** Changes outside the slots, registrations and open descriptors. */
  lemma SameTables(h: Heap, g: Heap)
    requires TablesOk(h) && g.slots == h.slots && g.reg == h.reg && g.openFds >= h.openFds
    ensures TablesOk(g)
  {
    forall c | 0 <= c < |g.slots| ensures SlotAt(g, c) && FdAt(g, c) && Watched(g, c) {
      assert SlotAt(h, c) && FdAt(h, c) && Watched(h, c);
    }
    forall c, d | 0 <= c < |g.slots| && 0 <= d < |g.slots| ensures FdsApart(g, c, d) {
      assert FdsApart(h, c, d);
    }
    forall k | k in g.reg ensures RegAt(g, k) {
      assert RegAt(h, k);
    }
  }

  // ---- Operations of the protocol -------------------------------------------

  lemma TablesCreate(h: Heap, fd: int, i: nat)
    requires TablesOk(h) && fd >= 0 && fd in h.openFds
    requires forall c | 0 <= c < |h.slots| :: h.slots[c].conn.fd != fd
    ensures TablesOk(CreateConn(h, fd, i))
  {
    var g := CreateConn(h, fd, i);
    forall c | 0 <= c < |g.slots| ensures SlotAt(g, c) && FdAt(g, c) && Watched(g, c) {
      assert SlotAt(h, c) && FdAt(h, c) && Watched(h, c);
    }
    forall c, d | 0 <= c < |g.slots| && 0 <= d < |g.slots| ensures FdsApart(g, c, d) {
      assert FdsApart(h, c, d);
    }
    forall k | k in g.reg ensures RegAt(g, k) {
      assert RegAt(h, k);
    }
  }

  lemma HeapCreate(h: Heap, fd: int, i: nat)
    requires HeapOk(h) && fd >= 0 && fd in h.openFds
    requires forall c | 0 <= c < |h.slots| :: h.slots[c].conn.fd != fd
    ensures HeapOk(CreateConn(h, fd, i))
  {
    var g := CreateConn(h, fd, i);
    TablesCreate(h, fd, i);
    forall t | t in g.tasks ensures TaskNames(g, t) && h.tasks[t].conn < |h.slots| {
      assert TaskNames(h, t);
    }
    forall m | m in g.msgs ensures MsgNames(g, m) && h.msgs[m].conn < |h.slots| {
      assert MsgNames(h, m);
    }
    assert TasksOf(h.tasks, |h.slots|) == {} && MsgsOf(h.msgs, |h.slots|) == {};
    forall c | 0 <= c < |g.slots| ensures HeldAt(g, c) {
      assert HeldAt(h, c);
    }
  }

  /** Moving the base reference before the connection is registered. */
  lemma HeapMoveBase(h: Heap, c: ConnId, b: Base)
    requires HeapOk(h) && Live(h, c) && Early(h.slots[c].base) && Early(b)
    requires b.AtAccept? || h.slots[c].conn.io == b.i
    ensures HeapOk(SetBase(h, c, b))
  {
    SlotFacts(h, c);
    SlotChange(h, c, h.slots[c].(base := b));
    HeldSlots(h, SetBase(h, c, b));
  }

  lemma HeapRegister(h: Heap, c: ConnId, i: nat)
    requires HeapOk(h) && Live(h, c) && h.slots[c].base == BeingAdded(i)
    ensures HeapOk(RegisterConn(h, c, i))
  {
    var g := RegisterConn(h, c, i);
    SlotFacts(h, c);
    SlotsAfter(h, g, c);
    FdsAfter(h, g, c);
    forall k | k in g.reg ensures RegAt(g, k) {
      assert RegAt(h, k);
    }
    forall d | 0 <= d < |g.slots| ensures Watched(g, d) {
      assert Watched(h, d) && FdsApart(h, c, d);
    }
    HeldSlots(h, g);
  }

  lemma HeapInterest(h: Heap, i: nat, c: ConnId, write: bool)
    requires HeapOk(h) && Live(h, c)
    ensures HeapOk(SetInterest(h, i, h.slots[c].conn.fd, c, write))
  {
    var k := (i, h.slots[c].conn.fd);
    var g := SetInterest(h, i, h.slots[c].conn.fd, c, write);
    SlotFacts(h, c);
    SlotsAfter(h, g, c);
    FdsAfter(h, g, c);
    HeldSlots(h, g);
    if k in h.reg {
      assert RegAt(h, k);
      SlotFacts(h, h.reg[k].conn);
      assert FdsApart(h, h.reg[k].conn, c);
      forall l | l in g.reg ensures RegAt(g, l) {
        assert RegAt(h, l);
      }
      forall d | 0 <= d < |g.slots| ensures Watched(g, d) {
        assert Watched(h, d);
      }
    }
  }

  /** Updates of a connection's buffers and state. */
  lemma HeapSetConn(h: Heap, c: ConnId, x: Conn)
    requires HeapOk(h) && Live(h, c)
    requires var y := h.slots[c].conn;
             x.fd == y.fd && x.refCount == y.refCount && x.closing == y.closing && x.io == y.io
    requires x.state != Closed && x.pos <= |x.out|
    ensures HeapOk(SetConn(h, c, x))
  {
    SlotFacts(h, c);
    SlotChange(h, c, h.slots[c].(conn := x));
    HeldSlots(h, SetConn(h, c, x));
  }

  lemma HeapMark(h: Heap, c: ConnId, i: nat)
    requires HeapOk(h) && Live(h, c) && h.slots[c].base == Registered(i)
    ensures HeapOk(MarkConn(h, c, i))
    ensures (i, h.slots[c].conn.fd) !in MarkConn(h, c, i).reg
  {
    SlotFacts(h, c);
    var x := h.slots[c];
    SlotClose(h, c, x.(base := BeingClosed(i), conn := Marked(x.conn), closes := x.closes + 1));
    HeldSlots(h, MarkConn(h, c, i));
  }

  lemma HeldNewTask(h: Heap, g: Heap, t: TaskId, x: Task)
    requires HeldOk(h) && t !in h.tasks && x.conn < |h.slots| == |g.slots|
    requires g.tasks == h.tasks[t := x] && g.msgs == h.msgs
    requires forall d | 0 <= d < |h.slots| :: g.slots[d].held == h.slots[d].held + One(x.conn == d)
    ensures HeldOk(g)
  {
    forall u | u in g.tasks ensures TaskNames(g, u) {
      assert TaskNames(h, u);
    }
    forall m | m in g.msgs ensures MsgNames(g, m) {
      assert MsgNames(h, m);
    }
    forall d | 0 <= d < |h.slots| ensures HeldAt(g, d) {
      assert HeldAt(h, d);
      TaskAdded(h.tasks, t, x, d);
    }
  }

  lemma HeldNewMsg(h: Heap, g: Heap, m: MsgId, x: Msg)
    requires HeldOk(h) && m !in h.msgs && x.conn < |h.slots| == |g.slots|
    requires g.tasks == h.tasks && g.msgs == h.msgs[m := x]
    requires forall d | 0 <= d < |h.slots| :: g.slots[d].held == h.slots[d].held + One(x.conn == d)
    ensures HeldOk(g)
  {
    forall t | t in g.tasks ensures TaskNames(g, t) {
      assert TaskNames(h, t);
    }
    forall u | u in g.msgs ensures MsgNames(g, u) {
      assert MsgNames(h, u);
    }
    forall d | 0 <= d < |h.slots| ensures HeldAt(g, d) {
      assert HeldAt(h, d);
      MsgAdded(h.msgs, m, x, d);
    }
  }

  /** A new holder of a connection that is past its hand-off. */
  lemma SlotAcquire(h: Heap, c: ConnId, orphan: bool)
    requires TablesOk(h) && Live(h, c) && !Early(h.slots[c].base)
    ensures TablesOk(AcquireConn(h, c, orphan))
  {
    SlotFacts(h, c);
    SlotChange(h, c, AcquireConn(h, c, orphan).slots[c]);
  }

  lemma HeapNewTask(h: Heap, c: ConnId, t: TaskId, x: Task)
    requires HeapOk(h) && Live(h, c) && !Early(h.slots[c].base) && t !in h.tasks && x.conn == c
    ensures var g := AcquireConn(h, c, false); HeapOk(g.(tasks := g.tasks[t := x]))
  {
    var a := AcquireConn(h, c, false);
    var g := a.(tasks := a.tasks[t := x]);
    SlotAcquire(h, c, false);
    SameTables(a, g);
    HeldNewTask(h, g, t, x);
  }

  lemma HeapNewMsg(h: Heap, c: ConnId, m: MsgId, x: Msg)
    requires HeapOk(h) && Live(h, c) && !Early(h.slots[c].base) && m !in h.msgs && x.conn == c
    ensures var g := AcquireConn(h, c, false); HeapOk(g.(msgs := g.msgs[m := x]))
  {
    var a := AcquireConn(h, c, false);
    var g := a.(msgs := a.msgs[m := x]);
    SlotAcquire(h, c, false);
    SameTables(a, g);
    HeldNewMsg(h, g, m, x);
  }

  lemma HeapLose(h: Heap, c: ConnId)
    requires HeapOk(h) && Live(h, c) && !Early(h.slots[c].base)
    ensures HeapOk(AcquireConn(h, c, true))
  {
    SlotAcquire(h, c, true);
    HeldSlots(h, AcquireConn(h, c, true));
  }

  /** Changing the recorded owner of a task or message. */
  lemma HeapMoveTask(h: Heap, t: TaskId, at: TaskAt)
    requires HeapOk(h) && t in h.tasks
    ensures HeapOk(MoveTask(h, t, at))
  {
    var g := MoveTask(h, t, at);
    SameTables(h, g);
    forall u | u in g.tasks ensures TaskNames(g, u) {
      assert TaskNames(h, u);
    }
    forall m | m in g.msgs ensures MsgNames(g, m) {
      assert MsgNames(h, m);
    }
    forall d | 0 <= d < |h.slots| ensures HeldAt(g, d) {
      assert HeldAt(h, d);
      TaskMoved(h.tasks, t, g.tasks[t], d);
    }
  }

  lemma HeapTakeMsg(h: Heap, m: MsgId, i: nat)
    requires HeapOk(h) && m in h.msgs
    ensures HeapOk(TakeMsg(h, m, i))
  {
    var g := TakeMsg(h, m, i);
    SameTables(h, g);
    forall t | t in g.tasks ensures TaskNames(g, t) {
      assert TaskNames(h, t);
    }
    forall u | u in g.msgs ensures MsgNames(g, u) {
      assert MsgNames(h, u);
    }
    forall d | 0 <= d < |h.slots| ensures HeldAt(g, d) {
      assert HeldAt(h, d);
      MsgMoved(h.msgs, m, g.msgs[m], d);
    }
  }

  /** The slot part of conn_release: it is kept, or freed when nothing refers to it any more. */
  lemma SlotRelease(h: Heap, c: ConnId, base: bool)
    requires !h.fault && TablesOk(h) && Live(h, c)
    requires if base then Early(h.slots[c].base) || h.slots[c].base.BeingClosed? else h.slots[c].held >= 1
    ensures var g := ReleaseConn(h, c, base);
            && !g.fault && TablesOk(g)
            && |g.slots| == |h.slots| && g.tasks == h.tasks && g.msgs == h.msgs
            && (forall d | 0 <= d < |h.slots| && d != c :: g.slots[d] == h.slots[d])
            && g.slots[c].held == h.slots[c].held - One(!base)
  {
    SlotFacts(h, c);
    var g := ReleaseConn(h, c, base);
    if h.slots[c].conn.fd >= 0 && !g.slots[c].live {
      SlotClose(h, c, g.slots[c]);
    } else {
      SlotChange(h, c, g.slots[c]);
    }
  }

  lemma HeapReleaseBase(h: Heap, c: ConnId)
    requires HeapOk(h) && Live(h, c) && (Early(h.slots[c].base) || h.slots[c].base.BeingClosed?)
    ensures HeapOk(ReleaseConn(h, c, true))
  {
    SlotRelease(h, c, true);
    HeldSlots(h, ReleaseConn(h, c, true));
  }

  /** The task goes and its reference with it. */
  lemma HeapDropTask(h: Heap, t: TaskId)
    requires HeapOk(h) && t in h.tasks
    ensures HeapOk(DestroyTask(h, t))
  {
    var k := h.(tasks := h.tasks - {t});
    TaskNamesLive(h, t);
    SameTables(h, k);
    SlotRelease(k, h.tasks[t].conn, false);
    var g := DestroyTask(h, t);
    forall u | u in g.tasks ensures TaskNames(g, u) {
      assert TaskNames(h, u);
    }
    forall m | m in g.msgs ensures MsgNames(g, m) {
      assert MsgNames(h, m);
    }
    forall d | 0 <= d < |h.slots| ensures HeldAt(g, d) {
      assert HeldAt(h, d);
      TaskRemoved(h.tasks, t, d);
    }
  }

  lemma HeapDropMsg(h: Heap, m: MsgId)
    requires HeapOk(h) && m in h.msgs
    ensures HeapOk(DestroyMsg(h, m))
  {
    var k := h.(msgs := h.msgs - {m});
    MsgNamesLive(h, m);
    SameTables(h, k);
    SlotRelease(k, h.msgs[m].conn, false);
    var g := DestroyMsg(h, m);
    forall t | t in g.tasks ensures TaskNames(g, t) {
      assert TaskNames(h, t);
    }
    forall u | u in g.msgs ensures MsgNames(g, u) {
      assert MsgNames(h, u);
    }
    forall d | 0 <= d < |h.slots| ensures HeldAt(g, d) {
      assert HeldAt(h, d);
      MsgRemoved(h.msgs, m, d);
    }
  }

  /** Closing a descriptor that no connection has. */
  lemma HeapCloseStray(h: Heap, fd: int)
    requires HeapOk(h) && fd >= 0
    requires forall c | 0 <= c < |h.slots| :: h.slots[c].conn.fd != fd
    ensures HeapOk(CloseFd(h, fd)) && CloseFd(h, fd).reg == h.reg
  {
    var g := CloseFd(h, fd);
    forall k | k in h.reg ensures k in g.reg && RegAt(g, k) {
      assert RegAt(h, k);
    }
    assert g.reg == h.reg;
    forall c | 0 <= c < |g.slots| ensures SlotAt(g, c) && FdAt(g, c) && Watched(g, c) {
      assert SlotAt(h, c) && FdAt(h, c) && Watched(h, c);
    }
    forall c, d | 0 <= c < |g.slots| && 0 <= d < |g.slots| ensures FdsApart(g, c, d) {
      assert FdsApart(h, c, d);
    }
    HeldSlots(h, g);
  }
}

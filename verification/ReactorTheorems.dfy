/** What the invariant means for a reachable server: exact counts, no dangling pointer, freed once. */
module ReactorTheorems {
  import opened Connections
  import opened IoThreads
  import opened Reactor
  import opened ReactorHeap
  import opened ReactorOwners
  import opened ReactorSafety

  /** References to `c` other than its base reference. */
  ghost function Holders(h: Heap, c: ConnId): nat
    requires c < |h.slots|
  {
    |TasksOf(h.tasks, c)| + |MsgsOf(h.msgs, c)| + h.slots[c].lost
  }

  /**
    In every reachable state the count of a live connection is its base reference
    plus the tasks and messages that name it plus the references whose task could
    not be built; each of these is where the records say it is; and a connection
    that was not closed still has its base reference.
   */
  lemma RefCountsAreExact(s: State, c: ConnId)
    requires Reachable(s) && !s.misled && Live(s.heap, c)
    ensures var x := s.heap.slots[c];
            && x.conn.refCount == One(x.base != Released) + Holders(s.heap, c)
            && x.conn.refCount >= 1
            && BaseFound(s, c, x.base)
            && (!x.conn.closing ==> x.base != Released)
    ensures forall t | t in TasksOf(s.heap.tasks, c) :: TaskFound(s, t, s.heap.tasks[t].at)
    ensures forall m | m in MsgsOf(s.heap.msgs, c) :: MsgFound(s, m, s.heap.msgs[m].at)
  {
    ReachableInv(s);
    SlotFacts(s.heap, c);
    assert HeldAt(s.heap, c) && BaseAt(s, c);
    forall t | t in TasksOf(s.heap.tasks, c) ensures TaskFound(s, t, s.heap.tasks[t].at) {
      assert TaskAtOk(s, t);
    }
    forall m | m in MsgsOf(s.heap.msgs, c) ensures MsgFound(s, m, s.heap.msgs[m].at) {
      assert MsgAtOk(s, m);
    }
  }

  ghost predicate InQueue(s: State, c: ConnId) {
    exists t :: t in s.queue && t in s.heap.tasks && s.heap.tasks[t].conn == c
  }

  /** A task in the hands of a worker, or of an I/O thread that submits it, names `c`. */
  predicate InTask(s: State, c: ConnId) {
    || (exists w | 0 <= w < |s.workers| ::
          !s.workers[w].Free? && s.workers[w].task in s.heap.tasks && s.heap.tasks[s.workers[w].task].conn == c)
    || (exists i | 0 <= i < |s.ios| ::
          s.ios[i].point.Submitting? && s.ios[i].point.task in s.heap.tasks
          && s.heap.tasks[s.ios[i].point.task].conn == c)
  }

  /** A message that is queued, or that an I/O thread handles, names `c`. */
  predicate InMail(s: State, c: ConnId) {
    || (exists i, m | 0 <= i < |s.ios| && m in s.ios[i].inbox :: m in s.heap.msgs && s.heap.msgs[m].conn == c)
    || (exists i | 0 <= i < |s.ios| ::
          (s.ios[i].point.Handling? || s.ios[i].point.Dropping?) && s.ios[i].point.msg in s.heap.msgs
          && s.heap.msgs[s.ios[i].point.msg].conn == c)
  }

  /** `c` waits in a hand-off pipe or is named by an event still to be dispatched. */
  predicate InEvents(s: State, c: ConnId) {
    exists i | 0 <= i < |s.ios| :: c in s.ios[i].pipe || c in Named(RestOf(s.ios[i].point))
  }

  predicate InLoop(s: State, c: ConnId) {
    exists k | k in s.heap.reg :: s.heap.reg[k].conn == c
  }

  /** A program point that goes on to use `c` without testing it first. */
  predicate Uses(p: IoPoint, c: ConnId) {
    match p
    case Adding(d, _) => d == c
    case InRead(f) => f.conn == c
    case Submitting(_, f) => f.conn == c
    case InWrite(f) => f.conn == c
    case InError(f) => f.conn == c
    case Unregistering(_, f, _) => f.conn == c
    case Unreferencing(f, _) => f.conn == c
    case _ => false
  }

  predicate InUse(s: State, c: ConnId) {
    || (s.accept.Handing? && s.accept.conn == c)
    || (exists i | 0 <= i < |s.ios| :: Uses(s.ios[i].point, c))
  }

  /**
    A connection that a queue, a pending event, a registration or a program point
    can still reach.  The one pointer left out is the one that `io_thread_run`
    tests again after a handler; RecheckIsSafeIff is about it.
   */
  ghost predicate Referenced(s: State, c: ConnId) {
    InQueue(s, c) || InTask(s, c) || InMail(s, c) || InEvents(s, c) || InLoop(s, c) || InUse(s, c)
  }

  /**
    No interleaving dereferences a freed object, other than by the test that
    RecheckIsSafeIff describes, and whatever else can still be reached is allocated.
   */
  lemma NothingDangles(s: State)
    requires Reachable(s) && !s.misled
    ensures !s.heap.fault
    ensures forall k | 0 <= k < |s.queue| :: s.queue[k] in s.heap.tasks
    ensures forall w | 0 <= w < |s.workers| && !s.workers[w].Free? :: s.workers[w].task in s.heap.tasks
    ensures forall i, k | 0 <= i < |s.ios| && 0 <= k < |s.ios[i].inbox| :: s.ios[i].inbox[k] in s.heap.msgs
    ensures forall i | 0 <= i < |s.ios| && s.ios[i].point.Submitting? :: s.ios[i].point.task in s.heap.tasks
    ensures forall i | 0 <= i < |s.ios| && (s.ios[i].point.Handling? || s.ios[i].point.Dropping?) ::
              s.ios[i].point.msg in s.heap.msgs
    ensures forall c: ConnId | Referenced(s, c) :: Live(s.heap, c)
  {
    ReachableInv(s);
    forall k | 0 <= k < |s.queue| ensures s.queue[k] in s.heap.tasks {
      assert QueueAt(s.heap, s.queue, k);
    }
    forall w | 0 <= w < |s.workers| && !s.workers[w].Free? ensures s.workers[w].task in s.heap.tasks {
      WorkerFacts(s, w);
    }
    forall i, k | 0 <= i < |s.ios| && 0 <= k < |s.ios[i].inbox| ensures s.ios[i].inbox[k] in s.heap.msgs {
      IoFacts(s, i);
      assert InboxAt(s.heap, i, s.ios[i].inbox, k);
    }
    forall i | 0 <= i < |s.ios| ensures PointOk(s.heap, i, s.ios[i].point) {
      IoFacts(s, i);
    }
    forall c: ConnId | Referenced(s, c) ensures Live(s.heap, c) {
      ReferencedIsLive(s, c);
    }
  }

  lemma ReferencedIsLive(s: State, c: ConnId)
    requires Inv(s) && Referenced(s, c)
    ensures Live(s.heap, c)
  {
    var h := s.heap;
    if InQueue(s, c) {
      var t :| t in s.queue && t in h.tasks && h.tasks[t].conn == c;
      TaskNamesLive(h, t);
    } else if InTask(s, c) {
      var t :| t in h.tasks && h.tasks[t].conn == c;
      TaskNamesLive(h, t);
    } else if InMail(s, c) {
      var m :| m in h.msgs && h.msgs[m].conn == c;
      MsgNamesLive(h, m);
    } else if InLoop(s, c) {
      var k :| k in h.reg && h.reg[k].conn == c;
      assert RegAt(h, k);
      SlotFacts(h, c);
    } else if InEvents(s, c) {
      EventIsLive(s, c);
    } else {
      UsedIsLive(s, c);
    }
  }

  lemma EventIsLive(s: State, c: ConnId)
    requires SlotsOk(s.heap) && ThreadsOk(s) && InEvents(s, c)
    ensures Live(s.heap, c)
  {
    var h := s.heap;
    var i :| 0 <= i < |s.ios| && (c in s.ios[i].pipe || c in Named(RestOf(s.ios[i].point)));
    IoFacts(s, i);
    if c in s.ios[i].pipe {
      var k :| 0 <= k < |s.ios[i].pipe| && s.ios[i].pipe[k] == c;
      assert PipeAt(h, i, s.ios[i].pipe, k);
    } else {
      var named := Named(RestOf(s.ios[i].point));
      var k :| 0 <= k < |named| && named[k] == c;
      assert BatchOk(h, i, RestOf(s.ios[i].point));
      assert NamedAt(h, i, named, k);
    }
    SlotFacts(h, c);
  }

  lemma UsedIsLive(s: State, c: ConnId)
    requires SlotsOk(s.heap) && ThreadsOk(s) && InUse(s, c)
    ensures Live(s.heap, c)
  {
    if i :| 0 <= i < |s.ios| && Uses(s.ios[i].point, c) {
      IoFacts(s, i);
    }
    SlotFacts(s.heap, c);
  }

  /** What no step undoes: a freed connection stays freed, and a lost reference stays lost. */
  predicate Later(h: Heap, g: Heap, c: ConnId) {
    c < |h.slots| ==>
      && c < |g.slots|
      && (!h.slots[c].live ==> !g.slots[c].live)
      && g.slots[c].lost >= h.slots[c].lost
  }

  lemma AcceptLater(s: State, a: AcceptAction, c: ConnId)
    requires CanAccept(s, a)
    ensures Later(s.heap, DoAccept(s, a).heap, c)
  {
  }

  lemma CloseLater(s: State, i: nat, h: Heap, f: Frame, ret: Return, c: ConnId)
    requires i < |s.ios|
    ensures Later(h, BeginClose(s, i, h, f, ret).heap, c)
  {
  }

  lemma EndLater(s: State, i: nat, f: Frame, x: Conn, toRead: bool, c: ConnId)
    requires i < |s.ios| && f.conn < |s.heap.slots|
    ensures Later(s.heap, EndWrite(s, i, f, x, toRead).heap, c)
  {
  }

  lemma WriteLater(s: State, i: nat, answers: seq<WriteResult>, c: ConnId)
    requires i < |s.ios| && s.ios[i].point.InWrite?
    ensures Later(s.heap, DoWrite(s, i, answers).heap, c)
  {
    var h, f := s.heap, s.ios[i].point.f;
    var u := WriteLogged(s, i, answers);
    if Live(h, f.conn) {
      var x := h.slots[f.conn].conn;
      var r := WriteLoop(x, answers);
      if |x.out| == 0 {
        EndLater(u, i, f, x.(state := ConnState.Reading), true, c);
      } else {
        match r.outcome
        case Finished => EndLater(u, i, f, x.(out := [], pos := 0, state := ConnState.Reading), true, c);
        case Blocked => EndLater(u, i, f, x.(pos := r.pos), false, c);
        case Broken => CloseLater(u, i, SetConn(h, f.conn, x.(pos := r.pos)), f, ToWrite, c);
      }
    }
  }

  lemma ReadLater(s: State, i: nat, x: IoAction, c: ConnId)
    requires i < |s.ios| && CanIo(s, i, x) && (x.Read? || x.ReadNoTask? || x.ReadNoPayload?)
    ensures Later(s.heap, DoIo(s, i, x).heap, c)
  {
    var fate := if x.Read? then Passed else if x.ReadNoTask? then NoTask else NoPayload;
    var h := Receive(s, i, x.data, fate).heap;
    assert Later(s.heap, h, c);
    AcquireLater(h, s.ios[i].point.f.conn, !x.Read?, c);
  }

  lemma AcquireLater(h: Heap, d: ConnId, orphan: bool, c: ConnId)
    ensures Later(h, AcquireConn(h, d, orphan), c)
  {
  }

  lemma ReleaseLater(h: Heap, d: ConnId, base: bool, c: ConnId)
    ensures Later(h, ReleaseConn(h, d, base), c)
    ensures ReleaseConn(h, d, base).tasks == h.tasks
  {
  }

  lemma DropLater(s: State, i: nat, x: IoAction, c: ConnId)
    requires i < |s.ios| && CanIo(s, i, x) && (x.AddFails? || x.DropMsg? || x.Unreference?)
    ensures Later(s.heap, DoIo(s, i, x).heap, c)
  {
    var h := s.heap;
    match x
    case AddFails => ReleaseLater(h, s.ios[i].point.conn, true, c);
    case Unreference => ReleaseLater(h, s.ios[i].point.f.conn, true, c);
    case DropMsg =>
      var m := s.ios[i].point.msg;
      if m in h.msgs {
        ReleaseLater(h.(msgs := h.msgs - {m}), h.msgs[m].conn, false, c);
      }
  }

  lemma IoLater(s: State, i: nat, x: IoAction, c: ConnId)
    requires i < |s.ios| && CanIo(s, i, x)
    ensures Later(s.heap, DoIo(s, i, x).heap, c)
  {
    if x.Read? || x.ReadNoTask? || x.ReadNoPayload? {
      ReadLater(s, i, x, c);
    } else if x.AddFails? || x.DropMsg? || x.Unreference? {
      DropLater(s, i, x, c);
    } else {
      match x
      case Write(answers) => WriteLater(s, i, answers, c);
      case ReadClose => CloseLater(s, i, s.heap, s.ios[i].point.f, ToRead, c);
      case Hangup => CloseLater(s, i, s.heap, s.ios[i].point.f, ToDone, c);
      case _ =>
    }
  }

  lemma WorkerLater(s: State, w: nat, y: WorkerAction, c: ConnId)
    requires w < |s.workers| && CanWorker(s, w, y)
    ensures Later(s.heap, DoWorker(s, w, y).heap, c)
  {
  }

  lemma StepLater(s: State, a: Action, c: ConnId)
    requires Can(s, a)
    ensures Later(s.heap, Do(s, a).heap, c)
  {
    match a
    case ByAccept(b) => AcceptLater(s, b, c);
    case ByIo(i, x) => IoLater(s, i, x, c);
    case ByWorker(w, y) => WorkerLater(s, w, y, c);
    case Shutdown =>
  }

  lemma {:induction false} RunLater(s: State, acts: seq<Action>, t: State, c: ConnId)
    requires Run(s, acts, t)
    ensures Later(s.heap, t.heap, c)
    decreases |acts|
  {
    if acts != [] {
      StepLater(s, acts[0], c);
      RunLater(Do(s, acts[0]), acts[1..], t, c);
    }
  }

  lemma RunCons(s: State, a: Action, acts: seq<Action>, t: State)
    requires Can(s, a) && Run(Do(s, a), acts, t)
    ensures Run(s, [a] + acts, t)
  {
    assert ([a] + acts)[1..] == acts;
  }

  lemma {:induction false} RunTo(s0: State, acts: seq<Action>, s: State, more: seq<Action>, t: State)
    requires Run(s0, acts, s) && Run(s, more, t)
    ensures Run(s0, acts + more, t)
    decreases |acts|
  {
    if acts == [] {
      assert acts + more == more;
    } else {
      RunTo(Do(s0, acts[0]), acts[1..], s, more, t);
      RunCons(s0, acts[0], acts[1..] + more, t);
      assert [acts[0]] + (acts[1..] + more) == acts + more;
    }
  }

  lemma ReachableRun(s: State, acts: seq<Action>, t: State)
    requires Reachable(s) && Run(s, acts, t)
    ensures Reachable(t)
  {
    var s0: State, before: seq<Action> :| Init(s0) && Run(s0, before, s);
    RunTo(s0, before, s, acts, t);
  }

  /**
    Every connection ever created is live and was never freed, or is gone and was
    freed exactly once with its descriptor closed exactly once.  It is gone exactly
    when its base reference was released and nothing else refers to it.
   */
  lemma FreedExactlyOnce(s: State, c: ConnId)
    requires Reachable(s) && !s.misled && c < |s.heap.slots|
    ensures var x := s.heap.slots[c];
            && x.frees == (if x.live then 0 else 1)
            && x.closes == (if x.live && !x.conn.closing then 0 else 1)
            && (!x.live <==> x.base == Released && Holders(s.heap, c) == 0)
  {
    ReachableInv(s);
    SlotFacts(s.heap, c);
    assert HeldAt(s.heap, c);
  }

  /** A freed connection is never freed again and never comes back, whatever happens next. */
  lemma FreedForGood(s: State, acts: seq<Action>, t: State, c: ConnId)
    requires Reachable(s) && c < |s.heap.slots| && !s.heap.slots[c].live && Run(s, acts, t) && !t.misled
    ensures c < |t.heap.slots| && !t.heap.slots[c].live && t.heap.slots[c].frees == 1
  {
    RunLater(s, acts, t, c);
    ReachableRun(s, acts, t);
    FreedExactlyOnce(t, c);
  }

  // ---- The validity test after a handler ---------------------------------------

  /** The connection whose handler just returned in thread `i`. */
  predicate JustHandled(s: State, i: nat) {
    i < |s.ios| && (s.ios[i].point.AfterRead? || s.ios[i].point.AfterWrite?)
  }

  /**
    After a handler the I/O thread tests the connection again.  The test reads
    allocated memory exactly when the handler left the connection registered or
    something else still refers to it; otherwise the object is already freed.
   */
  lemma RecheckIsSafeIff(s: State, i: nat, guess: bool)
    requires Reachable(s) && !s.misled && JustHandled(s, i)
    ensures var c := s.ios[i].point.f.conn;
            && c < |s.heap.slots|
            && (Live(s.heap, c) <==> s.heap.slots[c].base == Registered(i) || Holders(s.heap, c) > 0)
            && (DoRecheck(s, i, guess).stale == s.stale <==> Live(s.heap, c))
            && (DoRecheck(s, i, guess).misled <==> !Live(s.heap, c) && guess)
  {
    ReachableInv(s);
    IoFacts(s, i);
    FreedExactlyOnce(s, s.ios[i].point.f.conn);
  }

  /**
    A read or write handler that closed its connection is followed by that test,
    which reads freed memory exactly when the handler dropped the last reference.
   */
  lemma ClosedIsTested(s: State, i: nat, guess: bool)
    requires Reachable(s) && !s.misled && i < |s.ios| && s.ios[i].point.Unreferencing? && !s.ios[i].point.ret.ToDone?
    ensures var t, c := DoUnreference(s, i), s.ios[i].point.f.conn;
            && JustHandled(t, i) && c < |s.heap.slots|
            && DoRecheck(t, i, guess).stale == (if Holders(s.heap, c) == 0 then s.stale + [c] else s.stale)
  {
    var t, c := DoUnreference(s, i), s.ios[i].point.f.conn;
    ReachableInv(s);
    IoFacts(s, i);
    SlotFacts(s.heap, c);
    ReachStep(s, ByIo(i, Unreference));
    RecheckIsSafeIff(t, i, guess);
  }

  /** No run is misled before it has tested a freed connection; so one that never does is covered entirely. */
  lemma {:induction false} MisledTestedFreed(s: State, acts: seq<Action>, t: State)
    requires Run(s, acts, t) && (s.misled ==> s.stale != [])
    ensures t.misled ==> t.stale != []
    decreases |acts|
  {
    if acts != [] {
      StaleGrows(s, acts[0]);
      MisledTestedFreed(Do(s, acts[0]), acts[1..], t);
    }
  }

  lemma StaleGrows(s: State, a: Action)
    requires Can(s, a)
    ensures s.stale <= Do(s, a).stale
    ensures Do(s, a).misled ==> s.misled || Do(s, a).stale != []
  {
    match a
    case ByAccept(b) => assert DoAccept(s, b).stale == s.stale && DoAccept(s, b).misled == s.misled;
    case ByIo(i, x) => IoStale(s, i, x);
    case ByWorker(w, y) => WorkerStale(s, w, y);
    case Shutdown =>
  }

  lemma IoStale(s: State, i: nat, x: IoAction)
    requires i < |s.ios| && CanIo(s, i, x)
    ensures !x.Recheck? ==> DoIo(s, i, x).stale == s.stale && DoIo(s, i, x).misled == s.misled
    ensures s.stale <= DoIo(s, i, x).stale
    ensures DoIo(s, i, x).misled ==> s.misled || DoIo(s, i, x).stale != []
  {
  }

  lemma WorkerStale(s: State, w: nat, y: WorkerAction)
    requires w < |s.workers| && CanWorker(s, w, y)
    ensures DoWorker(s, w, y).stale == s.stale && DoWorker(s, w, y).misled == s.misled
  {
  }

  lemma ReachStep(s: State, a: Action)
    requires Reachable(s) && Can(s, a)
    ensures Reachable(Do(s, a))
  {
    var t := Do(s, a);
    assert Run(t, [], t) && [a] + [] == [a];
    RunCons(s, a, [], t);
    ReachableRun(s, [a], t);
  }

  // ---- A run that tests a freed connection ------------------------------------

  /** A server with one I/O thread and one worker, after its first connection was created on descriptor 5. */
  function Scene(slot: Slot, fds: set<int>, reg: map<(nat, int), Reg>, accept: AcceptPoint, point: IoPoint,
                 pipe: seq<ConnId>): State {
    State(Heap([slot], map[], map[], fds, reg, false), 0, 0, accept, [Io(point, pipe, [], 0)], [Free], [], false,
          [], false, [[]], [Wire([], [])], [], 0, {}, {})
  }

  function NewSlot(base: Base): Slot { Slot(Created(5, 0), true, base, 0, 0, 0, 0) }

  /** The one connection, reported readable, and hung up if `e`. */
  function OneFrame(e: bool): Frame { Frame(0, false, e, []) }

  const ONE_REG: map<(nat, int), Reg> := map[(0, 5) := Reg(0, false)]

  lemma Then(s: State, a: Action, t: State)
    requires Reachable(s) && Can(s, a) && t == Do(s, a)
    ensures Reachable(t)
  {
    ReachStep(s, a);
  }

  lemma SceneCreated()
    ensures Reachable(Scene(NewSlot(AtAccept), {5}, map[], Handing(0, 0, 5), Polling, []))
  {
    var s := State(Heap([], map[], map[], {}, map[], false), 0, 0, Accepting, [Io(Polling, [], [], 0)], [Free], [],
                   false, [], false, [], [], [], 0, {}, {});
    assert Init(s) && Run(s, [], s);
    var s1 := s.(heap := s.heap.(openFds := {5}), accept := Accepted(5));
    assert s.heap.openFds + {5} == {5};
    Then(s, ByAccept(Accept(5)), s1);
    Then(s1, ByAccept(Create(0)), Scene(NewSlot(AtAccept), {5}, map[], Handing(0, 0, 5), Polling, []));
  }

  lemma ScenePiped()
    ensures Reachable(Scene(NewSlot(InPipe(0)), {5}, map[], Accepting, Polling, [0]))
  {
    SceneCreated();
    var s2 := Scene(NewSlot(AtAccept), {5}, map[], Handing(0, 0, 5), Polling, []);
    assert s2.ios[0].pipe + [0] == [0];
    Then(s2, ByAccept(HandOff), Scene(NewSlot(InPipe(0)), {5}, map[], Accepting, Polling, [0]));
  }

  lemma SceneHanded()
    ensures Reachable(Scene(NewSlot(BeingAdded(0)), {5}, map[], Accepting, Adding(0, []), []))
  {
    ScenePiped();
    var s3 := Scene(NewSlot(InPipe(0)), {5}, map[], Accepting, Polling, [0]);
    assert Named([PipeReady]) == [] + Named([]) == [];
    var s4 := Scene(NewSlot(InPipe(0)), {5}, map[], Accepting, Dispatch([PipeReady]), [0]);
    Then(s3, ByIo(0, Poll([PipeReady])), s4);
    assert s4.ios[0].pipe[1..] == [];
    Then(s4, ByIo(0, Next), Scene(NewSlot(BeingAdded(0)), {5}, map[], Accepting, Adding(0, []), []));
  }

  lemma SceneRegistered()
    ensures Reachable(Scene(NewSlot(Registered(0)), {5}, ONE_REG, Accepting, Polling, []))
  {
    SceneHanded();
    var s5 := Scene(NewSlot(BeingAdded(0)), {5}, map[], Accepting, Adding(0, []), []);
    var s6 := Scene(NewSlot(Registered(0)), {5}, ONE_REG, Accepting, Dispatch([]), []);
    Then(s5, ByIo(0, Add), s6);
    Then(s6, ByIo(0, Next), Scene(NewSlot(Registered(0)), {5}, ONE_REG, Accepting, Polling, []));
  }

  function SceneInRead(e: bool): State {
    Scene(NewSlot(Registered(0)), {5}, ONE_REG, Accepting, InRead(OneFrame(e)), [])
  }

  lemma SceneReading(e: bool)
    ensures Reachable(SceneInRead(e))
  {
    SceneRegistered();
    var s7 := Scene(NewSlot(Registered(0)), {5}, ONE_REG, Accepting, Polling, []);
    var event := Ready(0, true, false, e);
    assert Named([event]) == [0] + Named([]) == [0];
    assert (0, 5) in s7.heap.reg && s7.heap.reg[(0, 5)].conn == 0;
    var s8 := Scene(NewSlot(Registered(0)), {5}, ONE_REG, Accepting, Dispatch([event]), []);
    Then(s7, ByIo(0, Poll([event])), s8);
    assert [event][1..] == [] && s8.ios[0].point.batch[0] == event;
    Then(s8, ByIo(0, Next), SceneInRead(e));
  }

  /** The client closed the connection: its descriptor is closed, its base reference is not dropped yet. */
  function SceneMarked(e: bool): State {
    var x := Slot(Marked(Created(5, 0)), true, BeingClosed(0), 0, 0, 0, 1);
    Scene(x, {}, map[], Accepting, Unregistering(5, OneFrame(e), ToRead), [])
  }

  lemma SceneClosing(e: bool)
    ensures Reachable(SceneMarked(e))
  {
    SceneReading(e);
    Then(SceneInRead(e), ByIo(0, ReadClose), SceneMarked(e));
  }

  /** Nothing else referred to the connection: it was freed before the test. */
  function SceneFreed(e: bool): State {
    var gone := Slot(Dropped(Marked(Created(5, 0))), false, Released, 0, 0, 1, 1);
    Scene(gone, {}, map[], Accepting, AfterRead(OneFrame(e)), [])
  }

  lemma SceneClosed(e: bool)
    ensures Reachable(SceneFreed(e))
  {
    SceneClosing(e);
    var s11 := Scene(SceneMarked(e).heap.slots[0], {}, map[], Accepting, Unreferencing(OneFrame(e), ToRead), []);
    Then(SceneMarked(e), ByIo(0, Unregister), s11);
    Then(s11, ByIo(0, Unreference), SceneFreed(e));
  }

  /** When the client closes an idle connection, the test reads freed memory. */
  lemma RecheckCanReadFreedMemory(guess: bool) returns (s: State)
    ensures Reachable(s) && s.stale == [0] && s.misled == guess
  {
    SceneClosed(false);
    s := Do(SceneFreed(false), ByIo(0, Recheck(guess)));
    ReachStep(SceneFreed(false), ByIo(0, Recheck(guess)));
  }

  /** If the client also hung up and the freed memory reads as open, the connection is closed a second time. */
  lemma MisledRunCanFault() returns (s: State)
    ensures Reachable(s) && s.heap.fault
  {
    SceneClosed(true);
    var s12 := SceneFreed(true);
    var s13 := Do(s12, ByIo(0, Recheck(true)));
    assert s13.ios[0].point == InError(OneFrame(true));
    Then(s12, ByIo(0, Recheck(true)), s13);
    s := Do(s13, ByIo(0, Hangup));
    Then(s13, ByIo(0, Hangup), s);
  }
}

/** When a closed connection is never freed: exactly when a chunk met one of two failures. */
module ReactorLeaks {
  import opened IoThreads
  import opened Reactor
  import opened ReactorHeap
  import opened ReactorOwners
  import opened ReactorIoSteps
  import opened ReactorSafety
  import opened ReactorTheorems
  import opened ReactorFlow

  // ---- References that are never given back -----------------------------------

  /** A reference taken for a task whose payload could not be allocated keeps the connection forever. */
  lemma LostReferencePins(s: State, acts: seq<Action>, t: State, c: ConnId)
    requires Reachable(s) && c < |s.heap.slots| && s.heap.slots[c].lost > 0 && Run(s, acts, t) && !t.misled
    ensures Live(t.heap, c)
  {
    RunLater(s, acts, t, c);
    ReachableRun(s, acts, t);
    FreedExactlyOnce(t, c);
  }

  /** Only reading and submitting touch tasks in an I/O thread. */
  lemma IoLeakStays(s: State, i: nat, x: IoAction, t: TaskId)
    requires Inv(s) && i < |s.ios| && CanIo(s, i, x) && TaskIs(s.heap, t, Leaked)
    ensures var g := DoIo(s, i, x).heap; TaskIs(g, t, Leaked) && g.tasks[t].conn == s.heap.tasks[t].conn
  {
    if MovesNoBytes(x) {
      QuietIo(s, i, x);
    } else if x.Submit? || x.SubmitRefused? {
      SubmitLeakStays(s, i, t);
    } else {
      ReadLeakStays(s, i, x.data, t);
    }
  }

  lemma ReadLeakStays(s: State, i: nat, data: string, t: TaskId)
    requires ObjectsOk(s) && i < |s.ios| && s.ios[i].point.InRead? && TaskIs(s.heap, t, Leaked)
    ensures t in DoRead(s, i, data).heap.tasks && DoRead(s, i, data).heap.tasks[t] == s.heap.tasks[t]
    ensures DoReadNoTask(s, i, data).heap.tasks == DoReadNoPayload(s, i, data).heap.tasks == s.heap.tasks
  {
    FreshTask(s);
  }

  lemma SubmitLeakStays(s: State, i: nat, t: TaskId)
    requires ThreadsOk(s) && i < |s.ios| && s.ios[i].point.Submitting? && TaskIs(s.heap, t, Leaked)
    ensures t in DoSubmit(s, i).heap.tasks && t in DoSubmitRefused(s, i).heap.tasks
    ensures DoSubmit(s, i).heap.tasks[t] == DoSubmitRefused(s, i).heap.tasks[t] == s.heap.tasks[t]
  {
    IoFacts(s, i);
  }

  lemma WorkerLeakStays(s: State, w: nat, y: WorkerAction, t: TaskId)
    requires Inv(s) && w < |s.workers| && CanWorker(s, w, y) && TaskIs(s.heap, t, Leaked)
    ensures var g := DoWorker(s, w, y).heap; TaskIs(g, t, Leaked) && g.tasks[t].conn == s.heap.tasks[t].conn
  {
    match y
    case Pop => assert QueueAt(s.heap, s.queue, 0);
    case Finish =>
      WorkerFacts(s, w);
      var h, x := s.heap, s.workers[w].task;
      ReleaseAlone(h.(tasks := h.tasks - {x}), h.tasks[x].conn, false);
    case _ =>
  }

  lemma LeakStays(s: State, a: Action, t: TaskId)
    requires Inv(s) && Can(s, a) && TaskIs(s.heap, t, Leaked)
    ensures TaskIs(Do(s, a).heap, t, Leaked) && Do(s, a).heap.tasks[t].conn == s.heap.tasks[t].conn
  {
    match a
    case ByAccept(b) =>
      if b.HandOffFails? {
        ReleaseAlone(s.heap, s.accept.conn, true);
      }
    case ByIo(i, x) => IoLeakStays(s, i, x, t);
    case ByWorker(w, y) => WorkerLeakStays(s, w, y, t);
    case Shutdown =>
  }

  lemma {:induction false} LeakRun(s: State, acts: seq<Action>, t: State, x: TaskId)
    requires Inv(s) && TaskIs(s.heap, x, Leaked) && Run(s, acts, t) && !t.misled
    ensures TaskIs(t.heap, x, Leaked) && t.heap.tasks[x].conn == s.heap.tasks[x].conn
    ensures Live(t.heap, s.heap.tasks[x].conn)
    decreases |acts|
  {
    if acts == [] {
      TaskNamesLive(s.heap, x);
    } else {
      NeverMisled(Do(s, acts[0]), acts[1..], t);
      LeakStays(s, acts[0], x);
      KeepStep(s, acts[0]);
      LeakRun(Do(s, acts[0]), acts[1..], t, x);
    }
  }

  /** A task refused by a pool that is shutting down is never destroyed, and its connection is never freed. */
  lemma RefusedTaskPins(s: State, acts: seq<Action>, t: State, x: TaskId)
    requires Reachable(s) && TaskIs(s.heap, x, Leaked) && Run(s, acts, t) && !t.misled
    ensures TaskIs(t.heap, x, Leaked) && t.heap.tasks[x].conn == s.heap.tasks[x].conn
    ensures Live(t.heap, s.heap.tasks[x].conn)
  {
    NeverMisled(s, acts, t);
    ReachableInv(s);
    LeakRun(s, acts, t, x);
  }

  // ---- The exact condition -----------------------------------------------------

  /** No thread has anything in its hands, and neither a task nor a new connection is queued. */
  predicate Quiescent(s: State) {
    && s.accept == Accepting && s.queue == []
    && (forall i | 0 <= i < |s.ios| :: s.ios[i].point == Polling && s.ios[i].pipe == [])
    && (forall w | 0 <= w < |s.workers| :: s.workers[w] == Free)
  }

  /** A message for `c` lies in an inbox. */
  predicate Waits(s: State, c: ConnId) {
    exists i, m | 0 <= i < |s.ios| && m in s.ios[i].inbox :: m in s.heap.msgs && s.heap.msgs[m].conn == c
  }

  /** In a quiescent server only refused tasks are left, and messages that lie in an inbox. */
  lemma OnlyLeaksRemain(s: State, c: ConnId)
    requires Inv(s) && Quiescent(s)
    ensures TasksOf(s.heap.tasks, c) == LeakedOf(s.heap.tasks, c)
    ensures MsgsOf(s.heap.msgs, c) == {} <==> !Waits(s, c)
  {
    forall t | t in s.heap.tasks ensures s.heap.tasks[t].at == Leaked {
      assert TaskAtOk(s, t);
    }
    forall m | m in MsgsOf(s.heap.msgs, c) ensures Waits(s, c) {
      assert MsgAtOk(s, m);
      var i := s.heap.msgs[m].at.i;
      assert m in s.ios[i].inbox;
    }
    if Waits(s, c) {
      var i, m :| 0 <= i < |s.ios| && m in s.ios[i].inbox && m in s.heap.msgs && s.heap.msgs[m].conn == c;
      assert m in MsgsOf(s.heap.msgs, c);
    }
  }

  /** Two failures leave a reference behind; a task that could not be allocated does not. */
  predicate Leaky(x: Chunk) { x.fate == NoPayload || x.fate == Refused }

  lemma {:induction false} CountZeroIff(fate: Fate, chunks: seq<Chunk>)
    ensures CountOf(fate, chunks) == 0 <==> forall k | 0 <= k < |chunks| :: chunks[k].fate != fate
  {
    if chunks != [] {
      CountZeroIff(fate, chunks[..|chunks| - 1]);
    }
  }

  /**
    Once the server has come to rest, a connection was freed exactly when it was
    closed, none of the chunks read from it lacked its payload or was refused, and
    no message for it lies in an inbox.
   */
  lemma FreedIffNothingLeaked(s: State, c: ConnId)
    requires Reachable(s) && !s.misled && Quiescent(s) && c < |s.heap.slots|
    ensures |s.chunks| == |s.heap.slots|
    ensures !s.heap.slots[c].live
            <==> && s.heap.slots[c].base == Released && !Waits(s, c)
                 && forall k | 0 <= k < |s.chunks[c]| :: !Leaky(s.chunks[c][k])
    ensures s.heap.slots[c].base == Released || s.heap.slots[c].base.Registered?
  {
    ReachableFlow(s);
    FreedExactlyOnce(s, c);
    OnlyLeaksRemain(s, c);
    assert BaseAt(s, c);
    NoLeakIff(s, c);
  }

  lemma NoLeakIff(s: State, c: ConnId)
    requires FlowOk(s) && c < |s.heap.slots|
    ensures |s.chunks| == |s.heap.slots|
    ensures s.heap.slots[c].lost == 0 && LeakedOf(s.heap.tasks, c) == {}
            <==> forall k | 0 <= k < |s.chunks[c]| :: !Leaky(s.chunks[c][k])
  {
    assert LostAt(s, c);
    CountZeroIff(NoPayload, s.chunks[c]);
    CountZeroIff(Refused, s.chunks[c]);
  }

  /** In any state the references nobody will give back are the chunks that met one of the two failures. */
  lemma LeaksAreCounted(s: State, c: ConnId)
    requires Reachable(s) && !s.misled && c < |s.heap.slots|
    ensures |s.chunks| == |s.heap.slots|
    ensures s.heap.slots[c].lost == CountOf(NoPayload, s.chunks[c])
    ensures |LeakedOf(s.heap.tasks, c)| == CountOf(Refused, s.chunks[c])
  {
    ReachableFlow(s);
    assert LostAt(s, c);
  }

  // ---- Both failures happen ------------------------------------------------------

  /** A read whose payload cannot be allocated loses a reference. */
  lemma ReferenceCanBeLost() returns (s: State)
    ensures Reachable(s) && !s.misled && |s.heap.slots| == 1 && s.heap.slots[0].lost == 1
  {
    SceneReading(false);
    var x := ByIo(0, ReadNoPayload("x"));
    s := Do(SceneInRead(false), x);
    Then(SceneInRead(false), x, s);
  }

  /** A task submitted after the pool's flag was set is refused and leaked. */
  lemma TaskCanBeRefused() returns (s: State)
    ensures Reachable(s) && !s.misled && TaskIs(s.heap, 0, Leaked) && s.heap.tasks[0].conn == 0
  {
    var s2 := TaskMeetsShutdown();
    s := Do(s2, ByIo(0, SubmitRefused));
    Then(s2, ByIo(0, SubmitRefused), s);
  }

  lemma TaskMeetsShutdown() returns (s: State)
    ensures Reachable(s) && !s.misled && s.down && |s.ios| == 1
    ensures s.ios[0].point.Submitting? && s.ios[0].point.task == 0 && 0 in s.heap.tasks && s.heap.tasks[0].conn == 0
  {
    SceneReading(false);
    var s1 := SceneInRead(false).(down := true);
    Then(SceneInRead(false), Shutdown, s1);
    s := DoRead(s1, 0, "x");
    Then(s1, ByIo(0, Read("x")), s);
  }

  // ---- Refusals need the flag ------------------------------------------------------

  predicate UpAt(s: State, c: ConnId) { c < |s.chunks| ==> CountOf(Refused, s.chunks[c]) == 0 }

  ghost predicate NoneRefused(s: State) { forall c: ConnId :: UpAt(s, c) }

  lemma FlagStep(s: State, a: Action)
    requires Can(s, a)
    ensures Do(s, a).down <==> s.down || a == Shutdown
  {
    match a
    case ByAccept(b) => assert DoAccept(s, b).down == s.down;
    case ByIo(i, x) => assert DoIo(s, i, x).down == s.down;
    case ByWorker(w, y) => assert DoWorker(s, w, y).down == s.down;
    case Shutdown =>
  }

  lemma LoggedUp(chunks: seq<seq<Chunk>>, c: ConnId, x: Chunk, d: ConnId)
    requires x.fate != Refused && d < |chunks| && CountOf(Refused, chunks[d]) == 0
    ensures CountOf(Refused, Logged(chunks, c, x)[d]) == 0
  {
    if c == d {
      CountSnoc(Refused, chunks[c], x);
    }
  }

  lemma IoUp(s: State, i: nat, x: IoAction, d: ConnId)
    requires i < |s.ios| && CanIo(s, i, x) && UpAt(s, d) && !s.down
    ensures UpAt(DoIo(s, i, x), d)
  {
    var p := s.ios[i].point;
    if d < |s.chunks| {
      match x
      case Read(data) => LoggedUp(s.chunks, p.f.conn, Chunk(data, Passed), d);
      case ReadNoTask(data) => LoggedUp(s.chunks, p.f.conn, Chunk(data, NoTask), d);
      case ReadNoPayload(data) => LoggedUp(s.chunks, p.f.conn, Chunk(data, NoPayload), d);
      case _ =>
    }
  }

  lemma UpStep(s: State, a: Action)
    requires Can(s, a) && !s.down && NoneRefused(s)
    ensures NoneRefused(Do(s, a))
  {
    forall d: ConnId ensures UpAt(Do(s, a), d) {
      assert UpAt(s, d);
      match a
      case ByAccept(b) =>
      case ByIo(i, x) => IoUp(s, i, x, d);
      case ByWorker(w, y) => assert DoWorker(s, w, y).chunks == s.chunks;
      case Shutdown =>
    }
  }

  lemma {:induction false} UpRun(s: State, acts: seq<Action>, t: State)
    requires Run(s, acts, t) && !t.down
    ensures !s.down && (NoneRefused(s) ==> NoneRefused(t))
    decreases |acts|
  {
    if acts != [] {
      FlagStep(s, acts[0]);
      UpRun(Do(s, acts[0]), acts[1..], t);
      if NoneRefused(s) {
        UpStep(s, acts[0]);
      }
    }
  }

  /** Until the pool's flag is set no task is refused, so nothing but a missing payload leaks. */
  lemma NothingRefusedWhileUp(s: State, c: ConnId)
    requires Reachable(s) && !s.misled && !s.down && c < |s.heap.slots|
    ensures |s.chunks| == |s.heap.slots| && CountOf(Refused, s.chunks[c]) == 0
    ensures LeakedOf(s.heap.tasks, c) == {}
  {
    LeaksAreCounted(s, c);
    var s0: State, acts: seq<Action> :| Init(s0) && Run(s0, acts, s);
    UpRun(s0, acts, s);
    assert UpAt(s, c);
  }
}

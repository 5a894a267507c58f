/** How an I/O thread dispatches an event: which handlers it enters, in which order, and what they do. */
module ReactorDispatch {
  import opened Connections
  import opened IoThreads
  import opened Reactor
  import opened ReactorHeap
  import opened ReactorOwners
  import opened ReactorIoSteps
  import opened ReactorSafety
  import opened ReactorTheorems
  import opened ReactorWires

  datatype Handler = Reads | Writes | Errs

  /** A handler is entered for a connection. */
  datatype Visit = Visit(h: Handler, c: ConnId)

  /** What an event asks for: reading, then writing, then the error branch. */
  function Wanted(c: ConnId, r: bool, w: bool, e: bool): seq<Visit> {
    (if r then [Visit(Reads, c)] else [])
    + (if w then [Visit(Writes, c)] else [])
    + (if e then [Visit(Errs, c)] else [])
  }

  /** The handler that a thread enters by going from `p` to `q`. */
  function Entered(p: IoPoint, q: IoPoint): seq<Visit> {
    if q.InRead? && !p.InRead? && !p.Submitting? then [Visit(Reads, q.f.conn)]
    else if q.InWrite? && !p.InWrite? then [Visit(Writes, q.f.conn)]
    else if q.InError? && !p.InError? then [Visit(Errs, q.f.conn)]
    else []
  }

  /** The thread is busy with one connection's event. */
  predicate Serving(p: IoPoint) {
    || p.InRead? || p.Submitting? || p.AfterRead? || p.InWrite? || p.AfterWrite? || p.InError?
    || p.Unregistering? || p.Unreferencing?
  }

  /** A run during which thread `i` serves one event, and the handlers it enters; other threads may move too. */
  ghost predicate Serves(s: State, acts: seq<Action>, t: State, i: nat, visits: seq<Visit>)
    decreases |acts|
  {
    if acts == [] then t == s && visits == []
    else
      && i < |s.ios| && Serving(s.ios[i].point) && Can(s, acts[0])
      && var u := Do(s, acts[0]);
         && i < |u.ios|
         && var v := Entered(s.ios[i].point, u.ios[i].point);
            v <= visits && Serves(u, acts[1..], t, i, visits[|v|..])
  }

  // ---- One step -------------------------------------------------------------------

  /** The handlers entered before thread `i` is at `p`, when the event has the flags `r` and `w`. */
  function SoFar(p: IoPoint, r: bool, w: bool): seq<Visit>
    requires Serving(p)
  {
    if p.InRead? || p.Submitting? || p.AfterRead? then Wanted(p.f.conn, true, false, false)
    else if p.InWrite? || p.AfterWrite? then Wanted(p.f.conn, r, true, false)
    else if p.InError? then Wanted(p.f.conn, r, w, true)
    else
      match p.ret
      case ToRead => Wanted(p.f.conn, true, false, false)
      case ToWrite => Wanted(p.f.conn, r, true, false)
      case ToDone => Wanted(p.f.conn, r, w, true)
  }

  /** The thread is in a part of the dispatch that the event's flags call for. */
  predicate Called(p: IoPoint, r: bool)
    requires Serving(p)
  {
    if p.InRead? || p.Submitting? || p.AfterRead? then r
    else if p.InWrite? || p.AfterWrite? then p.f.w
    else if p.InError? then p.f.e
    else
      match p.ret
      case ToRead => r
      case ToWrite => p.f.w
      case ToDone => p.f.e
  }

  /** The thread stays on the event and may enter a handler; or it is done, with all or with a closed connection. */
  predicate Onward(p: IoPoint, q: IoPoint, r: bool, open: bool)
    requires Serving(p)
  {
    if Serving(q) then q.f == p.f && Called(q, r) && SoFar(q, r, p.f.w) == SoFar(p, r, p.f.w) + Entered(p, q)
    else
      && q == Dispatch(p.f.rest)
      && (open ==> SoFar(p, r, p.f.w) == Wanted(p.f.conn, r, p.f.w, p.f.e) && !p.f.e)
  }

  lemma OthersStay(s: State, a: Action, i: nat)
    requires Can(s, a) && i < |s.ios| && (a.ByIo? ==> a.i != i)
    ensures |Do(s, a).ios| == |s.ios| && Do(s, a).ios[i].point == s.ios[i].point
  {
    match a
    case ByAccept(b) => assert |DoAccept(s, b).ios| == |s.ios|;
    case ByIo(j, x) => IoKeepsOthers(s, j, x, i);
    case ByWorker(w, y) => assert |DoWorker(s, w, y).ios| == |s.ios|;
    case Shutdown =>
  }

  lemma IoKeepsOthers(s: State, j: nat, x: IoAction, i: nat)
    requires j < |s.ios| && CanIo(s, j, x) && i < |s.ios| && i != j
    ensures |DoIo(s, j, x).ios| == |s.ios| && DoIo(s, j, x).ios[i] == s.ios[i]
  {
    if x.Write? {
      WriteKeepsOthers(s, j, x.answers, i);
    } else if x.Next? {
      NextKeepsOthers(s, j, i);
    } else if x.Drain? || x.Handle? || x.DropMsg? {
      MailKeepsOthers(s, j, x, i);
    } else if x.Read? || x.ReadNoTask? || x.ReadNoPayload? || x.Submit? || x.SubmitRefused? {
      ReadKeepsOthers(s, j, x, i);
    }
  }

  lemma WriteKeepsOthers(s: State, j: nat, answers: seq<WriteResult>, i: nat)
    requires j < |s.ios| && s.ios[j].point.InWrite? && i < |s.ios| && i != j
    ensures |DoWrite(s, j, answers).ios| == |s.ios| && DoWrite(s, j, answers).ios[i] == s.ios[i]
  {
  }

  lemma NextKeepsOthers(s: State, j: nat, i: nat)
    requires j < |s.ios| && s.ios[j].point.Dispatch? && i < |s.ios| && i != j
    ensures |DoNext(s, j).ios| == |s.ios| && DoNext(s, j).ios[i] == s.ios[i]
  {
  }

  lemma MailKeepsOthers(s: State, j: nat, x: IoAction, i: nat)
    requires j < |s.ios| && CanIo(s, j, x) && i < |s.ios| && i != j && (x.Drain? || x.Handle? || x.DropMsg?)
    ensures |DoIo(s, j, x).ios| == |s.ios| && DoIo(s, j, x).ios[i] == s.ios[i]
  {
  }

  lemma ReadKeepsOthers(s: State, j: nat, x: IoAction, i: nat)
    requires j < |s.ios| && CanIo(s, j, x) && i < |s.ios| && i != j
    requires x.Read? || x.ReadNoTask? || x.ReadNoPayload? || x.Submit? || x.SubmitRefused?
    ensures |DoIo(s, j, x).ios| == |s.ios| && DoIo(s, j, x).ios[i] == s.ios[i]
  {
  }

  /** A connection whose base reference was released is not open. */
  lemma ReleasedIsClosed(h: Heap, c: ConnId)
    requires SlotsOk(h) && Owns(h, c, Released)
    ensures !SeesValid(h, c)
  {
    SlotFacts(h, c);
  }

  lemma RecheckOnward(s: State, i: nat, guess: bool, r: bool)
    requires Inv(s) && i < |s.ios| && CanIo(s, i, Recheck(guess)) && !DoRecheck(s, i, guess).misled
    requires Called(s.ios[i].point, r)
    ensures var t := DoRecheck(s, i, guess);
            |t.ios| == |s.ios| && Onward(s.ios[i].point, t.ios[i].point, r, SeesValid(t.heap, s.ios[i].point.f.conn))
  {
  }

  lemma WriteOnward(s: State, i: nat, answers: seq<WriteResult>, r: bool)
    requires Inv(s) && i < |s.ios| && s.ios[i].point.InWrite? && s.ios[i].point.f.w
    ensures var t := DoWrite(s, i, answers);
            |t.ios| == |s.ios| && Onward(s.ios[i].point, t.ios[i].point, r, SeesValid(t.heap, s.ios[i].point.f.conn))
  {
    WritePoints(WriteLogged(s, i, answers), i, answers);
  }

  lemma WritePoints(s: State, i: nat, answers: seq<WriteResult>)
    requires i < |s.ios| && s.ios[i].point.InWrite?
    ensures var t, f := WriteOut(s, i, answers), s.ios[i].point.f;
            && |t.ios| == |s.ios|
            && (t.ios[i].point == AfterWrite(f)
                || (t.ios[i].point.Unregistering? && t.ios[i].point.f == f && t.ios[i].point.ret == ToWrite))
  {
    var h, f := s.heap, s.ios[i].point.f;
    if Live(h, f.conn) {
      var x := h.slots[f.conn].conn;
      var g := SetConn(h, f.conn, x.(pos := WriteLoop(x, answers).pos));
      assert BeginClose(s, i, g, f, ToWrite).ios[i].point.Unregistering?;
    }
  }

  lemma CloseOnward(s: State, i: nat, x: IoAction, r: bool)
    requires Inv(s) && i < |s.ios| && CanIo(s, i, x) && (x.ReadClose? || x.Hangup? || x.Unregister?)
    requires Called(s.ios[i].point, r)
    ensures var t := DoIo(s, i, x);
            |t.ios| == |s.ios| && Onward(s.ios[i].point, t.ios[i].point, r, SeesValid(t.heap, s.ios[i].point.f.conn))
  {
  }

  lemma UnreferenceOnward(s: State, i: nat, r: bool)
    requires Inv(s) && i < |s.ios| && s.ios[i].point.Unreferencing? && Called(s.ios[i].point, r)
    ensures var t := DoUnreference(s, i);
            |t.ios| == |s.ios| && Onward(s.ios[i].point, t.ios[i].point, r, SeesValid(t.heap, s.ios[i].point.f.conn))
  {
    IoFacts(s, i);
    SlotFacts(s.heap, s.ios[i].point.f.conn);
    KeepUnreference(s, i);
    ReleaseBase(s.heap, s.ios[i].point.f.conn, i);
    ReleasedIsClosed(DoUnreference(s, i).heap, s.ios[i].point.f.conn);
  }

  lemma ReadOnward(s: State, i: nat, x: IoAction, r: bool)
    requires Inv(s) && i < |s.ios| && CanIo(s, i, x)
    requires x.Read? || x.ReadNoTask? || x.ReadNoPayload? || x.ReadStop? || x.Submit? || x.SubmitRefused?
    requires Called(s.ios[i].point, r)
    ensures var t := DoIo(s, i, x);
            |t.ios| == |s.ios| && Onward(s.ios[i].point, t.ios[i].point, r, SeesValid(t.heap, s.ios[i].point.f.conn))
  {
  }

  lemma ServeStep(s: State, a: Action, i: nat, r: bool)
    requires Inv(s) && i < |s.ios| && Serving(s.ios[i].point) && Called(s.ios[i].point, r)
    requires Can(s, a) && !Do(s, a).misled
    ensures var t := Do(s, a);
            |t.ios| == |s.ios| && Onward(s.ios[i].point, t.ios[i].point, r, SeesValid(t.heap, s.ios[i].point.f.conn))
  {
    if a.ByIo? && a.i == i {
      match a.x
      case Recheck(guess) => RecheckOnward(s, i, guess, r);
      case Write(answers) => WriteOnward(s, i, answers, r);
      case Unreference => UnreferenceOnward(s, i, r);
      case ReadClose => CloseOnward(s, i, a.x, r);
      case Hangup => CloseOnward(s, i, a.x, r);
      case Unregister => CloseOnward(s, i, a.x, r);
      case Read(_) => ReadOnward(s, i, a.x, r);
      case ReadNoTask(_) => ReadOnward(s, i, a.x, r);
      case ReadNoPayload(_) => ReadOnward(s, i, a.x, r);
      case ReadStop => ReadOnward(s, i, a.x, r);
      case Submit => ReadOnward(s, i, a.x, r);
      case SubmitRefused => ReadOnward(s, i, a.x, r);
      case _ =>
    } else {
      OthersStay(s, a, i);
    }
  }

  // ---- A whole event ----------------------------------------------------------------

  /** What was entered is what was wanted, in order, or its beginning, and then the connection is closed. */
  predicate AsWanted(visits: seq<Visit>, wanted: seq<Visit>, open: bool) {
    visits <= wanted && (open ==> visits == wanted)
  }

  lemma {:induction false} ServeRun(s: State, acts: seq<Action>, t: State, i: nat, visits: seq<Visit>, r: bool)
    requires Inv(s) && !t.misled && Serves(s, acts, t, i, visits)
    requires i < |s.ios| && Serving(s.ios[i].point) && Called(s.ios[i].point, r)
    requires i < |t.ios| && !Serving(t.ios[i].point)
    ensures var f := s.ios[i].point.f;
            && t.ios[i].point == Dispatch(f.rest)
            && AsWanted(SoFar(s.ios[i].point, r, f.w) + visits, Wanted(f.conn, r, f.w, f.e), SeesValid(t.heap, f.conn))
            && (SeesValid(t.heap, f.conn) ==> !f.e)
    decreases |acts|
  {
    var u, p := Do(s, acts[0]), s.ios[i].point;
    var q := u.ios[i].point;
    var v := Entered(p, q);
    ServeNext(s, acts, t, i, visits, r);
    if Serving(q) {
      ServeRun(u, acts[1..], t, i, visits[|v|..], r);
      Regroup(SoFar(p, r, p.f.w), v, visits);
    } else {
      assert acts[1..] == [] && t == u;
      Prefixes(p.f.conn, r, p.f.w, p.f.e);
      assert SoFar(p, r, p.f.w) + visits == SoFar(p, r, p.f.w);
    }
  }

  lemma ServeNext(s: State, acts: seq<Action>, t: State, i: nat, visits: seq<Visit>, r: bool)
    requires Inv(s) && !t.misled && acts != [] && Serves(s, acts, t, i, visits)
    requires i < |s.ios| && Serving(s.ios[i].point) && Called(s.ios[i].point, r)
    ensures var u := Do(s, acts[0]);
            && Inv(u) && |u.ios| == |s.ios|
            && Onward(s.ios[i].point, u.ios[i].point, r, SeesValid(u.heap, s.ios[i].point.f.conn))
  {
    var u := Do(s, acts[0]);
    ServesIsRun(u, acts[1..], t, i, visits[|Entered(s.ios[i].point, u.ios[i].point)|..]);
    NeverMisled(u, acts[1..], t);
    ServeStep(s, acts[0], i, r);
    KeepStep(s, acts[0]);
  }

  lemma Regroup(a: seq<Visit>, v: seq<Visit>, visits: seq<Visit>)
    requires v <= visits
    ensures (a + v) + visits[|v|..] == a + visits
  {
  }

  /** Whatever part of the dispatch ends it, what was entered is a beginning of what was wanted. */
  lemma Prefixes(c: ConnId, r: bool, w: bool, e: bool)
    ensures r ==> Wanted(c, true, false, false) <= Wanted(c, r, w, e)
    ensures w ==> Wanted(c, r, true, false) <= Wanted(c, r, w, e)
    ensures e ==> Wanted(c, r, w, true) == Wanted(c, r, w, e)
  {
  }

  lemma {:induction false} ServesIsRun(s: State, acts: seq<Action>, t: State, i: nat, visits: seq<Visit>)
    requires Serves(s, acts, t, i, visits)
    ensures Run(s, acts, t)
    decreases |acts|
  {
    if acts != [] {
      var u := Do(s, acts[0]);
      ServesIsRun(u, acts[1..], t, i, visits[|Entered(s.ios[i].point, u.ios[i].point)|..]);
    }
  }

  /** Taking up an event enters the first handler that it asks for. */
  lemma TakesUp(s: State, i: nat, c: ConnId, r: bool, w: bool, e: bool, rest: seq<Event>)
    requires Inv(s) && i < |s.ios| && s.ios[i].point == Dispatch([Ready(c, r, w, e)] + rest)
    ensures var u := DoNext(s, i);
            && |u.ios| == |s.ios| && u.heap == s.heap && u.misled == s.misled
            && var q := u.ios[i].point;
               if r || w || e
               then Serving(q) && q.f == Frame(c, w, e, rest) && Called(q, r)
                    && SoFar(q, r, w) == Entered(s.ios[i].point, q)
               else q == Dispatch(rest)
  {
    IoFacts(s, i);
    var batch := s.ios[i].point.batch;
    assert batch[0] == Ready(c, r, w, e) && batch[1..] == rest;
    BatchTail(s.heap, i, batch);
    RegisteredIsValid(s.heap, c, i);
  }

  /**
    From taking up an event until it goes on to the next one, and however the other
    threads interleave, an I/O thread enters the read handler, the write handler and
    the error branch for the event's connection exactly as its flags say, in that
    order, unless one of them closed the connection; and the error branch does.
   */
  lemma EventIsDispatched(s: State, acts: seq<Action>, t: State, i: nat, visits: seq<Visit>,
                          c: ConnId, r: bool, w: bool, e: bool, rest: seq<Event>)
    requires Inv(s) && i < |s.ios| && s.ios[i].point == Dispatch([Ready(c, r, w, e)] + rest)
    requires Serves(DoNext(s, i), acts, t, i, visits) && i < |t.ios| && !Serving(t.ios[i].point) && !t.misled
    ensures t.ios[i].point == Dispatch(rest)
    ensures var q := DoNext(s, i).ios[i].point;
            AsWanted(Entered(s.ios[i].point, q) + visits, Wanted(c, r, w, e), SeesValid(t.heap, c))
    ensures e ==> !SeesValid(t.heap, c)
  {
    var u := DoNext(s, i);
    TakesUp(s, i, c, r, w, e, rest);
    if r || w || e {
      ServesIsRun(u, acts, t, i, visits);
      NeverMisled(u, acts, t);
      assert Do(s, ByIo(i, Next)) == u;
      KeepStep(s, ByIo(i, Next));
      ServeRun(u, acts, t, i, visits, r);
    } else {
      assert Wanted(c, r, w, e) == [] && Entered(s.ios[i].point, u.ios[i].point) + visits == [];
    }
  }

  /** An event taken up in a reachable state is dispatched like that. */
  lemma ReachableEvent(s: State, acts: seq<Action>, t: State, i: nat, visits: seq<Visit>,
                       c: ConnId, r: bool, w: bool, e: bool, rest: seq<Event>)
    requires Reachable(s) && i < |s.ios| && s.ios[i].point == Dispatch([Ready(c, r, w, e)] + rest)
    requires Serves(DoNext(s, i), acts, t, i, visits) && i < |t.ios| && !Serving(t.ios[i].point) && !t.misled
    ensures t.ios[i].point == Dispatch(rest)
    ensures var q := DoNext(s, i).ios[i].point;
            AsWanted(Entered(s.ios[i].point, q) + visits, Wanted(c, r, w, e), SeesValid(t.heap, c))
    ensures e ==> !SeesValid(t.heap, c)
  {
    ServesIsRun(DoNext(s, i), acts, t, i, visits);
    assert Do(s, ByIo(i, Next)) == DoNext(s, i);
    RunCons(s, ByIo(i, Next), acts, t);
    NeverMisled(s, [ByIo(i, Next)] + acts, t);
    ReachableInv(s);
    EventIsDispatched(s, acts, t, i, visits, c, r, w, e, rest);
  }

  // ---- All events ---------------------------------------------------------------------

  /** The events of the last wait that the thread has not taken up yet. */
  function Remaining(p: IoPoint): seq<Event> {
    match p
    case Polling => []
    case Dispatch(batch) => batch
    case Adding(_, rest) => rest
    case Draining(rest) => rest
    case Handling(_, rest) => rest
    case Dropping(_, rest) => rest
    case _ => p.f.rest
  }

  /** What a step of thread `i` reports, and what it takes up. */
  function Reporting(a: Action, i: nat): seq<Event> {
    if a.ByIo? && a.i == i && a.x.Poll? then a.x.batch else []
  }

  function Taking(p: IoPoint, a: Action, i: nat): seq<Event> {
    if a == ByIo(i, Next) && p.Dispatch? && p.batch != [] then [p.batch[0]] else []
  }

  function AllReported(acts: seq<Action>, i: nat): seq<Event> {
    if acts == [] then [] else Reporting(acts[0], i) + AllReported(acts[1..], i)
  }

  ghost function AllTaken(s: State, acts: seq<Action>, i: nat): seq<Event>
    requires i < |s.ios|
    decreases |acts|
  {
    if acts == [] || !Can(s, acts[0]) || i >= |Do(s, acts[0]).ios| then []
    else Taking(s.ios[i].point, acts[0], i) + AllTaken(Do(s, acts[0]), acts[1..], i)
  }

  lemma NextRemains(s: State, i: nat)
    requires i < |s.ios| && s.ios[i].point.Dispatch?
    ensures var t, p := DoNext(s, i), s.ios[i].point;
            && |t.ios| == |s.ios|
            && Remaining(t.ios[i].point) == if p.batch == [] then [] else p.batch[1..]
  {
  }

  lemma ReadRemains(s: State, i: nat, x: IoAction)
    requires i < |s.ios| && CanIo(s, i, x)
    requires x.Read? || x.ReadNoTask? || x.ReadNoPayload? || x.Submit? || x.SubmitRefused?
    ensures |DoIo(s, i, x).ios| == |s.ios| && Remaining(DoIo(s, i, x).ios[i].point) == Remaining(s.ios[i].point)
  {
  }

  lemma MailRemains(s: State, i: nat, x: IoAction)
    requires i < |s.ios| && CanIo(s, i, x) && (x.Drain? || x.Handle? || x.DropMsg?)
    ensures |DoIo(s, i, x).ios| == |s.ios| && Remaining(DoIo(s, i, x).ios[i].point) == Remaining(s.ios[i].point)
  {
  }

  lemma HandlerRemains(s: State, i: nat, x: IoAction)
    requires i < |s.ios| && CanIo(s, i, x) && !x.Poll? && !x.Next?
    ensures |DoIo(s, i, x).ios| == |s.ios| && Remaining(DoIo(s, i, x).ios[i].point) == Remaining(s.ios[i].point)
  {
    if x.Write? {
      WritePoints(WriteLogged(s, i, x.answers), i, x.answers);
    } else if x.Drain? || x.Handle? || x.DropMsg? {
      MailRemains(s, i, x);
    } else if x.Read? || x.ReadNoTask? || x.ReadNoPayload? || x.Submit? || x.SubmitRefused? {
      ReadRemains(s, i, x);
    }
  }

  lemma StepRemains(s: State, a: Action, i: nat)
    requires Can(s, a) && i < |s.ios|
    ensures var t, p := Do(s, a), s.ios[i].point;
            && |t.ios| == |s.ios|
            && Remaining(p) + Reporting(a, i) == Taking(p, a, i) + Remaining(t.ios[i].point)
  {
    if !a.ByIo? || a.i != i {
      OthersStay(s, a, i);
    } else if a.x.Next? {
      NextRemains(s, i);
    } else if !a.x.Poll? {
      HandlerRemains(s, i, a.x);
    }
  }

  /**
    Over any run a thread takes up the events that its waits report, each once and
    in order, whatever it does for them: none is skipped.
   */
  lemma {:induction false} EventsAreTakenUp(s: State, acts: seq<Action>, t: State, i: nat)
    requires Run(s, acts, t) && i < |s.ios|
    ensures |t.ios| == |s.ios|
    ensures Remaining(s.ios[i].point) + AllReported(acts, i) == AllTaken(s, acts, i) + Remaining(t.ios[i].point)
    decreases |acts|
  {
    if acts != [] {
      var u, p := Do(s, acts[0]), s.ios[i].point;
      StepRemains(s, acts[0], i);
      EventsAreTakenUp(u, acts[1..], t, i);
      Reassociate(Remaining(p), Reporting(acts[0], i), AllReported(acts[1..], i), Taking(p, acts[0], i),
                  Remaining(u.ios[i].point), AllTaken(u, acts[1..], i), Remaining(t.ios[i].point));
    }
  }

  lemma Reassociate(a: seq<Event>, b: seq<Event>, c: seq<Event>, d: seq<Event>, e: seq<Event>,
                    f: seq<Event>, g: seq<Event>)
    requires a + b == d + e && e + c == f + g
    ensures a + (b + c) == (d + f) + g
  {
    assert a + (b + c) == (a + b) + c == d + (e + c);
    assert d + (f + g) == (d + f) + g;
  }

  // ---- What the handlers do -----------------------------------------------------------

  /** The end of the stream, a read error and a hangup close the connection and its descriptor. */
  lemma HandlersClose(s: State, i: nat, x: IoAction)
    requires Inv(s) && i < |s.ios| && CanIo(s, i, x) && (x.ReadClose? || x.Hangup?)
    ensures var t, c := DoIo(s, i, x), s.ios[i].point.f.conn;
            && c < |s.heap.slots| && c < |t.heap.slots|
            && var fd := s.heap.slots[c].conn.fd;
               && fd >= 0 && fd in s.heap.openFds && fd !in t.heap.openFds
               && t.heap.slots[c].conn.closing && !SeesValid(t.heap, c)
               && (forall k | k in t.heap.reg :: t.heap.reg[k].conn != c)
  {
    var c := s.ios[i].point.f.conn;
    IoFacts(s, i);
    RegisteredIsValid(s.heap, c, i);
    assert FdAt(s.heap, c);
    forall k | k in s.heap.reg && s.heap.reg[k].conn == c ensures k.1 == s.heap.slots[c].conn.fd {
      assert RegAt(s.heap, k);
    }
  }

  /**
    One write event: with `k` the first answer that took nothing, the client was
    sent what the answers before it took, or all of the response.
   */
  lemma WriteEventSends(s: State, i: nat, answers: seq<WriteResult>, k: nat)
    requires Reachable(s) && !s.misled && i < |s.ios| && s.ios[i].point.InWrite?
    requires k <= |answers| && (forall j | 0 <= j < k :: Takes(answers[j])) && (k == |answers| || !Takes(answers[k]))
    ensures var t, c := DoWrite(s, i, answers), s.ios[i].point.f.conn;
            && c < |s.wires| && c < |t.wires| && s.wires[c].sent <= s.wires[c].installed
            && var left: nat := |s.wires[c].installed| - |s.wires[c].sent|;
               && t.wires[c].installed == s.wires[c].installed
               && t.wires[c].sent == s.wires[c].installed[..|s.wires[c].sent| + Min(left, TakenBy(answers, k))]
  {
    ReachableInv(s);
    IoFacts(s, i);
    var c := s.ios[i].point.f.conn;
    var _ := ClientIsSentPrefix(s, c);
    WriteEvent(s, i, answers);
    SentOn(s, DoWrite(s, i, answers), c, answers, k);
  }

  lemma SentOn(s: State, t: State, c: ConnId, answers: seq<WriteResult>, k: nat)
    requires SendsPrefix(SideOf(s, c)) && SideOf(t, c) == IoThreads.Next(SideOf(s, c), Writable(answers))
    requires c < |s.wires| && c < |t.wires| && c < |s.heap.slots| && c < |t.heap.slots|
    requires k <= |answers| && (forall j | 0 <= j < k :: Takes(answers[j])) && (k == |answers| || !Takes(answers[k]))
    ensures s.wires[c].sent <= s.wires[c].installed
    ensures var left: nat := |s.wires[c].installed| - |s.wires[c].sent|;
            && t.wires[c].installed == s.wires[c].installed
            && t.wires[c].sent == s.wires[c].installed[..|s.wires[c].sent| + Min(left, TakenBy(answers, k))]
  {
    SideLaw(SideOf(s, c), answers, k);
  }

  /** It closes the connection exactly when bytes are left and that answer is an error. */
  lemma WriteEventCloses(s: State, i: nat, answers: seq<WriteResult>, k: nat)
    requires Reachable(s) && !s.misled && i < |s.ios| && s.ios[i].point.InWrite?
    requires k <= |answers| && (forall j | 0 <= j < k :: Takes(answers[j])) && (k == |answers| || !Takes(answers[k]))
    ensures var t, c := DoWrite(s, i, answers), s.ios[i].point.f.conn;
            && c < |s.wires|
            && (!SeesValid(t.heap, c) <==>
                  && |s.wires[c].sent| + TakenBy(answers, k) < |s.wires[c].installed| && k < |answers|
                  && (answers[k] == WriteError || answers[k] == Wrote(0, false)))
  {
    ReachableInv(s);
    IoFacts(s, i);
    var c := s.ios[i].point.f.conn;
    var _ := ClientIsSentPrefix(s, c);
    SideLaw(SideOf(s, c), answers, k);
    WriteCloses(s, i, answers);
  }

  /** A write event moves the write side of its connection. */
  lemma WriteEvent(s: State, i: nat, answers: seq<WriteResult>)
    requires Inv(s) && i < |s.ios| && s.ios[i].point.InWrite? && |s.wires| == |s.heap.slots|
    requires SendsPrefix(SideOf(s, s.ios[i].point.f.conn))
    ensures var t, c := DoWrite(s, i, answers), s.ios[i].point.f.conn;
            && c < |s.wires| == |t.wires| == |t.heap.slots|
            && SideOf(t, c) == IoThreads.Next(SideOf(s, c), Writable(answers))
  {
    IoFacts(s, i);
    WriteSends(s, i, answers, s.ios[i].point.f.conn);
    assert |DoWrite(s, i, answers).heap.slots| == |s.heap.slots|;
  }

  lemma SideLaw(side: Side, answers: seq<WriteResult>, k: nat)
    requires SendsPrefix(side)
    requires k <= |answers| && (forall j | 0 <= j < k :: Takes(answers[j])) && (k == |answers| || !Takes(answers[k]))
    ensures var n, left: nat := IoThreads.Next(side, Writable(answers)), |side.installed| - |side.sent|;
            && n.installed == side.installed
            && n.sent == side.installed[..|side.sent| + Min(left, TakenBy(answers, k))]
            && (side.out == [] ==> left == 0)
            && (side.out != [] ==>
                  (Transmit(|side.out|, side.pos, answers).outcome == Broken <==>
                     && left > TakenBy(answers, k) && k < |answers|
                     && (answers[k] == WriteError || answers[k] == Wrote(0, false))))
  {
    NextKeeps(side, Writable(answers));
    if side.out != [] {
      TransmitLaw(|side.out|, side.pos, answers, k);
    }
  }

  /** A write event closes the connection exactly when its loop breaks. */
  lemma WriteCloses(s: State, i: nat, answers: seq<WriteResult>)
    requires Inv(s) && i < |s.ios| && s.ios[i].point.InWrite?
    ensures var t, c := DoWrite(s, i, answers), s.ios[i].point.f.conn;
            && c < |s.heap.slots| == |t.heap.slots|
            && var x := s.heap.slots[c].conn;
               SeesValid(t.heap, c) <==> x.out == [] || WriteLoop(x, answers).outcome != Broken
  {
    var c := s.ios[i].point.f.conn;
    IoFacts(s, i);
    RegisteredIsValid(s.heap, c, i);
    SlotFacts(s.heap, c);
    LoopCloses(WriteLogged(s, i, answers), i, answers);
  }

  lemma LoopCloses(s: State, i: nat, answers: seq<WriteResult>)
    requires i < |s.ios| && s.ios[i].point.InWrite? && SeesValid(s.heap, s.ios[i].point.f.conn)
    ensures var t, c := WriteOut(s, i, answers), s.ios[i].point.f.conn;
            && |s.heap.slots| == |t.heap.slots|
            && var x := s.heap.slots[c].conn;
               SeesValid(t.heap, c) <==> x.out == [] || WriteLoop(x, answers).outcome != Broken
  {
    var h, f := s.heap, s.ios[i].point.f;
    var x := h.slots[f.conn].conn;
    var r := WriteLoop(x, answers);
    if |x.out| == 0 {
      EndsOpen(s, i, f, x.(state := ConnState.Reading), true);
    } else {
      match r.outcome
      case Finished => EndsOpen(s, i, f, x.(out := [], pos := 0, state := ConnState.Reading), true);
      case Blocked => EndsOpen(s, i, f, x.(pos := r.pos), false);
      case Broken => EndsClosed(s, i, f, x.(pos := r.pos));
    }
  }

  lemma EndsOpen(s: State, i: nat, f: Frame, x: Conn, toRead: bool)
    requires i < |s.ios| && Live(s.heap, f.conn) && !x.closing && !x.state.Closed?
    ensures var t := EndWrite(s, i, f, x, toRead);
            |t.heap.slots| == |s.heap.slots| && SeesValid(t.heap, f.conn)
  {
  }

  lemma EndsClosed(s: State, i: nat, f: Frame, x: Conn)
    requires i < |s.ios| && Live(s.heap, f.conn)
    ensures var t := BeginClose(s, i, SetConn(s.heap, f.conn, x), f, ToWrite);
            |t.heap.slots| == |s.heap.slots| && !SeesValid(t.heap, f.conn)
  {
  }

  // ---- What workers and messages do -----------------------------------------------------

  /** A worker processes its task, and later announces the response, exactly when the connection is not closing. */
  lemma WorkerDecides(s: State, w: nat, y: WorkerAction)
    requires Inv(s) && w < |s.workers| && CanWorker(s, w, y) && (y.Check? || y.Confirm?)
    ensures var t, x := DoWorker(s, w, y), s.workers[w].task;
            && x in s.heap.tasks && s.heap.tasks[x].conn < |s.heap.slots| && t.heap == s.heap
            && |t.workers| == |s.workers|
            && t.workers[w] == if s.heap.slots[s.heap.tasks[x].conn].conn.closing then Finishing(x)
                               else if y.Check? then Processing(x) else WorkerPoint.Sending(x)
  {
    WorkerHolds(s, w);
  }

  /** A message switches its connection to writing, unless the connection is closing. */
  lemma MessageSwitches(s: State, i: nat)
    requires Inv(s) && i < |s.ios| && s.ios[i].point.Handling?
    ensures var t, m := DoHandle(s, i), s.ios[i].point.msg;
            && m in s.heap.msgs && s.heap.msgs[m].conn < |s.heap.slots|
            && var c := s.heap.msgs[m].conn;
               var x := s.heap.slots[c].conn;
               if x.closing then t.heap == s.heap
               else (i, x.fd) in s.heap.reg && t.heap == s.heap.(reg := s.heap.reg[(i, x.fd) := Reg(c, true)])
  {
    var m := s.ios[i].point.msg;
    IoFacts(s, i);
    MsgNamesLive(s.heap, m);
    var c := s.heap.msgs[m].conn;
    assert MsgAtOk(s, m) && Watched(s.heap, c);
    SlotFacts(s.heap, c);
  }
}

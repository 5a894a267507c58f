/** The three sides of the server always agree about its queues and threads. */
module ServerLinks {
  import opened Basics
  import opened Server
  import Reactor
  import ReactorOwners
  import ReactorTheorems
  import WorkerPool
  import Mailbox
  import IoThreads
  import Connections

  /** The reader of the inbox, as an I/O thread's program point shows it. */
  function ReaderOf(p: Reactor.IoPoint): Mailbox.ReaderPoint {
    match p
    case Draining(_) => Mailbox.Draining
    case Handling(m, _) => Mailbox.Handling(m)
    case Dropping(m, _) => Mailbox.Handling(m)
    case _ => if Mails(ReactorOwners.RestOf(p)) > 0 then Mailbox.Notified else Mailbox.Waiting
  }

  /** One wait reports the message pipe at most once. */
  predicate OneMail(p: Reactor.IoPoint) {
    Mails(ReactorOwners.RestOf(p)) <= if p.Draining? || p.Handling? || p.Dropping? then 0 else 1
  }

  predicate BoxAt(s: State, i: nat) {
    i < |s.boxes| == |s.r.ios| ==>
      && s.boxes[i].inbox == s.r.ios[i].inbox
      && s.boxes[i].reader == ReaderOf(s.r.ios[i].point) && OneMail(s.r.ios[i].point)
      && |s.boxes[i].senders| == |s.r.workers| && s.boxes[i].page >= 1
  }

  /** The pool's task `x` is the reactor's task `t`. */
  predicate Means(names: seq<Reactor.TaskId>, x: WorkerPool.TaskId, t: Reactor.TaskId) {
    x < |names| && names[x] == t
  }

  predicate ProducerAt(s: State, i: nat) {
    i < |s.p.producers| == |s.r.ios| && s.p.producers[i].Pushing? ==>
      s.r.ios[i].point.Submitting? && Means(s.names, s.p.producers[i].task, s.r.ios[i].point.task)
  }

  predicate HasTask(x: WorkerPool.WorkerPoint) { x.Busy? || x.Counted? }

  predicate WorkerAt(s: State, w: nat) {
    w < |s.p.workers| == |s.r.workers| ==>
      && (s.r.workers[w].Free? <==> !HasTask(s.p.workers[w]))
      && (HasTask(s.p.workers[w]) ==> Means(s.names, s.p.workers[w].task, s.r.workers[w].task))
      && (s.p.workers[w].Counted? ==> s.r.workers[w].Finishing? && Quiet(s, w))
  }

  /** A worker that owes a byte has sent its message and not counted its task. */
  predicate SenderAt(s: State, i: nat, w: nat) {
    i < |s.boxes| && w < |s.boxes[i].senders| && w < |s.r.workers| && s.boxes[i].senders[w].Notifying? ==>
      s.r.workers[w].Finishing?
  }

  /** The k-th task that waits, or was ever accepted, is the same on both sides. */
  predicate ItemAt(s: State, k: nat) {
    k < |s.p.items| == |s.r.queue| ==> Means(s.names, s.p.items[k], s.r.queue[k])
  }

  predicate EntryAt(s: State, k: nat) {
    k < |s.p.accepted| == |s.r.accepted| ==> Means(s.names, s.p.accepted[k], s.r.accepted[k].task)
  }

  predicate Sizes(s: State) {
    && |s.p.workers| == |s.r.workers| && |s.p.producers| == |s.boxes| == |s.r.ios|
    && |s.p.items| == |s.r.queue| && |s.p.accepted| == |s.r.accepted| && |s.p.popped| == s.r.popped
    && |s.names| == s.p.created && s.p.flag == s.r.down && !s.p.torn && (s.p.closed ==> s.p.flag)
  }

  predicate QueuesAgree(s: State) {
    && (forall k | 0 <= k < |s.p.items| :: ItemAt(s, k))
    && (forall k | 0 <= k < |s.p.accepted| :: EntryAt(s, k))
  }

  predicate Linked(s: State) {
    && Sizes(s) && QueuesAgree(s)
    && (forall i | 0 <= i < |s.boxes| :: BoxAt(s, i) && ProducerAt(s, i))
    && (forall w | 0 <= w < |s.r.workers| :: WorkerAt(s, w))
    && (forall i, w | 0 <= i < |s.boxes| && 0 <= w < |s.r.workers| :: SenderAt(s, i, w))
  }

  /** Both sides keep their queues, and the names given so far stay. */
  lemma QueuesStay(s: State, t: State)
    requires QueuesAgree(s) && s.names <= t.names
    requires t.p.items == s.p.items && t.p.accepted == s.p.accepted
    requires t.r.queue == s.r.queue && t.r.accepted == s.r.accepted
    ensures QueuesAgree(t)
  {
    forall k | 0 <= k < |t.p.items| ensures ItemAt(t, k) {
      assert ItemAt(s, k);
    }
    forall k | 0 <= k < |t.p.accepted| ensures EntryAt(t, k) {
      assert EntryAt(s, k);
    }
  }

  /** A task is appended on both sides. */
  lemma QueuesGrow(s: State, t: State, x: WorkerPool.TaskId, e: Reactor.Entry)
    requires Sizes(s) && QueuesAgree(s) && s.names <= t.names && Means(t.names, x, e.task)
    requires t.p.items == s.p.items + [x] && t.p.accepted == s.p.accepted + [x]
    requires t.r.queue == s.r.queue + [e.task] && t.r.accepted == s.r.accepted + [e]
    ensures QueuesAgree(t)
  {
    forall k | 0 <= k < |t.p.items| ensures ItemAt(t, k) {
      assert k < |s.p.items| ==> ItemAt(s, k);
    }
    forall k | 0 <= k < |t.p.accepted| ensures EntryAt(t, k) {
      assert k < |s.p.accepted| ==> EntryAt(s, k);
    }
  }

  /** The first task leaves on both sides. */
  lemma QueuesShrink(s: State, t: State)
    requires Sizes(s) && QueuesAgree(s) && t.names == s.names && s.p.items != []
    requires t.p.items == s.p.items[1..] && t.p.accepted == s.p.accepted
    requires t.r.queue == s.r.queue[1..] && t.r.accepted == s.r.accepted
    ensures QueuesAgree(t) && Means(s.names, s.p.items[0], s.r.queue[0])
  {
    assert ItemAt(s, 0);
    forall k | 0 <= k < |t.p.items| ensures ItemAt(t, k) {
      assert ItemAt(s, k + 1);
    }
    forall k | 0 <= k < |t.p.accepted| ensures EntryAt(t, k) {
      assert EntryAt(s, k);
    }
  }

  // ---- What a step of one side leaves alone --------------------------------------

  lemma MailsTail(batch: seq<Reactor.Event>)
    requires batch != []
    ensures Mails(batch) == (if batch[0].MailReady? then 1 else 0) + Mails(batch[1..])
  {
  }

  /** Thread `i` moved in the reactor, without a view to its inbox or to the pool. */
  predicate Moved(r: Reactor.State, q: Reactor.State, i: nat) {
    && i < |r.ios| == |q.ios| && q.ios == r.ios[i := q.ios[i]] && q.ios[i].inbox == r.ios[i].inbox
    && q.workers == r.workers && q.queue == r.queue && q.down == r.down
    && q.accepted == r.accepted && q.popped == r.popped
  }

  /** The inbox sees no difference between two program points. */
  predicate SameMail(p: Reactor.IoPoint, q: Reactor.IoPoint) {
    ReaderOf(q) == ReaderOf(p) && (OneMail(p) ==> OneMail(q))
  }

  predicate Mailing(p: Reactor.IoPoint) { p.Draining? || p.Handling? || p.Dropping? }

  /** Two points that have no message in hand and as many message events still to dispatch. */
  lemma SameRest(p: Reactor.IoPoint, q: Reactor.IoPoint)
    requires !Mailing(p) && !Mailing(q)
    requires Mails(ReactorOwners.RestOf(q)) == Mails(ReactorOwners.RestOf(p))
    ensures SameMail(p, q)
  {
  }

  lemma NextMoves(s: State, i: nat)
    requires i < |s.r.ios| && s.r.ios[i].point.Dispatch?
    requires s.r.ios[i].point.batch == [] || !s.r.ios[i].point.batch[0].MailReady?
    ensures var q := Reactor.DoNext(s.r, i);
            Moved(s.r, q, i) && SameMail(s.r.ios[i].point, q.ios[i].point)
  {
    var batch := s.r.ios[i].point.batch;
    if batch != [] {
      MailsTail(batch);
      if batch[0].Ready? {
        ReadyMoves(s.r, i);
      } else {
        PipeMoves(s.r, i);
      }
    }
    SameRest(s.r.ios[i].point, Reactor.DoNext(s.r, i).ios[i].point);
  }

  lemma ReadyMoves(r: Reactor.State, i: nat)
    requires i < |r.ios| && r.ios[i].point.Dispatch?
    requires r.ios[i].point.batch != [] && r.ios[i].point.batch[0].Ready?
    ensures var q := Reactor.DoNext(r, i);
            && Moved(r, q, i) && !Mailing(q.ios[i].point)
            && ReactorOwners.RestOf(q.ios[i].point) == r.ios[i].point.batch[1..]
  {
  }

  lemma PipeMoves(r: Reactor.State, i: nat)
    requires i < |r.ios| && r.ios[i].point.Dispatch?
    requires r.ios[i].point.batch != [] && r.ios[i].point.batch[0].PipeReady?
    ensures var q := Reactor.DoNext(r, i);
            && Moved(r, q, i) && !Mailing(q.ios[i].point)
            && ReactorOwners.RestOf(q.ios[i].point) == r.ios[i].point.batch[1..]
  {
  }

  lemma WriteMoves(r: Reactor.State, i: nat, answers: seq<IoThreads.WriteResult>)
    requires i < |r.ios| && r.ios[i].point.InWrite?
    ensures var q := Reactor.DoWrite(r, i, answers);
            && Moved(r, q, i) && ReactorOwners.RestOf(q.ios[i].point) == ReactorOwners.RestOf(r.ios[i].point)
            && (q.ios[i].point.AfterWrite? || (q.ios[i].point.Unregistering? && q.ios[i].point.ret == Reactor.ToWrite))
  {
    WriteOutMoves(Reactor.WriteLogged(r, i, answers), i, answers);
  }

  lemma WriteOutMoves(r: Reactor.State, i: nat, answers: seq<IoThreads.WriteResult>)
    requires i < |r.ios| && r.ios[i].point.InWrite?
    ensures var q, f := Reactor.WriteOut(r, i, answers), r.ios[i].point.f;
            && Moved(r, q, i)
            && (q.ios[i].point == Reactor.AfterWrite(f)
                || (q.ios[i].point.Unregistering? && q.ios[i].point.f == f && q.ios[i].point.ret == Reactor.ToWrite))
  {
    var h, f := r.heap, r.ios[i].point.f;
    if Reactor.Live(h, f.conn) {
      var x := h.slots[f.conn].conn;
      var w := Reactor.WriteLoop(x, answers);
      if |x.out| == 0 {
        EndMoves(r, i, f, x.(state := Connections.Reading), true);
      } else {
        match w.outcome
        case Finished => EndMoves(r, i, f, x.(out := [], pos := 0, state := Connections.Reading), true);
        case Blocked => EndMoves(r, i, f, x.(pos := w.pos), false);
        case Broken => BreakMoves(r, i, Reactor.SetConn(h, f.conn, x.(pos := w.pos)), f);
      }
    }
  }

  lemma EndMoves(r: Reactor.State, i: nat, f: Reactor.Frame, x: Connections.Conn, toRead: bool)
    requires i < |r.ios| && f.conn < |r.heap.slots|
    ensures var q := Reactor.EndWrite(r, i, f, x, toRead);
            Moved(r, q, i) && q.ios[i].point == Reactor.AfterWrite(f)
  {
  }

  lemma BreakMoves(r: Reactor.State, i: nat, h: Reactor.Heap, f: Reactor.Frame)
    requires i < |r.ios|
    ensures var q := Reactor.BeginClose(r, i, h, f, Reactor.ToWrite);
            && Moved(r, q, i) && q.ios[i].point.Unregistering? && q.ios[i].point.f == f
            && q.ios[i].point.ret == Reactor.ToWrite
  {
  }

  lemma ReadMoves(r: Reactor.State, i: nat, x: Reactor.IoAction)
    requires i < |r.ios| && Reactor.CanIo(r, i, x)
    requires x.Read? || x.ReadNoTask? || x.ReadNoPayload? || x.ReadStop? || x.ReadClose?
    ensures var q := Reactor.DoIo(r, i, x);
            && Moved(r, q, i) && ReactorOwners.RestOf(q.ios[i].point) == ReactorOwners.RestOf(r.ios[i].point)
            && !Mailing(q.ios[i].point)
  {
  }

  lemma CloseMoves(r: Reactor.State, i: nat, x: Reactor.IoAction)
    requires i < |r.ios| && Reactor.CanIo(r, i, x)
    requires x.Hangup? || x.Unregister? || x.Unreference? || x.Recheck? || x.Add? || x.AddFails?
    ensures var q := Reactor.DoIo(r, i, x);
            && Moved(r, q, i) && ReactorOwners.RestOf(q.ios[i].point) == ReactorOwners.RestOf(r.ios[i].point)
            && !Mailing(q.ios[i].point)
  {
  }

  /** A step that concerns an I/O thread alone shows nothing to its inbox and to the pool. */
  lemma SoloMoves(s: State, i: nat, x: Reactor.IoAction)
    requires i < |s.r.ios| && Reactor.CanIo(s.r, i, x) && Solo(s, i, x)
    ensures var q := Reactor.DoIo(s.r, i, x);
            Moved(s.r, q, i) && SameMail(s.r.ios[i].point, q.ios[i].point)
    ensures !s.r.ios[i].point.Submitting?
  {
    if x.Next? {
      NextMoves(s, i);
    } else if x.Write? {
      WriteMoves(s.r, i, x.answers);
    } else if x.Read? || x.ReadNoTask? || x.ReadNoPayload? || x.ReadStop? || x.ReadClose? {
      ReadMoves(s.r, i, x);
    } else if x.Handle? || x.Poll? {
      WakeMoves(s.r, i, x);
    } else {
      CloseMoves(s.r, i, x);
    }
  }

  lemma WakeMoves(r: Reactor.State, i: nat, x: Reactor.IoAction)
    requires i < |r.ios| && Reactor.CanIo(r, i, x) && (x.Handle? || (x.Poll? && Mails(x.batch) == 0))
    ensures var q := Reactor.DoIo(r, i, x); Moved(r, q, i) && SameMail(r.ios[i].point, q.ios[i].point)
  {
  }

  lemma LinkIo(s: State, i: nat, x: Reactor.IoAction)
    requires Linked(s) && Can(s, Io(i, x))
    ensures Linked(Do(s, Io(i, x)))
  {
    var t := Do(s, Io(i, x));
    SoloMoves(s, i, x);
    QueuesStay(s, t);
    forall j | 0 <= j < |t.boxes| ensures BoxAt(t, j) && ProducerAt(t, j) {
      assert BoxAt(s, j) && ProducerAt(s, j);
    }
    forall w | 0 <= w < |t.r.workers| ensures WorkerAt(t, w) {
      assert WorkerAt(s, w);
    }
    forall j, w | 0 <= j < |t.boxes| && 0 <= w < |t.r.workers| ensures SenderAt(t, j, w) {
      assert SenderAt(s, j, w);
    }
  }

  lemma LinkAccept(s: State, a: Reactor.AcceptAction)
    requires Linked(s) && Can(s, Accept(a))
    ensures Linked(Do(s, Accept(a)))
  {
    var t := Do(s, Accept(a));
    AcceptMoves(s.r, a);
    QueuesStay(s, t);
    forall j | 0 <= j < |t.boxes| ensures BoxAt(t, j) && ProducerAt(t, j) {
      assert BoxAt(s, j) && ProducerAt(s, j);
    }
    forall w | 0 <= w < |t.r.workers| ensures WorkerAt(t, w) {
      assert WorkerAt(s, w);
    }
    forall j, w | 0 <= j < |t.boxes| && 0 <= w < |t.r.workers| ensures SenderAt(t, j, w) {
      assert SenderAt(s, j, w);
    }
  }

  lemma AcceptMoves(r: Reactor.State, a: Reactor.AcceptAction)
    requires Reactor.CanAccept(r, a)
    ensures var q := Reactor.DoAccept(r, a);
            && |q.ios| == |r.ios| && q.workers == r.workers && q.queue == r.queue && q.down == r.down
            && q.accepted == r.accepted && q.popped == r.popped
            && forall j | 0 <= j < |r.ios| :: q.ios[j].point == r.ios[j].point && q.ios[j].inbox == r.ios[j].inbox
  {
  }

  // ---- Inbox steps ------------------------------------------------------------------

  /** What a step on the inbox of thread `i` does to the reactor's side of it. */
  predicate MailMoved(s: State, t: State, i: nat) {
    && i < |s.r.ios| == |t.r.ios| && i < |s.boxes| && t.p == s.p
    && t.r.ios == s.r.ios[i := t.r.ios[i]] && t.r.workers == s.r.workers
    && t.r.queue == s.r.queue && t.r.down == s.r.down && t.names == s.names
    && t.r.accepted == s.r.accepted && t.r.popped == s.r.popped
    && |t.boxes| == |s.boxes| && t.boxes == s.boxes[i := t.boxes[i]]
    && t.boxes[i].senders == s.boxes[i].senders
  }

  lemma LinkMail(s: State, t: State, i: nat)
    requires Linked(s) && MailMoved(s, t, i) && BoxAt(t, i) && !s.r.ios[i].point.Submitting?
    ensures Linked(t)
  {
    QueuesStay(s, t);
    forall j | 0 <= j < |t.boxes| ensures BoxAt(t, j) && ProducerAt(t, j) {
      assert BoxAt(s, j) && ProducerAt(s, j);
    }
    forall w | 0 <= w < |t.r.workers| ensures WorkerAt(t, w) {
      assert WorkerAt(s, w);
    }
    forall j, w | 0 <= j < |t.boxes| && 0 <= w < |t.r.workers| ensures SenderAt(t, j, w) {
      assert SenderAt(s, j, w);
    }
  }

  lemma LinkPollMail(s: State, i: nat, batch: seq<Reactor.Event>)
    requires Linked(s) && Can(s, PollMail(i, batch))
    ensures Linked(Do(s, PollMail(i, batch)))
  {
    assert BoxAt(s, i);
    LinkMail(s, Do(s, PollMail(i, batch)), i);
  }

  lemma LinkTakeByte(s: State, i: nat)
    requires Linked(s) && Can(s, TakeByte(i))
    ensures Linked(Do(s, TakeByte(i)))
  {
    assert BoxAt(s, i);
    MailsTail(s.r.ios[i].point.batch);
    LinkMail(s, Do(s, TakeByte(i)), i);
  }

  lemma DrainMoves(r: Reactor.State, i: nat)
    requires i < |r.ios| && r.ios[i].point.Draining?
    ensures var q, inbox, rest := Reactor.DoDrain(r, i), r.ios[i].inbox, r.ios[i].point.rest;
            && |q.ios| == |r.ios| && q.ios == r.ios[i := q.ios[i]]
            && q.workers == r.workers && q.queue == r.queue && q.down == r.down
            && q.accepted == r.accepted && q.popped == r.popped
            && (if inbox == [] then q.ios[i].point == Reactor.Dispatch(rest) && q.ios[i].inbox == []
                else q.ios[i].point == Reactor.Handling(inbox[0], rest) && q.ios[i].inbox == inbox[1..])
  {
  }

  lemma DrainedBox(s: State, t: State, i: nat)
    requires BoxAt(s, i) && i < |s.boxes| == |s.r.ios| && s.r.ios[i].point.Draining?
    requires Mailbox.Can(s.boxes[i], Mailbox.DrainNext)
    requires t.r == Reactor.DoDrain(s.r, i)
    requires t.boxes == s.boxes[i := Mailbox.Do(s.boxes[i], Mailbox.DrainNext)]
    ensures BoxAt(t, i)
  {
    DrainMoves(s.r, i);
  }

  lemma LinkDrain(s: State, i: nat)
    requires Linked(s) && Can(s, Drain(i))
    ensures Linked(Do(s, Drain(i)))
  {
    assert BoxAt(s, i);
    DrainMoves(s.r, i);
    DrainedBox(s, Do(s, Drain(i)), i);
    LinkMail(s, Do(s, Drain(i)), i);
  }

  lemma LinkDropMsg(s: State, i: nat)
    requires Linked(s) && Can(s, DropMsg(i))
    ensures Linked(Do(s, DropMsg(i)))
  {
    assert BoxAt(s, i);
    LinkMail(s, Do(s, DropMsg(i)), i);
  }

  // ---- Pool steps ---------------------------------------------------------------------

  /** What the pool's side may change without the reactor's side moving. */
  predicate PoolMoved(s: State, t: State) {
    && t.r == s.r && t.boxes == s.boxes && |t.p.workers| == |s.p.workers| && |t.p.producers| == |s.p.producers|
    && t.p.items == s.p.items && t.p.flag == s.p.flag && t.p.torn == s.p.torn && (t.p.closed ==> t.p.flag)
    && t.p.accepted == s.p.accepted && t.p.popped == s.p.popped
    && s.names <= t.names && |t.names| == t.p.created
    && |s.p.workers| == |s.r.workers| && |s.p.producers| == |s.r.ios|
    && (forall w | 0 <= w < |s.p.workers| ::
          && (HasTask(t.p.workers[w]) <==> HasTask(s.p.workers[w]))
          && (HasTask(t.p.workers[w]) ==> t.p.workers[w].task == s.p.workers[w].task)
          && (t.p.workers[w].Counted? ==> s.p.workers[w].Counted? || (s.r.workers[w].Finishing? && Quiet(s, w))))
    && (forall i | 0 <= i < |s.p.producers| && t.p.producers[i].Pushing? ::
          || (s.p.producers[i].Pushing? && t.p.producers[i].task == s.p.producers[i].task)
          || (Submitting(s, i) && Means(t.names, t.p.producers[i].task, s.r.ios[i].point.task)))
  }

  lemma LinkPoolMoved(s: State, t: State)
    requires Linked(s) && PoolMoved(s, t)
    ensures Linked(t)
  {
    QueuesStay(s, t);
    forall j | 0 <= j < |t.boxes| ensures BoxAt(t, j) && ProducerAt(t, j) {
      assert BoxAt(s, j) && ProducerAt(s, j);
    }
    forall w | 0 <= w < |t.r.workers| ensures WorkerAt(t, w) {
      assert WorkerAt(s, w);
      assert Quiet(s, w) ==> Quiet(t, w);
    }
    forall j, w | 0 <= j < |t.boxes| && 0 <= w < |t.r.workers| ensures SenderAt(t, j, w) {
      assert SenderAt(s, j, w);
    }
  }

  lemma LinkPool(s: State, b: WorkerPool.Action)
    requires Linked(s) && Can(s, Pool(b))
    ensures Linked(Do(s, Pool(b)))
  {
    if b.SpuriousProducer? || b.CloseQueue? {
      ControlMoves(s, b);
    } else {
      WorkerMoves(s, b);
    }
    LinkPoolMoved(s, Do(s, Pool(b)));
  }

  lemma ControlMoves(s: State, b: WorkerPool.Action)
    requires Sizes(s) && PoolOnly(s, b) && WorkerPool.Can(s.p, b) && (b.SpuriousProducer? || b.CloseQueue?)
    ensures PoolMoved(s, s.(p := WorkerPool.Do(s.p, b)))
  {
  }

  lemma WorkerMoves(s: State, b: WorkerPool.Action)
    requires Sizes(s) && PoolOnly(s, b) && WorkerPool.Can(s.p, b) && !b.SpuriousProducer? && !b.CloseQueue?
    ensures PoolMoved(s, s.(p := WorkerPool.Do(s.p, b)))
  {
  }

  lemma LinkEnter(s: State, i: nat)
    requires Linked(s) && Can(s, Enter(i))
    ensures Linked(Do(s, Enter(i)))
  {
    LinkPoolMoved(s, Do(s, Enter(i)));
  }

  lemma LinkPushWaits(s: State, i: nat, pick: nat)
    requires Linked(s) && Can(s, PushWaits(i, pick))
    ensures Linked(Do(s, PushWaits(i, pick)))
  {
    LinkPoolMoved(s, Do(s, PushWaits(i, pick)));
  }

  // ---- Submitting -----------------------------------------------------------------------

  /** Thread `i` ends its submission on both sides. */
  lemma LinkSubmitted(s: State, t: State, i: nat)
    requires Linked(s) && i < |s.r.ios| && s.r.ios[i].point.Submitting?
    requires t.boxes == s.boxes && t.r.workers == s.r.workers && t.r.down == s.r.down
    requires t.r.ios == s.r.ios[i := s.r.ios[i].(point := Reactor.InRead(s.r.ios[i].point.f))]
    requires Sizes(t) && QueuesAgree(t) && s.names <= t.names
    requires |t.p.workers| == |s.p.workers| && |t.p.producers| == |s.p.producers|
    requires forall w | 0 <= w < |s.p.workers| ::
               t.p.workers[w] == s.p.workers[w] || (!HasTask(t.p.workers[w]) && !HasTask(s.p.workers[w]))
    requires t.p.producers == s.p.producers[i := WorkerPool.Idle]
    ensures Linked(t)
  {
    forall j | 0 <= j < |t.boxes| ensures BoxAt(t, j) && ProducerAt(t, j) {
      assert BoxAt(s, j) && ProducerAt(s, j);
    }
    forall w | 0 <= w < |t.r.workers| ensures WorkerAt(t, w) {
      assert WorkerAt(s, w);
      assert Quiet(s, w) ==> Quiet(t, w);
    }
    forall j, w | 0 <= j < |t.boxes| && 0 <= w < |t.r.workers| ensures SenderAt(t, j, w) {
      assert SenderAt(s, j, w);
    }
  }

  lemma LinkRefused(s: State, i: nat, a: Action)
    requires Linked(s) && Can(s, a) && (a == Turned(i) || (a.PushRefused? && a.i == i))
    ensures Linked(Do(s, a))
  {
    QueuesStay(s, Do(s, a));
    LinkSubmitted(s, Do(s, a), i);
  }

  lemma LinkPushDone(s: State, i: nat, pick: nat)
    requires Linked(s) && Can(s, PushDone(i, pick))
    ensures Linked(Do(s, PushDone(i, pick)))
  {
    var t, x := Do(s, PushDone(i, pick)), s.p.producers[i].task;
    assert ProducerAt(s, i);
    QueuesGrow(s, t, x, t.r.accepted[|s.r.accepted|]);
    LinkSubmitted(s, t, i);
  }

  // ---- Workers ------------------------------------------------------------------------------

  /** Worker `w` moved on the reactor's side, and perhaps on the pool's. */
  lemma LinkWorker(s: State, t: State, w: nat)
    requires Linked(s) && w < |s.r.workers| == |t.r.workers| && |t.p.workers| == |s.p.workers|
    requires t.r.workers == s.r.workers[w := t.r.workers[w]] && t.r.ios == s.r.ios && t.boxes == s.boxes
    requires t.p.workers == s.p.workers[w := t.p.workers[w]]
    requires Sizes(t) && QueuesAgree(t) && t.names == s.names
    requires forall i | 0 <= i < |s.p.producers| && t.p.producers[i].Pushing? ::
               s.p.producers[i].Pushing? && t.p.producers[i].task == s.p.producers[i].task
    requires WorkerAt(t, w)
    requires s.r.workers[w].Finishing? ==> t.r.workers[w].Finishing? || Quiet(s, w)
    ensures Linked(t)
  {
    forall j | 0 <= j < |t.boxes| ensures BoxAt(t, j) && ProducerAt(t, j) {
      assert BoxAt(s, j) && ProducerAt(s, j);
    }
    forall v | 0 <= v < |t.r.workers| ensures WorkerAt(t, v) {
      assert WorkerAt(s, v);
      assert Quiet(s, v) ==> Quiet(t, v);
    }
    forall j, v | 0 <= j < |t.boxes| && 0 <= v < |t.r.workers| ensures SenderAt(t, j, v) {
      assert SenderAt(s, j, v);
    }
  }

  lemma LinkTake(s: State, w: nat, pick: nat)
    requires Linked(s) && Can(s, Take(w, pick))
    ensures Linked(Do(s, Take(w, pick)))
  {
    assert WorkerAt(s, w);
    QueuesShrink(s, Do(s, Take(w, pick)));
    LinkWorker(s, Do(s, Take(w, pick)), w);
  }

  lemma LinkDestroy(s: State, w: nat)
    requires Linked(s) && Can(s, Destroy(w))
    ensures Linked(Do(s, Destroy(w)))
  {
    assert WorkerAt(s, w);
    QueuesStay(s, Do(s, Destroy(w)));
    LinkWorker(s, Do(s, Destroy(w)), w);
  }

  /** A worker that keeps its task, and leaves the queues and the I/O threads alone. */
  predicate Worked(r: Reactor.State, q: Reactor.State, w: nat) {
    && w < |r.workers| == |q.workers| && q.workers == r.workers[w := q.workers[w]] && q.ios == r.ios
    && q.queue == r.queue && q.down == r.down && q.accepted == r.accepted && q.popped == r.popped
    && !r.workers[w].Free? && !r.workers[w].Finishing? && !q.workers[w].Free?
    && q.workers[w].task == r.workers[w].task
  }

  lemma TestMoves(r: Reactor.State, w: nat, open: Reactor.WorkerPoint)
    requires w < |r.workers| && !r.workers[w].Free? && !r.workers[w].Finishing?
    requires !open.Free? && open.task == r.workers[w].task
    ensures Worked(r, Reactor.DoTest(r, w, r.workers[w].task, open), w)
  {
  }

  lemma WorkMoves(r: Reactor.State, w: nat, y: Reactor.WorkerAction)
    requires w < |r.workers| && Reactor.CanWorker(r, w, y)
    requires y.Check? || y.Process? || y.Confirm? || y.SendFails?
    ensures Worked(r, Reactor.DoWorker(r, w, y), w)
  {
    match y
    case Check => TestMoves(r, w, Reactor.Processing(r.workers[w].task));
    case Confirm => TestMoves(r, w, Reactor.Sending(r.workers[w].task));
    case Process =>
    case SendFails =>
  }

  lemma LinkWork(s: State, w: nat, y: Reactor.WorkerAction)
    requires Linked(s) && Can(s, Work(w, y))
    ensures Linked(Do(s, Work(w, y)))
  {
    assert WorkerAt(s, w);
    WorkMoves(s.r, w, y);
    QueuesStay(s, Do(s, Work(w, y)));
    LinkWorker(s, Do(s, Work(w, y)), w);
  }

  /** A worker's write to the pipe of thread `i`, whether or not it succeeds. */
  lemma LinkByte(s: State, i: nat, w: nat, a: Action)
    requires Linked(s) && Can(s, a) && (a == WriteByte(i, w) || a == ByteRefused(i, w))
    ensures Linked(Do(s, a))
  {
    var t := Do(s, a);
    QueuesStay(s, t);
    forall j | 0 <= j < |t.boxes| ensures BoxAt(t, j) && ProducerAt(t, j) {
      assert BoxAt(s, j) && ProducerAt(s, j);
    }
    forall v | 0 <= v < |t.r.workers| ensures WorkerAt(t, v) {
      assert WorkerAt(s, v);
    }
    forall j, v | 0 <= j < |t.boxes| && 0 <= v < |t.r.workers| ensures SenderAt(t, j, v) {
      assert SenderAt(s, j, v);
    }
  }

  /** The worker appends to the inbox on both sides, or finds nothing to append to. */
  lemma LinkSend(s: State, w: nat)
    requires Linked(s) && Can(s, Send(w))
    ensures Linked(Do(s, Send(w)))
  {
    var t := Do(s, Send(w));
    assert WorkerAt(s, w);
    SendMoves(s, w);
    QueuesStay(s, t);
    forall j | 0 <= j < |t.boxes| ensures BoxAt(t, j) && ProducerAt(t, j) {
      assert BoxAt(s, j) && ProducerAt(s, j);
    }
    forall v | 0 <= v < |t.r.workers| ensures WorkerAt(t, v) {
      assert WorkerAt(s, v);
    }
    forall j, v | 0 <= j < |t.boxes| && 0 <= v < |t.r.workers| ensures SenderAt(t, j, v) {
      assert SenderAt(s, j, v);
    }
  }

  lemma SendMoves(s: State, w: nat)
    requires w < |s.r.workers| && s.r.workers[w].Sending?
    ensures var q := Reactor.DoSend(s.r, w);
            && q.workers == s.r.workers[w := Reactor.Finishing(s.r.workers[w].task)]
            && q.queue == s.r.queue && q.down == s.r.down && |q.ios| == |s.r.ios|
            && q.accepted == s.r.accepted && q.popped == s.r.popped
            && forall j | 0 <= j < |s.r.ios| ::
                 && q.ios[j].point == s.r.ios[j].point
                 && q.ios[j].inbox == s.r.ios[j].inbox + (if Target(s, w) == Some(j) then [s.r.nextMsg] else [])
  {
  }

  lemma LinkSetFlag(s: State)
    requires Linked(s) && Can(s, SetFlag)
    ensures Linked(Do(s, SetFlag))
  {
    LinkFlag(s, Do(s, SetFlag));
  }

  lemma LinkFlag(s: State, t: State)
    requires Linked(s) && t == State(s.r.(down := true), s.p.(flag := true), s.boxes, s.names)
    ensures Linked(t)
  {
    QueuesStay(s, t);
    forall j | 0 <= j < |t.boxes| ensures BoxAt(t, j) && ProducerAt(t, j) {
      assert BoxAt(s, j) && ProducerAt(s, j);
    }
    forall v | 0 <= v < |t.r.workers| ensures WorkerAt(t, v) {
      assert WorkerAt(s, v);
    }
    forall j, v | 0 <= j < |t.boxes| && 0 <= v < |t.r.workers| ensures SenderAt(t, j, v) {
      assert SenderAt(s, j, v);
    }
  }

  // ---- Whole runs -------------------------------------------------------------------------

  lemma LinkStep(s: State, a: Action)
    requires Linked(s) && Can(s, a)
    ensures Linked(Do(s, a))
  {
    match a
    case Accept(b) => LinkAccept(s, b);
    case Io(i, x) => LinkIo(s, i, x);
    case PollMail(_, _) => LinkMailStep(s, a);
    case TakeByte(_) => LinkMailStep(s, a);
    case Drain(_) => LinkMailStep(s, a);
    case DropMsg(_) => LinkMailStep(s, a);
    case Enter(_) => LinkSubmitStep(s, a);
    case Turned(_) => LinkSubmitStep(s, a);
    case PushWaits(_, _) => LinkSubmitStep(s, a);
    case PushRefused(_, _) => LinkSubmitStep(s, a);
    case PushDone(_, _) => LinkSubmitStep(s, a);
    case Pool(b) => LinkPool(s, b);
    case SetFlag => LinkSetFlag(s);
    case _ => LinkWorkerStep(s, a);
  }

  lemma LinkSubmitStep(s: State, a: Action)
    requires Linked(s) && Can(s, a)
    requires a.Enter? || a.Turned? || a.PushWaits? || a.PushRefused? || a.PushDone?
    ensures Linked(Do(s, a))
  {
    match a
    case Enter(i) => LinkEnter(s, i);
    case Turned(i) => LinkRefused(s, i, a);
    case PushWaits(i, pick) => LinkPushWaits(s, i, pick);
    case PushRefused(i, _) => LinkRefused(s, i, a);
    case PushDone(i, pick) => LinkPushDone(s, i, pick);
  }

  lemma LinkMailStep(s: State, a: Action)
    requires Linked(s) && Can(s, a) && (a.PollMail? || a.TakeByte? || a.Drain? || a.DropMsg?)
    ensures Linked(Do(s, a))
  {
    match a
    case PollMail(i, batch) => LinkPollMail(s, i, batch);
    case TakeByte(i) => LinkTakeByte(s, i);
    case Drain(i) => LinkDrain(s, i);
    case DropMsg(i) => LinkDropMsg(s, i);
  }

  lemma LinkWorkerStep(s: State, a: Action)
    requires Linked(s) && Can(s, a) && (a.Take? || a.Work? || a.Send? || a.WriteByte? || a.ByteRefused? || a.Destroy?)
    ensures Linked(Do(s, a))
  {
    match a
    case Take(w, pick) => LinkTake(s, w, pick);
    case Work(w, y) => LinkWork(s, w, y);
    case Send(w) => LinkSend(s, w);
    case WriteByte(i, w) => LinkByte(s, i, w, a);
    case ByteRefused(i, w) => LinkByte(s, i, w, a);
    case Destroy(w) => LinkDestroy(s, w);
  }

  /** Every side of a reachable server is reachable by itself. */
  ghost predicate SidesReachable(s: State) {
    && Reactor.Reachable(s.r) && WorkerPool.Reachable(s.p)
    && forall i | 0 <= i < |s.boxes| :: Mailbox.Reachable(s.boxes[i])
  }

  lemma SidesStep(s: State, a: Action)
    requires SidesReachable(s) && Can(s, a)
    ensures SidesReachable(Do(s, a))
  {
    if OnReactor(a).Some? {
      ReactorTheorems.ReachStep(s.r, OnReactor(a).value);
    }
    if OnPool(a).Some? {
      WorkerPool.ReachStep(s.p, OnPool(a).value);
    }
    if OnBox(s, a).Some? {
      Mailbox.ReachStep(s.boxes[OnBox(s, a).value.i], OnBox(s, a).value.a);
    }
  }

  lemma {:induction false} ServerRun(s: State, acts: seq<Action>, t: State)
    requires Linked(s) && SidesReachable(s) && Run(s, acts, t)
    ensures Linked(t) && SidesReachable(t)
    decreases |acts|
  {
    if acts != [] {
      LinkStep(s, acts[0]);
      SidesStep(s, acts[0]);
      ServerRun(Do(s, acts[0]), acts[1..], t);
    }
  }

  lemma InitLinked(s: State)
    requires Init(s)
    ensures Linked(s) && SidesReachable(s)
  {
    assert Reactor.Run(s.r, [], s.r) && WorkerPool.Run(s.p, [], s.p);
    forall i | 0 <= i < |s.boxes| ensures Mailbox.Reachable(s.boxes[i]) {
      assert Mailbox.Run(s.boxes[i], [], s.boxes[i]);
    }
    forall w | 0 <= w < |s.r.workers| ensures WorkerAt(s, w) {
      assert s.p.workers[w] == WorkerPool.Testing && s.r.workers[w] == Reactor.Free;
    }
  }

  /**
    Every run of the server is, side by side, a run of the connection protocol, of
    the worker pool and of each inbox, and the sides agree: the queue holds the same
    tasks, each inbox the same messages, and each thread is where both sides say.
   */
  lemma ServerProjects(s: State)
    requires Reachable(s)
    ensures Linked(s) && SidesReachable(s)
  {
    var s0: State, acts: seq<Action> :| Init(s0) && Run(s0, acts, s);
    InitLinked(s0);
    ServerRun(s0, acts, s);
  }
}

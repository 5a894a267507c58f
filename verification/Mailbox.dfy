/**
  The message queue of one I/O thread and its edge-triggered wake-up pipe.

  Workers append under the queue mutex and then write one byte to a non-blocking
  pipe; the byte is dropped when the pipe has no room.  The I/O thread is told of
  writes by edges only, takes one byte per notification, and drains the queue
  one message at a time with the mutex released in between.

  A pipe gives space back in pages: while fewer than `page` of its `capacity`
  bytes are unused it may refuse a byte.  With pages of one byte it refuses only
  when it is full.
 */
module Mailbox {
  import opened Totals

  type Message = nat

  /** Where the I/O thread is with respect to one notification. */
  datatype ReaderPoint =
    | Waiting                    // not told of any write
    | Notified                   // the edge was delivered, the byte is not read yet
    | Draining                   // holds the queue mutex at the loop test
    | Handling(msg: Message)     // handles one message with the mutex released

  /** Where a worker is in io_thread_send_message. */
  datatype SenderPoint = Quiet | Notifying

  /**
    `sent`, `taken` and `unheard` are histories: the messages appended and taken,
    and whether a byte was refused while messages waited and no edge was pending.
   */
  datatype Box = Box(
    inbox: seq<Message>,
    bytes: nat,
    capacity: nat,
    page: nat,
    edge: bool,
    reader: ReaderPoint,
    senders: seq<SenderPoint>,
    sent: seq<Message>,
    taken: seq<Message>,
    unheard: bool)

  datatype Action =
    | Enqueue(w: nat, msg: Message)
    | WriteByte(w: nat)
    | ByteRefused(w: nat)
    | Deliver
    | ReadByte
    | DrainNext
    | Finish

  predicate Init(s: Box) {
    && s.inbox == [] && s.bytes == 0 && !s.edge && s.reader == Waiting && s.sent == [] && s.taken == []
    && 1 <= s.page <= s.capacity && !s.unheard
    && forall w | 0 <= w < |s.senders| :: s.senders[w] == Quiet
  }

  predicate Can(s: Box, a: Action) {
    match a
    case Enqueue(w, _) => w < |s.senders| && s.senders[w].Quiet?
    case WriteByte(w) => w < |s.senders| && s.senders[w].Notifying? && s.bytes < s.capacity
    case ByteRefused(w) => w < |s.senders| && s.senders[w].Notifying? && s.bytes + s.page > s.capacity
    case Deliver => s.edge && s.reader.Waiting?
    case ReadByte => s.reader.Notified?
    case DrainNext => s.reader.Draining?
    case Finish => s.reader.Handling?
  }

  function Do(s: Box, a: Action): Box
    requires Can(s, a)
  {
    match a
    case Enqueue(w, m) =>
      s.(inbox := s.inbox + [m], sent := s.sent + [m], senders := s.senders[w := Notifying])
    case WriteByte(w) => s.(senders := s.senders[w := Quiet], bytes := s.bytes + 1, edge := true)
    case ByteRefused(w) =>
      s.(senders := s.senders[w := Quiet],
         unheard := s.unheard || (s.inbox != [] && s.reader.Waiting? && !s.edge))
    case Deliver => s.(edge := false, reader := Notified, unheard := false)
    case ReadByte => s.(bytes := if s.bytes > 0 then s.bytes - 1 else 0, reader := Draining)
    case DrainNext =>
      if s.inbox == [] then s.(reader := Waiting)
      else s.(inbox := s.inbox[1..], taken := s.taken + [s.inbox[0]], reader := Handling(s.inbox[0]))
    case Finish => s.(reader := Draining)
  }

  predicate Run(s: Box, acts: seq<Action>, t: Box)
    decreases |acts|
  {
    if acts == [] then t == s
    else Can(s, acts[0]) && Run(Do(s, acts[0]), acts[1..], t)
  }

  ghost predicate Reachable(s: Box) {
    exists s0: Box, acts: seq<Action> :: Init(s0) && Run(s0, acts, s)
  }

  lemma {:induction false} RunSnoc(s: Box, acts: seq<Action>, t: Box, a: Action)
    requires Run(s, acts, t) && Can(t, a)
    ensures Run(s, acts + [a], Do(t, a))
    decreases |acts|
  {
    if acts == [] {
      assert Run(Do(t, a), [], Do(t, a)) && [a][1..] == [] && acts + [a] == [a];
    } else {
      RunSnoc(Do(s, acts[0]), acts[1..], t, a);
      assert (acts + [a])[1..] == acts[1..] + [a];
    }
  }

  lemma ReachStep(s: Box, a: Action)
    requires Reachable(s) && Can(s, a)
    ensures Reachable(Do(s, a))
  {
    var s0: Box, acts: seq<Action> :| Init(s0) && Run(s0, acts, s);
    RunSnoc(s0, acts, s, a);
  }

  predicate SomeoneNotifies(s: Box) {
    exists w | 0 <= w < |s.senders| :: s.senders[w].Notifying?
  }

  /** A queued message is about to be seen, unless a byte was refused for it or for one before it. */
  predicate NotStranded(s: Box) {
    s.inbox != [] ==> s.edge || !s.reader.Waiting? || SomeoneNotifies(s) || s.unheard
  }

  /** The pipe is full only while a notification is outstanding and its byte unread. */
  predicate FullPipeIsNews(s: Box) {
    && 1 <= s.page <= s.capacity && s.bytes <= s.capacity
    && (s.bytes == s.capacity ==> s.edge || s.reader.Notified?)
  }

  /** Every outstanding notification has its byte in the pipe. */
  predicate BytesBackNews(s: Box) {
    s.bytes >= (if s.edge then 1 else 0) + (if s.reader.Notified? then 1 else 0)
  }

  /** Since a byte was refused the messages wait, the reader too, and the pipe is short of a page. */
  predicate UnheardWaits(s: Box) {
    s.unheard ==> s.inbox != [] && s.reader.Waiting? && s.bytes + s.page > s.capacity && s.page > 1
  }

  predicate Inv(s: Box) {
    NotStranded(s) && FullPipeIsNews(s) && BytesBackNews(s) && UnheardWaits(s) && s.sent == s.taken + s.inbox
  }

  lemma InvStep(s: Box, a: Action)
    requires Inv(s) && Can(s, a)
    ensures Inv(Do(s, a))
  {
    var s' := Do(s, a);
    match a
    case Enqueue(w, m) =>
      assert s'.senders[w].Notifying?;
      assert s.taken + s.inbox + [m] == s.taken + (s.inbox + [m]);
    case DrainNext =>
      if s.inbox != [] {
        assert s.taken + s.inbox == (s.taken + [s.inbox[0]]) + s.inbox[1..];
      }
    case WriteByte(w) =>
    case ByteRefused(w) =>
    case _ => assert s'.senders == s.senders;
  }

  lemma {:induction false} InvRun(s: Box, acts: seq<Action>, t: Box)
    requires Inv(s) && Run(s, acts, t)
    ensures Inv(t)
    decreases |acts|
  {
    if acts != [] {
      InvStep(s, acts[0]);
      InvRun(Do(s, acts[0]), acts[1..], t);
    }
  }

  lemma ReachableInv(s: Box)
    requires Reachable(s)
    ensures Inv(s)
  {
    var s0: Box, acts: seq<Action> :| Init(s0) && Run(s0, acts, s);
    InvRun(s0, acts, s);
  }

  /** Messages wait and nothing under way will tell the I/O thread of them. */
  predicate Stranded(s: Box) {
    s.inbox != [] && !s.edge && s.reader.Waiting? && !SomeoneNotifies(s)
  }

  /**
    Under every interleaving a queued message has an edge pending, a drain in
    progress or a sender about to write, with one exception: messages are stranded
    exactly when a byte was refused while they waited and nothing has happened
    since.  That takes a pipe with less than a page unused and pages of more than
    one byte.  A notified I/O thread finds its byte, and messages are taken in the
    order sent.
   */
  lemma NoMessageIsStranded(s: Box)
    requires Reachable(s)
    ensures Stranded(s) <==> s.unheard && !s.edge && !SomeoneNotifies(s)
    ensures s.unheard ==> s.bytes + s.page > s.capacity && s.page > 1
    ensures s.reader.Notified? ==> s.bytes > 0
    ensures s.sent == s.taken + s.inbox
  {
    ReachableInv(s);
  }

  // ---- Delivery -------------------------------------------------------------

  function SenderLoad(x: SenderPoint): int { if x.Notifying? then 5 else 0 }

  function ReaderLoad(x: ReaderPoint): int {
    match x
    case Waiting => 0
    case Notified => 3
    case Draining => 2
    case Handling(_) => 3
  }

  /** The steps left until everything sent so far is handled. */
  function Load(s: Box): int {
    Total(SenderLoad, s.senders) + (if s.edge then 4 else 0) + ReaderLoad(s.reader) + 2 * |s.inbox|
  }

  lemma StepWorks(s: Box, a: Action)
    requires Can(s, a) && !a.Enqueue?
    ensures Load(Do(s, a)) < Load(s)
  {
    if a.WriteByte? || a.ByteRefused? {
      TotalUpdate(SenderLoad, s.senders, a.w, Quiet);
    }
  }

  /** Without new messages no interleaving goes on for more than `Load(s)` steps. */
  lemma {:induction false} DeliverySettles(s: Box, acts: seq<Action>, t: Box)
    requires Run(s, acts, t)
    requires forall k | 0 <= k < |acts| :: !acts[k].Enqueue?
    ensures |acts| <= |acts| + Load(t) <= Load(s)
    ensures t.sent == s.sent
    decreases |acts|
  {
    TotalNonNegative(SenderLoad, t.senders);
    if acts != [] {
      StepWorks(s, acts[0]);
      DeliverySettles(Do(s, acts[0]), acts[1..], t);
    }
  }

  /** A worker that owes a byte can write it or have it refused. */
  lemma NotifierMoves(s: Box, w: nat)
    requires w < |s.senders| && s.senders[w].Notifying? && s.page >= 1
    ensures Can(s, WriteByte(w)) || Can(s, ByteRefused(w))
  {
  }

  /**
    When only a new message could cause a step, the I/O thread waits, and every
    message sent was handled, in order, exactly when no byte was refused since.
   */
  lemma SettledBoxIsEmpty(s: Box)
    requires Reachable(s)
    requires forall a: Action | !a.Enqueue? :: !Can(s, a)
    ensures s.reader == Waiting && !s.edge && !SomeoneNotifies(s)
    ensures s.inbox == [] <==> !s.unheard
    ensures s.taken == s.sent <==> !s.unheard
  {
    ReachableInv(s);
    assert !Can(s, Deliver) && !Can(s, ReadByte) && !Can(s, DrainNext) && !Can(s, Finish);
    if SomeoneNotifies(s) {
      var w :| 0 <= w < |s.senders| && s.senders[w].Notifying?;
      NotifierMoves(s, w);
    }
    assert s.unheard ==> |s.sent| == |s.taken| + |s.inbox|;
  }

  // ---- A refused byte ----------------------------------------------------------

  function Copies(n: nat): seq<Message> { seq(n, _ => 0) }

  /** A quiet box with `n` messages waiting and `k` taken, after `bytes` unread bytes. */
  function Calm(capacity: nat, page: nat, ws: nat, n: nat, k: nat, bytes: nat, edge: bool, reader: ReaderPoint): Box {
    Box(Copies(n), bytes, capacity, page, edge, reader, seq(ws, _ => Quiet), Copies(k) + Copies(n), Copies(k), false)
  }

  lemma Then(s: Box, a: Action, t: Box)
    requires Reachable(s) && Can(s, a) && t == Do(s, a)
    ensures Reachable(t)
  {
    ReachStep(s, a);
  }

  /** Worker 0 sends `n` messages before the I/O thread looks: every byte but one is surplus. */
  lemma {:induction false} Filling(capacity: nat, page: nat, ws: nat, n: nat)
    requires 1 <= page <= capacity && ws >= 1 && n <= capacity
    ensures Reachable(Calm(capacity, page, ws, n, 0, n, n > 0, Waiting))
  {
    var s := Calm(capacity, page, ws, n, 0, n, n > 0, Waiting);
    if n == 0 {
      assert Init(s) && Run(s, [], s);
    } else {
      Filling(capacity, page, ws, n - 1);
      var r := Calm(capacity, page, ws, n - 1, 0, n - 1, n - 1 > 0, Waiting);
      var t := Do(r, Enqueue(0, 0));
      Then(r, Enqueue(0, 0), t);
      assert Copies(n - 1) + [0] == Copies(n) && t.senders[0 := Quiet] == s.senders;
      assert t.sent == s.sent;
      Then(t, WriteByte(0), s);
    }
  }

  /** The I/O thread takes one byte and drains `k` of the `n` messages. */
  lemma {:induction false} Emptying(capacity: nat, page: nat, ws: nat, k: nat)
    requires 1 <= page <= capacity && ws >= 1 && k <= capacity
    ensures Reachable(Calm(capacity, page, ws, capacity - k, k, capacity - 1, false, Draining))
  {
    var s := Calm(capacity, page, ws, capacity - k, k, capacity - 1, false, Draining);
    if k == 0 {
      Filling(capacity, page, ws, capacity);
      var r := Calm(capacity, page, ws, capacity, 0, capacity, true, Waiting);
      var t := r.(edge := false, reader := Notified);
      Then(r, Deliver, t);
      Then(t, ReadByte, s);
    } else {
      Emptying(capacity, page, ws, k - 1);
      var n := capacity - k;
      var r := Calm(capacity, page, ws, n + 1, k - 1, capacity - 1, false, Draining);
      var t := Do(r, DrainNext);
      Then(r, DrainNext, t);
      assert Copies(n + 1)[1..] == Copies(n) && Copies(k - 1) + [0] == Copies(k);
      assert Copies(k - 1) + Copies(n + 1) == Copies(k) + Copies(n);
      Then(t, Finish, s);
    }
  }

  /** With pages of more than one byte, the next byte can be refused, and its message waits for good. */
  lemma MessageCanBeStranded(capacity: nat, page: nat, ws: nat) returns (s: Box)
    requires 2 <= page <= capacity && ws >= 1
    ensures Reachable(s) && s.capacity == capacity && s.page == page && |s.senders| == ws
    ensures Stranded(s) && forall a: Action | !a.Enqueue? :: !Can(s, a)
  {
    Emptying(capacity, page, ws, capacity);
    var r := Calm(capacity, page, ws, 0, capacity, capacity - 1, false, Draining);
    var t := Do(r, DrainNext);
    Then(r, DrainNext, t);
    var u := Do(t, Enqueue(0, 0));
    Then(t, Enqueue(0, 0), u);
    s := Do(u, ByteRefused(0));
    Then(u, ByteRefused(0), s);
    assert u.senders[0 := Quiet] == t.senders;
  }

  /** Whatever its size, a pipe can strand a message exactly when its pages have more than one byte. */
  lemma StrandsIffPaged(capacity: nat, page: nat, ws: nat)
    requires 1 <= page <= capacity && ws >= 1
    ensures page > 1
            <==> exists s: Box ::
                   && Reachable(s) && Stranded(s)
                   && s.capacity == capacity && s.page == page && |s.senders| == ws
  {
    if page > 1 {
      var s := MessageCanBeStranded(capacity, page, ws);
    }
    forall s: Box | Reachable(s) && s.page == page && Stranded(s) ensures page > 1 {
      NoMessageIsStranded(s);
    }
  }
}

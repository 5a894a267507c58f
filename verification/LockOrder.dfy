/**
  The mutexes of the server.  The other modules take each critical section as one
  step; here the sections are split into the single lock operations, to show that
  they exclude each other and that every one that was entered can be left.
 */
module LockOrder {
  import opened Totals

  datatype Lock =
    | QueueLock            // task_queue_t.mutex
    | PoolStats            // thread_pool_t.stats_mutex
    | PickLock             // io_thread_pool_t.mutex
    | ServerStats          // reactor_server_t.stats_mutex
    | InboxLock(i: nat)    // io_thread_t.msg_queue_mutex
    | IoStats(i: nat)      // io_thread_t.stats_mutex
    | ConnLock(c: nat)     // connection_t.conn_mutex

  /** `Doze` is the part of pthread_cond_wait that waits for a signal, with the mutex given back. */
  datatype Step = Take(l: Lock) | Give(l: Lock) | Doze

  /** The functions that lock something; `waits` and `conns` are the rounds their loops make. */
  datatype Routine =
    | Guarded(l: Lock)                     // every section that locks nothing else
    | Push(waits: nat)                     // task_queue_push
    | Pop(waits: nat)                      // task_queue_pop
    | SendMessage(i: nat, c: nat)          // io_thread_send_message
    | DrainInbox(i: nat, conns: seq<nat>)  // the message loop of io_thread_run
    | DestroyQueue(conns: seq<nat>)        // task_queue_destroy

  function Section(l: Lock): seq<Step> { [Take(l), Give(l)] }

  function Waits(n: nat): seq<Step> {
    if n == 0 then [Give(QueueLock)] else [Give(QueueLock), Doze, Take(QueueLock)] + Waits(n - 1)
  }

  /** For each message: unlock, test the connection, release it, and lock again. */
  function Drains(i: nat, conns: seq<nat>): seq<Step> {
    if conns == [] then [Give(InboxLock(i))]
    else [Give(InboxLock(i))] + Section(ConnLock(conns[0])) + Section(ConnLock(conns[0])) + [Take(InboxLock(i))]
         + Drains(i, conns[1..])
  }

  /** Each task is destroyed, and its connection released, under the queue's mutex. */
  function Releases(conns: seq<nat>): seq<Step> {
    if conns == [] then [Give(QueueLock)] else Section(ConnLock(conns[0])) + Releases(conns[1..])
  }

  function Script(r: Routine): seq<Step> {
    match r
    case Guarded(l) => Section(l)
    case Push(waits) => [Take(QueueLock)] + Waits(waits)
    case Pop(waits) => [Take(QueueLock)] + Waits(waits)
    case SendMessage(i, c) => [Take(InboxLock(i))] + Section(ConnLock(c)) + [Give(InboxLock(i))]
    case DrainInbox(i, conns) => [Take(InboxLock(i))] + Drains(i, conns)
    case DestroyQueue(conns) => [Take(QueueLock)] + Releases(conns)
  }

  // ---- What the scripts lock --------------------------------------------------

  function Takings(l: Lock, steps: seq<Step>): nat {
    if steps == [] then 0 else (if steps[0] == Take(l) then 1 else 0) + Takings(l, steps[1..])
  }

  /** The locks held after `steps`, when none was held before. */
  function HeldAfter(held: seq<Lock>, steps: seq<Step>): seq<Lock>
    decreases |steps|
  {
    if steps == [] then held
    else
      var now :=
        match steps[0]
        case Take(l) => held + [l]
        case Give(_) => if held == [] then [] else held[..|held| - 1]
        case Doze => held;
      HeldAfter(now, steps[1..])
  }

  lemma {:induction false} TakingsSum(l: Lock, a: seq<Step>, b: seq<Step>)
    ensures Takings(l, a + b) == Takings(l, a) + Takings(l, b)
  {
    if a == [] {
      assert a + b == b;
    } else {
      TakingsSum(l, a[1..], b);
      assert (a + b)[1..] == a[1..] + b;
    }
  }

  /** How often `c` occurs in `conns`. */
  function Occurs(c: nat, conns: seq<nat>): nat {
    if conns == [] then 0 else (if conns[0] == c then 1 else 0) + Occurs(c, conns[1..])
  }

  lemma SectionTakes(l: Lock, m: Lock)
    ensures Takings(l, Section(m)) == if l == m then 1 else 0
  {
    OneTakes(l, Take(m));
    OneTakes(l, Give(m));
    TakingsSum(l, [Take(m)], [Give(m)]);
    assert Section(m) == [Take(m)] + [Give(m)];
  }

  lemma {:induction false} WaitsTakes(l: Lock, n: nat)
    ensures Takings(l, Waits(n)) == if l == QueueLock then n else 0
  {
    OneTakes(l, Give(QueueLock));
    if n != 0 {
      WaitsTakes(l, n - 1);
      OneTakes(l, Doze);
      OneTakes(l, Take(QueueLock));
      TakingsSum(l, [Doze], [Take(QueueLock)]);
      TakingsSum(l, [Give(QueueLock)], [Doze] + [Take(QueueLock)]);
      assert [Give(QueueLock), Doze, Take(QueueLock)] == [Give(QueueLock)] + ([Doze] + [Take(QueueLock)]);
      TakingsSum(l, [Give(QueueLock), Doze, Take(QueueLock)], Waits(n - 1));
    }
  }

  lemma OneTakes(l: Lock, x: Step)
    ensures Takings(l, [x]) == if x == Take(l) then 1 else 0
  {
    assert [x][1..] == [];
  }

  lemma {:induction false} DrainsTakes(l: Lock, i: nat, conns: seq<nat>)
    ensures Takings(l, Drains(i, conns))
            == if l == InboxLock(i) then |conns| else if l.ConnLock? then 2 * Occurs(l.c, conns) else 0
  {
    OneTakes(l, Give(InboxLock(i)));
    if conns != [] {
      DrainsTakes(l, i, conns[1..]);
      var m := ConnLock(conns[0]);
      SectionTakes(l, m);
      OneTakes(l, Take(InboxLock(i)));
      var give, take := [Give(InboxLock(i))], [Take(InboxLock(i))];
      TakingsSum(l, give, Section(m));
      TakingsSum(l, give + Section(m), Section(m));
      TakingsSum(l, give + Section(m) + Section(m), take);
      TakingsSum(l, give + Section(m) + Section(m) + take, Drains(i, conns[1..]));
    }
  }

  lemma {:induction false} ReleasesTakes(l: Lock, conns: seq<nat>)
    ensures Takings(l, Releases(conns)) == if l.ConnLock? then Occurs(l.c, conns) else 0
  {
    if conns == [] {
      OneTakes(l, Give(QueueLock));
    } else {
      ReleasesTakes(l, conns[1..]);
      SectionTakes(l, ConnLock(conns[0]));
      TakingsSum(l, Section(ConnLock(conns[0])), Releases(conns[1..]));
    }
  }

  /**
    Which mutexes each function takes, and how often: a queue operation takes the
    queue's once and once more for each wait, a message the inbox's and the
    connection's, draining the inbox's once more than there are messages and each
    connection's twice, and destroying the queue each connection's once.
   */
  lemma ScriptTakes(r: Routine, l: Lock)
    ensures Takings(l, Script(r)) ==
            match r
            case Guarded(m) => if l == m then 1 else 0
            case Push(waits) => if l == QueueLock then waits + 1 else 0
            case Pop(waits) => if l == QueueLock then waits + 1 else 0
            case SendMessage(i, c) => if l == InboxLock(i) || l == ConnLock(c) then 1 else 0
            case DrainInbox(i, conns) =>
              if l == InboxLock(i) then |conns| + 1 else if l.ConnLock? then 2 * Occurs(l.c, conns) else 0
            case DestroyQueue(conns) =>
              if l == QueueLock then 1 else if l.ConnLock? then Occurs(l.c, conns) else 0
  {
    match r
    case Guarded(m) => SectionTakes(l, m);
    case Push(waits) =>
      WaitsTakes(l, waits);
      OneTakes(l, Take(QueueLock));
      TakingsSum(l, [Take(QueueLock)], Waits(waits));
    case Pop(waits) =>
      WaitsTakes(l, waits);
      OneTakes(l, Take(QueueLock));
      TakingsSum(l, [Take(QueueLock)], Waits(waits));
    case SendMessage(i, c) =>
      SectionTakes(l, ConnLock(c));
      OneTakes(l, Take(InboxLock(i)));
      OneTakes(l, Give(InboxLock(i)));
      TakingsSum(l, [Take(InboxLock(i))], Section(ConnLock(c)));
      TakingsSum(l, [Take(InboxLock(i))] + Section(ConnLock(c)), [Give(InboxLock(i))]);
    case DrainInbox(i, conns) =>
      DrainsTakes(l, i, conns);
      OneTakes(l, Take(InboxLock(i)));
      TakingsSum(l, [Take(InboxLock(i))], Drains(i, conns));
    case DestroyQueue(conns) =>
      ReleasesTakes(l, conns);
      OneTakes(l, Take(QueueLock));
      TakingsSum(l, [Take(QueueLock)], Releases(conns));
  }

  /** A message takes its connection's mutex while it holds the inbox's. */
  lemma SendHoldsBoth(i: nat, c: nat)
    ensures exists k | 0 <= k <= |Script(SendMessage(i, c))| ::
              HeldAfter([], Script(SendMessage(i, c))[..k]) == [InboxLock(i), ConnLock(c)]
  {
    var s := Script(SendMessage(i, c))[..2];
    assert s == [Take(InboxLock(i)), Take(ConnLock(c))];
    var a, b := [InboxLock(i)], [InboxLock(i), ConnLock(c)];
    assert [] + [InboxLock(i)] == a && a + [ConnLock(c)] == b;
    assert s[1..] == [Take(ConnLock(c))] && s[1..][1..] == [];
    assert HeldAfter(b, []) == b;
    assert HeldAfter(a, s[1..]) == b;
    assert HeldAfter([], s) == b;
  }

  // ---- The order ------------------------------------------------------------

  /** A second lock is taken only on a connection, and only under a lock that is none. */
  predicate InOrder(held: seq<Lock>, l: Lock) {
    held == [] || (|held| == 1 && !held[0].ConnLock? && l.ConnLock?)
  }

  /** From `held` on, `todo` takes locks in order, gives back the last one first, and sleeps with none. */
  predicate Nested(held: seq<Lock>, todo: seq<Step>)
    decreases |todo|
  {
    if todo == [] then held == []
    else
      match todo[0]
      case Take(l) => InOrder(held, l) && Nested(held + [l], todo[1..])
      case Give(l) => held != [] && held[|held| - 1] == l && Nested(held[..|held| - 1], todo[1..])
      case Doze => held == [] && Nested(held, todo[1..])
  }

  lemma SectionNested(held: seq<Lock>, l: Lock, rest: seq<Step>)
    requires InOrder(held, l) && Nested(held, rest)
    ensures Nested(held, Section(l) + rest)
  {
    var todo := Section(l) + rest;
    assert todo[1..][1..] == rest && (held + [l])[..|held|] == held;
    assert todo[0] == Take(l) && todo[1..][0] == Give(l);
  }

  lemma EnterNested(l: Lock, rest: seq<Step>)
    requires Nested([l], rest)
    ensures Nested([], [Take(l)] + rest)
  {
    assert [] + [l] == [l];
    assert ([Take(l)] + rest)[1..] == rest;
  }

  lemma {:induction false} WaitsNested(n: nat)
    ensures Nested([QueueLock], Waits(n))
  {
    if n > 0 {
      WaitsNested(n - 1);
      var w := Waits(n);
      EnterNested(QueueLock, Waits(n - 1));
      assert w[1..][1..] == [Take(QueueLock)] + Waits(n - 1);
      assert w[1..][0] == Doze;
    }
  }

  lemma {:induction false} DrainsNested(i: nat, conns: seq<nat>)
    ensures Nested([InboxLock(i)], Drains(i, conns))
  {
    if conns != [] {
      DrainsNested(i, conns[1..]);
      var l, tail := ConnLock(conns[0]), [Take(InboxLock(i))] + Drains(i, conns[1..]);
      EnterNested(InboxLock(i), Drains(i, conns[1..]));
      SectionNested([], l, tail);
      SectionNested([], l, Section(l) + tail);
      assert Drains(i, conns)[1..] == Section(l) + (Section(l) + tail);
    }
  }

  lemma {:induction false} ReleasesNested(conns: seq<nat>)
    ensures Nested([QueueLock], Releases(conns))
  {
    if conns != [] {
      ReleasesNested(conns[1..]);
      SectionNested([QueueLock], ConnLock(conns[0]), Releases(conns[1..]));
    }
  }

  /** Every function of the server respects the order, however often its loops turn. */
  lemma ScriptsAreNested(r: Routine)
    ensures Nested([], Script(r))
  {
    match r
    case Guarded(l) =>
      EnterNested(l, [Give(l)]);
      assert Section(l) == [Take(l)] + [Give(l)];
    case Push(waits) =>
      WaitsNested(waits);
      EnterNested(QueueLock, Waits(waits));
    case Pop(waits) =>
      WaitsNested(waits);
      EnterNested(QueueLock, Waits(waits));
    case SendMessage(i, c) => SendNested(i, c);
    case DrainInbox(i, conns) =>
      DrainsNested(i, conns);
      EnterNested(InboxLock(i), Drains(i, conns));
    case DestroyQueue(conns) =>
      ReleasesNested(conns);
      EnterNested(QueueLock, Releases(conns));
  }

  lemma SendNested(i: nat, c: nat)
    ensures Nested([], Script(SendMessage(i, c)))
  {
    var rest := [Give(InboxLock(i))];
    SectionNested([InboxLock(i)], ConnLock(c), rest);
    EnterNested(InboxLock(i), Section(ConnLock(c)) + rest);
    assert Script(SendMessage(i, c)) == [Take(InboxLock(i))] + (Section(ConnLock(c)) + rest);
  }

  // ---- Threads --------------------------------------------------------------

  datatype Thread = Thread(held: seq<Lock>, todo: seq<Step>)

  datatype Action = Begin(t: nat, r: Routine) | Advance(t: nat)

  predicate IsFree(ts: seq<Thread>, l: Lock) {
    forall t | 0 <= t < |ts| :: l !in ts[t].held
  }

  /** A lock can be taken only while it is free; a signal may end any sleep. */
  predicate Can(ts: seq<Thread>, a: Action) {
    && a.t < |ts|
    && match a
       case Begin(t, _) => ts[t].todo == []
       case Advance(t) => ts[t].todo != [] && (ts[t].todo[0].Take? ==> IsFree(ts, ts[t].todo[0].l))
  }

  function Moved(x: Thread): Thread
    requires x.todo != []
  {
    var rest := x.todo[1..];
    match x.todo[0]
    case Take(l) => Thread(x.held + [l], rest)
    case Give(l) => Thread(if x.held == [] then [] else x.held[..|x.held| - 1], rest)
    case Doze => Thread(x.held, rest)
  }

  function Do(ts: seq<Thread>, a: Action): seq<Thread>
    requires Can(ts, a)
  {
    match a
    case Begin(t, r) => ts[t := Thread(ts[t].held, Script(r))]
    case Advance(t) => ts[t := Moved(ts[t])]
  }

  predicate Run(ts: seq<Thread>, acts: seq<Action>, us: seq<Thread>)
    decreases |acts|
  {
    if acts == [] then us == ts
    else Can(ts, acts[0]) && Run(Do(ts, acts[0]), acts[1..], us)
  }

  predicate Idle(ts: seq<Thread>) {
    forall t | 0 <= t < |ts| :: ts[t] == Thread([], [])
  }

  ghost predicate Reachable(ts: seq<Thread>) {
    exists ts0: seq<Thread>, acts: seq<Action> :: Idle(ts0) && Run(ts0, acts, ts)
  }

  predicate Exclusive(ts: seq<Thread>, t: nat, u: nat) {
    t < |ts| && u < |ts| && t != u ==> forall l | l in ts[t].held :: l !in ts[u].held
  }

  predicate Orderly(ts: seq<Thread>) {
    && (forall t | 0 <= t < |ts| :: Nested(ts[t].held, ts[t].todo))
    && (forall t, u | 0 <= t < |ts| && 0 <= u < |ts| :: Exclusive(ts, t, u))
  }

  lemma OrderlyStep(ts: seq<Thread>, a: Action)
    requires Orderly(ts) && Can(ts, a)
    ensures Orderly(Do(ts, a))
  {
    var us := Do(ts, a);
    match a {
      case Begin(t, r) => ScriptsAreNested(r);
      case Advance(t) =>
    }
    forall t, u | 0 <= t < |us| && 0 <= u < |us| ensures Exclusive(us, t, u) {
      assert Exclusive(ts, t, u) && Exclusive(ts, u, t);
    }
  }

  lemma {:induction false} OrderlyRun(ts: seq<Thread>, acts: seq<Action>, us: seq<Thread>)
    requires Orderly(ts) && Run(ts, acts, us)
    ensures Orderly(us)
    decreases |acts|
  {
    if acts != [] {
      OrderlyStep(ts, acts[0]);
      OrderlyRun(Do(ts, acts[0]), acts[1..], us);
    }
  }

  lemma ReachableIsOrderly(ts: seq<Thread>)
    requires Reachable(ts)
    ensures Orderly(ts)
  {
    var ts0: seq<Thread>, acts: seq<Action> :| Idle(ts0) && Run(ts0, acts, ts);
    OrderlyRun(ts0, acts, ts);
  }

  /** No mutex is held twice, and a thread that sleeps on a condition holds none. */
  lemma LocksExclude(ts: seq<Thread>, t: nat, u: nat, l: Lock)
    requires Reachable(ts) && t < |ts| && u < |ts|
    ensures l in ts[t].held && l in ts[u].held ==> t == u
    ensures ts[t].todo == [] || ts[t].todo[0].Doze? ==> ts[t].held == []
  {
    ReachableIsOrderly(ts);
    assert Exclusive(ts, t, u);
  }

  // ---- Progress ---------------------------------------------------------------

  /** Thread `t` can go on without waiting for a signal. */
  predicate CanGoOn(ts: seq<Thread>, t: nat) {
    Can(ts, Advance(t)) && !ts[t].todo[0].Doze?
  }

  /** The holder of a connection's mutex is about to give it back. */
  lemma ConnHolderGoesOn(ts: seq<Thread>, t: nat, c: nat)
    requires Orderly(ts) && t < |ts| && ConnLock(c) in ts[t].held
    ensures CanGoOn(ts, t)
  {
    assert Nested(ts[t].held, ts[t].todo);
  }

  /** A thread that waits for a connection's mutex, or does not wait, can go on or its holder can. */
  lemma NearlyThere(ts: seq<Thread>, t: nat) returns (u: nat)
    requires Orderly(ts) && t < |ts| && ts[t].todo != [] && !ts[t].todo[0].Doze?
    requires ts[t].todo[0].Take? ==> ts[t].todo[0].l.ConnLock?
    ensures CanGoOn(ts, u)
  {
    u := t;
    if ts[t].todo[0].Take? && !IsFree(ts, ts[t].todo[0].l) {
      u :| 0 <= u < |ts| && ts[t].todo[0].l in ts[u].held;
      ConnHolderGoesOn(ts, u, ts[t].todo[0].l.c);
    }
  }

  /**
    The mutexes never deadlock: as long as some thread is inside a locking
    function, other than asleep on a condition, some such thread can go on.
   */
  lemma SomeoneGoesOn(ts: seq<Thread>, t: nat) returns (u: nat)
    requires Reachable(ts) && t < |ts| && ts[t].todo != [] && !ts[t].todo[0].Doze?
    ensures CanGoOn(ts, u)
  {
    ReachableIsOrderly(ts);
    if ts[t].todo[0].Take? && !ts[t].todo[0].l.ConnLock? && !IsFree(ts, ts[t].todo[0].l) {
      var l := ts[t].todo[0].l;
      u :| 0 <= u < |ts| && l in ts[u].held;
      assert Nested(ts[u].held, ts[u].todo);
      u := NearlyThere(ts, u);
    } else if ts[t].todo[0].Take? && !ts[t].todo[0].l.ConnLock? {
      u := t;
    } else {
      u := NearlyThere(ts, t);
    }
  }

  function Remaining(x: Thread): int { |x.todo| }

  /** Functions that were entered are left after as many steps as they have lock operations. */
  lemma {:induction false} SectionsEnd(ts: seq<Thread>, acts: seq<Action>, us: seq<Thread>)
    requires Run(ts, acts, us) && forall k | 0 <= k < |acts| :: acts[k].Advance?
    ensures |acts| <= |acts| + Total(Remaining, us) == Total(Remaining, ts)
    decreases |acts|
  {
    TotalNonNegative(Remaining, us);
    if acts != [] {
      var t := acts[0].t;
      TotalUpdate(Remaining, ts, t, Moved(ts[t]));
      SectionsEnd(Do(ts, acts[0]), acts[1..], us);
    }
  }
}

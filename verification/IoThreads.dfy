/** Reading from and writing to the sockets of an I/O thread. */
module IoThreads {
  import opened Basics
  import opened Responses
  import opened Connections

  /**
    What became of one chunk that was read: its task was passed on, could not be
    allocated, could not be given its payload, or was refused by the pool.
   */
  datatype Fate = Passed | NoTask | NoPayload | Refused

  datatype Chunk = Chunk(data: string, fate: Fate)

  /** What one read(2) on a non-blocking socket can return, and the fate of the chunk. */
  datatype ReadResult = Data(chunk: Chunk) | EndOfFile | NoData | ReadError

  /** What one write(2) can return; when it returns 0, `again` tells what errno was left from earlier. */
  datatype WriteResult = Wrote(n: nat, again: bool) | WouldBlock | WriteError

  // ---- Writing --------------------------------------------------------------

  datatype Outcome = Finished | Blocked | Broken

  datatype Sent = Sent(pos: nat, outcome: Outcome)

  function Min(a: nat, b: nat): nat { if a <= b then a else b }

  /**
    The write loop against the kernel's answers; the kernel takes at most what it
    was offered, and blocks when it has no answer.
   */
  function Transmit(size: nat, pos: nat, answers: seq<WriteResult>): (r: Sent)
    requires pos <= size
    ensures pos <= r.pos <= size
    ensures r.outcome == Finished <==> r.pos == size
  {
    TransmitFrom(size, pos, answers, 0)
  }

  /** The same, from answer `k` on. */
  function TransmitFrom(size: nat, pos: nat, answers: seq<WriteResult>, k: nat): (r: Sent)
    requires pos <= size && k <= |answers|
    ensures pos <= r.pos <= size
    ensures r.outcome == Finished <==> r.pos == size
    decreases |answers| - k
  {
    if pos == size then Sent(pos, Finished)
    else if k == |answers| then Sent(pos, Blocked)
    else
      match answers[k]
      case Wrote(n, again) =>
        if n > 0 then TransmitFrom(size, Min(pos + n, size), answers, k + 1)
        else Sent(pos, if again then Blocked else Broken)
      case WouldBlock => Sent(pos, Blocked)
      case WriteError => Sent(pos, Broken)
  }

  /** A write that took something. */
  predicate Takes(x: WriteResult) { x.Wrote? && x.n > 0 }

  /** How much the first `k` answers took. */
  function TakenBy(answers: seq<WriteResult>, k: nat): nat
    requires k <= |answers|
  {
    if k == 0 then 0 else TakenBy(answers, k - 1) + (if answers[k - 1].Wrote? then answers[k - 1].n else 0)
  }

  /**
    What the write loop makes of the kernel's answers: it sends what the writes
    before the first other answer took, or everything; and when bytes are left,
    that answer decides: a would-block, or none, waits, and an error breaks.  A
    write of nothing is judged by the errno of an earlier call.
   */
  lemma TransmitLaw(size: nat, pos: nat, answers: seq<WriteResult>, k: nat)
    requires pos <= size && k <= |answers| && forall j | 0 <= j < k :: Takes(answers[j])
    requires k == |answers| || !Takes(answers[k])
    ensures var r, end := Transmit(size, pos, answers), pos + TakenBy(answers, k);
            && r.pos == Min(end, size)
            && (r.outcome == Finished <==> end >= size)
            && (r.outcome == Broken <==>
                  && end < size && k < |answers|
                  && (answers[k] == WriteError || answers[k] == Wrote(0, false)))
            && (r.outcome == Blocked <==>
                  && end < size
                  && (k == |answers| || answers[k] == WouldBlock || answers[k] == Wrote(0, true)))
  {
    TransmitFromLaw(size, pos, answers, 0, k);
  }

  lemma {:induction false} TransmitFromLaw(size: nat, pos: nat, answers: seq<WriteResult>, j: nat, k: nat)
    requires pos <= size && j <= k <= |answers| && forall l | j <= l < k :: Takes(answers[l])
    requires k == |answers| || !Takes(answers[k])
    ensures var r, end := TransmitFrom(size, pos, answers, j), pos + TakenBy(answers, k) - TakenBy(answers, j);
            && pos <= end && r.pos == Min(end, size)
            && (r.outcome == Finished <==> end >= size)
            && (r.outcome == Broken <==>
                  && end < size && k < |answers|
                  && (answers[k] == WriteError || answers[k] == Wrote(0, false)))
    decreases k - j
  {
    if j < k {
      var next := Min(pos + answers[j].n, size);
      TransmitFromLaw(size, next, answers, j + 1, k);
      if pos + answers[j].n >= size {
        TakenGrows(answers, j + 1, k);
      }
    }
  }

  lemma {:induction false} TakenGrows(answers: seq<WriteResult>, j: nat, k: nat)
    requires j <= k <= |answers|
    ensures TakenBy(answers, j) <= TakenBy(answers, k)
  {
    if j < k {
      TakenGrows(answers, j, k - 1);
    }
  }

  /** The write fields of a connection, and what the client was sent of the installed response. */
  datatype Side = Side(out: string, pos: nat, installed: string, sent: string)

  datatype SideEvent = Install(response: string) | Writable(answers: seq<WriteResult>)

  /** One install or one handle_write call. */
  function Next(s: Side, e: SideEvent): Side
    requires s.pos <= |s.out|
  {
    match e
    case Install(r) =>
      if 0 < |r| < BUFFER_SIZE then Side(r, 0, r, []) else s
    case Writable(answers) =>
      if |s.out| == 0 then s
      else
        var r := Transmit(|s.out|, s.pos, answers);
        var sent := s.sent + s.out[s.pos..r.pos];
        if r.outcome == Finished then Side([], 0, s.installed, sent) else s.(pos := r.pos, sent := sent)
  }

  /** The client holds a prefix of the installed response, all of it exactly when the positions were reset. */
  predicate SendsPrefix(s: Side) {
    && s.pos <= |s.out| < BUFFER_SIZE
    && s.sent <= s.installed
    && (s.out != [] ==> s.out == s.installed && |s.sent| == s.pos < |s.out|)
    && (s.out == [] ==> s.pos == 0 && s.sent == s.installed)
  }

  predicate After(s: Side, events: seq<SideEvent>, t: Side)
    requires s.pos <= |s.out|
    decreases |events|
  {
    if events == [] then t == s
    else
      var n := Next(s, events[0]);
      n.pos <= |n.out| && After(n, events[1..], t)
  }

  /** Any number of write events with arbitrary partial writes sends the installed response once, in order. */
  lemma {:induction false} ResponseIsSentInOrder(s: Side, events: seq<SideEvent>, t: Side)
    requires SendsPrefix(s) && After(s, events, t)
    ensures SendsPrefix(t)
    decreases |events|
  {
    if events != [] {
      NextKeeps(s, events[0]);
      ResponseIsSentInOrder(Next(s, events[0]), events[1..], t);
    }
  }

  lemma NextKeeps(s: Side, e: SideEvent)
    requires SendsPrefix(s)
    ensures SendsPrefix(Next(s, e))
  {
    if e.Writable? && s.out != [] {
      var r := Transmit(|s.out|, s.pos, e.answers);
      assert s.sent == s.out[..s.pos];
      assert s.out[..s.pos] + s.out[s.pos..r.pos] == s.out[..r.pos];
    }
  }

  // ---- Reading --------------------------------------------------------------

  /** read(2) returned data. */
  predicate IsChunk(x: ReadResult) { x.Data? && x.chunk.data != [] }

  /** The chunks a read loop receives before it ends. */
  function Chunks(answers: seq<ReadResult>): seq<Chunk> {
    if answers == [] || !IsChunk(answers[0]) then []
    else [answers[0].chunk] + Chunks(answers[1..])
  }

  /** Whether the read loop ends by closing the connection. */
  predicate ReadCloses(answers: seq<ReadResult>) {
    if answers == [] then false
    else if IsChunk(answers[0]) then ReadCloses(answers[1..])
    else !answers[0].NoData?
  }

  /** All bytes of `chunks`, in order. */
  function Arrived(chunks: seq<Chunk>): string {
    if chunks == [] then [] else Arrived(chunks[..|chunks| - 1]) + chunks[|chunks| - 1].data
  }

  /** The payloads of the tasks that were passed on. */
  function Payloads(chunks: seq<Chunk>): seq<string> {
    if chunks == [] then []
    else
      var last := chunks[|chunks| - 1];
      Payloads(chunks[..|chunks| - 1]) + (if last.fate == Passed then [last.data] else [])
  }

  function CountOf(fate: Fate, chunks: seq<Chunk>): nat {
    if chunks == [] then 0
    else CountOf(fate, chunks[..|chunks| - 1]) + (if chunks[|chunks| - 1].fate == fate then 1 else 0)
  }

  lemma ChunksSnoc(chunks: seq<Chunk>, last: Chunk)
    ensures Arrived(chunks + [last]) == Arrived(chunks) + last.data
    ensures Payloads(chunks + [last]) == Payloads(chunks) + (if last.fate == Passed then [last.data] else [])
  {
    assert (chunks + [last])[..|chunks|] == chunks;
  }

  lemma CountSnoc(fate: Fate, chunks: seq<Chunk>, last: Chunk)
    ensures CountOf(fate, chunks + [last]) == CountOf(fate, chunks) + (if last.fate == fate then 1 else 0)
  {
    assert (chunks + [last])[..|chunks|] == chunks;
  }

  /** What was passed on is what arrived, exactly when every chunk was passed on. */
  lemma {:induction false} PassedIffAllPassed(chunks: seq<Chunk>)
    requires forall k | 0 <= k < |chunks| :: chunks[k].data != []
    ensures |Concat(Payloads(chunks))| <= |Arrived(chunks)|
    ensures Concat(Payloads(chunks)) == Arrived(chunks) <==> forall k | 0 <= k < |chunks| :: chunks[k].fate == Passed
  {
    if chunks != [] {
      var n := |chunks| - 1;
      PassedIffAllPassed(chunks[..n]);
      ConcatSnoc(Payloads(chunks[..n]), chunks[n].data);
      if chunks[n].fate != Passed {
        assert Payloads(chunks) == Payloads(chunks[..n]);
      } else {
        AppendedEqual(Concat(Payloads(chunks[..n])), Arrived(chunks[..n]), chunks[n].data);
      }
    }
  }

  lemma AppendedEqual(a: string, b: string, c: string)
    ensures a + c == b + c <==> a == b
  {
    if a + c == b + c {
      assert |a| == |b|;
      assert a == (a + c)[..|a|] == (b + c)[..|b|] == b;
    }
  }

  /**
    The read loop receives the data before the first answer that brings none, and
    closes the connection exactly when that answer is the end of the stream, an error
    or a read of nothing.
   */
  lemma {:induction false} ReadLoopLaw(answers: seq<ReadResult>, k: nat)
    requires k <= |answers| && forall j | 0 <= j < k :: answers[j].Data? && |answers[j].chunk.data| > 0
    requires k == |answers| || !answers[k].Data? || answers[k].chunk.data == []
    ensures |Chunks(answers)| == k && forall j | 0 <= j < k :: answers[j] == Data(Chunks(answers)[j])
    ensures ReadCloses(answers)
            <==> k < |answers| && (answers[k].EndOfFile? || answers[k].ReadError? || answers[k].Data?)
  {
    if k != 0 {
      assert forall j | 0 <= j < k - 1 :: answers[1..][j] == answers[j + 1];
      ReadLoopLaw(answers[1..], k - 1);
      var rest := Chunks(answers[1..]);
      forall j | 0 <= j < k ensures answers[j] == Data(Chunks(answers)[j]) {
        if j > 0 {
          assert answers[1..][j - 1] == Data(rest[j - 1]);
        }
      }
    }
  }

  /** The answer after the chunks decides whether the connection is closed. */
  lemma {:induction false} ChunksEnd(answers: seq<ReadResult>)
    ensures |Chunks(answers)| <= |answers|
    ensures ReadCloses(answers) <==> |Chunks(answers)| < |answers| && !answers[|Chunks(answers)|].NoData?
  {
    if answers != [] && IsChunk(answers[0]) {
      ChunksEnd(answers[1..]);
    }
  }

  lemma {:induction false} CountIsSmall(fate: Fate, chunks: seq<Chunk>)
    ensures CountOf(fate, chunks) <= |chunks|
  {
    if chunks != [] {
      CountIsSmall(fate, chunks[..|chunks| - 1]);
    }
  }

  /** What the read loop makes of answers: the chunks, the tasks, the bytes and the references. */
  datatype Ledger = Ledger(chunks: seq<Chunk>, tasks: seq<string>, bytes: int, refs: int)

  function Enter(d: Ledger, x: Chunk): Ledger {
    Ledger(d.chunks + [x], if x.fate == Passed then d.tasks + [x.data] else d.tasks,
           d.bytes + |x.data|, d.refs + (if x.fate == NoTask then 0 else 1))
  }

  /** The ledger after `k` answers. */
  function LedgerOf(answers: seq<ReadResult>, k: nat): Ledger
    requires k <= |answers|
  {
    if k == 0 then Ledger([], [], 0, 0)
    else if IsChunk(answers[k - 1]) then Enter(LedgerOf(answers, k - 1), answers[k - 1].chunk)
    else LedgerOf(answers, k - 1)
  }

  lemma {:induction false} LedgerIs(answers: seq<ReadResult>, k: nat)
    requires k <= |answers| && forall j | 0 <= j < k :: IsChunk(answers[j])
    ensures var d := LedgerOf(answers, k);
            && d.tasks == Payloads(d.chunks) && d.bytes == |Arrived(d.chunks)|
            && d.refs == |d.chunks| - CountOf(NoTask, d.chunks)
            && |d.chunks| == k && forall j | 0 <= j < k :: answers[j] == Data(d.chunks[j])
  {
    if k != 0 {
      LedgerIs(answers, k - 1);
      ChunksSnoc(LedgerOf(answers, k - 1).chunks, answers[k - 1].chunk);
      CountSnoc(NoTask, LedgerOf(answers, k - 1).chunks, answers[k - 1].chunk);
    }
  }

  /** The chunks end where the loop stops. */
  lemma {:induction false} ChunksAre(answers: seq<ReadResult>, k: nat, chunks: seq<Chunk>)
    requires |chunks| == k <= |answers|
    requires forall j | 0 <= j < k :: IsChunk(answers[j]) && answers[j] == Data(chunks[j])
    requires k == |answers| || !IsChunk(answers[k])
    ensures Chunks(answers) == chunks
  {
    if k != 0 {
      ChunksAre(answers[1..], k - 1, chunks[1..]);
      assert [chunks[0]] + chunks[1..] == chunks;
    }
  }

  /** What the write loop has done after `k` answers: it sent `out` from `start` to `pos`. */
  ghost predicate SentSoFar(out: string, start: nat, pos: nat, answers: seq<WriteResult>, k: nat, emitted: string) {
    && k <= |answers| && start <= pos <= |out| && emitted == out[start..pos]
    && TransmitFrom(|out|, pos, answers, k) == Transmit(|out|, start, answers)
  }

  lemma SendOne(out: string, start: nat, pos: nat, answers: seq<WriteResult>, k: nat, emitted: string)
    requires SentSoFar(out, start, pos, answers, k, emitted) && pos < |out|
    requires k < |answers| && answers[k].Wrote? && answers[k].n > 0
    ensures var taken := Min(answers[k].n, |out| - pos);
            SentSoFar(out, start, pos + taken, answers, k + 1, emitted + out[pos..pos + taken])
  {
  }

  class IoThread {
    var bytesRead: nat
    var bytesWritten: nat

    constructor ()
      ensures bytesRead == 0 && bytesWritten == 0
    {
      bytesRead, bytesWritten := 0, 0;
    }

    /** task_create and thread_pool_submit, as they turn out: only a missing task takes no reference. */
    method Submit(conn: Connection, chunk: Chunk)
      requires conn.Valid() && !conn.freed
      modifies conn`refCount
      ensures conn.Valid() && conn.refCount == old(conn.refCount) + (if chunk.fate == NoTask then 0 else 1)
    {
      if chunk.fate != NoTask {
        conn.AcquireRef();
      }
    }

    /** The part of handle_read that repeats: every chunk becomes a task that holds a reference, or is lost. */
    method ReadChunks(conn: Connection, answers: seq<ReadResult>) returns (chunks: seq<Chunk>, tasks: seq<string>)
      requires conn.Valid() && !conn.freed
      modifies `bytesRead, conn`state, conn`refCount
      ensures conn.Valid()
      ensures chunks == Chunks(answers) && tasks == Payloads(chunks)
      ensures |chunks| <= |answers|
      ensures forall j | 0 <= j < |chunks| :: answers[j] == Data(chunks[j]) && |chunks[j].data| > 0
      ensures |chunks| == |answers| || !answers[|chunks|].Data? || answers[|chunks|].chunk.data == []
      ensures bytesRead == old(bytesRead) + |Arrived(chunks)|
      ensures conn.refCount == old(conn.refCount) + |chunks| - CountOf(NoTask, chunks)
      ensures conn.state == if chunks == [] then old(conn.state) else Reading
    {
      chunks, tasks := [], [];
      var k := 0;
      while k < |answers| && IsChunk(answers[k])
        invariant conn.Valid() && k <= |answers| && forall j | 0 <= j < k :: IsChunk(answers[j])
        invariant LedgerOf(answers, k)
                  == Ledger(chunks, tasks, bytesRead - old(bytesRead), conn.refCount - old(conn.refCount))
        invariant conn.state == if k == 0 then old(conn.state) else Reading
      {
        var chunk := answers[k].chunk;
        bytesRead := bytesRead + |chunk.data|;
        conn.state := Reading;
        Submit(conn, chunk);
        tasks := if chunk.fate == Passed then tasks + [chunk.data] else tasks;
        chunks := chunks + [chunk];
        k := k + 1;
      }
      LedgerIs(answers, k);
      ChunksAre(answers, k, chunks);
    }

    /** The close path: mark the connection, which closes its descriptor, and drop the base reference. */
    method Abandon(conn: Connection)
      requires conn.Valid() && !conn.freed && conn.refCount >= 1
      modifies conn`closing, conn`state, conn`fd, conn`closes, conn`refCount, conn`freed
      ensures conn.Valid() && conn.LifeSoFar() == Apply(Apply(old(conn.LifeSoFar()), Mark), Release)
    {
      conn.MarkClosing();
      var _ := conn.ReleaseRef();
    }

    /** handle_read: the end of the stream or an error closes the connection, after its data was submitted. */
    method HandleRead(conn: Connection, answers: seq<ReadResult>)
      returns (chunks: seq<Chunk>, tasks: seq<string>, closed: bool)
      requires conn.Valid() && !conn.freed && conn.refCount >= 1
      modifies `bytesRead, conn`closing, conn`state, conn`fd, conn`closes, conn`refCount, conn`freed
      ensures conn.Valid()
      ensures chunks == Chunks(answers) && tasks == Payloads(chunks) && closed == ReadCloses(answers)
      ensures |chunks| <= |answers|
      ensures forall j | 0 <= j < |chunks| :: answers[j] == Data(chunks[j]) && |chunks[j].data| > 0
      ensures var k := |chunks|;
              && (k == |answers| || !answers[k].Data? || answers[k].chunk.data == [])
              && (closed <==> k < |answers| && (answers[k].EndOfFile? || answers[k].ReadError? || answers[k].Data?))
      ensures bytesRead == old(bytesRead) + |Arrived(chunks)|
      ensures conn.refCount == old(conn.refCount) + |chunks| - CountOf(NoTask, chunks) - (if closed then 1 else 0)
      ensures closed ==> conn.closing && (conn.freed <==> conn.refCount == 0)
      ensures closed && !old(conn.closing) ==>
                conn.fd < 0 && conn.closes == old(conn.closes) + (if old(conn.fd) >= 0 then 1 else 0)
      ensures !closed ==>
                && !conn.freed && conn.closing == old(conn.closing) && conn.fd == old(conn.fd)
                && conn.state == (if chunks == [] then old(conn.state) else Reading)
    {
      chunks, tasks := ReadChunks(conn, answers);
      ChunksEnd(answers);
      CountIsSmall(NoTask, chunks);
      var k := |chunks|;
      closed := k < |answers| && !answers[k].NoData?;
      if closed {
        Abandon(conn);
      }
    }

    /** The kernel took `n` bytes, or all that it was offered. */
    method Took(conn: Connection, n: nat) returns (piece: string)
      requires conn.Valid() && n > 0
      modifies `bytesWritten, conn`writePos
      ensures conn.Valid() && conn.writePos == old(conn.writePos) + Min(n, conn.writeSize - old(conn.writePos))
      ensures piece == conn.writeBuf[..conn.writeSize][old(conn.writePos)..conn.writePos]
      ensures bytesWritten == old(bytesWritten) + |piece|
    {
      var taken := Min(n, conn.writeSize - conn.writePos);
      piece := conn.writeBuf[conn.writePos..conn.writePos + taken];
      conn.writePos := conn.writePos + taken;
      bytesWritten := bytesWritten + taken;
    }

    /** The write loop of handle_write. */
    method SendOut(conn: Connection, answers: seq<WriteResult>) returns (emitted: string, outcome: Outcome)
      requires conn.Valid()
      modifies `bytesWritten, conn`writePos
      ensures conn.Valid()
      ensures var r := Transmit(conn.writeSize, old(conn.writePos), answers);
              && conn.writePos == r.pos && outcome == r.outcome
              && emitted == conn.writeBuf[..conn.writeSize][old(conn.writePos)..r.pos]
      ensures bytesWritten == old(bytesWritten) + |emitted|
    {
      emitted := [];
      var k := 0;
      ghost var out := conn.writeBuf[..conn.writeSize];
      while conn.writePos < conn.writeSize
        invariant conn.Valid() && out == conn.writeBuf[..conn.writeSize]
        invariant SentSoFar(out, old(conn.writePos), conn.writePos, answers, k, emitted)
        invariant bytesWritten == old(bytesWritten) + |emitted|
        decreases |answers| - k
      {
        var answer := if k < |answers| then answers[k] else WouldBlock;
        match answer {
          case Wrote(n, again) =>
            if n == 0 {
              return emitted, if again then Blocked else Broken;
            }
            SendOne(out, old(conn.writePos), conn.writePos, answers, k, emitted);
            var piece := Took(conn, n);
            emitted := emitted + piece;
            k := k + 1;
          case WouldBlock => return emitted, Blocked;
          case WriteError => return emitted, Broken;
        }
      }
      outcome := Finished;
    }

    /**
      handle_write: `toRead` says that the loop was switched back to read interest.
      What the client was sent moves as the write side `side` does.
     */
    method HandleWrite(conn: Connection, answers: seq<WriteResult>, ghost side: Side)
      returns (emitted: string, outcome: Outcome, toRead: bool)
      requires conn.Valid() && !conn.freed && conn.refCount >= 1
      requires side.out == conn.Value().out && side.pos == conn.writePos
      modifies this, conn
      ensures conn.Valid()
      ensures Next(side, Writable(answers))
              == Side(conn.Value().out, conn.writePos, side.installed, side.sent + emitted)
      ensures outcome == (if side.out == [] then Finished else Transmit(|side.out|, side.pos, answers).outcome)
      ensures toRead <==> outcome == Finished
      ensures bytesWritten == old(bytesWritten) + |emitted| && bytesRead == old(bytesRead)
      ensures conn.refCount == old(conn.refCount) - (if outcome == Broken then 1 else 0)
      ensures outcome != Broken ==>
                && conn.closing == old(conn.closing) && !conn.freed && conn.closes == old(conn.closes)
                && conn.state == (if toRead then Reading else old(conn.state)) && conn.fd == old(conn.fd)
      ensures outcome == Broken ==> conn.closing && (conn.freed <==> old(conn.refCount) == 1)
      ensures outcome == Broken && !old(conn.closing) ==>
                conn.fd < 0 && conn.closes == old(conn.closes) + (if old(conn.fd) >= 0 then 1 else 0)
    {
      emitted, outcome, toRead := [], Finished, true;
      if conn.writeSize == 0 {
        conn.state := Reading;
        assert side.sent + [] == side.sent;
        return;
      }
      assert side.out == conn.writeBuf[..conn.writeSize];
      emitted, outcome := SendOut(conn, answers);
      assert emitted == side.out[side.pos..conn.writePos];
      toRead := outcome == Finished;
      match outcome {
        case Finished =>
          conn.writePos, conn.writeSize := 0, 0;
          conn.state := Reading;
        case Blocked =>
        case Broken => Abandon(conn);
      }
    }
  }
}

/** The reference-counted connection object. */
module Connections {
  import opened Basics
  import opened Responses

  datatype ConnState = Connected | Reading | Writing | Closing | Closed

  /** The fields of connection_t that the server uses; `out` is write_buf up to write_size. */
  datatype Conn = Conn(
    fd: int,
    state: ConnState,
    refCount: int,
    closing: bool,
    io: nat,
    out: string,
    pos: nat)

  function Created(fd: int, io: nat): Conn {
    Conn(fd, Connected, 1, false, io, [], 0)
  }

  function Acquired(c: Conn): Conn {
    c.(refCount := c.refCount + 1)
  }

  function Dropped(c: Conn): Conn {
    c.(refCount := c.refCount - 1)
  }

  predicate IsValid(c: Conn) {
    !c.closing && c.state != Closed
  }

  function Marked(c: Conn): Conn {
    if c.closing then c
    else c.(closing := true, state := Closing, fd := if c.fd >= 0 then -1 else c.fd)
  }

  /** process_request's update of the write fields. */
  function Installed(c: Conn, payload: string): Conn {
    var response := Format(payload);
    if 0 < |response| < BUFFER_SIZE then c.(out := response, pos := 0, state := Writing) else c
  }

  // ---- One connection's whole life -------------------------------------------

  datatype Op = Acquire | Release | Mark

  /** A connection object and how often its descriptor was passed to close(2). */
  datatype Life = Life(conn: Conn, freed: bool, closes: nat)

  function Apply(l: Life, op: Op): Life {
    match op
    case Acquire => l.(conn := Acquired(l.conn))
    case Mark => l.(conn := Marked(l.conn), closes := l.closes + (if !l.conn.closing && l.conn.fd >= 0 then 1 else 0))
    case Release =>
      var c := Dropped(l.conn);
      if c.refCount > 0 then l.(conn := c)
      else Life(c.(fd := if c.fd >= 0 then -1 else c.fd), true, l.closes + (if c.fd >= 0 then 1 else 0))
  }

  /** The life after `ops`; the object is gone after the release that frees it. */
  predicate Lives(l: Life, ops: seq<Op>, m: Life)
    decreases |ops|
  {
    if ops == [] then m == l else !l.freed && Lives(Apply(l, ops[0]), ops[1..], m)
  }

  function Count(op: Op, ops: seq<Op>): nat {
    if ops == [] then 0 else (if ops[0] == op then 1 else 0) + Count(op, ops[1..])
  }

  /** The descriptor is open and never closed, or closed once and forgotten. */
  predicate ClosedOnce(l: Life) {
    && l.closes == (if l.conn.fd >= 0 then 0 else 1)
    && (l.freed ==> l.conn.fd < 0)
    && (l.conn.closing ==> l.conn.fd < 0)
    && (l.freed <==> l.conn.refCount <= 0)
  }

  lemma {:induction false} LifeKeeps(l: Life, ops: seq<Op>, m: Life)
    requires ClosedOnce(l) && Lives(l, ops, m)
    ensures ClosedOnce(m)
    ensures m.conn.refCount == l.conn.refCount + Count(Acquire, ops) - Count(Release, ops)
    decreases |ops|
  {
    if ops != [] {
      LifeKeeps(Apply(l, ops[0]), ops[1..], m);
    }
  }

  /**
    However many closers and holders a connection has, its descriptor is closed
    at most once while it lives and exactly once by the time it is freed, and it
    is freed by exactly the release that matches the last reference.
   */
  lemma DescriptorIsClosedOnce(fd: nat, io: nat, ops: seq<Op>, m: Life)
    requires Lives(Life(Created(fd, io), false, 0), ops, m)
    ensures m.closes <= 1
    ensures m.freed ==> m.closes == 1
    ensures m.freed <==> Count(Release, ops) == Count(Acquire, ops) + 1
  {
    LifeKeeps(Life(Created(fd, io), false, 0), ops, m);
    if m.freed {
      LastReleaseFrees(Life(Created(fd, io), false, 0), ops, m);
    }
  }

  /** The count never goes below zero: freeing stops the life at zero. */
  lemma {:induction false} LastReleaseFrees(l: Life, ops: seq<Op>, m: Life)
    requires l.conn.refCount >= 0 && (l.freed <==> l.conn.refCount == 0) && Lives(l, ops, m)
    ensures m.conn.refCount >= 0
    decreases |ops|
  {
    if ops != [] {
      LastReleaseFrees(Apply(l, ops[0]), ops[1..], m);
    }
  }

  // ---- The object -----------------------------------------------------------

  class Connection {
    var fd: int
    var state: ConnState
    var refCount: int
    var closing: bool
    var io: nat
    const writeBuf: array<char>
    var writePos: nat
    var writeSize: nat
    ghost var freed: bool
    ghost var closes: nat

    ghost predicate Valid()
      reads this
    {
      writeBuf.Length == BUFFER_SIZE && writePos <= writeSize < BUFFER_SIZE
    }

    ghost function Value(): Conn
      requires Valid()
      reads this, writeBuf
    {
      Conn(fd, state, refCount, closing, io, writeBuf[..writeSize], writePos)
    }

    ghost function LifeSoFar(): Life
      requires Valid()
      reads this, writeBuf
    {
      Life(Value(), freed, closes)
    }

    constructor (fd: int, io: nat)
      ensures Valid() && fresh(writeBuf)
      ensures LifeSoFar() == Life(Created(fd, io), false, 0)
      ensures this.fd == fd && this.io == io && refCount == 1 && state == Connected && !closing
      ensures writePos == writeSize == 0
    {
      this.fd, this.state, this.refCount, this.closing, this.io := fd, Connected, 1, false, io;
      writeBuf := new char[BUFFER_SIZE];
      writePos, writeSize := 0, 0;
      freed, closes := false, 0;
    }

    method AcquireRef()
      requires Valid() && !freed
      modifies `refCount
      ensures Valid() && LifeSoFar() == Apply(old(LifeSoFar()), Acquire)
      ensures refCount == old(refCount) + 1
    {
      refCount := refCount + 1;
    }

    method ReleaseRef() returns (shouldFree: bool)
      requires Valid() && !freed
      modifies `refCount, `fd, `freed, `closes
      ensures Valid() && LifeSoFar() == Apply(old(LifeSoFar()), Release)
      ensures refCount == old(refCount) - 1
      ensures if shouldFree && old(fd) >= 0 then fd == -1 && closes == old(closes) + 1
              else fd == old(fd) && closes == old(closes)
      ensures shouldFree == (old(refCount) <= 1) && (shouldFree <==> freed)
    {
      refCount := refCount - 1;
      shouldFree := refCount <= 0;
      if shouldFree {
        if fd >= 0 {
          closes := closes + 1;
          fd := -1;
        }
        freed := true;
      }
    }

    method IsOpen() returns (valid: bool)
      requires Valid() && !freed
      ensures valid == IsValid(Value())
      ensures valid <==> !closing && state != Closed
    {
      valid := !closing && state != Closed;
    }

    method MarkClosing()
      requires Valid() && !freed
      modifies `closing, `state, `fd, `closes
      ensures Valid() && LifeSoFar() == Apply(old(LifeSoFar()), Mark)
      ensures closing && (state == if old(closing) then old(state) else Closing)
      ensures if !old(closing) && old(fd) >= 0 then fd == -1 && closes == old(closes) + 1
              else fd == old(fd) && closes == old(closes)
    {
      if !closing {
        closing := true;
        state := Closing;
        if fd >= 0 {
          closes := closes + 1;
          fd := -1;
        }
      }
    }

    /** The formatting and copying part of process_request. */
    method Install(payload: string)
      requires Valid() && !freed
      modifies `writePos, `writeSize, `state, writeBuf
      ensures Valid() && Value() == Installed(old(Value()), payload)
      ensures |payload| <= BUFFER_SIZE ==>
                writeBuf[..writeSize] == Format(payload) && writePos == 0 && state == Writing
    {
      if |payload| <= BUFFER_SIZE {
        FormatFits(payload);
      }
      var echo := ECHO + UpToNul(payload);
      var body := Clip(echo, BODY_SIZE);
      var response := Head(|echo|) + body;
      if 0 < |response| < BUFFER_SIZE {
        for k := 0 to |response|
          invariant writeBuf[..k] == response[..k]
          modifies writeBuf
        {
          writeBuf[k] := response[k];
        }
        writeSize := |response|;
        writePos := 0;
        state := Writing;
      }
    }
  }

  /** conn_create: `memory` and `mutex` tell whether the allocation and the mutex's initialisation succeed. */
  method NewConnection(fd: int, io: nat, memory: bool, mutex: bool) returns (conn: Connection?)
    ensures conn == null <==> !memory || !mutex
    ensures conn != null ==>
              && fresh(conn) && fresh(conn.writeBuf) && conn.Valid()
              && conn.LifeSoFar() == Life(Created(fd, io), false, 0)
  {
    if !memory {
      return null;
    }
    conn := new Connection(fd, io);
    if !mutex {
      return null;
    }
  }
}

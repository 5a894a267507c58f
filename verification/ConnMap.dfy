/** The per-thread map from descriptors to pending output, kept as a linked list. */
module ConnMap {
  import opened Basics

  /** One binding of the list. */
  datatype Binding = Binding(fd: int, buf: string)

  // ---- The list as a value ----------------------------------------------------

  /** The first binding of `fd`, or the length of the list. */
  function Find(l: seq<Binding>, fd: int): (k: nat)
    ensures k <= |l|
    ensures k < |l| ==> l[k].fd == fd
    ensures forall j | 0 <= j < k :: l[j].fd != fd
  {
    if l == [] || l[0].fd == fd then 0 else 1 + Find(l[1..], fd)
  }

  /** One turn of the search. */
  lemma FindNext(l: seq<Binding>, fd: int, k: nat)
    requires k <= Find(l, fd) && k < |l|
    ensures if l[k].fd == fd then Find(l, fd) == k else k + 1 <= Find(l, fd)
  {
  }

  /** conn_map_set replaces the first match in place or adds a binding in front. */
  function Put(l: seq<Binding>, fd: int, buf: string): seq<Binding> {
    var k := Find(l, fd);
    if k < |l| then l[k := Binding(fd, buf)] else [Binding(fd, buf)] + l
  }

  /** `s` without its `k`-th element. */
  function Without<T>(s: seq<T>, k: nat): (u: seq<T>)
    requires k < |s|
    ensures |u| == |s| - 1
    ensures forall j | 0 <= j < |u| :: u[j] == s[if j < k then j else j + 1]
  {
    s[..k] + s[k + 1..]
  }

  /** conn_map_remove unlinks the first match only. */
  function Drop(l: seq<Binding>, fd: int): seq<Binding> {
    var k := Find(l, fd);
    if k < |l| then Without(l, k) else l
  }

  /** conn_map_get returns the first match. */
  function Lookup(l: seq<Binding>, fd: int): Option<string> {
    var k := Find(l, fd);
    if k < |l| then Some(l[k].buf) else None
  }

  predicate UniqueFds(l: seq<Binding>) {
    forall j, k | 0 <= j < k < |l| :: l[j].fd != l[k].fd
  }

  /** The finite map that a list stands for. */
  function AsMap(l: seq<Binding>): map<int, string> {
    map fd | fd in (set b | b in l :: b.fd) :: Lookup(l, fd).value
  }

  lemma InMap(l: seq<Binding>, fd: int)
    ensures fd in AsMap(l) <==> Find(l, fd) < |l|
    ensures fd in AsMap(l) ==> AsMap(l)[fd] == l[Find(l, fd)].buf
  {
    var k := Find(l, fd);
    if k < |l| {
      assert l[k] in l;
    }
  }

  lemma LookupIsMapLookup(l: seq<Binding>, fd: int)
    ensures Lookup(l, fd) == if fd in AsMap(l) then Some(AsMap(l)[fd]) else None
  {
    InMap(l, fd);
  }

  /** With unique descriptors a list stands for exactly its bindings. */
  lemma MapIsMembers(l: seq<Binding>, b: Binding)
    requires UniqueFds(l)
    ensures b in l <==> b.fd in AsMap(l) && AsMap(l)[b.fd] == b.buf
  {
    InMap(l, b.fd);
    var k := Find(l, b.fd);
    if b in l {
      var j :| 0 <= j < |l| && l[j] == b;
      assert j == k;
    }
  }

  lemma SameMap(l: seq<Binding>, m: map<int, string>)
    requires UniqueFds(l)
    requires forall b: Binding :: b in l <==> b.fd in m && m[b.fd] == b.buf
    ensures AsMap(l) == m
  {
    forall fd | fd in AsMap(l) ensures fd in m && m[fd] == AsMap(l)[fd] {
      MapIsMembers(l, Binding(fd, AsMap(l)[fd]));
    }
    forall fd | fd in m ensures fd in AsMap(l) {
      MapIsMembers(l, Binding(fd, m[fd]));
    }
  }

  lemma PutUpdatesMap(l: seq<Binding>, fd: int, buf: string)
    requires UniqueFds(l)
    ensures UniqueFds(Put(l, fd, buf))
    ensures AsMap(Put(l, fd, buf)) == AsMap(l)[fd := buf]
  {
    var p, m := Put(l, fd, buf), AsMap(l)[fd := buf];
    forall b: Binding ensures b in p <==> b.fd in m && m[b.fd] == b.buf {
      PutMembers(l, fd, buf, b);
      MapIsMembers(l, b);
    }
    SameMap(p, m);
  }

  lemma PutMembers(l: seq<Binding>, fd: int, buf: string, b: Binding)
    requires UniqueFds(l)
    ensures b in Put(l, fd, buf) <==> b == Binding(fd, buf) || (b in l && b.fd != fd)
  {
    var p, k := Put(l, fd, buf), Find(l, fd);
    if k < |l| {
      assert p[k] == Binding(fd, buf);
      if b in l && b.fd != fd {
        var j :| 0 <= j < |l| && l[j] == b;
        assert p[j] == b;
      }
    }
  }

  lemma DropMembers(l: seq<Binding>, fd: int, b: Binding)
    requires UniqueFds(l)
    ensures b in Drop(l, fd) <==> b in l && b.fd != fd
  {
    var p, k := Drop(l, fd), Find(l, fd);
    if b in p {
      var j :| 0 <= j < |p| && p[j] == b;
      assert k < |l| ==> p[j] == if j < k then l[j] else l[j + 1];
    }
    if b in l && b.fd != fd {
      var j :| 0 <= j < |l| && l[j] == b;
      if k < |l| {
        assert p[if j < k then j else j - 1] == b;
      }
    }
  }

  lemma DropUnique(l: seq<Binding>, fd: int)
    requires UniqueFds(l)
    ensures UniqueFds(Drop(l, fd))
  {
    var p, k := Drop(l, fd), Find(l, fd);
    if k < |l| {
      forall i, j | 0 <= i < j < |p| ensures p[i].fd != p[j].fd {
        assert p[i] == l[if i < k then i else i + 1] && p[j] == l[if j < k then j else j + 1];
      }
    }
  }

  /** Unlinking the first match removes the key, and nothing else, because descriptors are unique. */
  lemma DropRemovesKey(l: seq<Binding>, fd: int)
    requires UniqueFds(l)
    ensures UniqueFds(Drop(l, fd))
    ensures AsMap(Drop(l, fd)) == AsMap(l) - {fd}
  {
    DropUnique(l, fd);
    var m := AsMap(l) - {fd};
    forall b: Binding ensures b in Drop(l, fd) <==> b.fd in m && m[b.fd] == b.buf {
      DropMembers(l, fd, b);
      MapIsMembers(l, b);
    }
    SameMap(Drop(l, fd), m);
  }

  predicate AtMostOnce(l: seq<Binding>, fd: int) {
    forall j, k | 0 <= j < k < |l| :: l[j].fd != fd || l[k].fd != fd
  }

  /** In an arbitrary list one removal takes the key away exactly when it occurs at most once. */
  lemma DropIsEnoughIff(l: seq<Binding>, fd: int)
    ensures fd !in AsMap(Drop(l, fd)) <==> AtMostOnce(l, fd)
  {
    var p, k := Drop(l, fd), Find(l, fd);
    InMap(p, fd);
    var i := Find(p, fd);
    if k < |l| {
      if i < |p| {
        assert forall j | 0 <= j < k :: p[j] == l[j];
        assert p[i] == l[i + 1];
      }
      forall j | k < j < |l| && l[j].fd == fd ensures i < |p| {
        assert p[j - 1] == l[j];
      }
    }
  }

  // ---- Any history --------------------------------------------------------------

  datatype Op = Set(fd: int, buf: string) | Remove(fd: int)

  function ListAfter(l: seq<Binding>, ops: seq<Op>): seq<Binding>
    decreases |ops|
  {
    if ops == [] then l
    else ListAfter(match ops[0] case Set(fd, buf) => Put(l, fd, buf) case Remove(fd) => Drop(l, fd), ops[1..])
  }

  function MapAfter(m: map<int, string>, ops: seq<Op>): map<int, string>
    decreases |ops|
  {
    if ops == [] then m
    else MapAfter(match ops[0] case Set(fd, buf) => m[fd := buf] case Remove(fd) => m - {fd}, ops[1..])
  }

  /** Over any history the list stands for the map that the same operations would build. */
  lemma {:induction false} ListRefinesMap(l: seq<Binding>, ops: seq<Op>)
    requires UniqueFds(l)
    ensures UniqueFds(ListAfter(l, ops))
    ensures AsMap(ListAfter(l, ops)) == MapAfter(AsMap(l), ops)
    decreases |ops|
  {
    if ops != [] {
      match ops[0]
      case Set(fd, buf) =>
        PutUpdatesMap(l, fd, buf);
        ListRefinesMap(Put(l, fd, buf), ops[1..]);
      case Remove(fd) =>
        DropRemovesKey(l, fd);
        ListRefinesMap(Drop(l, fd), ops[1..]);
    }
  }

  // ---- The list in the heap -------------------------------------------------------

  class Node {
    const fd: int
    var buf: string
    var next: Node?

    constructor (fd: int, buf: string, next: Node?)
      ensures this.fd == fd && this.buf == buf && this.next == next
    {
      this.fd, this.buf, this.next := fd, buf, next;
    }
  }

  /** The node after the `k`-th one, if there is one. */
  ghost function Follower(nodes: seq<Node>, k: nat): Node? {
    if k + 1 < |nodes| then nodes[k + 1] else null
  }

  /** Node `k` points to the next one; stated for one node, so that a chain is not unrolled. */
  ghost predicate LinkAt(nodes: seq<Node>, k: nat)
    reads nodes
  {
    k < |nodes| ==> nodes[k].next == Follower(nodes, k)
  }

  ghost predicate AllApart(nodes: seq<Node>) {
    forall j, k | 0 <= j < k < |nodes| :: nodes[j] != nodes[k]
  }

  /** Taking one node out keeps the others apart and changes the follower of the one before it only. */
  lemma WithoutNode(nodes: seq<Node>, k: nat)
    requires AllApart(nodes) && k < |nodes|
    ensures AllApart(Without(nodes, k))
    ensures forall j: nat | j < k ::
              Follower(Without(nodes, k), j) == if j == k - 1 then Follower(nodes, k) else Follower(nodes, j)
    ensures forall j: nat | k <= j :: Follower(Without(nodes, k), j) == Follower(nodes, j + 1)
  {
  }

  class Map {
    var head: Node?
    ghost var nodes: seq<Node>

    ghost predicate Linked()
      reads this, nodes
    {
      && AllApart(nodes)
      && head == (if nodes == [] then null else nodes[0])
      && (forall k | 0 <= k < |nodes| :: LinkAt(nodes, k))
    }

    ghost function List(): seq<Binding>
      reads this, nodes
    {
      seq(|nodes|, k requires 0 <= k < |nodes| reads this, nodes => Binding(nodes[k].fd, nodes[k].buf))
    }

    ghost predicate Valid()
      reads this, nodes
    {
      Linked() && UniqueFds(List())
    }

    constructor ()
      ensures Valid() && List() == []
    {
      head, nodes := null, [];
    }

    /** The search of all three operations: the first node for `fd`, if there is one, and the node before it. */
    method Search(fd: int) returns (prev: Node?, cur: Node?, ghost k: nat)
      requires Linked()
      ensures k == Find(List(), fd)
      ensures cur == if k < |nodes| then nodes[k] else null
      ensures prev == if k == 0 then null else nodes[k - 1]
    {
      prev, cur, k := null, head, 0;
      while cur != null
        invariant 0 <= k <= |nodes| && k <= Find(List(), fd)
        invariant cur == if k < |nodes| then nodes[k] else null
        invariant prev == if k == 0 then null else nodes[k - 1]
        decreases |nodes| - k
      {
        assert List()[k] == Binding(cur.fd, cur.buf);
        FindNext(List(), fd, k);
        if cur.fd == fd {
          return;
        }
        assert LinkAt(nodes, k);
        prev := cur;
        cur := cur.next;
        k := k + 1;
      }
    }

    method Set(fd: int, buf: string)
      requires Valid()
      modifies this, nodes
      ensures Valid()
      ensures List() == Put(old(List()), fd, buf)
      ensures AsMap(List()) == old(AsMap(List()))[fd := buf]
    {
      PutUpdatesMap(List(), fd, buf);
      var _, cur, k := Search(fd);
      if cur != null {
        assert List()[k] == Binding(cur.fd, cur.buf);
        Overwrite(cur, k, buf);
      } else {
        Prepend(fd, buf);
      }
    }

    method Overwrite(cur: Node, ghost k: nat, buf: string)
      requires Linked() && k < |nodes| && cur == nodes[k]
      modifies cur`buf
      ensures Linked() && List() == old(List())[k := Binding(cur.fd, buf)]
    {
      cur.buf := buf;
      forall j | 0 <= j < |nodes| ensures LinkAt(nodes, j) {
        assert old(LinkAt(nodes, j));
      }
    }

    method Prepend(fd: int, buf: string)
      requires Linked()
      modifies this
      ensures Linked() && List() == [Binding(fd, buf)] + old(List())
    {
      var entry := new Node(fd, buf, head);
      head := entry;
      nodes := [entry] + nodes;
      forall j | 0 <= j < |nodes| ensures LinkAt(nodes, j) {
        if j > 0 {
          assert old(LinkAt(nodes, j - 1));
        }
      }
    }

    method Get(fd: int) returns (buf: Option<string>)
      requires Linked()
      ensures buf == Lookup(List(), fd)
    {
      var _, cur, k := Search(fd);
      buf := if cur != null then Some(cur.buf) else None;
      assert cur != null ==> List()[k] == Binding(cur.fd, cur.buf);
    }

    /** Unlinks node `k`, which follows `prev`. */
    method Unlink(prev: Node?, cur: Node, ghost k: nat)
      requires Linked() && k < |nodes| && cur == nodes[k]
      requires prev == if k == 0 then null else nodes[k - 1]
      modifies this, nodes
      ensures Linked() && nodes == Without(old(nodes), k)
      ensures List() == Without(old(List()), k)
    {
      assert LinkAt(nodes, k);
      WithoutNode(nodes, k);
      ghost var was := nodes;
      if prev != null {
        prev.next := cur.next;
      } else {
        head := cur.next;
      }
      nodes := Without(nodes, k);
      forall j | 0 <= j < |nodes| ensures LinkAt(nodes, j) {
        var i := if j < k then j else j + 1;
        assert nodes[j] == was[i] && old(LinkAt(was, i));
      }
    }

    method Remove(fd: int)
      requires Valid()
      modifies this, nodes
      ensures Valid()
      ensures List() == Drop(old(List()), fd)
      ensures AsMap(List()) == old(AsMap(List())) - {fd}
    {
      DropRemovesKey(List(), fd);
      var prev, cur, k := Search(fd);
      if cur != null {
        Unlink(prev, cur, k);
      }
    }
  }
}

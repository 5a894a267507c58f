/** The singly linked lists behind the task queue and the message queues, and the task queue built on one. */
module LinkedQueues {
  import opened WorkerPool

  class Node<T> {
    const item: T
    var next: Node?<T>

    constructor (item: T)
      ensures this.item == item && next == null
    {
      this.item := item;
      next := null;
    }
  }

  /** The node after the `k`-th one, if there is one. */
  ghost function Follower<T>(nodes: seq<Node<T>>, k: nat): Node?<T> {
    if k + 1 < |nodes| then nodes[k + 1] else null
  }

  /** A list with a head and a tail pointer. */
  class LinkedQueue<T> {
    var head: Node?<T>
    var tail: Node?<T>
    ghost var nodes: seq<Node<T>>

    /** The pointers form one chain of distinct nodes; the tail is null exactly when the head is. */
    ghost predicate Valid()
      reads this, nodes
    {
      && (forall k, l | 0 <= k < l < |nodes| :: nodes[k] != nodes[l])
      && (nodes == [] <==> head == null) && (nodes == [] <==> tail == null)
      && (nodes != [] ==> head == nodes[0] && tail == nodes[|nodes| - 1])
      && (forall k | 0 <= k < |nodes| :: nodes[k].next == Follower(nodes, k))
    }

    ghost function Contents(): seq<T>
      reads this
    {
      seq(|nodes|, k requires 0 <= k < |nodes| reads this => nodes[k].item)
    }

    constructor ()
      ensures Valid() && Contents() == [] && nodes == []
    {
      head, tail, nodes := null, null, [];
    }

    method Append(node: Node<T>)
      requires Valid() && node !in nodes
      modifies this, nodes, node
      ensures Valid() && nodes == old(nodes) + [node]
      ensures Contents() == old(Contents()) + [node.item]
    {
      node.next := null;
      if tail != null {
        tail.next := node;
      } else {
        head := node;
      }
      tail := node;
      nodes := nodes + [node];
    }

    method TakeFirst() returns (node: Node?<T>)
      requires Valid()
      modifies this, nodes
      ensures Valid()
      ensures old(nodes) == [] ==> node == null && nodes == []
      ensures old(nodes) != [] ==>
                && node == old(nodes)[0] && node.next == null && nodes == old(nodes)[1..]
                && old(Contents()) == [node.item] + Contents()
    {
      node := head;
      if node != null {
        assert nodes[0].next == Follower(nodes, 0);
        head := node.next;
        if head == null {
          tail := null;
        }
        node.next := null;
        nodes := nodes[1..];
        forall k | 0 <= k < |nodes| ensures nodes[k].next == Follower(nodes, k) {
          assert old(nodes)[k + 1].next == Follower(old(nodes), k + 1);
        }
      }
    }
  }

  class TaskQueue {
    const list: LinkedQueue<TaskId>
    var size: int
    const maxSize: int
    var shutdown: bool
    ghost var notEmpty: nat     // signals sent so far on each condition, and broadcasts on both
    ghost var notFull: nat
    ghost var broadcasts: nat

    ghost predicate Valid()
      reads this, list, list.nodes
    {
      list.Valid() && size == |list.nodes| && (size == 0 || size <= maxSize)
    }

    ghost function Contents(): seq<TaskId>
      reads this, list
    {
      list.Contents()
    }

    constructor (maxSize: int)
      ensures Valid() && fresh(list) && Contents() == [] && this.maxSize == maxSize && !shutdown
      ensures notEmpty == notFull == broadcasts == 0
    {
      list := new LinkedQueue<TaskId>();
      size, shutdown := 0, false;
      notEmpty, notFull, broadcasts := 0, 0, 0;
      this.maxSize := maxSize;
    }

    /** The critical section of task_queue_push: `Sleep` means that the caller waits and tries again. */
    method TryPush(task: Node<TaskId>) returns (verdict: Verdict)
      requires Valid() && task !in list.nodes
      modifies `size, `notEmpty, list, list.nodes, task
      ensures Valid()
      ensures verdict == PushVerdict(|old(Contents())|, maxSize, shutdown)
      ensures verdict == Refuse <==> shutdown
      ensures verdict == Sleep <==> !shutdown && |old(Contents())| >= maxSize
      ensures verdict == Proceed ==> Contents() == old(Contents()) + [task.item] && notEmpty == old(notEmpty) + 1
      ensures verdict != Proceed ==> Contents() == old(Contents()) && notEmpty == old(notEmpty)
    {
      if size >= maxSize && !shutdown {
        return Sleep;
      }
      if shutdown {
        return Refuse;
      }
      list.Append(task);
      size := size + 1;
      notEmpty := notEmpty + 1;
      return Proceed;
    }

    /** The critical section of task_queue_pop. */
    method TryPop() returns (verdict: Verdict, task: Node?<TaskId>)
      requires Valid()
      modifies `size, `notFull, list, list.nodes
      ensures Valid()
      ensures verdict == PopVerdict(|old(Contents())|, shutdown)
      ensures verdict == Proceed <==> task != null
      ensures verdict == Proceed <==> old(Contents()) != []
      ensures verdict == Sleep <==> old(Contents()) == [] && !shutdown
      ensures task != null ==> old(Contents()) == [task.item] + Contents() && task.next == null
      ensures task == null ==> Contents() == old(Contents())
      ensures notFull == old(notFull) + (if task != null then 1 else 0)
    {
      task := null;
      if size == 0 && !shutdown {
        return Sleep, null;
      }
      if shutdown && size == 0 {
        return Refuse, null;
      }
      verdict := Proceed;
      task := list.TakeFirst();
      if task != null {
        size := size - 1;
        notFull := notFull + 1;
      }
    }

    method Shutdown()
      requires Valid()
      modifies `shutdown, `broadcasts
      ensures Valid() && shutdown && Contents() == old(Contents()) && broadcasts == old(broadcasts) + 2
    {
      shutdown := true;
      broadcasts := broadcasts + 2;
    }

    /** task_queue_destroy: walk the list and destroy each task once, in order. */
    method DestroyAll() returns (destroyed: seq<TaskId>)
      requires Valid()
      ensures destroyed == Contents()
    {
      destroyed := [];
      var current := list.head;
      ghost var k := 0;
      while current != null
        invariant 0 <= k <= |list.nodes|
        invariant current == if k < |list.nodes| then list.nodes[k] else null
        invariant destroyed == Contents()[..k]
        decreases |list.nodes| - k
      {
        assert current.next == Follower(list.nodes, k);
        var next := current.next;
        destroyed := destroyed + [current.item];
        current := next;
        k := k + 1;
      }
    }
  }

  /** task_queue_create: `memory` tells whether the allocation succeeds. */
  method NewTaskQueue(maxSize: int, memory: bool) returns (queue: TaskQueue?)
    ensures queue == null <==> !memory
    ensures queue != null ==>
              && fresh(queue) && fresh(queue.list) && queue.Valid() && queue.Contents() == []
              && queue.maxSize == maxSize && !queue.shutdown
  {
    if !memory {
      return null;
    }
    queue := new TaskQueue(maxSize);
  }
}

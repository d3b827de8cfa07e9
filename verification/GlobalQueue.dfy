/**
The intrusive list behind the queues (deps/wheels/wheels/intrusive/forward_list.hpp) and the
global queue of the fast pool (src/exe/sched/tp/fast/queues/global_queue.hpp).  Methods of the
queue run under its lock.
*/
module ForwardList {

  class Node {
    var next: Node?

    constructor ()
      ensures next == null
    {
      next := null;
    }
  }

  /** `nodes` is history: the nodes in list order. */
  class IntrusiveForwardList {
    var head: Node?
    var tail: Node?
    var size: nat
    ghost var nodes: seq<Node>

    ghost predicate Valid()
      reads this, nodes
    {
      && size == |nodes|
      && (forall i, j :: 0 <= i < j < |nodes| ==> nodes[i] != nodes[j])
      && (forall i :: 0 <= i < |nodes| - 1 ==> nodes[i].next == nodes[i + 1])
      && (if nodes == [] then head == null && tail == null else head == nodes[0] && tail == nodes[|nodes| - 1])
    }

    constructor ()
      ensures Valid() && nodes == []
    {
      head, tail, size := null, null, 0;
      nodes := [];
    }

    method PushBack(node: Node)
      requires Valid() && node !in nodes
      modifies this, node, tail
      ensures Valid() && nodes == old(nodes) + [node]
    {
      size := size + 1;
      node.next := null;
      if head == null {
        head, tail := node, node;
      } else {
        tail.next := node;
        tail := node;
      }
      nodes := nodes + [node];
    }

    /** Takes over all nodes of another list, in constant time. */
    method Append(that: IntrusiveForwardList)
      requires Valid() && that.Valid() && that != this && forall n :: n in nodes ==> n !in that.nodes
      modifies this, that, tail
      ensures Valid() && nodes == old(nodes) + old(that.nodes)
      ensures that.Valid() && that.nodes == []
    {
      if that.head == null { return; }
      ghost var a, b := nodes, that.nodes;
      assert forall i, j :: 0 <= i < |a| && 0 <= j < |b| ==> a[i] != b[j] by {
        forall i, j | 0 <= i < |a| && 0 <= j < |b| ensures a[i] != b[j] { assert a[i] in nodes && b[j] in that.nodes; }
      }
      if head == null {
        head, tail, size := that.head, that.tail, that.size;
      } else {
        tail.next := that.head;
        tail := that.tail;
        size := size + that.size;
      }
      nodes := nodes + that.nodes;
      that.head, that.tail, that.size := null, null, 0;
      that.nodes := [];
      assert forall i :: 0 <= i < |a| - 1 ==> a[i].next == a[i + 1];
      assert forall i :: 0 <= i < |b| - 1 ==> b[i].next == b[i + 1];
      forall i | 0 <= i < |nodes| - 1 ensures nodes[i].next == nodes[i + 1] {
        if i < |a| { assert nodes[i] == a[i]; } else { assert nodes[i] == b[i - |a|]; }
      }
    }

    method PopFront() returns (front: Node?)
      requires Valid()
      modifies this, head
      ensures Valid()
      ensures if old(nodes) == [] then front == null && nodes == [] else front == old(nodes)[0] && nodes == old(nodes)[1..] && front.next == null
    {
      if head == null { return null; }
      size := size - 1;
      front := head;
      if head == tail {
        head, tail := null, null;
      } else {
        head := head.next;
      }
      front.next := null;
      nodes := nodes[1..];
    }
  }
}

module GlobalQueue {
  import opened ForwardList

  function Min(a: nat, b: nat): nat
  {
    if a < b then a else b
  }

  class Queue {
    const queue: IntrusiveForwardList

    ghost predicate Valid()
      reads queue, queue.nodes
    {
      queue.Valid()
    }

    ghost function Tasks(): seq<Node>
      reads queue
    {
      queue.nodes
    }

    constructor ()
      ensures Valid() && Tasks() == [] && fresh(queue)
    {
      queue := new IntrusiveForwardList();
    }

    method PushOne(task: Node)
      requires Valid() && task !in Tasks()
      modifies queue, task, queue.tail
      ensures Valid() && Tasks() == old(Tasks()) + [task]
    {
      queue.PushBack(task);
    }

    /** The list is built outside the lock and appended at once. */
    method PushMany(buffer: seq<Node>)
      requires Valid() && (forall i :: 0 <= i < |buffer| ==> buffer[i] !in Tasks())
      requires forall i, j :: 0 <= i < j < |buffer| ==> buffer[i] != buffer[j]
      modifies queue, queue.tail, buffer
      ensures Valid() && Tasks() == old(Tasks()) + buffer
    {
      var list := new IntrusiveForwardList();
      for i := 0 to |buffer|
        invariant list.Valid() && list.nodes == buffer[..i] && fresh(list)
        invariant Valid() && Tasks() == old(Tasks()) && queue.tail == old(queue.tail)
      {
        list.PushBack(buffer[i]);
      }
      assert buffer[..|buffer|] == buffer;
      queue.Append(list);
    }

    method TryPopOne() returns (task: Node?)
      requires Valid()
      modifies queue, queue.head
      ensures Valid()
      ensures if old(Tasks()) == [] then task == null && Tasks() == [] else task == old(Tasks())[0] && Tasks() == old(Tasks())[1..]
    {
      task := queue.PopFront();
    }

    /** The oldest tasks, as many as there is room for. */
    method Grab(room: nat) returns (out: seq<Node>)
      requires Valid()
      modifies queue, queue.nodes
      ensures Valid() && |out| == Min(room, |old(Tasks())|) && old(Tasks()) == out + Tasks()
    {
      var n := Min(room, queue.size);
      ghost var was := queue.nodes;
      out := [];
      for i := 0 to n
        invariant queue.Valid() && out == was[..i] && queue.nodes == was[i..]
      {
        assert queue.head == was[i];
        var task := queue.PopFront();
        out := out + [task];
      }
      assert was == was[..n] + was[n..];
    }
  }
}

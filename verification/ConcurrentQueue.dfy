/** The bodies of the concurrent queue on real heap nodes, each run by one thread without interruption.

    What each call does is stated by the same `AtomicDeque.Apply` that the step-by-step model refines. */
module ConcurrentQueues {
  import opened Options
  import opened D = AtomicDeque
  import opened P = QueueProtocol

  class ListNode<T> {
    var data: Cell<T>
    var next: ListNode?<T>
    var prev: ListNode?<T>

    constructor ()
      ensures data == Null && next == null && prev == null
    {
      data, next, prev := Null, null, null;
    }
  }

  /** What a blocking pop does when run alone: it waits for ever exactly when nothing can wake it. */
  datatype Waited<T> = Blocked | Returned(res: Result<T>)

  class ConcurrentQueue<T> {
    var head: ListNode<T>
    var tail: ListNode<T>
    var count: int
    var stop: bool
    /** The live nodes from head to tail, and the values in all but the last. */
    ghost var nodes: seq<ListNode<T>>
    ghost var items: seq<T>

    /** `prev` of the head node is not constrained: after a pop it still points at the freed node. */
    ghost predicate Valid()
      reads this, nodes
    {
      && |nodes| > 0
      && head == nodes[0] && tail == nodes[|nodes| - 1]
      && (forall i, j | 0 <= i < j < |nodes| :: nodes[i] != nodes[j])
      && (forall i | 0 <= i < |nodes| - 1 :: nodes[i].next == nodes[i + 1])
      && (forall i | 0 < i < |nodes| :: nodes[i].prev == nodes[i - 1])
      && |items| == |nodes| - 1
      && (forall i | 0 <= i < |items| :: nodes[i].data == Full(items[i], false))
      && tail.next == null
      && count == Wrap32(|nodes| - 1)
    }

    ghost function Contents(): Content<T>
      reads this
    {
      Content(items, stop)
    }

    constructor ()
      ensures Valid() && fresh(nodes) && Contents() == Content([], false)
    {
      var dummy := new ListNode<T>();
      head, tail, count, stop := dummy, dummy, 0, false;
      nodes, items := [dummy], [];
    }

    method Exit()
      requires Valid()
      modifies this`stop
      ensures Valid() && Apply(old(Contents()), D.Exit, Unit) == Some(Contents())
    {
      stop := true;
    }

    method Empty() returns (b: bool)
      requires Valid()
      ensures Apply(Contents(), AtHead(IsEmpty), Answer(b)) == Some(Contents())
    {
      b := head == tail;
    }

    /** The three writes of a push to the nodes: the value goes into the old dummy, whose successor is `p`. */
    method Link(v: T, p: ListNode<T>)
      requires p != tail && p.next == null
      modifies tail, p
      ensures tail.data == Full(v, false) && tail.next == p && tail.prev == old(tail.prev)
      ensures p.prev == tail && p.next == null
    {
      tail.data := Full(v, false);
      p.prev := tail;
      tail.next := p;
    }

    method Push(v: T)
      requires Valid()
      modifies this, nodes
      ensures Valid() && fresh(nodes[|nodes| - 1]) && nodes[..|nodes| - 1] == old(nodes)
      ensures Apply(old(Contents()), D.Push(v), Unit) == Some(Contents())
    {
      var p := new ListNode<T>();
      Link(v, p);
      tail := p;
      nodes, items := nodes + [p], items + [v];
      WrapSteps(|items| - 1);
      count := Wrap32(count + 1);
    }

    /** Unlinks the head node and hands it to the caller, who frees it. */
    method PopHead() returns (node: ListNode<T>)
      requires |nodes| >= 2 && |items| == |nodes| - 1 && head == nodes[0]
      requires nodes[0] !in nodes[1..] && nodes[0].next == nodes[1]
      modifies this`head, this`nodes, this`items, this`count, head`next
      ensures node == old(nodes[0]) && node.next == null
      ensures nodes == old(nodes)[1..] && items == old(items)[1..] && head == nodes[0]
      ensures count == Wrap32(old(count) - 1)
    {
      node := head;
      head := node.next;
      node.next := null;
      nodes, items := nodes[1..], items[1..];
      count := Wrap32(count - 1);
    }

    /** The overload that returns the node's shared pointer. */
    method TryPop() returns (r: Result<T>)
      requires Valid()
      modifies this, nodes
      ensures Valid() && nodes == (if r == Nothing then old(nodes) else old(nodes)[1..])
      ensures Apply(old(Contents()), AtHead(D.TryPop(false)), r) == Some(Contents())
    {
      if head == tail {
        return Nothing;
      }
      assert nodes[0].next == nodes[1];
      WrapSteps(|items|);
      var node := PopHead();
      r := Got(node.data.v);
    }

    /** The overload that moves the value out before it unlinks the node. */
    method TryPopInto() returns (r: Result<T>)
      requires Valid()
      modifies this, nodes
      ensures Valid() && nodes == (if r == Nothing then old(nodes) else old(nodes)[1..])
      ensures Apply(old(Contents()), AtHead(D.TryPop(true)), r) == Some(Contents())
    {
      if head == tail {
        return Nothing;
      }
      assert nodes[0].next == nodes[1];
      var value := head.data.v;
      head.data := Full(value, true);
      WrapSteps(|items|);
      var node := PopHead();
      r := Got(value);
    }

    method WaitAndPop() returns (w: Waited<T>)
      requires Valid()
      modifies this, nodes
      ensures w.Blocked? <==> old(Contents()) == Content([], false)
      ensures Valid() && nodes == (if w.Returned? && w.res.Got? then old(nodes)[1..] else old(nodes))
      ensures if w.Blocked? then Contents() == old(Contents())
              else Apply(old(Contents()), AtHead(D.WaitPop(false)), w.res) == Some(Contents())
      ensures old(stop) ==> w == Returned(Nothing)
      ensures !old(stop) && old(items) != [] ==> w == Returned(Got(old(items)[0]))
    {
      if !(head != tail || stop) {
        return Blocked;
      }
      if stop {
        return Returned(Nothing);
      }
      assert nodes[0].next == nodes[1];
      WrapSteps(|items|);
      var node := PopHead();
      w := Returned(Got(node.data.v));
    }

    method WaitAndPopInto() returns (w: Waited<T>)
      requires Valid()
      modifies this, nodes
      ensures w.Blocked? <==> old(Contents()) == Content([], false)
      ensures Valid() && nodes == (if w.Returned? && w.res.Got? then old(nodes)[1..] else old(nodes))
      ensures if w.Blocked? then Contents() == old(Contents())
              else Apply(old(Contents()), AtHead(D.WaitPop(true)), w.res) == Some(Contents())
      ensures old(stop) ==> w == Returned(Nothing)
      ensures !old(stop) && old(items) != [] ==> w == Returned(Got(old(items)[0]))
    {
      if !(head != tail || stop) {
        return Blocked;
      }
      if stop {
        return Returned(Nothing);
      }
      assert nodes[0].next == nodes[1];
      var value := head.data.v;
      head.data := Full(value, true);
      WrapSteps(|items|);
      var node := PopHead();
      w := Returned(Got(value));
    }

    /** Run alone, nothing changes during the 100 ms, so the wait ends with the predicate as it was. */
    method WaitAndPopTimeout() returns (r: Result<T>)
      requires Valid()
      modifies this, nodes
      ensures Valid() && nodes == (if r.Got? then old(nodes)[1..] else old(nodes))
      ensures r == if old(items) == [] || old(stop) then Nothing else Got(old(items)[0])
      ensures Apply(old(Contents()), AtHead(TimedPop), r) == Some(Contents())
    {
      if !(head != tail || stop) {
        return Nothing;
      }
      if stop {
        return Nothing;
      }
      assert nodes[0].next == nodes[1];
      var value := head.data.v;
      head.data := Full(value, true);
      head := head.next;
      nodes, items := nodes[1..], items[1..];
      WrapSteps(|old(items)|);
      count := Wrap32(count - 1);
      r := Got(value);
    }

    /** The last real node becomes the dummy tail; its moved-out cell stays behind until the next push. */
    method TrySteal() returns (r: Result<T>)
      requires Valid()
      modifies this, nodes
      ensures Valid() && nodes == (if r == Nothing then old(nodes) else old(nodes)[..|old(nodes)| - 1])
      ensures r.Got? ==> tail.data == Full(r.v, true)
      ensures Apply(old(Contents()), Steal, r) == Some(Contents())
    {
      if head == tail {
        return Nothing;
      }
      assert nodes[|nodes| - 1].prev == nodes[|nodes| - 2];
      var prevNode := tail.prev;
      var value := prevNode.data.v;
      prevNode.data := Full(value, true);
      tail := prevNode;
      tail.next := null;
      assert forall i | 0 <= i < |nodes| - 2 :: nodes[i].data == Full(items[i], false);
      WrapSteps(|old(items)|);
      count := Wrap32(count - 1);
      nodes, items := nodes[..|nodes| - 1], items[..|items| - 1];
      r := Got(value);
    }
  }
}

/** The fields of ParrallenThreadPool; each queue is the content of an atomic deque. */
module ParrallenThreadPools {
  import opened Options
  import opened D = AtomicDeque
  import opened ParallelPool

  class ParrallenThreadPool<T> {
    const queues: array<Content<T>>
    var index: nat
    var done: bool

    constructor (poolSize: nat)
      ensures fresh(queues) && queues.Length == poolSize && index == 0 && !done
      ensures forall j | 0 <= j < poolSize :: queues[j] == Content([], false)
    {
      queues := new Content<T>[poolSize](_ => Content([], false));
      index, done := 0, false;
    }

    /** Pushes the task to the next queue in turn; a pool without queues cannot take a task. */
    method Submit(task: T)
      requires queues.Length > 0
      modifies this`index, queues
      ensures index == NextIndex(old(index), queues.Length)
      ensures Apply(old(queues[..])[index], Push(task), Unit) == Some(queues[index])
      ensures forall j | 0 <= j < queues.Length && j != index :: queues[j] == old(queues[j])
    {
      var next := (index + 1) % queues.Length;
      index := next;
      queues[next] := queues[next].(items := queues[next].items + [task]);
    }

    /** Worker `j` alone, until it would wait or has left its loop: it runs every task of its queue in order, and none
        once the pool is done.  Its queue is told to stop only after that. */
    method WorkAlone(j: nat) returns (ran: seq<T>)
      requires j < queues.Length && (queues[j].stop ==> done)
      modifies queues
      ensures ran + queues[j].items == old(queues[j].items) && queues[j].stop == old(queues[j].stop)
      ensures if done then ran == [] else queues[j].items == []
      ensures forall l | 0 <= l < queues.Length && l != j :: queues[l] == old(queues[l])
    {
      ran := [];
      while !done && queues[j].items != []
        invariant ran + queues[j].items == old(queues[j].items) && queues[j].stop == old(queues[j].stop)
        invariant done ==> ran == []
        invariant forall l | 0 <= l < queues.Length && l != j :: queues[l] == old(queues[l])
        decreases |queues[j].items|
      {
        ran := ran + [queues[j].items[0]];
        queues[j] := queues[j].(items := queues[j].items[1..]);
      }
    }

    /** The destructor, up to the joins: every queue is told to stop, and none loses a task. */
    method Shutdown()
      modifies this`done, queues
      ensures done
      ensures forall j | 0 <= j < queues.Length :: Apply(old(queues[..])[j], Exit, Unit) == Some(queues[j])
    {
      done := true;
      ghost var before := queues[..];
      for i := 0 to queues.Length
        invariant done
        invariant forall j | 0 <= j < i :: Apply(before[j], Exit, Unit) == Some(queues[j])
        invariant forall j | i <= j < queues.Length :: queues[j] == before[j]
      {
        queues[i] := queues[i].(stop := true);
      }
    }
  }
}

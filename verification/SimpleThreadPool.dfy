/** The fields of SimpleThreadPool and its critical sections, each run without interruption. */
module SimpleThreadPools {
  import opened Options

  class SimpleThreadPool<T> {
    var tasks: seq<T>
    var stop: bool
    var threadNum: int

    constructor (poolSize: int)
      ensures tasks == [] && !stop && threadNum == if poolSize < 2 then 2 else poolSize
    {
      tasks, stop := [], false;
      if poolSize <= 1 {
        threadNum := 2;
      } else {
        threadNum := poolSize;
      }
    }

    /** A stopped pool refuses the task; the caller gets an empty future. */
    method Submit(task: T) returns (accepted: bool)
      modifies this`tasks
      ensures accepted <==> !stop
      ensures tasks == if accepted then old(tasks) + [task] else old(tasks)
    {
      if stop {
        return false;
      }
      tasks := tasks + [task];
      accepted := true;
    }

    method GetIdleThreadCount() returns (n: int)
      ensures n == threadNum
    {
      n := threadNum;
    }

    method Stop()
      modifies this`stop
      ensures stop
    {
      stop := true;
    }

    /** The part of the worker loop under the lock, once its wait is over. */
    method TakeTask() returns (task: Option<T>)
      requires stop || |tasks| > 0
      modifies this`tasks
      ensures task.None? <==> old(|tasks|) == 0
      ensures task.Some? ==> old(tasks) == [task.value] + tasks
      ensures task.None? ==> tasks == old(tasks)
    {
      if |tasks| == 0 {
        return None;
      }
      task := Some(tasks[0]);
      tasks := tasks[1..];
    }

    /** One worker alone, until it would wait or has left the loop: a running pool runs every queued task, in
        order, and a stopped pool runs none; the idle count is back where it was. */
    method WorkAlone() returns (ran: seq<T>)
      modifies this`tasks, this`threadNum
      ensures ran + tasks == old(tasks)
      ensures if stop then ran == [] else tasks == []
      ensures threadNum == old(threadNum)
    {
      ran := [];
      while !stop && |tasks| > 0
        invariant ran + tasks == old(tasks)
        invariant stop ==> ran == []
        invariant threadNum == old(threadNum)
        decreases |tasks|
      {
        var task := TakeTask();
        threadNum := threadNum - 1;
        ran := ran + [task.value];
        threadNum := threadNum + 1;
      }
    }
  }
}

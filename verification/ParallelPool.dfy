/** ParrallenThreadPool: one queue for each worker, filled in turn.  Its queues are the atomic deques that the
    concurrent queue refines. */
module ParallelPool {
  import opened D = AtomicDeque

  // ---------------------------------------------------------------- the round robin

  /** The queue that a submission goes to, from the index of the one before. */
  function NextIndex(index: nat, n: nat): (next: nat)
    requires n > 0
    ensures next < n
  {
    (index + 1) % n
  }

  /** Where the index stands after `k` submissions one after another. */
  function IndexAfter(k: nat, n: nat): (index: nat)
    requires n > 0
    ensures index < n
  {
    if k == 0 then 0 else NextIndex(IndexAfter(k - 1, n), n)
  }

  /** How many of the first `k` submissions went to queue `j`. */
  function Received(k: nat, n: nat, j: nat): nat
    requires n > 0
  {
    if k == 0 then 0 else Received(k - 1, n, j) + if IndexAfter(k, n) == j then 1 else 0
  }

  /** How many of the first `k` numbers 1, 2, ... are congruent to `j`. */
  function Share(k: nat, n: nat, j: nat): nat
    requires j < n
  {
    k / n + if 0 < j <= k % n then 1 else 0
  }

  lemma {:induction false} IndexIsRemainder(k: nat, n: nat)
    requires n > 0
    ensures IndexAfter(k, n) == k % n
  {
    if k == 0 {
      ModUnique(0, n, 0, 0);
    } else {
      IndexIsRemainder(k - 1, n);
      StepDivMod(k - 1, n);
      var r := (k - 1) % n;
      if r + 1 < n {
        ModUnique(r + 1, n, 0, r + 1);
      } else {
        ModUnique(r + 1, n, 1, 0);
      }
    }
  }

  lemma {:induction false} Multiple(d: int, q: int, n: nat)
    requires d > q
    ensures d * n >= q * n + n
    decreases d - q
  {
    assert d * n == (d - 1) * n + n;
    if d - 1 > q {
      Multiple(d - 1, q, n);
    }
  }

  lemma QuotientUnique(d: int, m: int, q: int, r: int, n: int)
    requires d * n + m == q * n + r && 0 <= m < n && 0 <= r < n
    ensures d == q && m == r
  {
    if d > q {
      Multiple(d, q, n);
    } else if d < q {
      Multiple(q, d, n);
    }
  }

  lemma ModUnique(x: nat, n: nat, q: nat, r: nat)
    requires n > 0 && x == q * n + r && r < n
    ensures x / n == q && x % n == r
  {
    assert x == (x / n) * n + x % n;
    QuotientUnique(x / n, x % n, q, r, n);
  }

  lemma StepDivMod(x: nat, n: nat)
    requires n > 0
    ensures (x + 1) % n == (if x % n + 1 < n then x % n + 1 else 0)
    ensures (x + 1) / n == (if x % n + 1 < n then x / n else x / n + 1)
  {
    var q, r := x / n, x % n;
    assert x == q * n + r;
    if r + 1 < n {
      ModUnique(x + 1, n, q, r + 1);
    } else {
      assert x + 1 == (q + 1) * n + 0;
      ModUnique(x + 1, n, q + 1, 0);
    }
  }

  /** After any number of sequential submissions the queues are level: each has received the quotient or one more. */
  lemma {:induction false} QueuesAreLevel(k: nat, n: nat, j: nat)
    requires j < n
    ensures Received(k, n, j) == Share(k, n, j)
    ensures k / n <= Received(k, n, j) <= k / n + (if k % n == 0 then 0 else 1)
  {
    if k == 0 {
      ModUnique(0, n, 0, 0);
    } else {
      QueuesAreLevel(k - 1, n, j);
      IndexIsRemainder(k, n);
      StepDivMod(k - 1, n);
    }
  }

  // ---------------------------------------------------------------- submitters and workers, interleaved

  /** A submitter has read the index, or has stored the next one and still has to push. */
  datatype Submitter<T> = Free | Loaded(task: T, next: nat) | Stored(task: T, index: nat)

  /** A worker is about to test `m_done`, inside `wait_and_pop` on its queue, running a task, or gone. */
  datatype Worker<T> = Testing | Popping | Running(task: T) | Gone

  /** `pushed` and `started` are history, one sequence for each queue. */
  datatype Pool<T> = Pool(
    index: nat,
    done: bool,
    queues: seq<Content<T>>,
    submitters: map<nat, Submitter<T>>,
    workers: seq<Worker<T>>,
    pushed: seq<seq<T>>,
    started: seq<seq<T>>)

  datatype Step<T> =
    | Load(u: nat, task: T)
    | Store(u: nat)
    | PushTask(u: nat)
    | TestDone(j: nat)
    | Pop(j: nat, res: Result<T>)
    | Finish(j: nat)
    | SetDone
    | ExitQueue(j: nat)

  predicate Shaped<T>(p: Pool<T>) {
    && |p.queues| == |p.workers| == |p.pushed| == |p.started| > 0
    && p.index < |p.queues|
    && forall u | u in p.submitters ::
         && (p.submitters[u].Loaded? ==> p.submitters[u].next < |p.queues|)
         && (p.submitters[u].Stored? ==> p.submitters[u].index < |p.queues|)
  }

  predicate Enabled<T(==)>(p: Pool<T>, e: Step<T>) {
    && |p.queues| == |p.workers| == |p.pushed| == |p.started| > 0
    && match e
       case Load(u, _) => u in p.submitters && p.submitters[u].Free?
       case Store(u) => u in p.submitters && p.submitters[u].Loaded?
       case PushTask(u) => u in p.submitters && p.submitters[u].Stored? && p.submitters[u].index < |p.queues|
       case TestDone(j) => j < |p.workers| && p.workers[j].Testing?
       case Pop(j, res) =>
         j < |p.workers| && p.workers[j].Popping? && Apply(p.queues[j], AtHead(WaitPop(false)), res).Some?
       case Finish(j) => j < |p.workers| && p.workers[j].Running?
       case SetDone => true
       case ExitQueue(j) => p.done && j < |p.queues|
  }

  function Next<T(==)>(p: Pool<T>, e: Step<T>): Pool<T>
    requires Enabled(p, e)
  {
    match e
    case Load(u, task) => p.(submitters := p.submitters[u := Loaded(task, NextIndex(p.index, |p.queues|))])
    case Store(u) =>
      var s := p.submitters[u];
      p.(index := s.next, submitters := p.submitters[u := Stored(s.task, s.next)])
    case PushTask(u) =>
      var s := p.submitters[u];
      p.(queues := p.queues[s.index := Apply(p.queues[s.index], Push(s.task), Unit).value],
         pushed := p.pushed[s.index := p.pushed[s.index] + [s.task]],
         submitters := p.submitters[u := Free])
    case TestDone(j) => p.(workers := p.workers[j := if p.done then Gone else Popping])
    case Pop(j, res) =>
      var popped := p.(queues := p.queues[j := Apply(p.queues[j], AtHead(WaitPop(false)), res).value]);
      if res.Got? then
        popped.(workers := p.workers[j := Running(res.v)],
                started := p.started[j := p.started[j] + [res.v]])
      else popped.(workers := p.workers[j := Testing])
    case Finish(j) => p.(workers := p.workers[j := Testing])
    case SetDone => p.(done := true)
    case ExitQueue(j) => p.(queues := p.queues[j := Apply(p.queues[j], Exit, Unit).value])
  }

  ghost predicate Init<T(!new)>(p: Pool<T>, n: nat) {
    && n > 0 && |p.queues| == |p.workers| == |p.pushed| == |p.started| == n
    && p.index == 0 && !p.done
    && (forall u | u in p.submitters :: p.submitters[u].Free?)
    && forall j | 0 <= j < n ::
         p.queues[j] == Content([], false) && p.workers[j].Testing? && p.pushed[j] == [] && p.started[j] == []
  }

  ghost predicate IsRun<T(!new)>(states: seq<Pool<T>>, steps: seq<Step<T>>, n: nat) {
    && |states| == |steps| + 1
    && Init(states[0], n)
    && forall i | 0 <= i < |steps| :: Leads(states, steps, i)
  }

  ghost predicate Leads<T(!new)>(states: seq<Pool<T>>, steps: seq<Step<T>>, i: nat)
    requires i < |steps| && i + 1 < |states|
  {
    Enabled(states[i], steps[i]) && states[i + 1] == Next(states[i], steps[i])
  }

  lemma RunStep<T(!new)>(states: seq<Pool<T>>, steps: seq<Step<T>>, n: nat, i: nat)
    requires IsRun(states, steps, n) && i < |steps|
    ensures Enabled(states[i], steps[i]) && states[i + 1] == Next(states[i], steps[i])
  {
    assert Leads(states, steps, i);
  }

  ghost predicate QueueOk<T(!new)>(p: Pool<T>, j: nat)
    requires Shaped(p) && j < |p.queues|
  {
    p.pushed[j] == p.started[j] + p.queues[j].items
  }

  ghost predicate Good<T(!new)>(p: Pool<T>) {
    Shaped(p) && forall j | 0 <= j < |p.queues| :: QueueOk(p, j)
  }

  lemma StepKeepsShape<T(!new)>(p: Pool<T>, e: Step<T>)
    requires Shaped(p) && Enabled(p, e)
    ensures Shaped(Next(p, e)) && |Next(p, e).queues| == |p.queues|
  {
  }

  lemma StepKeepsQueue<T(!new)>(p: Pool<T>, e: Step<T>, j: nat)
    requires Shaped(p) && Enabled(p, e) && Shaped(Next(p, e)) && j < |p.queues| && j < |Next(p, e).queues|
    requires QueueOk(p, j)
    ensures QueueOk(Next(p, e), j)
  {
  }

  lemma {:induction false} RunKeeps<T(!new)>(states: seq<Pool<T>>, steps: seq<Step<T>>, n: nat, i: nat)
    requires IsRun(states, steps, n) && i < |states|
    ensures Good(states[i]) && |states[i].queues| == n
  {
    if i > 0 {
      RunKeeps(states, steps, n, i - 1);
      var p, e := states[i - 1], steps[i - 1];
      RunStep(states, steps, n, i - 1);
      StepKeepsShape(p, e);
      forall j | 0 <= j < n
        ensures QueueOk(states[i], j)
      {
        StepKeepsQueue(p, e, j);
      }
    }
  }

  /** However submissions and workers interleave, the index stays in range and each worker starts its tasks in the
      order they were pushed to its queue, none twice and none skipped. */
  lemma WorkersKeepOrder<T(!new)>(states: seq<Pool<T>>, steps: seq<Step<T>>, n: nat, i: nat, j: nat)
    requires IsRun(states, steps, n) && i < |states| && j < n
    ensures var p := states[i];
            && p.index < |p.queues| == |p.pushed| == |p.started| == n
            && p.pushed[j] == p.started[j] + p.queues[j].items
  {
    RunKeeps(states, steps, n, i);
    assert QueueOk(states[i], j);
  }

  /** How many more tasks a worker starts once `m_done` is set: the one that its pending pop may bring. */
  function Budget<T>(worker: Worker<T>): nat {
    if worker.Popping? then 1 else 0
  }

  lemma StepAfterDone<T(!new)>(p: Pool<T>, e: Step<T>, j: nat)
    requires Shaped(p) && Enabled(p, e) && p.done && j < |p.queues|
    ensures Next(p, e).done && |Next(p, e).started| == |Next(p, e).workers| == |p.queues|
    ensures |p.started[j]| <= |Next(p, e).started[j]|
    ensures |Next(p, e).started[j]| + Budget(Next(p, e).workers[j]) <= |p.started[j]| + Budget(p.workers[j])
  {
  }

  lemma {:induction false} StartedAfterDone<T(!new)>(states: seq<Pool<T>>, steps: seq<Step<T>>, n: nat,
                                                    k: nat, i: nat, j: nat)
    requires IsRun(states, steps, n) && k <= i < |states| && states[k].done && j < n
    ensures Shaped(states[k]) && Shaped(states[i]) && |states[k].queues| == |states[i].queues| == n && states[i].done
    ensures |states[k].started[j]| <= |states[i].started[j]|
    ensures |states[i].started[j]| + Budget(states[i].workers[j]) <=
            |states[k].started[j]| + Budget(states[k].workers[j])
  {
    RunKeeps(states, steps, n, i);
    if i > k {
      StartedAfterDone(states, steps, n, k, i - 1, j);
      RunStep(states, steps, n, i - 1);
      StepAfterDone(states[i - 1], steps[i - 1], j);
    }
  }

  function Total<T>(started: seq<seq<T>>): nat {
    if started == [] then 0 else |started[0]| + Total(started[1..])
  }

  lemma {:induction false} TotalGrowsBy<T>(before: seq<seq<T>>, after: seq<seq<T>>)
    requires |before| == |after|
    requires forall j | 0 <= j < |before| :: |after[j]| <= |before[j]| + 1
    ensures Total(after) <= Total(before) + |before|
  {
    if before != [] {
      TotalGrowsBy(before[1..], after[1..]);
    }
  }

  /** Once `m_done` is set, at most one more task is started on each queue, and that only by a worker that was in a
      pop, however many are left; so at most as many in all as there are queues. */
  lemma DoneBoundsTheRest<T(!new)>(states: seq<Pool<T>>, steps: seq<Step<T>>, n: nat, k: nat, i: nat)
    requires IsRun(states, steps, n) && k <= i < |states| && states[k].done
    ensures |states[k].started| == |states[i].started| == |states[k].workers| == n
    ensures forall j | 0 <= j < n ::
              |states[i].started[j]| - |states[k].started[j]| <= if states[k].workers[j].Popping? then 1 else 0
    ensures Total(states[i].started) - Total(states[k].started) <= n
  {
    RunKeeps(states, steps, n, i);
    RunKeeps(states, steps, n, k);
    forall j | 0 <= j < n
      ensures |states[i].started[j]| - |states[k].started[j]| <= Budget(states[k].workers[j])
    {
      StartedAfterDone(states, steps, n, k, i, j);
    }
    TotalGrowsBy(states[k].started, states[i].started);
  }
}

/** SimpleThreadPool: workers that take tasks from one queue under one lock, and threads that submit to it. */
module SimplePool {
  import opened Options
  import opened Sets

  type Thread = nat

  /** A worker is about to test the stop flag, waiting for the lock or a task, holding task number `i` before
      the idle count goes down, running it, back before the count goes up, or gone. */
  datatype Worker = Testing | Waiting | Taken(i: nat) | Running(i: nat) | Returning | Gone

  /** A submitter has passed the stop test but not yet queued its task. */
  datatype Submitter<T> = Free | Passed(task: T)

  /** `accepted`, `taken` and `finished` are history: the tasks queued so far, how many have been taken out, and
      the numbers of those that have run. */
  datatype Pool<T> = Pool(
    tasks: seq<T>,
    stop: bool,
    idle: int,
    workers: map<Thread, Worker>,
    submitters: map<Thread, Submitter<T>>,
    accepted: seq<T>,
    taken: nat,
    finished: set<nat>)

  datatype Event<T> =
    | TestStop(w: Thread)
    | TakeTask(w: Thread)
    | Lower(w: Thread)
    | Finish(w: Thread)
    | Raise(w: Thread)
    | TestSubmit(u: Thread, task: T)
    | Enqueue(u: Thread)
    | Stop

  /** The number of workers the constructor starts. */
  function PoolSize(requested: int): nat {
    if requested <= 1 then 2 else requested
  }

  predicate Enabled<T>(p: Pool<T>, e: Event<T>) {
    match e
    case TestStop(w) => w in p.workers && p.workers[w].Testing?
    case TakeTask(w) => w in p.workers && p.workers[w].Waiting? && (p.stop || |p.tasks| > 0)
    case Lower(w) => w in p.workers && p.workers[w].Taken?
    case Finish(w) => w in p.workers && p.workers[w].Running?
    case Raise(w) => w in p.workers && p.workers[w].Returning?
    case TestSubmit(u, _) => u in p.submitters && p.submitters[u].Free?
    case Enqueue(u) => u in p.submitters && p.submitters[u].Passed?
    case Stop => true
  }

  function At<T>(p: Pool<T>, w: Thread, worker: Worker): Pool<T> {
    p.(workers := p.workers[w := worker])
  }

  function Next<T>(p: Pool<T>, e: Event<T>): Pool<T>
    requires Enabled(p, e)
  {
    match e
    case TestStop(w) => At(p, w, if p.stop then Gone else Waiting)
    case TakeTask(w) =>
      if |p.tasks| == 0 then At(p, w, Gone)
      else At(p.(tasks := p.tasks[1..], taken := p.taken + 1), w, Taken(p.taken))
    case Lower(w) => At(p.(idle := p.idle - 1), w, Running(p.workers[w].i))
    case Finish(w) => At(p.(finished := p.finished + {p.workers[w].i}), w, Returning)
    case Raise(w) => At(p.(idle := p.idle + 1), w, Testing)
    case TestSubmit(u, task) => if p.stop then p else p.(submitters := p.submitters[u := Passed(task)])
    case Enqueue(u) =>
      var task := p.submitters[u].task;
      p.(submitters := p.submitters[u := Free], tasks := p.tasks + [task], accepted := p.accepted + [task])
    case Stop => p.(stop := true)
  }

  ghost predicate Init<T(!new)>(p: Pool<T>, requested: int) {
    && p.tasks == [] && !p.stop && p.idle == PoolSize(requested)
    && (forall w: nat :: w in p.workers <==> w < PoolSize(requested))
    && (forall w | w in p.workers :: p.workers[w].Testing?)
    && (forall u | u in p.submitters :: p.submitters[u].Free?)
    && p.accepted == [] && p.taken == 0 && p.finished == {}
  }

  ghost predicate IsRun<T(!new)>(states: seq<Pool<T>>, events: seq<Event<T>>, requested: int) {
    && |states| == |events| + 1
    && Init(states[0], requested)
    && forall i | 0 <= i < |events| :: Leads(states, events, i)
  }

  ghost predicate Leads<T(!new)>(states: seq<Pool<T>>, events: seq<Event<T>>, i: nat)
    requires i < |events| && i + 1 < |states|
  {
    Enabled(states[i], events[i]) && states[i + 1] == Next(states[i], events[i])
  }

  // ---------------------------------------------------------------- the invariant

  function TaskOf(worker: Worker): Option<nat> {
    match worker
    case Taken(i) => Some(i)
    case Running(i) => Some(i)
    case _ => None
  }

  predicate IsBusy(worker: Worker) {
    worker.Running? || worker.Returning?
  }

  /** The workers between their decrement and their increment. */
  function Busy(workers: map<Thread, Worker>): set<Thread> {
    set w | w in workers && IsBusy(workers[w])
  }

  /** Tasks leave the queue in the order they were submitted. */
  ghost predicate InOrder<T(!new)>(p: Pool<T>) {
    p.taken <= |p.accepted| && p.tasks == p.accepted[p.taken..]
  }

  /** Every task taken is held by exactly one worker or has finished, never both. */
  ghost predicate Partitioned<T(!new)>(p: Pool<T>) {
    && (forall w | w in p.workers && TaskOf(p.workers[w]).Some? ::
          TaskOf(p.workers[w]).value < p.taken && TaskOf(p.workers[w]).value !in p.finished)
    && (forall v, w | v in p.workers && w in p.workers && v != w && TaskOf(p.workers[v]).Some? ::
          TaskOf(p.workers[v]) != TaskOf(p.workers[w]))
    && (forall i | i in p.finished :: i < p.taken)
    && (forall i: nat | i < p.taken :: i in p.finished || Held(p, i))
  }

  ghost predicate Held<T(!new)>(p: Pool<T>, i: nat) {
    exists w :: w in p.workers && TaskOf(p.workers[w]) == Some(i)
  }

  ghost predicate IdleOk<T(!new)>(p: Pool<T>) {
    p.idle == |p.workers| - |Busy(p.workers)|
  }

  ghost predicate Good<T(!new)>(p: Pool<T>) {
    InOrder(p) && Partitioned(p) && IdleOk(p)
  }

  lemma StepKeepsOrder<T(!new)>(p: Pool<T>, e: Event<T>)
    requires InOrder(p) && Enabled(p, e)
    ensures InOrder(Next(p, e))
  {
  }

  lemma StepKeepsHolders<T(!new)>(p: Pool<T>, e: Event<T>)
    requires Partitioned(p) && Enabled(p, e)
    ensures var p' := Next(p, e);
            && (forall w | w in p'.workers && TaskOf(p'.workers[w]).Some? ::
                  TaskOf(p'.workers[w]).value < p'.taken && TaskOf(p'.workers[w]).value !in p'.finished)
            && (forall v, w | v in p'.workers && w in p'.workers && v != w && TaskOf(p'.workers[v]).Some? ::
                  TaskOf(p'.workers[v]) != TaskOf(p'.workers[w]))
            && (forall i | i in p'.finished :: i < p'.taken)
  {
  }

  lemma StepKeepsHeld<T(!new)>(p: Pool<T>, e: Event<T>, i: nat)
    requires Partitioned(p) && Enabled(p, e) && i < Next(p, e).taken && i !in Next(p, e).finished
    ensures Held(Next(p, e), i)
  {
    var p' := Next(p, e);
    if i < p.taken {
      assert Held(p, i);
      var w :| w in p.workers && TaskOf(p.workers[w]) == Some(i);
      assert w in p'.workers && TaskOf(p'.workers[w]) == Some(i);
    } else {
      assert e.TakeTask? && TaskOf(p'.workers[e.w]) == Some(i);
    }
  }

  lemma StepKeepsPartition<T(!new)>(p: Pool<T>, e: Event<T>)
    requires Partitioned(p) && Enabled(p, e)
    ensures Partitioned(Next(p, e))
  {
    StepKeepsHolders(p, e);
    forall i: nat | i < Next(p, e).taken && i !in Next(p, e).finished
      ensures Held(Next(p, e), i)
    {
      StepKeepsHeld(p, e, i);
    }
  }

  lemma BusyAfter(workers: map<Thread, Worker>, w: Thread, worker: Worker)
    requires w in workers
    ensures |Busy(workers[w := worker])| == |Busy(workers)| + One(IsBusy(worker)) - One(IsBusy(workers[w]))
  {
    SizeAfter(Busy(workers), Busy(workers[w := worker]), w);
  }

  lemma StepKeepsIdle<T(!new)>(p: Pool<T>, e: Event<T>)
    requires IdleOk(p) && Enabled(p, e)
    ensures IdleOk(Next(p, e)) && Next(p, e).workers.Keys == p.workers.Keys
  {
    var p' := Next(p, e);
    if p'.workers != p.workers {
      BusyAfter(p.workers, e.w, p'.workers[e.w]);
      assert p'.workers == p.workers[e.w := p'.workers[e.w]];
    }
    assert p'.workers.Keys == p.workers.Keys;
    assert |p'.workers| == |p'.workers.Keys| && |p.workers| == |p.workers.Keys|;
  }

  lemma StartsGood<T(!new)>(p: Pool<T>, requested: int)
    requires Init(p, requested)
    ensures Good(p) && |p.workers| == PoolSize(requested)
  {
    assert Busy(p.workers) == {};
    CountBelow(p.workers.Keys, PoolSize(requested));
    assert |p.workers| == |p.workers.Keys|;
  }

  lemma {:induction false} CountBelow(s: set<Thread>, n: nat)
    requires forall w: nat :: w in s <==> w < n
    ensures |s| == n
  {
    if n == 0 {
      assert s == {};
    } else {
      CountBelow(s - {n - 1}, n - 1);
    }
  }

  lemma {:induction false} RunKeeps<T(!new)>(states: seq<Pool<T>>, events: seq<Event<T>>, requested: int, n: nat)
    requires IsRun(states, events, requested) && n < |states|
    ensures Good(states[n]) && |states[n].workers| == PoolSize(requested)
    ensures states[n].workers.Keys == states[0].workers.Keys
  {
    if n == 0 {
      StartsGood(states[0], requested);
    } else {
      RunKeeps(states, events, requested, n - 1);
      var p, e := states[n - 1], events[n - 1];
      RunStep(states, events, requested, n - 1);
      StepKeepsOrder(p, e);
      StepKeepsPartition(p, e);
      StepKeepsIdle(p, e);
      assert |states[n].workers| == |states[n].workers.Keys| && |p.workers| == |p.workers.Keys|;
    }
  }

  lemma RunStep<T(!new)>(states: seq<Pool<T>>, events: seq<Event<T>>, requested: int, i: nat)
    requires IsRun(states, events, requested) && i < |events|
    ensures Enabled(states[i], events[i]) && states[i + 1] == Next(states[i], events[i])
  {
    assert Leads(states, events, i);
  }

  // ---------------------------------------------------------------- what holds in every run

  /** The accepted tasks are, at every moment, the finished ones, the ones held by a worker and the queued ones:
      they are taken in submission order, and no task is run twice or by two workers. */
  lemma TasksArePartitioned<T(!new)>(states: seq<Pool<T>>, events: seq<Event<T>>, requested: int, n: nat)
    requires IsRun(states, events, requested) && n < |states|
    ensures var p := states[n];
            && p.taken <= |p.accepted| && p.tasks == p.accepted[p.taken..]
            && (forall i: nat | i < p.taken :: i in p.finished <==> !Held(p, i))
            && (forall v, w | v in p.workers && w in p.workers && TaskOf(p.workers[v]).Some?
                              && TaskOf(p.workers[v]) == TaskOf(p.workers[w]) :: v == w)
  {
    RunKeeps(states, events, requested, n);
  }

  /** Task `i` has been started. */
  ghost predicate Begun<T(!new)>(p: Pool<T>, i: nat) {
    i in p.finished || exists w :: w in p.workers && p.workers[w] == Running(i)
  }

  lemma StepKeepsBegun<T(!new)>(p: Pool<T>, e: Event<T>, i: nat)
    requires Enabled(p, e)
    requires Begun(p, i) || (e.Lower? && p.workers[e.w] == Taken(i))
    ensures Begun(Next(p, e), i)
  {
    var p' := Next(p, e);
    if e.Lower? && p.workers[e.w] == Taken(i) {
      assert p'.workers[e.w] == Running(i);
    } else if i !in p.finished {
      var w :| w in p.workers && p.workers[w] == Running(i);
      assert w in p'.workers && (p'.workers[w] == Running(i) || i in p'.finished);
    }
  }

  lemma {:induction false} StaysBegun<T(!new)>(states: seq<Pool<T>>, events: seq<Event<T>>, requested: int,
                                               k: nat, n: nat, i: nat)
    requires IsRun(states, events, requested) && k <= n < |states| && Begun(states[k], i)
    ensures Begun(states[n], i)
  {
    if n > k {
      StaysBegun(states, events, requested, k, n - 1, i);
      RunStep(states, events, requested, n - 1);
      StepKeepsBegun(states[n - 1], events[n - 1], i);
    }
  }

  /** The event at `n` starts task `i`: a worker that holds it lowers the idle count and runs it. */
  predicate StartsTask<T>(states: seq<Pool<T>>, events: seq<Event<T>>, n: nat, i: nat)
    requires n < |events| && n < |states|
  {
    && events[n].Lower?
    && events[n].w in states[n].workers
    && states[n].workers[events[n].w] == Taken(i)
  }

  /** No task is started twice, by whichever workers. */
  lemma TaskStartsOnce<T(!new)>(states: seq<Pool<T>>, events: seq<Event<T>>, requested: int, k: nat, n: nat, i: nat)
    requires IsRun(states, events, requested) && k < |events| && n < |events|
    requires StartsTask(states, events, k, i) && StartsTask(states, events, n, i)
    ensures k == n
  {
    if k < n {
      StartsOnlyOnce(states, events, requested, k, n, i);
    } else if n < k {
      StartsOnlyOnce(states, events, requested, n, k, i);
    }
  }

  lemma StartsOnlyOnce<T(!new)>(states: seq<Pool<T>>, events: seq<Event<T>>, requested: int, k: nat, n: nat, i: nat)
    requires IsRun(states, events, requested) && k < n < |events| && StartsTask(states, events, k, i)
    ensures !StartsTask(states, events, n, i)
  {
    RunStep(states, events, requested, k);
    StepKeepsBegun(states[k], events[k], i);
    StaysBegun(states, events, requested, k + 1, n, i);
    RunKeeps(states, events, requested, n);
    NotTakenAgain(states[n], i);
  }

  lemma NotTakenAgain<T(!new)>(p: Pool<T>, i: nat)
    requires Partitioned(p) && Begun(p, i)
    ensures forall w | w in p.workers :: p.workers[w] != Taken(i)
  {
  }

  /** The idle count is the pool size less the busy workers, so it stays between 0 and the pool size. */
  lemma IdleCountIsRight<T(!new)>(states: seq<Pool<T>>, events: seq<Event<T>>, requested: int, n: nat)
    requires IsRun(states, events, requested) && n < |states|
    ensures PoolSize(requested) == if requested < 2 then 2 else requested
    ensures states[n].idle == PoolSize(requested) - |Busy(states[n].workers)|
    ensures 0 <= states[n].idle <= PoolSize(requested)
  {
    RunKeeps(states, events, requested, n);
    SubsetIsNoLarger(Busy(states[n].workers), states[n].workers.Keys);
    assert |states[n].workers| == |states[n].workers.Keys|;
  }

  // ---------------------------------------------------------------- after the stop

  /** How many tasks worker `w` starts in the events from `k` to `n`; it starts one when it lowers the idle count. */
  function Starts<T(==)>(events: seq<Event<T>>, w: Thread, k: nat, n: nat): nat
    requires k <= n <= |events|
  {
    if n == k then 0 else Starts(events, w, k, n - 1) + One(events[n - 1] == Lower(w))
  }

  /** How many tasks any worker starts in the events from `k` to `n`. */
  function AllStarts<T>(events: seq<Event<T>>, k: nat, n: nat): nat
    requires k <= n <= |events|
  {
    if n == k then 0 else AllStarts(events, k, n - 1) + One(events[n - 1].Lower?)
  }

  /** A stopped pool's worker starts at most the task it holds or is about to take. */
  predicate MayStart(worker: Worker) {
    worker.Waiting? || worker.Taken?
  }

  function Budget(worker: Worker): nat {
    One(MayStart(worker))
  }

  function Starters(workers: map<Thread, Worker>): set<Thread> {
    set w | w in workers && MayStart(workers[w])
  }

  function Takers(workers: map<Thread, Worker>): set<Thread> {
    set w | w in workers && workers[w].Waiting?
  }

  lemma StepAfterStop<T(!new)>(p: Pool<T>, e: Event<T>)
    requires Enabled(p, e) && p.stop
    ensures Next(p, e).stop && Next(p, e).workers.Keys == p.workers.Keys
    ensures forall w | w in p.workers ::
              Budget(Next(p, e).workers[w]) + One(e == Lower(w)) <= Budget(p.workers[w])
    ensures forall w | w in p.workers && Next(p, e).workers[w].Waiting? :: p.workers[w].Waiting?
    ensures Next(p, e).taken > p.taken ==>
              Next(p, e).taken == p.taken + 1 && p.workers[e.w].Waiting? && !Next(p, e).workers[e.w].Waiting?
  {
  }

  lemma SetsAfterStop<T(!new)>(p: Pool<T>, e: Event<T>)
    requires Enabled(p, e) && p.stop
    ensures |Starters(Next(p, e).workers)| + One(e.Lower?) <= |Starters(p.workers)|
    ensures |Takers(Next(p, e).workers)| + Next(p, e).taken <= |Takers(p.workers)| + p.taken
  {
    var workers, workers' := p.workers, Next(p, e).workers;
    StepAfterStop(p, e);
    if e.Lower? {
      SubsetIsNoLarger(Starters(workers'), Starters(workers) - {e.w});
    } else {
      SubsetIsNoLarger(Starters(workers'), Starters(workers));
    }
    if Next(p, e).taken > p.taken {
      SubsetIsNoLarger(Takers(workers'), Takers(workers) - {e.w});
    } else {
      SubsetIsNoLarger(Takers(workers'), Takers(workers));
    }
  }

  lemma {:induction false} StaysStopped<T(!new)>(states: seq<Pool<T>>, events: seq<Event<T>>, requested: int,
                                                 k: nat, n: nat)
    requires IsRun(states, events, requested) && k <= n < |states| && states[k].stop
    ensures states[n].stop && states[n].workers.Keys == states[k].workers.Keys
  {
    if n > k {
      StaysStopped(states, events, requested, k, n - 1);
      RunStep(states, events, requested, n - 1);
      StepAfterStop(states[n - 1], events[n - 1]);
    }
  }

  lemma {:induction false} WorkerAfterStop<T(!new)>(states: seq<Pool<T>>, events: seq<Event<T>>, requested: int,
                                                    k: nat, n: nat, w: Thread)
    requires IsRun(states, events, requested) && k <= n < |states| && states[k].stop && w in states[k].workers
    ensures w in states[n].workers
    ensures Starts(events, w, k, n) + Budget(states[n].workers[w]) <= Budget(states[k].workers[w])
  {
    StaysStopped(states, events, requested, k, n);
    if n > k {
      WorkerAfterStop(states, events, requested, k, n - 1, w);
      StaysStopped(states, events, requested, k, n - 1);
      RunStep(states, events, requested, n - 1);
      StepAfterStop(states[n - 1], events[n - 1]);
    }
  }

  lemma {:induction false} PoolAfterStop<T(!new)>(states: seq<Pool<T>>, events: seq<Event<T>>, requested: int,
                                                  k: nat, n: nat)
    requires IsRun(states, events, requested) && k <= n < |states| && states[k].stop
    ensures AllStarts(events, k, n) + |Starters(states[n].workers)| <= |Starters(states[k].workers)|
    ensures |Takers(states[n].workers)| + states[n].taken <= |Takers(states[k].workers)| + states[k].taken
  {
    if n > k {
      PoolAfterStop(states, events, requested, k, n - 1);
      StaysStopped(states, events, requested, k, n - 1);
      RunStep(states, events, requested, n - 1);
      SetsAfterStop(states[n - 1], events[n - 1]);
    }
  }

  /** Once the stop flag is set each worker starts at most one more task, and only if it was waiting for one or
      held one.  So the pool starts, and takes out, at most as many as it has workers, however many are queued and
      whoever still submits. */
  lemma StopBoundsTheRest<T(!new)>(states: seq<Pool<T>>, events: seq<Event<T>>, requested: int, k: nat, n: nat)
    requires IsRun(states, events, requested) && k <= n < |states| && states[k].stop
    ensures forall w | w in states[k].workers ::
              Starts(events, w, k, n) <= One(states[k].workers[w].Waiting? || states[k].workers[w].Taken?)
    ensures AllStarts(events, k, n) <= PoolSize(requested)
    ensures states[n].taken - states[k].taken <= PoolSize(requested)
  {
    forall w | w in states[k].workers
      ensures Starts(events, w, k, n) <= Budget(states[k].workers[w])
    {
      WorkerAfterStop(states, events, requested, k, n, w);
    }
    PoolAfterStop(states, events, requested, k, n);
    RunKeeps(states, events, requested, k);
    SubsetIsNoLarger(Starters(states[k].workers), states[k].workers.Keys);
    SubsetIsNoLarger(Takers(states[k].workers), states[k].workers.Keys);
    assert |states[k].workers| == |states[k].workers.Keys|;
  }
}

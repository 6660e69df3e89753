/** What ParrallenThreadPool's state owes to its steps: to which queue each submission goes, what each worker starts,
    and that submissions made one after another fill the queues evenly. */
module ParallelPoolOrder {
  import opened Options
  import opened Sets
  import opened ParallelPool

  // ---------------------------------------------------------------- where a submission goes

  /** The step at which submitter `u` read the index for a task that it has not pushed yet. */
  function LastLoad<T(==)>(steps: seq<Step<T>>, u: nat, n: nat): (k: Option<nat>)
    requires n <= |steps|
    ensures k.Some? ==> k.value < n && steps[k.value].Load? && steps[k.value].u == u
  {
    if n == 0 then None
    else if steps[n - 1].Load? && steps[n - 1].u == u then Some(n - 1)
    else if steps[n - 1] == PushTask(u) then None
    else LastLoad(steps, u, n - 1)
  }

  /** What submitter `u` carries when it is at `s` after `i` steps: the task it came with, and the index one after the
      one it read, modulo the number of queues. */
  ghost predicate Carries<T(!new)>(states: seq<Pool<T>>, steps: seq<Step<T>>, n: nat, i: nat, u: nat, s: Submitter<T>)
    requires n > 0 && i <= |steps| <= |states|
  {
    match s
    case Free => true
    case Loaded(task, next) =>
      var k := LastLoad(steps, u, i);
      k.Some? && task == steps[k.value].task && next == (states[k.value].index + 1) % n
    case Stored(task, index) =>
      var k := LastLoad(steps, u, i);
      k.Some? && task == steps[k.value].task && index == (states[k.value].index + 1) % n
  }

  lemma {:induction false} SubmitterCarries<T(!new)>(states: seq<Pool<T>>, steps: seq<Step<T>>, n: nat, i: nat, u: nat)
    requires IsRun(states, steps, n) && i < |states| && u in states[i].submitters
    ensures n > 0 && Carries(states, steps, n, i, u, states[i].submitters[u])
  {
    RunKeeps(states, steps, n, i);
    if i > 0 {
      RunStep(states, steps, n, i - 1);
      RunKeeps(states, steps, n, i - 1);
      SubmitterCarries(states, steps, n, i - 1, u);
    }
  }

  /** Every push goes to the queue its submitter chose and takes the task it came with: the queue one after the index it
      read. All other queues stay as they are. */
  lemma PushesGoWhereChosen<T(!new)>(states: seq<Pool<T>>, steps: seq<Step<T>>, n: nat, i: nat, j: nat)
    requires IsRun(states, steps, n) && i < |steps| && steps[i].PushTask? && j < n
    ensures n > 0 && |states[i].queues| == |states[i + 1].queues| == n && LastLoad(steps, steps[i].u, i).Some?
    ensures |states[i].pushed| == |states[i + 1].pushed| == n
    ensures var k := LastLoad(steps, steps[i].u, i).value;
            var mine := if j == (states[k].index + 1) % n then [steps[k].task] else [];
            && states[i + 1].queues[j].items == states[i].queues[j].items + mine
            && states[i + 1].pushed[j] == states[i].pushed[j] + mine
  {
    RunStep(states, steps, n, i);
    RunKeeps(states, steps, n, i);
    RunKeeps(states, steps, n, i + 1);
    SubmitterCarries(states, steps, n, i, steps[i].u);
  }

  /** The tasks pushed to queue `j`, told by the steps and the indices read. */
  ghost function PushedTo<T(!new)>(states: seq<Pool<T>>, steps: seq<Step<T>>, n: nat, j: nat, i: nat): seq<T>
    requires n > 0 && i <= |steps| <= |states|
  {
    if i == 0 then []
    else
      var e := steps[i - 1];
      PushedTo(states, steps, n, j, i - 1)
      + if e.PushTask? && LastLoad(steps, e.u, i - 1).Some? then
          var k := LastLoad(steps, e.u, i - 1).value;
          if j == (states[k].index + 1) % n then [steps[k].task] else []
        else []
  }

  /** The tasks started on queue `j`, told by the steps alone. */
  function StartedOn<T>(steps: seq<Step<T>>, j: nat, i: nat): seq<T>
    requires i <= |steps|
  {
    if i == 0 then []
    else
      var e := steps[i - 1];
      StartedOn(steps, j, i - 1) + if e.Pop? && e.j == j && e.res.Got? then [e.res.v] else []
  }

  lemma NoPushNoChange<T(!new)>(p: Pool<T>, e: Step<T>, j: nat)
    requires Shaped(p) && Enabled(p, e) && j < |p.queues| && !e.PushTask?
    ensures |Next(p, e).pushed| == |p.pushed| && Next(p, e).pushed[j] == p.pushed[j]
  {
  }

  lemma StepStarts<T(!new)>(p: Pool<T>, e: Step<T>, j: nat)
    requires Shaped(p) && Enabled(p, e) && j < |p.queues|
    ensures |Next(p, e).started| == |p.started|
    ensures Next(p, e).started[j] == p.started[j] + if e.Pop? && e.j == j && e.res.Got? then [e.res.v] else []
  {
  }

  /** In every run what each worker has started, followed by what its queue holds, is what submitters pushed to it:
      each submission goes to the queue after the index it read, and each queue is first-in first-out. */
  lemma {:induction false} EachQueueInOrder<T(!new)>(states: seq<Pool<T>>, steps: seq<Step<T>>, n: nat, i: nat, j: nat)
    requires IsRun(states, steps, n) && i < |states| && j < n
    ensures |states[i].queues| == |states[i].pushed| == |states[i].started| == n
    ensures states[i].pushed[j] == PushedTo(states, steps, n, j, i)
    ensures states[i].started[j] == StartedOn(steps, j, i)
    ensures StartedOn(steps, j, i) + states[i].queues[j].items == PushedTo(states, steps, n, j, i)
  {
    RunKeeps(states, steps, n, i);
    assert QueueOk(states[i], j);
    if i > 0 {
      EachQueueInOrder(states, steps, n, i - 1, j);
      RunKeeps(states, steps, n, i - 1);
      RunStep(states, steps, n, i - 1);
      StepStarts(states[i - 1], steps[i - 1], j);
      if steps[i - 1].PushTask? {
        PushesGoWhereChosen(states, steps, n, i - 1, j);
      } else {
        NoPushNoChange(states[i - 1], steps[i - 1], j);
      }
    }
  }

  /** A queue is stopped exactly once it has been told to. */
  lemma {:induction false} QueuesStopWhenTold<T(!new)>(states: seq<Pool<T>>, steps: seq<Step<T>>, n: nat, i: nat,
                                                       j: nat)
    requires IsRun(states, steps, n) && i < |states| && j < n
    ensures |states[i].queues| == n && (states[i].queues[j].stop <==> exists k | 0 <= k < i :: steps[k] == ExitQueue(j))
  {
    RunKeeps(states, steps, n, i);
    if i > 0 {
      QueuesStopWhenTold(states, steps, n, i - 1, j);
      RunStep(states, steps, n, i - 1);
      RunKeeps(states, steps, n, i - 1);
    }
  }

  /** What a worker runs is what it started last, and a worker leaves only once `m_done` has been set. */
  lemma {:induction false} WorkersRunWhatTheyStart<T(!new)>(states: seq<Pool<T>>, steps: seq<Step<T>>, n: nat,
                                                           i: nat, j: nat)
    requires IsRun(states, steps, n) && i < |states| && j < n
    ensures |states[i].workers| == n
    ensures states[i].workers[j].Running? ==>
              var s := StartedOn(steps, j, i); s != [] && s[|s| - 1] == states[i].workers[j].task
    ensures states[i].workers[j].Gone? ==> states[i].done
    ensures states[i].done <==> exists k | 0 <= k < i :: steps[k].SetDone?
  {
    RunKeeps(states, steps, n, i);
    if i > 0 {
      WorkersRunWhatTheyStart(states, steps, n, i - 1, j);
      RunStep(states, steps, n, i - 1);
      RunKeeps(states, steps, n, i - 1);
    }
  }

  /** How many steps of its own a worker is away from leaving once `m_done` is set, at most. */
  function Rank<T>(worker: Worker<T>): nat {
    match worker
    case Gone => 0
    case Testing => 1
    case Running(_) => 2
    case Popping => 3
  }

  /** The step is one of worker `j`. */
  predicate IsOf<T>(e: Step<T>, j: nat) {
    match e
    case TestDone(l) => l == j
    case Pop(l, _) => l == j
    case Finish(l) => l == j
    case _ => false
  }

  /** Once `m_done` is set and a queue is told to stop its worker does not wait for ever: it has a next step until it is
      gone, and each step of its own brings it nearer to that, so the join comes back. */
  lemma DoneWorkersLeave<T(!new)>(p: Pool<T>, j: nat)
    requires Shaped(p) && p.done && j < |p.queues| && p.queues[j].stop && !p.workers[j].Gone?
    ensures exists e :: Enabled(p, e) && IsOf(e, j)
    ensures forall e | Enabled(p, e) && IsOf(e, j) ::
              |Next(p, e).workers| == |p.workers| && Rank(Next(p, e).workers[j]) < Rank(p.workers[j])
  {
    var e: Step<T> := match p.workers[j]
      case Testing => TestDone(j)
      case Popping => Pop(j, D.Nothing)
      case _ => Finish(j);
    assert Enabled(p, e) && IsOf(e, j);
  }

  // ---------------------------------------------------------------- submissions one after another

  predicate AllFree<T>(p: Pool<T>) {
    forall u | u in p.submitters :: p.submitters[u].Free?
  }

  /** No submission starts before the one before it has pushed. */
  ghost predicate OneAfterAnother<T(!new)>(states: seq<Pool<T>>, steps: seq<Step<T>>)
    requires |steps| <= |states|
  {
    forall i | 0 <= i < |steps| && steps[i].Load? :: AllFree(states[i])
  }

  /** How many submissions have been pushed. */
  function Pushes<T>(steps: seq<Step<T>>, i: nat): nat
    requires i <= |steps|
  {
    if i == 0 then 0 else Pushes(steps, i - 1) + One(steps[i - 1].PushTask?)
  }

  /** Submitter `u`, the only one under way, is at `s` after `k` finished submissions. */
  ghost predicate UnderWay<T(!new)>(p: Pool<T>, k: nat, n: nat, s: Submitter<T>)
    requires n > 0
  {
    match s
    case Free => p.index == IndexAfter(k, n)
    case Loaded(_, next) => p.index == IndexAfter(k, n) && next == IndexAfter(k + 1, n)
    case Stored(_, index) => p.index == IndexAfter(k + 1, n) && index == IndexAfter(k + 1, n)
  }

  ghost predicate InTurn<T(!new)>(p: Pool<T>, k: nat, n: nat)
    requires n > 0
  {
    && |p.pushed| == |p.queues| == n
    && (AllFree(p) ==> p.index == IndexAfter(k, n))
    && (forall u | u in p.submitters && !p.submitters[u].Free? :: UnderWay(p, k, n, p.submitters[u]))
    && (forall u, v | u in p.submitters && v in p.submitters && u != v && !p.submitters[u].Free? ::
          p.submitters[v].Free?)
    && (forall j | 0 <= j < n :: |p.pushed[j]| == Received(k, n, j))
  }

  lemma OthersKeepTurn<T(!new)>(p: Pool<T>, e: Step<T>, k: nat, n: nat)
    requires n > 0 && Shaped(p) && Enabled(p, e) && InTurn(p, k, n)
    requires !e.Load? && !e.Store? && !e.PushTask?
    ensures InTurn(Next(p, e), k, n)
  {
    assert Next(p, e).submitters == p.submitters && Next(p, e).index == p.index && Next(p, e).pushed == p.pushed;
  }

  lemma LoadKeepsTurn<T(!new)>(p: Pool<T>, e: Step<T>, k: nat, n: nat)
    requires n > 0 && Shaped(p) && Enabled(p, e) && InTurn(p, k, n) && e.Load? && AllFree(p)
    ensures InTurn(Next(p, e), k, n)
  {
    assert !Next(p, e).submitters[e.u].Free?;
  }

  lemma StoreKeepsTurn<T(!new)>(p: Pool<T>, e: Step<T>, k: nat, n: nat)
    requires n > 0 && Shaped(p) && Enabled(p, e) && InTurn(p, k, n) && e.Store?
    ensures InTurn(Next(p, e), k, n)
  {
    assert UnderWay(p, k, n, p.submitters[e.u]);
    assert !Next(p, e).submitters[e.u].Free?;
  }

  lemma PushTakesTurn<T(!new)>(p: Pool<T>, e: Step<T>, k: nat, n: nat)
    requires n > 0 && Shaped(p) && Enabled(p, e) && InTurn(p, k, n) && e.PushTask?
    ensures InTurn(Next(p, e), k + 1, n)
  {
    var p', index := Next(p, e), p.submitters[e.u].index;
    assert UnderWay(p, k, n, p.submitters[e.u]);
    forall j | 0 <= j < n
      ensures |p'.pushed[j]| == Received(k + 1, n, j)
    {
      assert |p.pushed[j]| == Received(k, n, j);
    }
  }

  lemma {:induction false} RunKeepsTurn<T(!new)>(states: seq<Pool<T>>, steps: seq<Step<T>>, n: nat, i: nat)
    requires IsRun(states, steps, n) && i < |states| && OneAfterAnother(states, steps)
    ensures n > 0 && InTurn(states[i], Pushes(steps, i), n)
  {
    if i > 0 {
      RunKeepsTurn(states, steps, n, i - 1);
      RunStep(states, steps, n, i - 1);
      RunKeeps(states, steps, n, i - 1);
      var p, e, k := states[i - 1], steps[i - 1], Pushes(steps, i - 1);
      if e.Load? {
        LoadKeepsTurn(p, e, k, n);
      } else if e.Store? {
        StoreKeepsTurn(p, e, k, n);
      } else if e.PushTask? {
        PushTakesTurn(p, e, k, n);
      } else {
        OthersKeepTurn(p, e, k, n);
      }
    }
  }

  /** Submissions made one after another fill the queues evenly, whatever the workers do meanwhile: after `k` of them
      each queue has been pushed `k / n` tasks or one more, and the index is `k mod n`. */
  lemma FilledEvenly<T(!new)>(states: seq<Pool<T>>, steps: seq<Step<T>>, n: nat, i: nat, j: nat)
    requires IsRun(states, steps, n) && i < |states| && OneAfterAnother(states, steps) && j < n
    ensures |states[i].pushed| == n && |states[i].pushed[j]| == Share(Pushes(steps, i), n, j)
    ensures AllFree(states[i]) ==> states[i].index == Pushes(steps, i) % n
  {
    RunKeepsTurn(states, steps, n, i);
    QueuesAreLevel(Pushes(steps, i), n, j);
    IndexIsRemainder(Pushes(steps, i), n);
  }

  // ---------------------------------------------------------------- a run

  predicate Becomes<T(==)>(p: Pool<T>, e: Step<T>, p': Pool<T>) {
    Enabled(p, e) && Next(p, e) == p'
  }

  /** A run with one step more. */
  lemma Then<T(!new)>(states: seq<Pool<T>>, steps: seq<Step<T>>, n: nat, e: Step<T>, p: Pool<T>)
    returns (states': seq<Pool<T>>, steps': seq<Step<T>>)
    requires IsRun(states, steps, n) && Becomes(states[|steps|], e, p)
    ensures states' == states + [p] && steps' == steps + [e] && IsRun(states', steps', n)
  {
    states', steps' := states + [p], steps + [e];
    forall k | 0 <= k < |steps'|
      ensures Leads(states', steps', k)
    {
      if k < |steps| {
        assert Leads(states, steps, k);
      }
    }
  }

  /** One queue with its worker, and one submitter. */
  function Small<T>(items: seq<T>, submitter: Submitter<T>, worker: Worker<T>, pushed: seq<T>,
                    started: seq<T>): Pool<T> {
    Pool(0, false, [D.Content(items, false)], map[0 := submitter], [worker], [pushed], [started])
  }

  lemma SubmitAlone<T(!new)>(v: T)
    ensures Becomes(Small([], Free, Testing, [], []), Load(0, v), Small([], Loaded(v, 0), Testing, [], []))
    ensures Becomes(Small([], Loaded(v, 0), Testing, [], []), Store(0), Small([], Stored(v, 0), Testing, [], []))
    ensures Becomes(Small([], Stored(v, 0), Testing, [], []), PushTask(0), Small([v], Free, Testing, [v], []))
  {
    var pushed := Next(Small([], Stored(v, 0), Testing, [], []), PushTask(0));
    assert pushed.queues[0].items == [v] && pushed.pushed[0] == [v];
    assert pushed.queues == [D.Content([v], false)] && pushed.pushed == [[v]];
  }

  lemma RunAlone<T(!new)>(v: T)
    ensures Becomes(Small([v], Free, Testing, [v], []), TestDone(0), Small([v], Free, Popping, [v], []))
    ensures Becomes(Small([v], Free, Popping, [v], []), Pop(0, D.Got(v)), Small([], Free, Running(v), [v], [v]))
    ensures Becomes(Small([], Free, Running(v), [v], [v]), Finish(0), Small([], Free, Testing, [v], [v]))
  {
    var popped := Next(Small([v], Free, Popping, [v], []), Pop(0, D.Got(v)));
    assert popped.queues[0].items == [] && popped.started[0] == [v];
    assert popped.queues == [D.Content([], false)] && popped.started == [[v]];
  }

  /** In some run a submitted task is pushed, popped and run, and the worker is back to test `m_done`. */
  lemma OneTaskRuns<T(!new)>(v: T) returns (states: seq<Pool<T>>, steps: seq<Step<T>>)
    ensures IsRun(states, steps, 1) && states[|steps|] == Small([], Free, Testing, [v], [v])
  {
    SubmitAlone(v);
    RunAlone(v);
    states, steps := [Small([], Free, Testing, [], [])], [];
    states, steps := Then(states, steps, 1, Load(0, v), Small([], Loaded(v, 0), Testing, [], []));
    states, steps := Then(states, steps, 1, Store(0), Small([], Stored(v, 0), Testing, [], []));
    states, steps := Then(states, steps, 1, PushTask(0), Small([v], Free, Testing, [v], []));
    states, steps := Then(states, steps, 1, TestDone(0), Small([v], Free, Popping, [v], []));
    states, steps := Then(states, steps, 1, Pop(0, D.Got(v)), Small([], Free, Running(v), [v], [v]));
    states, steps := Then(states, steps, 1, Finish(0), Small([], Free, Testing, [v], [v]));
  }
}

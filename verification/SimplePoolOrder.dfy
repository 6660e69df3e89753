/** What SimpleThreadPool's state owes to its events: which tasks were submitted, in which order they are taken, and
    which have run. */
module SimplePoolOrder {
  import opened Options
  import opened Sets
  import opened SimplePool

  /** The task that thread `u` has come to submit and not yet queued. */
  function LastOffer<T(==)>(events: seq<Event<T>>, u: Thread, n: nat): Option<T>
    requires n <= |events|
  {
    if n == 0 then None
    else if events[n - 1].TestSubmit? && events[n - 1].u == u then Some(events[n - 1].task)
    else if events[n - 1] == Enqueue(u) then None
    else LastOffer(events, u, n - 1)
  }

  /** The tasks put into the queue, in the order in which that happened, told by the events alone. */
  function Submitted<T(==)>(events: seq<Event<T>>, n: nat): seq<T>
    requires n <= |events|
  {
    if n == 0 then []
    else
      var e := events[n - 1];
      Submitted(events, n - 1)
      + if e.Enqueue? && LastOffer(events, e.u, n - 1).Some? then [LastOffer(events, e.u, n - 1).value] else []
  }

  lemma {:induction false} PassedIsOffered<T(!new)>(states: seq<Pool<T>>, events: seq<Event<T>>, requested: int,
                                                    n: nat, u: Thread)
    requires IsRun(states, events, requested) && n < |states| && u in states[n].submitters
    ensures states[n].submitters[u].Passed? ==> LastOffer(events, u, n) == Some(states[n].submitters[u].task)
  {
    if n > 0 {
      RunStep(states, events, requested, n - 1);
      PassedIsOffered(states, events, requested, n - 1, u);
    }
  }

  /** In every run the tasks accepted so far are the submitted ones, in the order in which they were queued. */
  lemma {:induction false} AcceptedIsSubmitted<T(!new)>(states: seq<Pool<T>>, events: seq<Event<T>>, requested: int,
                                                        n: nat)
    requires IsRun(states, events, requested) && n < |states|
    ensures states[n].accepted == Submitted(events, n)
  {
    if n > 0 {
      RunStep(states, events, requested, n - 1);
      AcceptedIsSubmitted(states, events, requested, n - 1);
      if events[n - 1].Enqueue? {
        PassedIsOffered(states, events, requested, n - 1, events[n - 1].u);
      }
    }
  }

  /** How many tasks have been taken out of the queue. */
  function Dequeues<T>(states: seq<Pool<T>>, events: seq<Event<T>>, n: nat): nat
    requires n <= |events| <= |states|
  {
    if n == 0 then 0
    else Dequeues(states, events, n - 1) + One(events[n - 1].TakeTask? && |states[n - 1].tasks| > 0)
  }

  lemma {:induction false} TakenIsDequeues<T(!new)>(states: seq<Pool<T>>, events: seq<Event<T>>, requested: int, n: nat)
    requires IsRun(states, events, requested) && n < |states|
    ensures states[n].taken == Dequeues(states, events, n)
  {
    if n > 0 {
      RunStep(states, events, requested, n - 1);
      TakenIsDequeues(states, events, requested, n - 1);
    }
  }

  /** The queue is first-in first-out: in every run a worker that finds a task takes one, also after the stop, and the
      i-th taken is the i-th submitted. */
  lemma FirstComeFirstServed<T(!new)>(states: seq<Pool<T>>, events: seq<Event<T>>, requested: int, n: nat)
    requires IsRun(states, events, requested) && n < |events|
    requires events[n].TakeTask? && |states[n].tasks| > 0
    ensures var i := Dequeues(states, events, n);
            && i < |Submitted(events, n)| && states[n].tasks[0] == Submitted(events, n)[i]
            && states[n + 1].tasks == states[n].tasks[1..]
            && events[n].w in states[n + 1].workers && states[n + 1].workers[events[n].w] == Taken(i)
  {
    RunStep(states, events, requested, n);
    RunKeeps(states, events, requested, n);
    AcceptedIsSubmitted(states, events, requested, n);
    TakenIsDequeues(states, events, requested, n);
  }

  /** The event ends the run of task `i`. */
  predicate Ends<T>(p: Pool<T>, e: Event<T>, i: nat) {
    e.Finish? && e.w in p.workers && p.workers[e.w] == Running(i)
  }

  /** A task is finished exactly if a worker that was running it has come to its end. */
  lemma {:induction false} FinishedIffRan<T(!new)>(states: seq<Pool<T>>, events: seq<Event<T>>, requested: int,
                                                   n: nat, i: nat)
    requires IsRun(states, events, requested) && n < |states|
    ensures i in states[n].finished <==> exists k | 0 <= k < n :: Ends(states[k], events[k], i)
  {
    if n > 0 {
      FinishedIffRan(states, events, requested, n - 1, i);
      RunStep(states, events, requested, n - 1);
      assert i in states[n].finished <==> i in states[n - 1].finished || Ends(states[n - 1], events[n - 1], i);
    }
  }

  /** What a worker runs is a task it has started: it held it when it lowered the idle count. */
  lemma {:induction false} RunningWasStarted<T(!new)>(states: seq<Pool<T>>, events: seq<Event<T>>, requested: int,
                                                      n: nat, w: Thread, i: nat)
    requires IsRun(states, events, requested) && n < |states| && w in states[n].workers
    requires states[n].workers[w] == Running(i)
    ensures exists k | 0 <= k < n :: events[k] == Lower(w) && StartsTask(states, events, k, i)
  {
    RunStep(states, events, requested, n - 1);
    if states[n - 1].workers[w] == Running(i) {
      RunningWasStarted(states, events, requested, n - 1, w, i);
    } else {
      assert events[n - 1] == Lower(w) && StartsTask(states, events, n - 1, i);
    }
  }

  /** The pool is stopped exactly once `stop` has been called, only then refuses a task, and only then does a worker
      leave its loop. */
  lemma {:induction false} StoppedIffCalled<T(!new)>(states: seq<Pool<T>>, events: seq<Event<T>>, requested: int,
                                                     n: nat)
    requires IsRun(states, events, requested) && n < |states|
    ensures states[n].stop <==> exists k | 0 <= k < n :: events[k].Stop?
    ensures forall w | w in states[n].workers && states[n].workers[w].Gone? :: states[n].stop
    ensures n < |events| && events[n].TestSubmit? ==>
              && events[n].u in states[n + 1].submitters
              && states[n + 1].submitters[events[n].u] == if states[n].stop then Free else Passed(events[n].task)
  {
    if n < |events| {
      RunStep(states, events, requested, n);
    }
    if n > 0 {
      StoppedIffCalled(states, events, requested, n - 1);
      RunStep(states, events, requested, n - 1);
    }
  }

  /** How many events of its own a worker of a stopped pool is away from leaving, at most. */
  function Rank(worker: Worker): nat {
    match worker
    case Gone => 0
    case Testing => 1
    case Returning => 2
    case Running(_) => 3
    case Taken(_) => 4
    case Waiting => 5
  }

  /** The event is one of worker `w`. */
  predicate IsOf<T>(e: Event<T>, w: Thread) {
    match e
    case TestStop(v) => v == w
    case TakeTask(v) => v == w
    case Lower(v) => v == w
    case Finish(v) => v == w
    case Raise(v) => v == w
    case _ => false
  }

  /** After the stop no worker waits for ever: each has a next event until it is gone, and each event of its own brings
      it nearer to that, so the joins come back. */
  lemma StoppedWorkersLeave<T(!new)>(p: Pool<T>, w: Thread)
    requires p.stop && w in p.workers && !p.workers[w].Gone?
    ensures exists e :: Enabled(p, e) && IsOf(e, w)
    ensures forall e | Enabled(p, e) && IsOf(e, w) :: Rank(Next(p, e).workers[w]) < Rank(p.workers[w])
  {
    var e: Event<T> := match p.workers[w]
      case Testing => TestStop(w)
      case Waiting => TakeTask(w)
      case Taken(_) => Lower(w)
      case Running(_) => Finish(w)
      case _ => Raise(w);
    assert Enabled(p, e) && IsOf(e, w);
  }

  // ---------------------------------------------------------------- a run

  predicate Becomes<T(==)>(p: Pool<T>, e: Event<T>, p': Pool<T>) {
    Enabled(p, e) && Next(p, e) == p'
  }

  /** A run with one event more. */
  lemma Then<T(!new)>(states: seq<Pool<T>>, events: seq<Event<T>>, requested: int, e: Event<T>, p: Pool<T>)
    returns (states': seq<Pool<T>>, events': seq<Event<T>>)
    requires IsRun(states, events, requested) && Becomes(states[|events|], e, p)
    ensures states' == states + [p] && events' == events + [e] && IsRun(states', events', requested)
  {
    states', events' := states + [p], events + [e];
    forall k | 0 <= k < |events'|
      ensures Leads(states', events', k)
    {
      if k < |events| {
        assert Leads(states, events, k);
      }
    }
  }

  /** Two workers, the second one idle, and one submitter. */
  function Small<T>(tasks: seq<T>, idle: int, worker: Worker, submitter: Submitter<T>, accepted: seq<T>, taken: nat,
                    finished: set<nat>): Pool<T> {
    Pool(tasks, false, idle, map[0 := worker, 1 := Testing], map[0 := submitter], accepted, taken, finished)
  }

  lemma SubmitAlone<T(!new)>(v: T)
    ensures Becomes(Small([], 2, Testing, Free, [], 0, {}), TestSubmit(0, v),
                    Small([], 2, Testing, Passed(v), [], 0, {}))
    ensures Becomes(Small([], 2, Testing, Passed(v), [], 0, {}), Enqueue(0), Small([v], 2, Testing, Free, [v], 0, {}))
  {
  }

  lemma RunAlone<T(!new)>(v: T)
    ensures Becomes(Small([v], 2, Testing, Free, [v], 0, {}), TestStop(0), Small([v], 2, Waiting, Free, [v], 0, {}))
    ensures Becomes(Small([v], 2, Waiting, Free, [v], 0, {}), TakeTask(0), Small([], 2, Taken(0), Free, [v], 1, {}))
    ensures Becomes(Small([], 2, Taken(0), Free, [v], 1, {}), Lower(0), Small([], 1, Running(0), Free, [v], 1, {}))
    ensures Becomes(Small([], 1, Running(0), Free, [v], 1, {}), Finish(0), Small([], 1, Returning, Free, [v], 1, {0}))
    ensures Becomes(Small([], 1, Returning, Free, [v], 1, {0}), Raise(0), Small([], 2, Testing, Free, [v], 1, {0}))
  {
    assert [v][1..] == [] && {} + {0 as nat} == {0};
  }

  /** In some run a submitted task is taken, run and finished, and the worker is back to test the stop flag. */
  lemma OneTaskRuns<T(!new)>(v: T) returns (states: seq<Pool<T>>, events: seq<Event<T>>)
    ensures IsRun(states, events, 2) && Submitted(events, |events|) == [v]
    ensures states[|events|] == Small([], 2, Testing, Free, [v], 1, {0})
  {
    SubmitAlone(v);
    RunAlone(v);
    states, events := [Small([], 2, Testing, Free, [], 0, {})], [];
    states, events := Then(states, events, 2, TestSubmit(0, v), Small([], 2, Testing, Passed(v), [], 0, {}));
    states, events := Then(states, events, 2, Enqueue(0), Small([v], 2, Testing, Free, [v], 0, {}));
    states, events := Then(states, events, 2, TestStop(0), Small([v], 2, Waiting, Free, [v], 0, {}));
    states, events := Then(states, events, 2, TakeTask(0), Small([], 2, Taken(0), Free, [v], 1, {}));
    states, events := Then(states, events, 2, Lower(0), Small([], 1, Running(0), Free, [v], 1, {}));
    states, events := Then(states, events, 2, Finish(0), Small([], 1, Returning, Free, [v], 1, {0}));
    states, events := Then(states, events, 2, Raise(0), Small([], 2, Testing, Free, [v], 1, {0}));
    AcceptedIsSubmitted(states, events, 2, |events|);
  }
}

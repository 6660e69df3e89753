/** What one call on the queue may answer, in every run: when it takes effect, and what a stop does to it. */
module QueueAnswers {
  import opened Options
  import opened D = AtomicDeque
  import opened P = QueueProtocol
  import opened QueueInvariant
  import opened QueueRefinement
  import opened QueueTheorems
  import opened QueueConservation

  /** A call of thread `t`, made by move `i` and still open in state `n`. */
  ghost predicate Calling<T(!new)>(run: seq<State<T>>, moves: seq<Move<T>>, i: nat, n: nat, t: Thread) {
    && i < |moves| && i < n < |run|
    && moves[i].t == t && t in run[i].pcs && run[i].pcs[t].Ready?
    && forall j | i < j <= n :: t in run[j].pcs && !run[j].pcs[t].Ready?
  }

  lemma {:induction false} FollowsIsRun<T(!new)>(run: seq<State<T>>, moves: seq<Move<T>>)
    requires Follows(run, moves)
    ensures P.IsRun(run)
  {
    forall i | 0 <= i < |run| - 1
      ensures P.Next(run[i], run[i + 1])
    {
      FollowsStep(run, moves, i);
    }
  }

  /** What an answer says about the items and the stop flag before and after the instant of effect. */
  predicate Meets<T(==)>(op: Op<T>, res: Result<T>, items: seq<T>, stop: bool, items': seq<T>, stop': bool) {
    match op
    case Push(v) => res == Unit && items' == items + [v] && stop' == stop
    case Exit => res == Unit && items' == items && stop'
    case Steal =>
      && stop' == stop
      && (if items == [] then res == Nothing && items' == [] else res.Got? && items == items' + [res.v])
    case AtHead(k) =>
      && stop' == stop
      && match k
         case IsEmpty => res == Answer(items == []) && items' == items
         case TryPop(_) => if items == [] then res == Nothing && items' == [] else TakesFront(res, items, items')
         case WaitPop(_) => if res == Nothing then stop && items' == items else TakesFront(res, items, items')
         case TimedPop =>
           if res == Nothing then (stop || items == []) && items' == items else TakesFront(res, items, items')
  }

  predicate TakesFront<T(==)>(res: Result<T>, items: seq<T>, items': seq<T>) {
    res.Got? && items == [res.v] + items'
  }

  /** The sequential meaning of the atomic deque is exactly this. */
  lemma ApplyIffMeets<T>(c: Content<T>, op: Op<T>, res: Result<T>, c': Content<T>)
    ensures Apply(c, op, res) == Some(c') <==> Meets(op, res, c.items, c.stop, c'.items, c'.stop)
  {
    if c.items != [] {
      assert c.items == [c.items[0]] + c.items[1..];
      assert c.items == c.items[..|c.items| - 1] + [c.items[|c.items| - 1]];
    }
    if res.Got? {
      assert c.items == [res.v] + c'.items ==> c.items[0] == res.v && c.items[1..] == c'.items;
      assert c.items == c'.items + [res.v] ==>
               c.items[|c.items| - 1] == res.v && c.items[..|c.items| - 1] == c'.items;
    }
  }

  // ---------------------------------------------------------------- the instant of effect

  /** A pending operation of the abstract machine stays pending or takes effect, with the answer it then keeps. */
  lemma PendingMoves<T(!new)>(a: Machine<T>, a': Machine<T>, t: Thread)
    requires D.Next(a, a') && t in a.threads && a.threads[t].Pending?
    ensures t in a'.threads
    ensures a'.threads[t] == a.threads[t] ||
            (a'.threads[t].Done? && a'.threads[t].op == a.threads[t].op
             && Apply(a.content, a.threads[t].op, a'.threads[t].res) == Some(a'.content))
  {
  }

  lemma DoneMoves<T(!new)>(a: Machine<T>, a': Machine<T>, t: Thread)
    requires D.Next(a, a') && t in a.threads && a.threads[t].Done?
    ensures t in a'.threads && (a'.threads[t] == a.threads[t] || a'.threads[t].Idle?)
  {
  }

  /** The one instant at which an operation pending in state `i` and done in state `n` takes effect. */
  lemma {:induction false} EffectBetween<T(!new)>(ar: seq<Machine<T>>, i: nat, n: nat, t: Thread) returns (j: nat)
    requires D.IsRun(ar) && i < n < |ar| && t in ar[i].threads && ar[i].threads[t].Pending?
    requires forall m | i <= m <= n :: t in ar[m].threads && !ar[m].threads[t].Idle?
    requires ar[n].threads[t].Done?
    ensures i <= j < n && ar[n].threads[t].op == ar[i].threads[t].op
    ensures Apply(ar[j].content, ar[i].threads[t].op, ar[n].threads[t].res) == Some(ar[j + 1].content)
    decreases n - i
  {
    assert D.Next(ar[n - 1], ar[n - 1 + 1]);
    if ar[n - 1].threads[t].Done? {
      DoneMoves(ar[n - 1], ar[n], t);
      j := EffectBetween(ar, i, n - 1, t);
    } else {
      PendingMoves(ar[n - 1], ar[n], t);
      PendingStays(ar, i, n - 1, t);
      j := n - 1;
    }
  }

  lemma {:induction false} PendingStays<T(!new)>(ar: seq<Machine<T>>, i: nat, n: nat, t: Thread)
    requires D.IsRun(ar) && i <= n < |ar| && t in ar[i].threads && ar[i].threads[t].Pending?
    requires forall m | i <= m <= n :: t in ar[m].threads && !ar[m].threads[t].Idle?
    requires ar[n].threads[t].Pending?
    ensures ar[n].threads[t] == ar[i].threads[t]
  {
    if n > i {
      assert D.Next(ar[n - 1], ar[n - 1 + 1]);
      if ar[n - 1].threads[t].Done? {
        DoneMoves(ar[n - 1], ar[n], t);
      } else {
        PendingMoves(ar[n - 1], ar[n], t);
        PendingStays(ar, i, n - 1, t);
      }
    }
  }

  lemma EntryIsPending<T(!new)>(m: Memory<T>, op: Op<T>)
    ensures Readable(m, Entry(op)) && StatusOf(m, Entry(op)) == Pending(op)
  {
  }

  /** Every answer is true at one instant between the call and the return, and it is an answer to the operation that
      was called: what is taken is the value at that end, "nothing" is said only of an empty queue (or, by the pops
      that wait, of a stopped one), and a pop that does not wait finds a value whenever there is one. */
  lemma AnswersAreTrue<T(!new)>(run: seq<State<T>>, moves: seq<Move<T>>, i: nat, n: nat, t: Thread)
    returns (j: nat, chain: Chain, chain': Chain)
    requires Follows(run, moves) && Calling(run, moves, i, n, t) && run[n].pcs[t].Return?
    ensures i < j < n && Good(run[j], chain) && Good(run[j + 1], chain')
    ensures run[n].pcs[t].op == moves[i].c.op
    ensures Meets(moves[i].c.op, run[n].pcs[t].res, Items(run[j].mem, chain), run[j].mem.stop,
                  Items(run[j + 1].mem, chain'), run[j + 1].mem.stop)
  {
    FollowsIsRun(run, moves);
    var chains, ar := RunRefines(run);
    CallStarts(run, moves, i, t, chains, ar);
    StatusesOfCall(run, moves, i, n, t, chains, ar);
    ReturnStatus(run[n], chains[n], ar[n], t);
    j := EffectBetween(ar, i + 1, n, t);
    chain, chain' := chains[j], chains[j + 1];
    EffectMeets(run[j], chain, ar[j], run[j + 1], chain', ar[j + 1], moves[i].c.op, run[n].pcs[t].res);
  }

  lemma ReturnStatus<T(!new)>(s: State<T>, chain: Chain, a: Machine<T>, t: Thread)
    requires Refines(s, chain, a) && t in s.pcs && s.pcs[t].Return?
    ensures t in a.threads && a.threads[t] == Done(s.pcs[t].op, s.pcs[t].res)
  {
  }

  lemma EffectMeets<T(!new)>(s: State<T>, chain: Chain, a: Machine<T>, s': State<T>, chain': Chain, a': Machine<T>,
                             op: Op<T>, res: Result<T>)
    requires Refines(s, chain, a) && Refines(s', chain', a') && Apply(a.content, op, res) == Some(a'.content)
    ensures Meets(op, res, Items(s.mem, chain), s.mem.stop, Items(s'.mem, chain'), s'.mem.stop)
  {
    ApplyIffMeets(a.content, op, res, a'.content);
  }

  lemma CallStarts<T(!new)>(run: seq<State<T>>, moves: seq<Move<T>>, i: nat, t: Thread,
                            chains: seq<Chain>, ar: seq<Machine<T>>)
    requires Follows(run, moves) && i < |moves| && moves[i].t == t && t in run[i].pcs && run[i].pcs[t].Ready?
    requires |chains| == |ar| == |run| && forall m | 0 <= m < |run| :: Refines(run[m], chains[m], ar[m])
    ensures t in ar[i + 1].threads && ar[i + 1].threads[t] == Pending(moves[i].c.op)
  {
    FollowsStep(run, moves, i);
    assert Refines(run[i], chains[i], ar[i]) && Refines(run[i + 1], chains[i + 1], ar[i + 1]);
    assert run[i + 1].pcs[t] == Entry(moves[i].c.op);
    EntryIsPending(run[i + 1].mem, moves[i].c.op);
  }

  lemma StatusesOfCall<T(!new)>(run: seq<State<T>>, moves: seq<Move<T>>, i: nat, n: nat, t: Thread,
                                chains: seq<Chain>, ar: seq<Machine<T>>)
    requires Calling(run, moves, i, n, t) && |chains| == |ar| == |run|
    requires forall m | 0 <= m < |run| :: Refines(run[m], chains[m], ar[m])
    ensures forall m | i < m <= n :: t in ar[m].threads && !ar[m].threads[t].Idle?
  {
    forall m | i < m <= n
      ensures t in ar[m].threads && !ar[m].threads[t].Idle?
    {
      assert Refines(run[m], chains[m], ar[m]);
      BusyIsNotIdle(run[m].mem, run[m].pcs[t]);
    }
  }

  lemma BusyIsNotIdle<T(!new)>(m: Memory<T>, pc: Pc<T>)
    requires Readable(m, pc) && !pc.Ready?
    ensures !StatusOf(m, pc).Idle?
  {
  }

  // ---------------------------------------------------------------- what a stop does

  /** Every reachable step is safe, so it is what the program does. */
  lemma StepIsDone<T(!new)>(run: seq<State<T>>, moves: seq<Move<T>>, i: nat)
    requires Follows(run, moves) && i < |moves|
    ensures Enabled(run[i], moves[i].t, moves[i].c) && Safe(run[i].mem, run[i].pcs[moves[i].t])
    ensures run[i + 1] == Do(run[i], moves[i].t, moves[i].c)
  {
    FollowsIsRun(run, moves);
    FollowsStep(run, moves, i);
    NoUnsafeStep(run, i, moves[i].t);
  }

  lemma StopStays<T(!new)>(m: Memory<T>, pc: Pc<T>, c: Choice<T>)
    requires Safe(m, pc)
    ensures m.stop ==> MemAfter(m, pc, c).stop
    ensures pc.ExitStore? ==> MemAfter(m, pc, c).stop
    ensures MemAfter(m, pc, c).stop ==> m.stop || pc.ExitStore?
  {
  }

  predicate Waits(k: Kind) {
    k.WaitPop? || k.TimedPop?
  }

  /** Where a pop of kind `k` can be that was called on a stopped queue. */
  predicate TakesNothing<T(==)>(k: Kind, pc: Pc<T>) {
    match pc
    case HeadLock(l, _) => l == k
    case TailLock(l, _) => l == k
    case TailRead(l, _) => l == k
    case TailUnlock(l, _, _) => l == k
    case Compare(l, _, _) => l == k
    case WaitStop(l, _) => l == k
    case StopCheck(l, _, _) => l == k
    case GiveUp(l, res) => l == k && res == Nothing
    case Return(op, res) => op == AtHead(k) && res == Nothing
    case _ => false
  }

  lemma StoppedStep<T(!new)>(m: Memory<T>, k: Kind, pc: Pc<T>, c: Choice<T>)
    requires Safe(m, pc) && m.stop && Waits(k) && TakesNothing(k, pc)
    ensures PcAfter(m, pc, c).Ready? || TakesNothing(k, PcAfter(m, pc, c))
  {
  }

  /** A waiting pop that is called on a stopped queue takes nothing and does not wait, whatever is in the queue: it
      never moves a value out, never advances the head, is never parked, and answers Nothing. */
  lemma {:induction false} StoppedPopTakesNothing<T(!new)>(run: seq<State<T>>, moves: seq<Move<T>>, i: nat, n: nat,
                                                           t: Thread, k: Kind)
    requires Follows(run, moves) && Calling(run, moves, i, n, t) && moves[i].c.op == AtHead(k) && Waits(k)
    requires run[i].mem.stop
    ensures run[n].mem.stop && TakesNothing(k, run[n].pcs[t])
  {
    StepIsDone(run, moves, n - 1);
    StopStays(run[n - 1].mem, run[n - 1].pcs[moves[n - 1].t], moves[n - 1].c);
    if n - 1 > i {
      StoppedPopTakesNothing(run, moves, i, n - 1, t, k);
      if moves[n - 1].t == t {
        StoppedStep(run[n - 1].mem, k, run[n - 1].pcs[t], moves[n - 1].c);
      }
    }
  }

  /** The stop flag is set exactly after some call of `Exit` has stored it, and never taken back. */
  lemma {:induction false} StoppedIffExited<T(!new)>(run: seq<State<T>>, moves: seq<Move<T>>, n: nat)
    requires Follows(run, moves) && n < |run|
    ensures run[n].mem.stop <==>
              exists i | 0 <= i < n :: moves[i].t in run[i].pcs && run[i].pcs[moves[i].t].ExitStore?
  {
    if n > 0 {
      StoppedIffExited(run, moves, n - 1);
      StepIsDone(run, moves, n - 1);
      StopStays(run[n - 1].mem, run[n - 1].pcs[moves[n - 1].t], moves[n - 1].c);
      assert moves[n - 1].t in run[n - 1].pcs;
    }
  }

  // ---------------------------------------------------------------- cells that have been moved out

  /** The step moves the value out of the cell of node `a`. */
  predicate MovesOut<T>(s: State<T>, move: Move<T>, a: Addr) {
    && move.t in s.pcs
    && match s.pcs[move.t]
       case TakeValue(_) => s.mem.head == Some(a)
       case StealValue(pn) => pn == a
       case _ => false
  }

  /** The step writes a value into it. */
  predicate Fills<T>(s: State<T>, move: Move<T>, a: Addr) {
    move.t in s.pcs && s.pcs[move.t].PushData? && s.mem.tail == a
  }

  lemma MovedOutIsEmpty<T(!new)>(run: seq<State<T>>, moves: seq<Move<T>>, i: nat, a: Addr)
    requires Follows(run, moves) && i < |moves| && MovesOut(run[i], moves[i], a)
    ensures Holds(run[i].mem, a) && !Holds(run[i + 1].mem, a)
  {
    StepIsDone(run, moves, i);
  }

  lemma EmptyStaysEmpty<T(!new)>(run: seq<State<T>>, moves: seq<Move<T>>, i: nat, a: Addr)
    requires Follows(run, moves) && i < |moves| && !Holds(run[i].mem, a) && !Fills(run[i], moves[i], a)
    ensures !Holds(run[i + 1].mem, a)
  {
    StepIsDone(run, moves, i);
  }

  lemma {:induction false} StaysMovedOut<T(!new)>(run: seq<State<T>>, moves: seq<Move<T>>, k: nat, n: nat, a: Addr)
    requires Follows(run, moves) && k < n < |run| && MovesOut(run[k], moves[k], a)
    requires forall j | k < j < n :: !Fills(run[j], moves[j], a)
    ensures !Holds(run[n].mem, a)
  {
    if n == k + 1 {
      MovedOutIsEmpty(run, moves, k, a);
    } else {
      StaysMovedOut(run, moves, k, n - 1, a);
      EmptyStaysEmpty(run, moves, n - 1, a);
    }
  }

  /** No value is moved out twice, and none is taken from the stale cell a steal leaves in the dummy: between two steps
      that move a value out of the same cell some push has written a new one there. */
  lemma MovedOutOnce<T(!new)>(run: seq<State<T>>, moves: seq<Move<T>>, k: nat, n: nat, a: Addr)
    requires Follows(run, moves) && k < n < |moves|
    requires MovesOut(run[k], moves[k], a) && MovesOut(run[n], moves[n], a)
    ensures exists j | k < j < n :: Fills(run[j], moves[j], a)
  {
    if forall j | k < j < n :: !Fills(run[j], moves[j], a) {
      StaysMovedOut(run, moves, k, n, a);
      MovedOutIsEmpty(run, moves, n, a);
    }
  }
}

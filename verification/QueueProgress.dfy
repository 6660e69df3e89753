/** Who can go on, and what a popper under the head lock may count on. */
module QueueProgress {
  import opened Options
  import opened D = AtomicDeque
  import opened P = QueueProtocol
  import opened QueueInvariant
  import opened QueueSteps
  import opened QueueRefinement
  import opened QueueTheorems

  /** Inside an operation and not asleep on the condition variable. */
  predicate Busy<T>(pc: Pc<T>) {
    !pc.Ready? && !pc.Parked?
  }

  /** Some address is always free for the allocator. */
  lemma FreshAddress<V>(heap: map<Addr, V>) returns (a: Addr)
    ensures a !in heap
  {
    a := Above(heap.Keys);
  }

  lemma {:induction false} Above(used: set<Addr>) returns (a: Addr)
    ensures forall x | x in used :: x < a
  {
    if used == {} {
      a := 0;
    } else {
      var x :| x in used;
      var b := Above(used - {x});
      a := if x < b then b else x + 1;
      forall y | y in used
        ensures y < a
      {
        assert y == x || y in used - {x};
      }
    }
  }

  /** A thread that holds the tail lock never waits; one that holds the head lock waits only for the tail. */
  lemma HoldersGoOn<T(!new)>(s: State<T>, u: Thread, c: Choice<T>)
    requires LocksOk(s) && u in s.pcs
    requires s.tailLock == Some(u) || (s.tailLock.None? && s.headLock == Some(u))
    ensures Enabled(s, u, c) && Busy(s.pcs[u])
  {
  }

  /** The two locks cannot deadlock: as long as one thread is inside an operation and not parked, some
      such thread has a step. */
  lemma NoDeadlock<T(!new)>(run: seq<State<T>>, i: nat, t: Thread) returns (u: Thread, c: Choice<T>)
    requires P.IsRun(run) && i < |run| && t in run[i].pcs && Busy(run[i].pcs[t])
    ensures Enabled(run[i], u, c) && Busy(run[i].pcs[u])
  {
    var s := run[i];
    var chains, abstractRun := RunRefines(run);
    assert Refines(s, chains[i], abstractRun[i]);
    var a := FreshAddress(s.mem.heap);
    c := Choice(Exit, a, false);
    if s.tailLock.Some? {
      u := s.tailLock.value;
      HoldersGoOn(s, u, c);
    } else if s.headLock.Some? {
      u := s.headLock.value;
      HoldersGoOn(s, u, c);
    } else {
      u := t;
    }
  }

  /** Between the test that found the queue non-empty and the step that advances the head. */
  predicate Taking<T>(pc: Pc<T>) {
    (pc.StopCheck? && !pc.viaStop) || pc.TakeValue? || pc.Detach? || pc.Advance?
  }

  /** A popper that holds only the head lock and has seen `head != get_tail()` keeps a non-empty queue: in
      every reachable state the front node is not the tail, so no pop runs on an empty list, and
      whatever another thread does, the front node stays the front and its fields stay as they are. */
  lemma FrontIsStable<T(!new)>(run: seq<State<T>>, i: nat, t: Thread, u: Thread, c: Choice<T>, s': State<T>)
    returns (chain: Chain, chain': Chain)
    requires P.IsRun(run) && i < |run| && t in run[i].pcs && Taking(run[i].pcs[t])
    requires u != t && Step(run[i], u, c, s')
    ensures Good(run[i], chain) && Good(s', chain') && s'.pcs[t] == run[i].pcs[t]
    ensures Items(run[i].mem, chain) != [] && chain[0] != run[i].mem.tail
    ensures Items(s'.mem, chain') != [] && chain'[0] != s'.mem.tail
    ensures chain'[0] == chain[0] && s'.mem.heap[chain[0]] == run[i].mem.heap[chain[0]]
  {
    var s := run[i];
    var chains, abstractRun := RunRefines(run);
    assert Refines(s, chains[i], abstractRun[i]);
    chain := chains[i];
    chain' := ChainAfter(s.pcs[u], chain);
    StepKeepsGood(s, u, c, s', chain);
    GoodIsTaking(s, chain, t);
    FrontSurvives(s, chain, t, u, c, s');
    GoodIsTaking(s', chain', t);
  }

  lemma GoodIsTaking<T(!new)>(s: State<T>, chain: Chain, t: Thread)
    requires Good(s, chain) && t in s.pcs && Taking(s.pcs[t])
    ensures Items(s.mem, chain) != [] && chain[0] != s.mem.tail
  {
    assert LocalOk(s.mem, chain, s.pcs[t]);
  }

  lemma FrontSurvives<T(!new)>(s: State<T>, chain: Chain, t: Thread, u: Thread, c: Choice<T>, s': State<T>)
    requires Good(s, chain) && t in s.pcs && Taking(s.pcs[t]) && u != t && Step(s, u, c, s')
    requires Safe(s.mem, s.pcs[u]) && Good(s', ChainAfter(s.pcs[u], chain))
    ensures s'.pcs[t] == s.pcs[t]
    ensures ChainAfter(s.pcs[u], chain)[0] == chain[0] && s'.mem.heap[chain[0]] == s.mem.heap[chain[0]]
  {
    StepMoves(s, u, c);
    GoodAssumes(s, u, s', chain);
    AnyStep(s.mem, chain, s.pcs[u], PcOf(s.pcs, s.headLock), PcOf(s.pcs, s.tailLock), c);
    OthersUndisturbed(s, u, s'.mem, chain, ChainAfter(s.pcs[u], chain), t);
    GoodIsTaking(s, chain, t);
  }
}

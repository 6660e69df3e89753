/** What holds of the concurrent queue in every run, for any number of threads and any interleaving. */
module QueueTheorems {
  import opened Options
  import opened D = AtomicDeque
  import opened P = QueueProtocol
  import opened QueueInvariant
  import opened QueueSteps
  import opened QueueRefinement

  // ---------------------------------------------------------------- refinement of the atomic deque

  ghost predicate Refines<T(!new)>(s: State<T>, chain: Chain, a: Machine<T>) {
    && Good(s, chain)
    && a.content == ContentOf(s.mem, chain)
    && a.threads.Keys == s.pcs.Keys
    && forall t | t in s.pcs :: Readable(s.mem, s.pcs[t]) && a.threads[t] == StatusOf(s.mem, s.pcs[t])
  }

  lemma OthersKeepStatus<T(!new)>(s: State<T>, t: Thread, c: Choice<T>, s': State<T>, chain: Chain, a: Machine<T>,
                                  u: Thread)
    requires Refines(s, chain, a) && Step(s, t, c, s') && u in s.pcs && u != t
    requires Safe(s.mem, s.pcs[t]) && Good(s', ChainAfter(s.pcs[t], chain))
    ensures s'.pcs[u] == s.pcs[u]
    ensures Readable(s'.mem, s.pcs[u]) && StatusOf(s'.mem, s.pcs[u]) == StatusOf(s.mem, s.pcs[u])
  {
    var chain' := ChainAfter(s.pcs[t], chain);
    StepMoves(s, t, c);
    GoodAssumes(s, t, s', chain);
    AnyStep(s.mem, chain, s.pcs[t], PcOf(s.pcs, s.headLock), PcOf(s.pcs, s.tailLock), c);
    assert LocalOk(s.mem, chain, s.pcs[u]);
    OthersUndisturbed(s, t, s'.mem, chain, chain', u);
    UndisturbedStatus(s.mem, chain, s'.mem, chain', s.pcs[u]);
  }

  lemma StatusesFollow<T(!new)>(s: State<T>, t: Thread, c: Choice<T>, s': State<T>, chain: Chain, a: Machine<T>)
    requires Refines(s, chain, a) && Step(s, t, c, s')
    requires Safe(s.mem, s.pcs[t]) && Good(s', ChainAfter(s.pcs[t], chain))
    requires Readable(s'.mem, s'.pcs[t])
    ensures forall u | u in s'.pcs ::
              Readable(s'.mem, s'.pcs[u]) &&
              a.threads[t := StatusOf(s'.mem, s'.pcs[t])][u] == StatusOf(s'.mem, s'.pcs[u])
  {
    forall u | u in s'.pcs && u != t
      ensures Readable(s'.mem, s'.pcs[u]) && a.threads[u] == StatusOf(s'.mem, s'.pcs[u])
    {
      OthersKeepStatus(s, t, c, s', chain, a, u);
    }
  }

  lemma OwnStatus<T(!new)>(s: State<T>, t: Thread, c: Choice<T>, s': State<T>, chain: Chain)
    requires Good(s, chain) && Step(s, t, c, s')
    requires Safe(s.mem, s.pcs[t]) && Good(s', ChainAfter(s.pcs[t], chain))
    ensures s'.pcs[t] == PcAfter(s.mem, s.pcs[t], c) && s'.mem == MemAfter(s.mem, s.pcs[t], c)
    ensures MoveOk(s.mem, chain, s.pcs[t], c)
  {
    StepMoves(s, t, c);
    GoodAssumes(s, t, s', chain);
    AnyStep(s.mem, chain, s.pcs[t], PcOf(s.pcs, s.headLock), PcOf(s.pcs, s.tailLock), c);
    OwnMove(s.mem, chain, s.pcs[t], PcOf(s.pcs, s.headLock), PcOf(s.pcs, s.tailLock), c);
  }

  /** The abstract machine after a step that takes thread `t` to status `st'` and the content to `b'`. */
  ghost function AbstractAfter<T(!new)>(a: Machine<T>, t: Thread, b': Content<T>, st': Status<T>): Machine<T>
    requires t in a.threads
  {
    var st := a.threads[t];
    if st.Pending? && st'.Done? then Machine(b', a.threads[t := st'], a.hist + [Event(t, st.op, st'.res)])
    else if b' == a.content && st' == st then a
    else a.(threads := a.threads[t := st'])
  }

  lemma AbstractMoveIsNext<T(!new)>(a: Machine<T>, t: Thread, op: Op<T>, b': Content<T>, st': Status<T>)
    requires t in a.threads && AbstractMove(op, a.content, a.threads[t], b', st')
    ensures D.Next(a, AbstractAfter(a, t, b', st'))
    ensures AbstractAfter(a, t, b', st').content == b'
    ensures AbstractAfter(a, t, b', st').threads == a.threads[t := st']
  {
    var st, a' := a.threads[t], AbstractAfter(a, t, b', st');
    if b' == a.content && st' == st {
      assert a.threads[t := st'] == a.threads;
    } else if st.Idle? {
      assert Invoke(a, t, op, a');
    } else if st.Done? {
      assert Respond(a, t, a');
    } else {
      assert Linearize(a, t, st'.res, a');
    }
  }

  lemma OwnAbstractStep<T(!new)>(s: State<T>, t: Thread, c: Choice<T>, s': State<T>, chain: Chain, a: Machine<T>)
    returns (a': Machine<T>)
    requires Refines(s, chain, a) && Step(s, t, c, s')
    requires Safe(s.mem, s.pcs[t]) && Good(s', ChainAfter(s.pcs[t], chain))
    ensures D.Next(a, a') && a'.content == ContentOf(s'.mem, ChainAfter(s.pcs[t], chain))
    ensures Readable(s'.mem, s'.pcs[t]) && a'.threads == a.threads[t := StatusOf(s'.mem, s'.pcs[t])]
    ensures s'.pcs.Keys == s.pcs.Keys
  {
    OwnStatus(s, t, c, s', chain);
    var b', st' := ContentOf(s'.mem, ChainAfter(s.pcs[t], chain)), StatusOf(s'.mem, s'.pcs[t]);
    AbstractMoveIsNext(a, t, c.op, b', st');
    a' := AbstractAfter(a, t, b', st');
  }

  /** One step of one thread is one step of the atomic deque, or none. */
  lemma StepRefines<T(!new)>(s: State<T>, t: Thread, c: Choice<T>, s': State<T>, chain: Chain, a: Machine<T>)
    returns (a': Machine<T>)
    requires Refines(s, chain, a) && Step(s, t, c, s')
    ensures Refines(s', ChainAfter(s.pcs[t], chain), a') && D.Next(a, a')
  {
    StepKeepsGood(s, t, c, s', chain);
    a' := OwnAbstractStep(s, t, c, s', chain, a);
    StatusesFollow(s, t, c, s', chain, a);
  }

  /** The first `n` states of a run, side by side with a run of the atomic deque. */
  ghost predicate Tracks<T(!new)>(run: seq<State<T>>, n: nat, chains: seq<Chain>, abstractRun: seq<Machine<T>>) {
    && 1 <= n <= |run| && |chains| == |abstractRun| == n
    && D.IsRun(abstractRun)
    && forall i | 0 <= i < n :: Refines(run[i], chains[i], abstractRun[i])
  }

  lemma ExtendRun<T(!new)>(abstractRun: seq<Machine<T>>, a: Machine<T>)
    requires D.IsRun(abstractRun) && D.Next(abstractRun[|abstractRun| - 1], a)
    ensures D.IsRun(abstractRun + [a])
  {
    var longer := abstractRun + [a];
    forall i | 0 <= i < |longer| - 1
      ensures D.Next(longer[i], longer[i + 1])
    {
      if i < |abstractRun| - 1 {
        assert D.Next(abstractRun[i], abstractRun[i + 1]);
      }
    }
    assert longer[0] == abstractRun[0];
  }

  lemma ExtendTrack<T(!new)>(run: seq<State<T>>, n: nat, chains: seq<Chain>, abstractRun: seq<Machine<T>>,
                             chain: Chain, a: Machine<T>)
    requires Tracks(run, n, chains, abstractRun) && n < |run|
    requires Refines(run[n], chain, a) && D.Next(abstractRun[n - 1], a)
    ensures Tracks(run, n + 1, chains + [chain], abstractRun + [a])
  {
    ExtendRun(abstractRun, a);
  }

  lemma StartTrack<T(!new)>(run: seq<State<T>>) returns (chains: seq<Chain>, abstractRun: seq<Machine<T>>)
    requires P.IsRun(run)
    ensures Tracks(run, 1, chains, abstractRun)
  {
    var dummy: Addr :| run[0].mem == Memory(map[dummy := Node(Null, None, None)], Some(dummy), dummy, false);
    var threads := map t | t in run[0].pcs :: Status<T>.Idle;
    chains, abstractRun := [[dummy]], [Machine(Content([], false), threads, [])];
    InitRefines(run[0], dummy, abstractRun[0]);
  }

  lemma {:induction false} TrackRun<T(!new)>(run: seq<State<T>>, n: nat)
    returns (chains: seq<Chain>, abstractRun: seq<Machine<T>>)
    requires P.IsRun(run) && 1 <= n <= |run|
    ensures Tracks(run, n, chains, abstractRun)
  {
    if n == 1 {
      chains, abstractRun := StartTrack(run);
    } else {
      chains, abstractRun := TrackRun(run, n - 1);
      assert P.Next(run[n - 2], run[n - 2 + 1]);
      var t, c :| Step(run[n - 2], t, c, run[n - 1]);
      var a' := StepRefines(run[n - 2], t, c, run[n - 1], chains[n - 2], abstractRun[n - 2]);
      var chain := ChainAfter(run[n - 2].pcs[t], chains[n - 2]);
      ExtendTrack(run, n - 1, chains, abstractRun, chain, a');
      chains, abstractRun := chains + [chain], abstractRun + [a'];
    }
  }

  /** The queue is linearizable: along every run there is a run of the atomic deque in which each
      operation takes effect at one instant between its call and its return, with the same answer. */
  lemma RunRefines<T(!new)>(run: seq<State<T>>) returns (chains: seq<Chain>, abstractRun: seq<Machine<T>>)
    requires P.IsRun(run)
    ensures |chains| == |abstractRun| == |run| && D.IsRun(abstractRun)
    ensures forall i | 0 <= i < |run| :: Refines(run[i], chains[i], abstractRun[i])
  {
    chains, abstractRun := TrackRun(run, |run|);
  }

  lemma InitRefines<T(!new)>(s: State<T>, dummy: Addr, a: Machine<T>)
    requires P.Init(s) && s.mem == Memory(map[dummy := Node(Null, None, None)], Some(dummy), dummy, false)
    requires a.content == Content([], false)
    requires a.threads.Keys == s.pcs.Keys && forall t | t in a.threads :: a.threads[t] == Idle
    ensures Refines(s, [dummy], a)
  {
    assert Items(s.mem, [dummy]) == [];
  }

  /** Every run is explained: its abstract run answers each call as it does, and the history of that abstract run
      leaves behind the values in the live nodes, with nothing lost, duplicated or made up. */
  lemma RunIsExplained<T(!new)>(run: seq<State<T>>) returns (chains: seq<Chain>, abstractRun: seq<Machine<T>>)
    requires P.IsRun(run)
    ensures |chains| == |abstractRun| == |run| && D.IsRun(abstractRun)
    ensures forall i | 0 <= i < |run| :: Refines(run[i], chains[i], abstractRun[i])
    ensures forall i | 0 <= i < |run| :: HistoryBalances(run[i].mem, chains[i], abstractRun[i].hist)
  {
    chains, abstractRun := RunRefines(run);
    RunsAreExplained(abstractRun);
    forall i | 0 <= i < |run|
      ensures HistoryBalances(run[i].mem, chains[i], abstractRun[i].hist)
    {
      assert Refines(run[i], chains[i], abstractRun[i]) && Explained(abstractRun[i]);
      Conservation(abstractRun[i].hist);
      if Stolen(abstractRun[i].hist) == [] {
        FirstInFirstOut(abstractRun[i].hist);
      }
    }
  }

  ghost predicate HistoryBalances<T(!new)>(m: Memory<T>, chain: Chain, hist: seq<Event<T>>) {
    && ChainOk(m, chain)
    && Replay(hist) == Some(ContentOf(m, chain))
    && multiset(Pushed(hist)) == multiset(Popped(hist)) + multiset(Stolen(hist)) + multiset(Items(m, chain))
    && (Stolen(hist) == [] ==> Pushed(hist) == Popped(hist) + Items(m, chain))
  }

  // ---------------------------------------------------------------- the shape of the list

  /** The node reached from `a` by following `next` (or `prev`) `n` times, if there is one. */
  function Walk<T>(m: Memory<T>, a: Addr, n: nat, forward: bool): Option<Addr>
    decreases n
  {
    if n == 0 then Some(a)
    else if a !in m.heap then None
    else
      var following := if forward then m.heap[a].next else m.heap[a].prev;
      if following.None? then None else Walk(m, following.value, n - 1, forward)
  }

  lemma {:induction false} WalkForward<T(!new)>(m: Memory<T>, chain: Chain, i: nat, n: nat)
    requires ChainOk(m, chain) && i + n < |chain|
    ensures Walk(m, chain[i], n, true) == Some(chain[i + n])
    decreases n
  {
    if n > 0 {
      WalkForward(m, chain, i + 1, n - 1);
    }
  }

  lemma {:induction false} WalkBackward<T(!new)>(m: Memory<T>, chain: Chain, i: nat, n: nat)
    requires ChainOk(m, chain) && n <= i < |chain|
    ensures Walk(m, chain[i], n, false) == Some(chain[i - n])
    decreases n
  {
    if n > 0 {
      assert m.heap[chain[i]].prev == Some(chain[i - 1]);
      WalkBackward(m, chain, i - 1, n - 1);
    }
  }

  /** In every reachable state `next` leads from the front node to the tail without repetition, and `prev` leads
      back from the tail to the front node; only `prev` of the front node may dangle, and no walk needs it. */
  lemma ListIsWellLinked<T(!new)>(run: seq<State<T>>, i: nat) returns (chain: Chain)
    requires P.IsRun(run) && i < |run|
    ensures Good(run[i], chain) && run[i].mem.tail == chain[|chain| - 1]
    ensures run[i].mem.head.Some? ==> run[i].mem.head.value == chain[0]
    ensures forall j, k | 0 <= j < k < |chain| :: chain[j] != chain[k]
    ensures forall k | 0 <= k < |chain| :: Walk(run[i].mem, chain[0], k, true) == Some(chain[k])
    ensures forall k | 0 <= k < |chain| :: Walk(run[i].mem, run[i].mem.tail, k, false) == Some(chain[|chain| - 1 - k])
  {
    var chains, abstractRun := RunRefines(run);
    assert Refines(run[i], chains[i], abstractRun[i]);
    chain := chains[i];
    forall k | 0 <= k < |chain|
      ensures Walk(run[i].mem, chain[0], k, true) == Some(chain[k])
    {
      WalkForward(run[i].mem, chain, 0, k);
    }
    forall k | 0 <= k < |chain|
      ensures Walk(run[i].mem, run[i].mem.tail, k, false) == Some(chain[|chain| - 1 - k])
    {
      WalkBackward(run[i].mem, chain, |chain| - 1, k);
    }
  }

  // ---------------------------------------------------------------- memory safety

  /** No thread ever touches a freed node, reads an empty or moved-out cell, advances past the end of the
      list, follows a dangling `prev`, or frees a node that still owns another. */
  lemma NoUnsafeStep<T(!new)>(run: seq<State<T>>, i: nat, t: Thread)
    requires P.IsRun(run) && i < |run| && t in run[i].pcs
    ensures Safe(run[i].mem, run[i].pcs[t])
  {
    var chains, abstractRun := RunRefines(run);
    assert Refines(run[i], chains[i], abstractRun[i]);
    GoodIsSafe(run[i], chains[i], t);
  }
}

/** The element counter, which lags behind the list, and the ownership of every allocated node. */
module QueueCounter {
  import opened Options
  import opened Sets
  import opened P = QueueProtocol
  import opened QueueInvariant
  import opened QueueSteps
  import opened QueueRefinement

  /** A push whose node is in the list but not yet counted. */
  predicate NotYetAdded<T>(pc: Pc<T>) {
    pc.PushUnlock? || pc.PushCount?
  }

  /** A removal that has happened but is not yet subtracted. */
  predicate NotYetSubtracted<T>(pc: Pc<T>) {
    pc.PopCount? || pc.StealCut? || pc.StealCount?
  }

  function Adding<T>(pcs: map<Thread, Pc<T>>): set<Thread> {
    set t | t in pcs && NotYetAdded(pcs[t])
  }

  function Subtracting<T>(pcs: map<Thread, Pc<T>>): set<Thread> {
    set t | t in pcs && NotYetSubtracted(pcs[t])
  }

  /** What the counter stands for: the length, less the pushes not yet added, plus the removals not yet
      subtracted. */
  function Counted<T>(pcs: map<Thread, Pc<T>>, length: int): int {
    length - |Adding(pcs)| + |Subtracting(pcs)|
  }

  ghost predicate CountOk<T(!new)>(s: State<T>, chain: Chain) {
    s.count == Wrap32(Counted(s.pcs, |chain| - 1))
  }

  /** Every allocated node is in the list or belongs to a thread. */
  ghost predicate NoLeak<T(!new)>(s: State<T>, chain: Chain) {
    forall a | a in s.mem.heap :: a in chain || exists t :: t in s.pcs && Owned(s.pcs[t]) == Some(a)
  }

  lemma AddingAfter<T(!new)>(pcs: map<Thread, Pc<T>>, t: Thread, pc': Pc<T>)
    requires t in pcs
    ensures |Adding(pcs[t := pc'])| == |Adding(pcs)| + One(NotYetAdded(pc')) - One(NotYetAdded(pcs[t]))
  {
    SizeAfter(Adding(pcs), Adding(pcs[t := pc']), t);
  }

  lemma SubtractingAfter<T(!new)>(pcs: map<Thread, Pc<T>>, t: Thread, pc': Pc<T>)
    requires t in pcs
    ensures |Subtracting(pcs[t := pc'])| ==
            |Subtracting(pcs)| + One(NotYetSubtracted(pc')) - One(NotYetSubtracted(pcs[t]))
  {
    SizeAfter(Subtracting(pcs), Subtracting(pcs[t := pc']), t);
  }

  lemma CountMoves<T(!new)>(m: Memory<T>, pc: Pc<T>, c: Choice<T>, chain: Chain, count: int, x: int)
    requires Safe(m, pc) && |chain| > 0 && count == Wrap32(x)
    ensures var pc' := PcAfter(m, pc, c);
            CountAfter(count, pc) ==
            Wrap32(x + |ChainAfter(pc, chain)| - |chain|
                   - One(NotYetAdded(pc')) + One(NotYetAdded(pc))
                   + One(NotYetSubtracted(pc')) - One(NotYetSubtracted(pc)))
  {
    WrapSteps(x);
  }

  lemma CountedAfter<T(!new)>(pcs: map<Thread, Pc<T>>, t: Thread, pc': Pc<T>, length: int, length': int)
    requires t in pcs
    ensures Counted(pcs[t := pc'], length') ==
            Counted(pcs, length) + length' - length
            - One(NotYetAdded(pc')) + One(NotYetAdded(pcs[t]))
            + One(NotYetSubtracted(pc')) - One(NotYetSubtracted(pcs[t]))
  {
    AddingAfter(pcs, t, pc');
    SubtractingAfter(pcs, t, pc');
  }

  lemma CountFollows<T(!new)>(m: Memory<T>, pcs: map<Thread, Pc<T>>, t: Thread, c: Choice<T>, chain: Chain, count: int)
    requires t in pcs && Safe(m, pcs[t]) && |chain| > 0 && count == Wrap32(Counted(pcs, |chain| - 1))
    ensures CountAfter(count, pcs[t]) ==
            Wrap32(Counted(pcs[t := PcAfter(m, pcs[t], c)], |ChainAfter(pcs[t], chain)| - 1))
  {
    CountedAfter(pcs, t, PcAfter(m, pcs[t], c), |chain| - 1, |ChainAfter(pcs[t], chain)| - 1);
    CountMoves(m, pcs[t], c, chain, count, Counted(pcs, |chain| - 1));
  }

  lemma StepKeepsCount<T(!new)>(s: State<T>, t: Thread, c: Choice<T>, s': State<T>, chain: Chain)
    requires Good(s, chain) && Step(s, t, c, s') && Safe(s.mem, s.pcs[t]) && CountOk(s, chain)
    ensures CountOk(s', ChainAfter(s.pcs[t], chain))
  {
    CountFollows(s.mem, s.pcs, t, c, chain, s.count);
  }

  /** A node that a step allocates, or that leaves the list, is owned by the thread that makes the step. */
  ghost predicate Covers<T(!new)>(m: Memory<T>, chain: Chain, pc: Pc<T>, m': Memory<T>, chain': Chain, pc': Pc<T>) {
    forall a | a in m'.heap ::
      a in chain' || Owned(pc') == Some(a) || (a in m.heap && a !in chain && Owned(pc) != Some(a))
  }

  lemma QuietCovers<T(!new)>(m: Memory<T>, chain: Chain, pc: Pc<T>, c: Choice<T>)
    requires ChainOk(m, chain) && LocalOk(m, chain, pc) && Safe(m, pc) && Quiet(pc)
    ensures Owned(PcAfter(m, pc, c)) == Owned(pc)
  {
  }

  lemma AdvanceCovers<T(!new)>(m: Memory<T>, chain: Chain, pc: Pc<T>, c: Choice<T>)
    requires ChainOk(m, chain) && LocalOk(m, chain, pc) && Safe(m, pc) && pc.Advance?
    ensures Covers(m, chain, pc, MemAfter(m, pc, c), ChainAfter(pc, chain), PcAfter(m, pc, c))
  {
    var m', pc' := MemAfter(m, pc, c), PcAfter(m, pc, c);
    forall a | a in m'.heap && a !in chain[1..] && Owned(pc') != Some(a)
      ensures a in m.heap && a !in chain && Owned(pc) != Some(a)
    {
      assert chain == [pc.node] + chain[1..];
    }
  }

  lemma StealTailCovers<T(!new)>(m: Memory<T>, chain: Chain, pc: Pc<T>, c: Choice<T>)
    requires ChainOk(m, chain) && LocalOk(m, chain, pc) && Safe(m, pc) && pc.StealTail?
    ensures Covers(m, chain, pc, MemAfter(m, pc, c), ChainAfter(pc, chain), PcAfter(m, pc, c))
  {
    assert chain == chain[..|chain| - 1] + [m.tail];
    assert MemAfter(m, pc, c).heap == m.heap && Owned(PcAfter(m, pc, c)) == Some(m.tail);
  }

  lemma WriteCovers<T(!new)>(m: Memory<T>, chain: Chain, pc: Pc<T>, c: Choice<T>)
    requires ChainOk(m, chain) && LocalOk(m, chain, pc) && Safe(m, pc) && !Quiet(pc) && !pc.Advance? && !pc.StealTail?
    ensures Covers(m, chain, pc, MemAfter(m, pc, c), ChainAfter(pc, chain), PcAfter(m, pc, c))
  {
  }

  lemma StepCovers<T(!new)>(m: Memory<T>, chain: Chain, pc: Pc<T>, c: Choice<T>)
    requires ChainOk(m, chain) && LocalOk(m, chain, pc) && Safe(m, pc)
    ensures Covers(m, chain, pc, MemAfter(m, pc, c), ChainAfter(pc, chain), PcAfter(m, pc, c))
  {
    if Quiet(pc) {
      QuietEffect(m, chain, pc, c);
      QuietCovers(m, chain, pc, c);
    } else if pc.Advance? {
      AdvanceCovers(m, chain, pc, c);
    } else if pc.StealTail? {
      StealTailCovers(m, chain, pc, c);
    } else {
      WriteCovers(m, chain, pc, c);
    }
  }

  lemma CoveredKeepsNoLeak<T(!new)>(s: State<T>, t: Thread, s': State<T>, chain: Chain, chain': Chain)
    requires NoLeak(s, chain) && t in s.pcs && t in s'.pcs && s'.pcs == s.pcs[t := s'.pcs[t]]
    requires Covers(s.mem, chain, s.pcs[t], s'.mem, chain', s'.pcs[t])
    ensures NoLeak(s', chain')
  {
    forall a | a in s'.mem.heap && a !in chain'
      ensures exists u :: u in s'.pcs && Owned(s'.pcs[u]) == Some(a)
    {
      if Owned(s'.pcs[t]) != Some(a) {
        var u :| u in s.pcs && Owned(s.pcs[u]) == Some(a);
        assert u in s'.pcs && Owned(s'.pcs[u]) == Some(a);
      }
    }
  }

  lemma StepKeepsNoLeak<T(!new)>(s: State<T>, t: Thread, c: Choice<T>, s': State<T>, chain: Chain)
    requires Good(s, chain) && Step(s, t, c, s') && Safe(s.mem, s.pcs[t]) && NoLeak(s, chain)
    ensures NoLeak(s', ChainAfter(s.pcs[t], chain))
  {
    assert LocalOk(s.mem, chain, s.pcs[t]);
    StepCovers(s.mem, chain, s.pcs[t], c);
    CoveredKeepsNoLeak(s, t, s', chain, ChainAfter(s.pcs[t], chain));
  }

  ghost predicate Accounted<T(!new)>(s: State<T>, chain: Chain) {
    Good(s, chain) && CountOk(s, chain) && NoLeak(s, chain)
  }

  lemma StepKeepsAccounts<T(!new)>(s: State<T>, t: Thread, c: Choice<T>, s': State<T>, chain: Chain)
    requires Accounted(s, chain) && Step(s, t, c, s')
    ensures Accounted(s', ChainAfter(s.pcs[t], chain))
  {
    StepKeepsGood(s, t, c, s', chain);
    StepKeepsCount(s, t, c, s', chain);
    StepKeepsNoLeak(s, t, c, s', chain);
  }

  lemma StartsAccounted<T(!new)>(s: State<T>) returns (chain: Chain)
    requires P.Init(s)
    ensures Accounted(s, chain)
  {
    var dummy: Addr :| s.mem == Memory(map[dummy := Node(Null, None, None)], Some(dummy), dummy, false);
    chain := [dummy];
    assert Adding(s.pcs) == {} && Subtracting(s.pcs) == {};
  }

  lemma {:induction false} RunIsAccounted<T(!new)>(run: seq<State<T>>, i: nat) returns (chain: Chain)
    requires P.IsRun(run) && i < |run|
    ensures Accounted(run[i], chain)
  {
    if i == 0 {
      chain := StartsAccounted(run[0]);
    } else {
      chain := RunIsAccounted(run, i - 1);
      assert P.Next(run[i - 1], run[i - 1 + 1]);
      var t, c :| Step(run[i - 1], t, c, run[i]);
      StepKeepsAccounts(run[i - 1], t, c, run[i], chain);
      chain := ChainAfter(run[i - 1].pcs[t], chain);
    }
  }

  /** The counter may lag but never drifts: modulo 2^32 it is the length, less the pushes linked but not yet
      added, plus the removals done but not yet subtracted, and exactly so while these fit 31 bits. */
  lemma CounterLags<T(!new)>(run: seq<State<T>>, i: nat) returns (chain: Chain)
    requires P.IsRun(run) && i < |run|
    ensures Good(run[i], chain)
    ensures run[i].count == Wrap32(|Items(run[i].mem, chain)| - |Adding(run[i].pcs)| + |Subtracting(run[i].pcs)|)
    ensures |Items(run[i].mem, chain)| + |run[i].pcs| < 0x8000_0000 ==>
              && run[i].count == |Items(run[i].mem, chain)| - |Adding(run[i].pcs)| + |Subtracting(run[i].pcs)|
              && run[i].count >= -|Adding(run[i].pcs)|
  {
    chain := RunIsAccounted(run, i);
    InFlightBounded(run[i].pcs);
  }

  lemma InFlightBounded<T(!new)>(pcs: map<Thread, Pc<T>>)
    ensures |Adding(pcs)| <= |pcs| && |Subtracting(pcs)| <= |pcs|
  {
    SubsetIsNoLarger(Adding(pcs), pcs.Keys);
    SubsetIsNoLarger(Subtracting(pcs), pcs.Keys);
    assert |pcs.Keys| == |pcs|;
  }

  /** Once every operation has returned, the counter is the length, the nodes still allocated are exactly
      those of the list, and both locks are free. */
  lemma QuiescentQueue<T(!new)>(run: seq<State<T>>, i: nat) returns (chain: Chain)
    requires P.IsRun(run) && i < |run| && forall t | t in run[i].pcs :: run[i].pcs[t].Ready?
    ensures Good(run[i], chain)
    ensures run[i].count == Wrap32(|Items(run[i].mem, chain)|)
    ensures forall a :: a in run[i].mem.heap <==> a in chain
    ensures run[i].headLock.None? && run[i].tailLock.None?
  {
    chain := RunIsAccounted(run, i);
    assert Adding(run[i].pcs) == {} && Subtracting(run[i].pcs) == {};
  }
}

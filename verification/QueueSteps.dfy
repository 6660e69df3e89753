/** Every step of the queue protocol keeps the invariant, one lemma for each step that writes. */
module QueueSteps {
  import opened Options
  import opened QueueProtocol
  import opened QueueInvariant

  /** A place where neither end of the list is in an unusual shape. */
  predicate Plain<T>(pc: Pc<T>) {
    !DetachedHead(pc) && !MovedFront(pc) && TailNext(pc).None? && !pc.StealTail?
  }

  /** A step that leaves the memory as it is. */
  predicate Quiet<T>(pc: Pc<T>) {
    match pc
    case PushAlloc(_) | PushData(_, _) | PushPrev(_, _) | PushNext(_, _) | PushTail(_, _) | TakeValue(_)
       | Detach(_, _) | Advance(_, _, _) | FreeOld(_, _, _) | StealValue(_) | StealTail(_, _)
       | StealCut(_, _) | ExitStore => false
    case _ => true
  }

  lemma QuietLocal<T(!new)>(m: Memory<T>, chain: Chain, pc: Pc<T>, c: Choice<T>)
    requires ChainOk(m, chain) && LocalOk(m, chain, pc) && Safe(m, pc) && Quiet(pc)
    requires HoldsHead(pc) ==> m.head == Some(chain[0])
    requires |chain| >= 2 ==> m.heap[m.tail].prev == Some(chain[|chain| - 2])
    requires HoldsHead(pc) && |chain| >= 2 ==> !m.heap[chain[0]].data.moved
    ensures LocalOk(m, chain, PcAfter(m, pc, c))
  {
  }

  lemma QuietPlaces<T(!new)>(m: Memory<T>, pc: Pc<T>, c: Choice<T>)
    requires Safe(m, pc) && Quiet(pc)
    ensures Plain(pc) && Plain(PcAfter(m, pc, c))
    ensures Owned(PcAfter(m, pc, c)).None? || Owned(PcAfter(m, pc, c)) == Owned(pc)
  {
  }

  lemma QuietKeepsEnds<T(!new)>(m: Memory<T>, chain: Chain, pc: Pc<T>, headPc: Pc<T>, tailPc: Pc<T>, pc': Pc<T>)
    requires Assumes(m, chain, pc, headPc, tailPc, pc')
    requires Plain(pc) && Plain(pc')
    ensures EndsOk(m, chain, HolderAfter(headPc, pc', HoldsHead(pc), HoldsHead(pc')),
                   HolderAfter(tailPc, pc', HoldsTail(pc), HoldsTail(pc')))
    ensures HoldsHead(pc) && |chain| >= 2 ==> !m.heap[chain[0]].data.moved
  {
  }

  /** A step of a thread at `pc`, from a memory and a list that satisfy the invariant ... */
  ghost predicate Before<T(!new)>(m: Memory<T>, chain: Chain, pc: Pc<T>, headPc: Pc<T>, tailPc: Pc<T>, c: Choice<T>) {
    && Safe(m, pc)
    && (pc.PushAlloc? ==> c.addr !in m.heap)
    && Assumes(m, chain, pc, headPc, tailPc, PcAfter(m, pc, c))
  }

  /** ... to ones that satisfy it again. */
  ghost predicate After<T(!new)>(m: Memory<T>, chain: Chain, pc: Pc<T>, headPc: Pc<T>, tailPc: Pc<T>, c: Choice<T>)
    requires Safe(m, pc) && ChainOk(m, chain)
  {
    Establishes(m, chain, pc, headPc, tailPc, MemAfter(m, pc, c), ChainAfter(pc, chain), PcAfter(m, pc, c))
  }

  lemma QuietEffect<T(!new)>(m: Memory<T>, chain: Chain, pc: Pc<T>, c: Choice<T>)
    requires Safe(m, pc) && Quiet(pc) && |chain| > 0
    ensures MemAfter(m, pc, c) == m && ChainAfter(pc, chain) == chain
  {
  }

  lemma QuietKeeps<T(!new)>(m: Memory<T>, chain: Chain, pc: Pc<T>, headPc: Pc<T>, tailPc: Pc<T>, c: Choice<T>)
    requires Safe(m, pc) && Quiet(pc)
    requires Assumes(m, chain, pc, headPc, tailPc, PcAfter(m, pc, c))
    ensures Establishes(m, chain, pc, headPc, tailPc, m, chain, PcAfter(m, pc, c))
  {
    QuietPlaces(m, pc, c);
    QuietKeepsEnds(m, chain, pc, headPc, tailPc, PcAfter(m, pc, c));
    QuietLocal(m, chain, pc, c);
  }

  lemma QuietStep<T(!new)>(m: Memory<T>, chain: Chain, pc: Pc<T>, headPc: Pc<T>, tailPc: Pc<T>, c: Choice<T>)
    requires Before(m, chain, pc, headPc, tailPc, c) && Quiet(pc)
    ensures After(m, chain, pc, headPc, tailPc, c)
  {
    QuietEffect(m, chain, pc, c);
    QuietKeeps(m, chain, pc, headPc, tailPc, c);
  }

  /** A step that changes no node of the list and neither end. */
  ghost predicate Aside<T(!new)>(m: Memory<T>, chain: Chain, pc: Pc<T>, m': Memory<T>, pc': Pc<T>)
    requires ChainOk(m, chain)
  {
    && m'.head == m.head && m'.tail == m.tail && (m.stop ==> m'.stop)
    && (forall i | 0 <= i < |chain| :: chain[i] in m'.heap && m'.heap[chain[i]] == m.heap[chain[i]])
    && (forall a | a in m.heap :: (a in m'.heap && m'.heap[a] == m.heap[a]) || Owned(pc) == Some(a))
    && Plain(pc) && Plain(pc')
  }

  lemma AsideKeepsEnds<T(!new)>(m: Memory<T>, chain: Chain, pc: Pc<T>, headPc: Pc<T>, tailPc: Pc<T>,
                                m': Memory<T>, pc': Pc<T>)
    requires Assumes(m, chain, pc, headPc, tailPc, pc') && Aside(m, chain, pc, m', pc')
    ensures ChainOk(m', chain) && Touches(m, chain, m', chain, pc)
    ensures EndsOk(m', chain, HolderAfter(headPc, pc', HoldsHead(pc), HoldsHead(pc')),
                   HolderAfter(tailPc, pc', HoldsTail(pc), HoldsTail(pc')))
  {
    QuietKeepsEnds(m, chain, pc, headPc, tailPc, pc');
  }

  lemma AsideStep<T(!new)>(m: Memory<T>, chain: Chain, pc: Pc<T>, headPc: Pc<T>, tailPc: Pc<T>,
                           m': Memory<T>, pc': Pc<T>)
    requires Assumes(m, chain, pc, headPc, tailPc, pc') && Aside(m, chain, pc, m', pc')
    requires ChainOk(m', chain) ==> LocalOk(m', chain, pc') && OwnsAfter(m, chain, m', chain, pc, pc')
    ensures Establishes(m, chain, pc, headPc, tailPc, m', chain, pc')
  {
    AsideKeepsEnds(m, chain, pc, headPc, tailPc, m', pc');
  }

  lemma PushAllocAside<T(!new)>(m: Memory<T>, chain: Chain, pc: Pc<T>, c: Choice<T>)
    requires ChainOk(m, chain) && Safe(m, pc) && pc.PushAlloc? && c.addr !in m.heap
    ensures Aside(m, chain, pc, MemAfter(m, pc, c), PcAfter(m, pc, c)) && c.addr !in chain
  {
  }

  lemma PushAllocStep<T(!new)>(m: Memory<T>, chain: Chain, pc: Pc<T>, headPc: Pc<T>, tailPc: Pc<T>, c: Choice<T>)
    requires Before(m, chain, pc, headPc, tailPc, c) && pc.PushAlloc?
    ensures After(m, chain, pc, headPc, tailPc, c)
  {
    PushAllocAside(m, chain, pc, c);
    AsideStep(m, chain, pc, headPc, tailPc, MemAfter(m, pc, c), PcAfter(m, pc, c));
  }

  lemma PushPrevStep<T(!new)>(m: Memory<T>, chain: Chain, pc: Pc<T>, headPc: Pc<T>, tailPc: Pc<T>, c: Choice<T>)
    requires Before(m, chain, pc, headPc, tailPc, c) && pc.PushPrev?
    ensures After(m, chain, pc, headPc, tailPc, c)
  {
    var m', pc' := MemAfter(m, pc, c), PcAfter(m, pc, c);
    assert Aside(m, chain, pc, m', pc');
    AsideStep(m, chain, pc, headPc, tailPc, m', pc');
  }

  lemma FreeOldAside<T(!new)>(m: Memory<T>, chain: Chain, pc: Pc<T>, c: Choice<T>)
    requires ChainOk(m, chain) && Safe(m, pc) && pc.FreeOld? && pc.node !in chain
    ensures Aside(m, chain, pc, MemAfter(m, pc, c), PcAfter(m, pc, c))
  {
  }

  lemma FreeOldStep<T(!new)>(m: Memory<T>, chain: Chain, pc: Pc<T>, headPc: Pc<T>, tailPc: Pc<T>, c: Choice<T>)
    requires Before(m, chain, pc, headPc, tailPc, c) && pc.FreeOld?
    ensures After(m, chain, pc, headPc, tailPc, c)
  {
    FreeOldAside(m, chain, pc, c);
    AsideStep(m, chain, pc, headPc, tailPc, MemAfter(m, pc, c), PcAfter(m, pc, c));
  }

  lemma ExitStoreStep<T(!new)>(m: Memory<T>, chain: Chain, pc: Pc<T>, headPc: Pc<T>, tailPc: Pc<T>, c: Choice<T>)
    requires Before(m, chain, pc, headPc, tailPc, c) && pc.ExitStore?
    ensures After(m, chain, pc, headPc, tailPc, c)
  {
    var m', pc' := MemAfter(m, pc, c), PcAfter(m, pc, c);
    assert Aside(m, chain, pc, m', pc');
    AsideStep(m, chain, pc, headPc, tailPc, m', pc');
  }

  lemma PushDataKeepsChain<T(!new)>(m: Memory<T>, chain: Chain, pc: Pc<T>, headPc: Pc<T>, tailPc: Pc<T>, c: Choice<T>)
    requires Before(m, chain, pc, headPc, tailPc, c) && pc.PushData?
    ensures var m', pc' := MemAfter(m, pc, c), PcAfter(m, pc, c);
            && ChainOk(m', chain)
            && LocalOk(m', chain, pc')
            && Touches(m, chain, m', chain, pc)
            && OwnsAfter(m, chain, m', chain, pc, pc')
  {
  }

  lemma PushDataStep<T(!new)>(m: Memory<T>, chain: Chain, pc: Pc<T>, headPc: Pc<T>, tailPc: Pc<T>, c: Choice<T>)
    requires Before(m, chain, pc, headPc, tailPc, c) && pc.PushData?
    ensures After(m, chain, pc, headPc, tailPc, c)
  {
    PushDataKeepsChain(m, chain, pc, headPc, tailPc, c);
  }

  lemma PushNextKeepsChain<T(!new)>(m: Memory<T>, chain: Chain, pc: Pc<T>, headPc: Pc<T>, tailPc: Pc<T>, c: Choice<T>)
    requires Before(m, chain, pc, headPc, tailPc, c) && pc.PushNext?
    ensures var m', pc' := MemAfter(m, pc, c), PcAfter(m, pc, c);
            && ChainOk(m', chain)
            && LocalOk(m', chain, pc')
            && Touches(m, chain, m', chain, pc)
            && OwnsAfter(m, chain, m', chain, pc, pc')
  {
  }

  lemma PushNextStep<T(!new)>(m: Memory<T>, chain: Chain, pc: Pc<T>, headPc: Pc<T>, tailPc: Pc<T>, c: Choice<T>)
    requires Before(m, chain, pc, headPc, tailPc, c) && pc.PushNext?
    ensures After(m, chain, pc, headPc, tailPc, c)
  {
    PushNextKeepsChain(m, chain, pc, headPc, tailPc, c);
  }

  lemma PushTailKeepsChain<T(!new)>(m: Memory<T>, chain: Chain, pc: Pc<T>, headPc: Pc<T>, tailPc: Pc<T>, c: Choice<T>)
    requires Before(m, chain, pc, headPc, tailPc, c) && pc.PushTail?
    ensures var m', pc' := MemAfter(m, pc, c), PcAfter(m, pc, c);
            && ChainOk(m', chain + [pc.p])
            && LocalOk(m', chain + [pc.p], pc')
            && Touches(m, chain, m', chain + [pc.p], pc)
            && OwnsAfter(m, chain, m', chain + [pc.p], pc, pc')
  {
  }

  lemma PushTailKeepsEnds<T(!new)>(m: Memory<T>, chain: Chain, pc: Pc<T>, headPc: Pc<T>, tailPc: Pc<T>, c: Choice<T>)
    requires Safe(m, pc) && pc.PushTail?
    requires Assumes(m, chain, pc, headPc, tailPc, PcAfter(m, pc, c))
    requires ChainOk(MemAfter(m, pc, c), chain + [pc.p])
    ensures EndsOk(MemAfter(m, pc, c), chain + [pc.p], headPc, PcAfter(m, pc, c))
  {
    assert forall i | 0 <= i < |chain| :: (chain + [pc.p])[i] == chain[i];
  }

  lemma PushTailStep<T(!new)>(m: Memory<T>, chain: Chain, pc: Pc<T>, headPc: Pc<T>, tailPc: Pc<T>, c: Choice<T>)
    requires Before(m, chain, pc, headPc, tailPc, c) && pc.PushTail?
    ensures After(m, chain, pc, headPc, tailPc, c)
  {
    PushTailKeepsChain(m, chain, pc, headPc, tailPc, c);
    PushTailKeepsEnds(m, chain, pc, headPc, tailPc, c);
  }

  lemma TakeValueKeepsChain<T(!new)>(m: Memory<T>, chain: Chain, pc: Pc<T>, headPc: Pc<T>, tailPc: Pc<T>, c: Choice<T>)
    requires Before(m, chain, pc, headPc, tailPc, c) && pc.TakeValue?
    ensures var m', pc' := MemAfter(m, pc, c), PcAfter(m, pc, c);
            && ChainOk(m', chain)
            && LocalOk(m', chain, pc')
            && Touches(m, chain, m', chain, pc)
            && OwnsAfter(m, chain, m', chain, pc, pc')
  {
  }

  lemma TakeValueStep<T(!new)>(m: Memory<T>, chain: Chain, pc: Pc<T>, headPc: Pc<T>, tailPc: Pc<T>, c: Choice<T>)
    requires Before(m, chain, pc, headPc, tailPc, c) && pc.TakeValue?
    ensures After(m, chain, pc, headPc, tailPc, c)
  {
    TakeValueKeepsChain(m, chain, pc, headPc, tailPc, c);
  }

  lemma AdvanceShortens<T(!new)>(m: Memory<T>, chain: Chain, pc: Pc<T>, c: Choice<T>)
    requires ChainOk(m, chain) && LocalOk(m, chain, pc) && Safe(m, pc) && pc.Advance?
    ensures var m' := MemAfter(m, pc, c);
            && ChainOk(m', chain[1..])
            && pc.node !in chain[1..]
            && (forall a | a in m.heap && a != pc.node :: a in m'.heap && m'.heap[a] == m.heap[a])
  {
  }

  lemma AdvanceKeepsChain<T(!new)>(m: Memory<T>, chain: Chain, pc: Pc<T>, headPc: Pc<T>, tailPc: Pc<T>, c: Choice<T>)
    requires Safe(m, pc) && pc.Advance?
    requires Assumes(m, chain, pc, headPc, tailPc, PcAfter(m, pc, c))
    ensures var m', pc' := MemAfter(m, pc, c), PcAfter(m, pc, c);
            && ChainOk(m', chain[1..])
            && LocalOk(m', chain[1..], pc')
            && Touches(m, chain, m', chain[1..], pc)
            && OwnsAfter(m, chain, m', chain[1..], pc, pc')
  {
    AdvanceShortens(m, chain, pc, c);
  }

  lemma AdvanceKeepsEnds<T(!new)>(m: Memory<T>, chain: Chain, pc: Pc<T>, headPc: Pc<T>, tailPc: Pc<T>, c: Choice<T>)
    requires Safe(m, pc) && pc.Advance?
    requires Assumes(m, chain, pc, headPc, tailPc, PcAfter(m, pc, c))
    requires ChainOk(MemAfter(m, pc, c), chain[1..])
    ensures EndsOk(MemAfter(m, pc, c), chain[1..], PcAfter(m, pc, c), tailPc)
  {
    assert m.heap[chain[0]].next == Some(chain[1]);
  }

  lemma AdvanceStep<T(!new)>(m: Memory<T>, chain: Chain, pc: Pc<T>, headPc: Pc<T>, tailPc: Pc<T>, c: Choice<T>)
    requires Before(m, chain, pc, headPc, tailPc, c) && pc.Advance?
    ensures After(m, chain, pc, headPc, tailPc, c)
  {
    AdvanceKeepsChain(m, chain, pc, headPc, tailPc, c);
    AdvanceKeepsEnds(m, chain, pc, headPc, tailPc, c);
  }

  lemma DetachStep<T(!new)>(m: Memory<T>, chain: Chain, pc: Pc<T>, headPc: Pc<T>, tailPc: Pc<T>, c: Choice<T>)
    requires Before(m, chain, pc, headPc, tailPc, c) && pc.Detach?
    ensures After(m, chain, pc, headPc, tailPc, c)
  {
  }

  lemma StealValueStep<T(!new)>(m: Memory<T>, chain: Chain, pc: Pc<T>, headPc: Pc<T>, tailPc: Pc<T>, c: Choice<T>)
    requires Before(m, chain, pc, headPc, tailPc, c) && pc.StealValue?
    ensures After(m, chain, pc, headPc, tailPc, c)
  {
  }

  lemma StealTailStep<T(!new)>(m: Memory<T>, chain: Chain, pc: Pc<T>, headPc: Pc<T>, tailPc: Pc<T>, c: Choice<T>)
    requires Before(m, chain, pc, headPc, tailPc, c) && pc.StealTail?
    ensures After(m, chain, pc, headPc, tailPc, c)
  {
  }

  lemma StealCutKeepsChain<T(!new)>(m: Memory<T>, chain: Chain, pc: Pc<T>, headPc: Pc<T>, tailPc: Pc<T>, c: Choice<T>)
    requires Safe(m, pc) && pc.StealCut?
    requires Assumes(m, chain, pc, headPc, tailPc, PcAfter(m, pc, c))
    ensures ChainOk(MemAfter(m, pc, c), chain) && Touches(m, chain, MemAfter(m, pc, c), chain, pc)
  {
  }

  lemma StealCutStep<T(!new)>(m: Memory<T>, chain: Chain, pc: Pc<T>, headPc: Pc<T>, tailPc: Pc<T>, c: Choice<T>)
    requires Before(m, chain, pc, headPc, tailPc, c) && pc.StealCut?
    ensures After(m, chain, pc, headPc, tailPc, c)
  {
    StealCutKeepsChain(m, chain, pc, headPc, tailPc, c);
  }

  /** Whatever the step, what it establishes is what the invariant needs. */
  lemma AnyStep<T(!new)>(m: Memory<T>, chain: Chain, pc: Pc<T>, headPc: Pc<T>, tailPc: Pc<T>, c: Choice<T>)
    requires Before(m, chain, pc, headPc, tailPc, c)
    ensures After(m, chain, pc, headPc, tailPc, c)
  {
    match pc
    case PushAlloc(_) => PushAllocStep(m, chain, pc, headPc, tailPc, c);
    case PushData(_, _) => PushDataStep(m, chain, pc, headPc, tailPc, c);
    case PushPrev(_, _) => PushPrevStep(m, chain, pc, headPc, tailPc, c);
    case PushNext(_, _) => PushNextStep(m, chain, pc, headPc, tailPc, c);
    case PushTail(_, _) => PushTailStep(m, chain, pc, headPc, tailPc, c);
    case TakeValue(_) => TakeValueStep(m, chain, pc, headPc, tailPc, c);
    case Detach(_, _) => DetachStep(m, chain, pc, headPc, tailPc, c);
    case Advance(_, _, _) => AdvanceStep(m, chain, pc, headPc, tailPc, c);
    case FreeOld(_, _, _) => FreeOldStep(m, chain, pc, headPc, tailPc, c);
    case StealValue(_) => StealValueStep(m, chain, pc, headPc, tailPc, c);
    case StealTail(_, _) => StealTailStep(m, chain, pc, headPc, tailPc, c);
    case StealCut(_, _) => StealCutStep(m, chain, pc, headPc, tailPc, c);
    case ExitStore => ExitStoreStep(m, chain, pc, headPc, tailPc, c);
    case _ => QuietStep(m, chain, pc, headPc, tailPc, c);
  }

  /** The invariant holds again after every step of every thread. */
  lemma StepKeepsGood<T(!new)>(s: State<T>, t: Thread, c: Choice<T>, s': State<T>, chain: Chain)
    requires Good(s, chain) && Step(s, t, c, s')
    ensures Safe(s.mem, s.pcs[t])
    ensures Good(s', ChainAfter(s.pcs[t], chain))
  {
    GoodIsSafe(s, chain, t);
    StepMoves(s, t, c);
    GoodAssumes(s, t, s', chain);
    AnyStep(s.mem, chain, s.pcs[t], PcOf(s.pcs, s.headLock), PcOf(s.pcs, s.tailLock), c);
    Rebuild(s, t, s', chain, ChainAfter(s.pcs[t], chain));
  }
}

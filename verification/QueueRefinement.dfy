/** Every step of the queue protocol is a step of the atomic deque, or no step of it at all.

    A push takes effect when it moves the tail, a pop when it advances the head, a steal when it moves
    the tail back, and an answer "empty" when the tail is read under its lock and is the head. */
module QueueRefinement {
  import opened Options
  import opened D = AtomicDeque
  import opened QueueProtocol
  import opened QueueInvariant
  import opened QueueSteps

  /** The values in the live nodes, front to back. */
  ghost function Items<T(!new)>(m: Memory<T>, chain: Chain): (items: seq<T>)
    requires ChainOk(m, chain)
    ensures |items| == |chain| - 1
    ensures forall i | 0 <= i < |items| :: items[i] == m.heap[chain[i]].data.v
  {
    seq(|chain| - 1, i requires 0 <= i < |chain| - 1 => m.heap[chain[i]].data.v)
  }

  ghost function ContentOf<T(!new)>(m: Memory<T>, chain: Chain): Content<T>
    requires ChainOk(m, chain)
  {
    Content(Items(m, chain), m.stop)
  }

  /** The answer that reading the tail settles, if it settles one. */
  function Settled<T>(k: Kind, late: bool, isEmpty: bool): Option<Result<T>> {
    match k
    case IsEmpty => Some(Answer(isEmpty))
    case TryPop(_) => if isEmpty then Some(Nothing) else None
    case WaitPop(_) => None
    case TimedPop => if isEmpty && late then Some(Nothing) else None
  }

  /** How far the abstract operation of a thread at `pc` has come. */
  ghost function StatusOf<T(!new)>(m: Memory<T>, pc: Pc<T>): Status<T>
    requires Readable(m, pc)
  {
    match pc
    case Ready => Idle
    case PushAlloc(v) => Pending(Push(v))
    case PushLock(v, _) => Pending(Push(v))
    case PushData(v, _) => Pending(Push(v))
    case PushPrev(v, _) => Pending(Push(v))
    case PushNext(v, _) => Pending(Push(v))
    case PushTail(v, _) => Pending(Push(v))
    case PushUnlock(v) => Done(Push(v), Unit)
    case PushCount(v) => Done(Push(v), Unit)
    case TailUnlock(k, late, seen) => SettledStatus(k, Settled(k, late, m.head == Some(seen)))
    case Compare(k, late, seen) => SettledStatus(k, Settled(k, late, m.head == Some(seen)))
    case HeadLock(k, _) => Pending(AtHead(k))
    case TailLock(k, _) => Pending(AtHead(k))
    case TailRead(k, _) => Pending(AtHead(k))
    case Parked(k) => Pending(AtHead(k))
    case WaitStop(k, late) => SettledStatus(k, Settled(k, late, true))
    case StopCheck(k, late, viaStop) => SettledStatus(k, Settled(k, late, viaStop))
    case TakeValue(k) => Pending(AtHead(k))
    case Detach(k, _) => Pending(AtHead(k))
    case Advance(k, _, _) => Pending(AtHead(k))
    case PopCount(k, out, popped) => Done(AtHead(k), Got(OutValue(m, out, popped)))
    case PopUnlock(k, out, popped) => Done(AtHead(k), Got(OutValue(m, out, popped)))
    case CopyOut(k, node) => Done(AtHead(k), Got(OutValue(m, None, Some(node))))
    case FreeOld(k, v, _) => Done(AtHead(k), Got(v))
    case GiveUp(k, res) => Done(AtHead(k), res)
    case StealLock => Pending(Steal)
    case StealCompare => Pending(Steal)
    case StealPrev => Pending(Steal)
    case StealValue(_) => Pending(Steal)
    case StealTail(_, _) => Pending(Steal)
    case StealCut(v, _) => Done(Steal, Got(v))
    case StealCount(v) => Done(Steal, Got(v))
    case StealUnlockHead(res) => Done(Steal, res)
    case StealUnlockTail(res) => Done(Steal, res)
    case ExitStore => Pending(Exit)
    case Return(op, res) => Done(op, res)
  }

  function SettledStatus<T>(k: Kind, settled: Option<Result<T>>): Status<T> {
    if settled.Some? then Done(AtHead(k), settled.value) else Pending(AtHead(k))
  }

  /** The value a popper will hand on: already moved out, or still in the node it detached. */
  ghost function OutValue<T(!new)>(m: Memory<T>, out: Option<T>, popped: Option<Addr>): T
    requires OutReadable(m, out, popped)
  {
    if out.Some? then out.value else m.heap[popped.value].data.v
  }

  ghost predicate OutReadable<T(!new)>(m: Memory<T>, out: Option<T>, popped: Option<Addr>) {
    out.Some? || (popped.Some? && popped.value in m.heap && m.heap[popped.value].data.Full?)
  }

  ghost predicate Readable<T(!new)>(m: Memory<T>, pc: Pc<T>) {
    match pc
    case PopCount(_, out, popped) => OutReadable(m, out, popped)
    case PopUnlock(_, out, popped) => OutReadable(m, out, popped)
    case CopyOut(_, node) => OutReadable(m, None, Some(node))
    case _ => true
  }

  lemma LocalIsReadable<T(!new)>(m: Memory<T>, chain: Chain, pc: Pc<T>)
    requires ChainOk(m, chain) && LocalOk(m, chain, pc)
    ensures Readable(m, pc)
  {
  }

  lemma UndisturbedStatus<T(!new)>(m: Memory<T>, chain: Chain, m': Memory<T>, chain': Chain, pc: Pc<T>)
    requires ChainOk(m, chain) && ChainOk(m', chain')
    requires LocalOk(m, chain, pc) && Readable(m, pc) && Undisturbed(m, chain, m', chain', pc)
    ensures Readable(m', pc) && StatusOf(m', pc) == StatusOf(m, pc)
  {
  }

  /** What one thread's abstract status and the content do at a step: nothing, or one abstract step. */
  ghost predicate AbstractMove<T(!new)>(op: Op<T>, b: Content<T>, st: Status<T>, b': Content<T>, st': Status<T>) {
    || (b' == b && st' == st)
    || (b' == b && st.Idle? && st' == Pending(op))
    || (b' == b && st.Done? && st'.Idle?)
    || (st.Pending? && st'.Done? && st'.op == st.op && Apply(b, st.op, st'.res) == Some(b'))
  }

  /** The step of a thread at `pc` is one abstract step or none. */
  ghost predicate MoveOk<T(!new)>(m: Memory<T>, chain: Chain, pc: Pc<T>, c: Choice<T>)
    requires ChainOk(m, chain) && Safe(m, pc) && ChainOk(MemAfter(m, pc, c), ChainAfter(pc, chain))
  {
    var m', pc' := MemAfter(m, pc, c), PcAfter(m, pc, c);
    && Readable(m, pc) && Readable(m', pc')
    && AbstractMove(c.op, ContentOf(m, chain), StatusOf(m, pc), ContentOf(m', ChainAfter(pc, chain)), StatusOf(m', pc'))
  }

  /** A place before a pop or `empty` knows what it will do. */
  predicate Deciding<T>(pc: Pc<T>) {
    pc.TailRead? || pc.TailUnlock? || pc.Compare? || pc.WaitStop? || pc.StopCheck?
  }

  /** A place after a pop has advanced the head. */
  predicate Detached<T>(pc: Pc<T>) {
    pc.PopCount? || pc.PopUnlock? || pc.CopyOut?
  }

  lemma DecidingMoves<T(!new)>(m: Memory<T>, chain: Chain, pc: Pc<T>, c: Choice<T>)
    requires ChainOk(m, chain) && LocalOk(m, chain, pc) && Safe(m, pc) && Quiet(pc) && Deciding(pc)
    requires HoldsHead(pc) ==> m.head == Some(chain[0])
    requires Readable(m, pc) && Readable(m, PcAfter(m, pc, c))
    ensures AbstractMove(c.op, ContentOf(m, chain), StatusOf(m, pc),
                         ContentOf(m, chain), StatusOf(m, PcAfter(m, pc, c)))
  {
  }

  lemma DetachedKeeps<T(!new)>(m: Memory<T>, chain: Chain, pc: Pc<T>, c: Choice<T>)
    requires ChainOk(m, chain) && LocalOk(m, chain, pc) && Safe(m, pc) && Quiet(pc) && Detached(pc)
    requires HoldsHead(pc) ==> m.head == Some(chain[0])
    requires Readable(m, pc) && Readable(m, PcAfter(m, pc, c))
    ensures AbstractMove(c.op, ContentOf(m, chain), StatusOf(m, pc),
                         ContentOf(m, chain), StatusOf(m, PcAfter(m, pc, c)))
  {
  }

  lemma OtherQuietMoves<T(!new)>(m: Memory<T>, chain: Chain, pc: Pc<T>, c: Choice<T>)
    requires ChainOk(m, chain) && LocalOk(m, chain, pc) && Safe(m, pc) && Quiet(pc) && !Deciding(pc) && !Detached(pc)
    requires HoldsHead(pc) ==> m.head == Some(chain[0])
    requires Readable(m, pc) && Readable(m, PcAfter(m, pc, c))
    ensures AbstractMove(c.op, ContentOf(m, chain), StatusOf(m, pc),
                         ContentOf(m, chain), StatusOf(m, PcAfter(m, pc, c)))
  {
  }

  lemma QuietKeepsOrMoves<T(!new)>(m: Memory<T>, chain: Chain, pc: Pc<T>, c: Choice<T>)
    requires ChainOk(m, chain) && LocalOk(m, chain, pc) && Safe(m, pc) && Quiet(pc)
    requires HoldsHead(pc) ==> m.head == Some(chain[0])
    requires Readable(m, pc) && Readable(m, PcAfter(m, pc, c))
    ensures AbstractMove(c.op, ContentOf(m, chain), StatusOf(m, pc),
                         ContentOf(m, chain), StatusOf(m, PcAfter(m, pc, c)))
  {
    if Deciding(pc) {
      DecidingMoves(m, chain, pc, c);
    } else if Detached(pc) {
      DetachedKeeps(m, chain, pc, c);
    } else {
      OtherQuietMoves(m, chain, pc, c);
    }
  }

  lemma QuietMove<T(!new)>(m: Memory<T>, chain: Chain, pc: Pc<T>, c: Choice<T>)
    requires ChainOk(m, chain) && LocalOk(m, chain, pc) && Safe(m, pc) && Quiet(pc)
    requires HoldsHead(pc) ==> m.head == Some(chain[0])
    requires LocalOk(m, chain, PcAfter(m, pc, c))
    requires MemAfter(m, pc, c) == m && ChainAfter(pc, chain) == chain
    ensures MoveOk(m, chain, pc, c)
  {
    LocalIsReadable(m, chain, pc);
    LocalIsReadable(m, chain, PcAfter(m, pc, c));
    QuietKeepsOrMoves(m, chain, pc, c);
  }

  /** A write that has no abstract effect. */
  predicate Silent<T>(pc: Pc<T>) {
    !Quiet(pc) && !pc.PushTail? && !pc.Advance? && !pc.StealTail? && !pc.ExitStore?
  }

  lemma SilentItems<T(!new)>(m: Memory<T>, chain: Chain, pc: Pc<T>, c: Choice<T>)
    requires ChainOk(m, chain) && LocalOk(m, chain, pc) && Safe(m, pc) && Silent(pc)
    requires pc.PushAlloc? ==> c.addr !in m.heap
    requires pc.FreeOld? || pc.StealCut? ==> pc.node !in chain
    requires ChainOk(MemAfter(m, pc, c), chain)
    ensures ContentOf(MemAfter(m, pc, c), chain) == ContentOf(m, chain)
  {
    var m' := MemAfter(m, pc, c);
    forall i | 0 <= i < |chain| - 1
      ensures m'.heap[chain[i]].data.v == m.heap[chain[i]].data.v
    {
      assert chain[i] in m.heap && m.heap[chain[i]].data.Full? && chain[i] != m.tail;
    }
    assert Items(m', chain) == Items(m, chain);
  }

  lemma SilentStatus<T(!new)>(m: Memory<T>, chain: Chain, pc: Pc<T>, c: Choice<T>)
    requires ChainOk(m, chain) && LocalOk(m, chain, pc) && Safe(m, pc) && Silent(pc)
    ensures Readable(m, pc) && Readable(MemAfter(m, pc, c), PcAfter(m, pc, c))
    ensures StatusOf(m, pc) == StatusOf(MemAfter(m, pc, c), PcAfter(m, pc, c))
  {
  }

  lemma SilentMove<T(!new)>(m: Memory<T>, chain: Chain, pc: Pc<T>, c: Choice<T>)
    requires ChainOk(m, chain) && LocalOk(m, chain, pc) && Safe(m, pc) && Silent(pc)
    requires pc.PushAlloc? ==> c.addr !in m.heap
    requires pc.FreeOld? || pc.StealCut? ==> pc.node !in chain
    requires ChainOk(MemAfter(m, pc, c), ChainAfter(pc, chain))
    ensures MoveOk(m, chain, pc, c)
  {
    SilentItems(m, chain, pc, c);
    SilentStatus(m, chain, pc, c);
  }

  lemma PushTailMove<T(!new)>(m: Memory<T>, chain: Chain, pc: Pc<T>, c: Choice<T>)
    requires ChainOk(m, chain) && LocalOk(m, chain, pc) && Safe(m, pc) && pc.PushTail?
    requires ChainOk(MemAfter(m, pc, c), ChainAfter(pc, chain))
    ensures MoveOk(m, chain, pc, c)
  {
    assert Items(MemAfter(m, pc, c), ChainAfter(pc, chain)) == Items(m, chain) + [pc.v];
  }

  lemma AdvanceMove<T(!new)>(m: Memory<T>, chain: Chain, pc: Pc<T>, c: Choice<T>)
    requires ChainOk(m, chain) && LocalOk(m, chain, pc) && Safe(m, pc) && pc.Advance?
    requires ChainOk(MemAfter(m, pc, c), ChainAfter(pc, chain))
    ensures MoveOk(m, chain, pc, c)
  {
    assert Items(MemAfter(m, pc, c), ChainAfter(pc, chain)) == Items(m, chain)[1..];
  }

  lemma StealTailMove<T(!new)>(m: Memory<T>, chain: Chain, pc: Pc<T>, c: Choice<T>)
    requires ChainOk(m, chain) && LocalOk(m, chain, pc) && Safe(m, pc) && pc.StealTail?
    requires ChainOk(MemAfter(m, pc, c), ChainAfter(pc, chain))
    ensures MoveOk(m, chain, pc, c)
  {
    var items := Items(m, chain);
    assert Items(MemAfter(m, pc, c), ChainAfter(pc, chain)) == items[..|items| - 1];
  }

  lemma ExitStoreMove<T(!new)>(m: Memory<T>, chain: Chain, pc: Pc<T>, c: Choice<T>)
    requires ChainOk(m, chain) && LocalOk(m, chain, pc) && Safe(m, pc) && pc.ExitStore?
    requires ChainOk(MemAfter(m, pc, c), ChainAfter(pc, chain))
    ensures MoveOk(m, chain, pc, c)
  {
    assert Items(MemAfter(m, pc, c), chain) == Items(m, chain);
  }

  lemma WriteMove<T(!new)>(m: Memory<T>, chain: Chain, pc: Pc<T>, c: Choice<T>)
    requires ChainOk(m, chain) && LocalOk(m, chain, pc) && Safe(m, pc) && !Quiet(pc)
    requires pc.PushAlloc? ==> c.addr !in m.heap
    requires pc.FreeOld? || pc.StealCut? ==> pc.node !in chain
    requires ChainOk(MemAfter(m, pc, c), ChainAfter(pc, chain))
    ensures MoveOk(m, chain, pc, c)
  {
    if pc.PushTail? {
      PushTailMove(m, chain, pc, c);
    } else if pc.Advance? {
      AdvanceMove(m, chain, pc, c);
    } else if pc.StealTail? {
      StealTailMove(m, chain, pc, c);
    } else if pc.ExitStore? {
      ExitStoreMove(m, chain, pc, c);
    } else {
      SilentMove(m, chain, pc, c);
    }
  }

  /** One step, seen by the thread that makes it. */
  lemma OwnMove<T(!new)>(m: Memory<T>, chain: Chain, pc: Pc<T>, headPc: Pc<T>, tailPc: Pc<T>, c: Choice<T>)
    requires Before(m, chain, pc, headPc, tailPc, c) && After(m, chain, pc, headPc, tailPc, c)
    ensures MoveOk(m, chain, pc, c)
  {
    if Quiet(pc) {
      QuietEffect(m, chain, pc, c);
      QuietPlaces(m, pc, c);
      QuietMove(m, chain, pc, c);
    } else {
      assert pc.FreeOld? || pc.StealCut? ==> Owned(pc) == Some(pc.node);
      WriteMove(m, chain, pc, c);
    }
  }
}

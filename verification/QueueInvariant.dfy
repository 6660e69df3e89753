/** What every step of the queue protocol keeps.

    `chain` is the live list from the head node to the dummy tail.  It is not part of the state:
    `Good` ties it to the pointers and `ChainAfter` says how a step changes it. */
module QueueInvariant {
  import opened Options
  import opened D = AtomicDeque
  import opened QueueProtocol

  type Chain = seq<Addr>

  predicate HoldsHead<T>(pc: Pc<T>) {
    match pc
    case TailLock(_, _) | TailRead(_, _) | TailUnlock(_, _, _) | Compare(_, _, _) | WaitStop(_, _)
       | StopCheck(_, _, _) | TakeValue(_) | Detach(_, _) | Advance(_, _, _) | PopCount(_, _, _)
       | PopUnlock(_, _, _) | GiveUp(_, _) | StealUnlockHead(_) => true
    case _ => Stealing(pc)
  }

  predicate HoldsTail<T>(pc: Pc<T>) {
    match pc
    case PushData(_, _) | PushPrev(_, _) | PushNext(_, _) | PushTail(_, _) | PushUnlock(_)
       | TailRead(_, _) | TailUnlock(_, _, _) | StealUnlockHead(_) | StealUnlockTail(_) => true
    case _ => Stealing(pc)
  }

  /** A thief that holds both locks. */
  predicate Stealing<T>(pc: Pc<T>) {
    pc.StealCompare? || pc.StealPrev? || pc.StealValue? || pc.StealTail? || pc.StealCut? || pc.StealCount?
  }

  /** The node that only this thread can reach. */
  function Owned<T>(pc: Pc<T>): Option<Addr> {
    match pc
    case PushLock(_, p) => Some(p)
    case PushData(_, p) => Some(p)
    case PushPrev(_, p) => Some(p)
    case PushNext(_, p) => Some(p)
    case PushTail(_, p) => Some(p)
    case PopCount(_, _, popped) => popped
    case PopUnlock(_, _, popped) => popped
    case CopyOut(_, node) => Some(node)
    case FreeOld(_, _, node) => Some(node)
    case StealCut(_, node) => Some(node)
    case _ => None
  }

  /** The `next` of the tail node while the thread with the tail lock is at `pc`. */
  function TailNext<T>(pc: Pc<T>): Option<Addr> {
    match pc
    case PushTail(_, p) => Some(p)
    case StealCut(_, node) => Some(node)
    case _ => None
  }

  predicate DetachedHead<T>(pc: Pc<T>) {
    pc.Advance? && !pc.k.TimedPop?
  }

  /** The front value has been moved out, but the head still has to advance. */
  predicate MovedFront<T>(pc: Pc<T>) {
    (pc.Detach? || pc.Advance?) && pc.out.Some?
  }

  function PcOf<T>(pcs: map<Thread, Pc<T>>, lock: Option<Thread>): Pc<T> {
    if lock.Some? && lock.value in pcs then pcs[lock.value] else Ready
  }

  ghost predicate ChainOk<T(!new)>(m: Memory<T>, chain: Chain) {
    && |chain| > 0
    && (forall i, j | 0 <= i < j < |chain| :: chain[i] != chain[j])
    && (forall i | 0 <= i < |chain| :: chain[i] in m.heap)
    && m.tail == chain[|chain| - 1]
    && (forall i | 0 <= i < |chain| - 1 :: m.heap[chain[i]].next == Some(chain[i + 1]))
    && (forall i | 0 < i < |chain| :: m.heap[chain[i]].prev == Some(chain[i - 1]))
    && (forall i | 0 <= i < |chain| - 1 :: m.heap[chain[i]].data.Full?)
  }

  ghost predicate LocksOk<T(!new)>(s: State<T>) {
    && (s.headLock.Some? ==> s.headLock.value in s.pcs)
    && (s.tailLock.Some? ==> s.tailLock.value in s.pcs)
    && (forall t | t in s.pcs :: HoldsHead(s.pcs[t]) <==> s.headLock == Some(t))
    && (forall t | t in s.pcs :: HoldsTail(s.pcs[t]) <==> s.tailLock == Some(t))
  }

  /** The shape of both ends, given where the holders of the two locks are. */
  ghost predicate EndsOk<T(!new)>(m: Memory<T>, chain: Chain, headPc: Pc<T>, tailPc: Pc<T>)
    requires ChainOk(m, chain)
  {
    && m.head == (if DetachedHead(headPc) then None else Some(chain[0]))
    && m.heap[m.tail].next == TailNext(tailPc)
    && (forall i | 0 <= i < |chain| - 1 && m.heap[chain[i]].data.moved ::
          (i == 0 && MovedFront(headPc)) || (i == |chain| - 2 && tailPc.StealTail?))
  }

  predicate WaitKind(k: Kind, late: bool) {
    (k.WaitPop? || k.TimedPop?) && (late ==> k.TimedPop?)
  }

  ghost predicate OutOk<T>(m: Memory<T>, a: Addr, out: Option<T>)
  {
    a in m.heap && m.heap[a].data.Full? && (if out.Some? then m.heap[a].data.v == out.value else !m.heap[a].data.moved)
  }

  /** What a thread at `pc` may rely on, whatever the others do. */
  ghost predicate LocalOk<T(!new)>(m: Memory<T>, chain: Chain, pc: Pc<T>)
    requires ChainOk(m, chain)
  {
    match pc
    case PushLock(v, p) => p in m.heap && m.heap[p] == Node(Null, None, None)
    case PushData(v, p) => p in m.heap && m.heap[p] == Node(Null, None, None)
    case PushPrev(v, p) =>
      p in m.heap && m.heap[p] == Node(Null, None, None) && m.heap[m.tail].data == Full(v, false)
    case PushNext(v, p) =>
      p in m.heap && m.heap[p] == Node(Null, None, Some(m.tail)) && m.heap[m.tail].data == Full(v, false)
    case PushTail(v, p) =>
      p in m.heap && m.heap[p] == Node(Null, None, Some(m.tail)) && m.heap[m.tail].data == Full(v, false)
    case HeadLock(k, late) => late ==> k.TimedPop?
    case TailLock(k, late) => late ==> k.TimedPop?
    case TailRead(k, late) => late ==> k.TimedPop?
    case TailUnlock(k, late, seen) => (late ==> k.TimedPop?) && seen in chain
    case Compare(k, late, seen) => (late ==> k.TimedPop?) && seen in chain
    case WaitStop(k, late) => WaitKind(k, late)
    case Parked(k) => WaitKind(k, false)
    case StopCheck(k, late, viaStop) => WaitKind(k, late) && (if viaStop then m.stop else |chain| >= 2)
    case TakeValue(k) => ByRef(k) && |chain| >= 2
    case Detach(k, out) =>
      !k.IsEmpty? && !k.TimedPop? && (out.Some? <==> ByRef(k)) && |chain| >= 2 && OutOk(m, chain[0], out)
    case Advance(k, out, node) =>
      && !k.IsEmpty? && (out.Some? <==> ByRef(k)) && |chain| >= 2 && node == chain[0] && OutOk(m, node, out)
    case PopCount(k, out, popped) => PoppedOk(m, k, out, popped)
    case PopUnlock(k, out, popped) => PoppedOk(m, k, out, popped)
    case CopyOut(k, node) => !k.IsEmpty? && OutOk<T>(m, node, None) && m.heap[node].next.None?
    case FreeOld(k, v, node) => !k.IsEmpty? && node in m.heap && m.heap[node].next.None?
    case GiveUp(k, res) => k.IsEmpty? <==> res.Answer?
    case StealPrev => |chain| >= 2
    case StealValue(pn) => |chain| >= 2 && pn == chain[|chain| - 2]
    case StealTail(pn, v) => |chain| >= 2 && pn == chain[|chain| - 2] && m.heap[pn].data.v == v
    case StealCut(v, node) => node in m.heap && m.heap[node].next.None?
    case _ => true
  }

  ghost predicate PoppedOk<T>(m: Memory<T>, k: Kind, out: Option<T>, popped: Option<Addr>) {
    && !k.IsEmpty?
    && (popped.None? <==> k.TimedPop?)
    && (out.Some? <==> ByRef(k))
    && (popped.Some? ==> OutOk(m, popped.value, out) && m.heap[popped.value].next.None?)
  }

  ghost predicate LocalsOk<T(!new)>(s: State<T>, chain: Chain)
    requires ChainOk(s.mem, chain)
  {
    forall t | t in s.pcs :: LocalOk(s.mem, chain, s.pcs[t])
  }

  /** Private nodes are live, outside the list, and each belongs to one thread. */
  ghost predicate OwnersOk<T(!new)>(s: State<T>, chain: Chain) {
    && (forall t | t in s.pcs && Owned(s.pcs[t]).Some? ::
          Owned(s.pcs[t]).value in s.mem.heap && Owned(s.pcs[t]).value !in chain)
    && (forall t, u | t in s.pcs && u in s.pcs && t != u && Owned(s.pcs[t]).Some? ::
          Owned(s.pcs[t]) != Owned(s.pcs[u]))
  }

  ghost predicate Good<T(!new)>(s: State<T>, chain: Chain) {
    && ChainOk(s.mem, chain)
    && LocksOk(s)
    && EndsOk(s.mem, chain, PcOf(s.pcs, s.headLock), PcOf(s.pcs, s.tailLock))
    && LocalsOk(s, chain)
    && OwnersOk(s, chain)
  }

  /** A push that moves the tail appends its node, a pop that advances the head drops the first
      node, and a steal that moves the tail back drops the last. */
  function ChainAfter<T>(pc: Pc<T>, chain: Chain): Chain
    requires |chain| > 0
  {
    match pc
    case PushTail(_, p) => chain + [p]
    case Advance(_, _, _) => chain[1..]
    case StealTail(_, _) => chain[..|chain| - 1]
    case _ => chain
  }

  /** No reachable step is unsafe. */
  lemma GoodIsSafe<T(!new)>(s: State<T>, chain: Chain, t: Thread)
    requires Good(s, chain) && t in s.pcs
    ensures Safe(s.mem, s.pcs[t])
  {
    assert LocalOk(s.mem, chain, s.pcs[t]);
    if |chain| >= 2 {
      assert s.mem.heap[chain[0]].next == Some(chain[1]);
      assert s.mem.heap[chain[|chain| - 1]].prev == Some(chain[|chain| - 2]);
    }
  }

  /** Thread `t` moved and the locks went along: it holds a lock exactly where its new place says so. */
  ghost predicate Moved<T(!new)>(s: State<T>, t: Thread, s': State<T>) {
    && t in s.pcs && t in s'.pcs
    && s'.pcs == s.pcs[t := s'.pcs[t]]
    && s'.headLock == LockAfter(s.headLock, t, HoldsHead(s.pcs[t]), HoldsHead(s'.pcs[t]))
    && s'.tailLock == LockAfter(s.tailLock, t, HoldsTail(s.pcs[t]), HoldsTail(s'.pcs[t]))
    && (HoldsHead(s'.pcs[t]) && !HoldsHead(s.pcs[t]) ==> s.headLock.None?)
    && (HoldsTail(s'.pcs[t]) && !HoldsTail(s.pcs[t]) ==> s.tailLock.None?)
  }

  function LockAfter(lock: Option<Thread>, t: Thread, held: bool, holds: bool): Option<Thread> {
    if holds then Some(t) else if held then None else lock
  }

  lemma HeadLockFollows<T(!new)>(lock: Option<Thread>, t: Thread, m: Memory<T>, pc: Pc<T>, c: Choice<T>)
    requires Safe(m, pc) && (HoldsHead(pc) <==> lock == Some(t))
    ensures HeadLockAfter(lock, t, m, pc) == LockAfter(lock, t, HoldsHead(pc), HoldsHead(PcAfter(m, pc, c)))
  {
  }

  lemma TailLockFollows<T(!new)>(lock: Option<Thread>, t: Thread, m: Memory<T>, pc: Pc<T>, c: Choice<T>)
    requires Safe(m, pc) && (HoldsTail(pc) <==> lock == Some(t))
    ensures TailLockAfter(lock, t, pc) == LockAfter(lock, t, HoldsTail(pc), HoldsTail(PcAfter(m, pc, c)))
  {
  }

  lemma LocksWereFree<T(!new)>(s: State<T>, t: Thread, c: Choice<T>)
    requires Enabled(s, t, c) && Safe(s.mem, s.pcs[t])
    ensures var pc, pc' := s.pcs[t], PcAfter(s.mem, s.pcs[t], c);
            && (HoldsHead(pc') && !HoldsHead(pc) ==> s.headLock.None?)
            && (HoldsTail(pc') && !HoldsTail(pc) ==> s.tailLock.None?)
  {
  }

  lemma StepMoves<T(!new)>(s: State<T>, t: Thread, c: Choice<T>)
    requires LocksOk(s) && Enabled(s, t, c) && Safe(s.mem, s.pcs[t])
    ensures Moved(s, t, Do(s, t, c))
  {
    var pc := s.pcs[t];
    HeadLockFollows(s.headLock, t, s.mem, pc, c);
    TailLockFollows(s.tailLock, t, s.mem, pc, c);
    LocksWereFree(s, t, c);
  }

  lemma MovedKeepsLocks<T(!new)>(s: State<T>, t: Thread, s': State<T>)
    requires LocksOk(s) && Moved(s, t, s')
    ensures LocksOk(s')
  {
  }

  /** A change of the memory and the list by some other thread, seen from a thread at `pc`. */
  ghost predicate Undisturbed<T(!new)>(m: Memory<T>, chain: Chain, m': Memory<T>, chain': Chain, pc: Pc<T>)
    requires ChainOk(m, chain) && ChainOk(m', chain')
  {
    && (m.stop ==> m'.stop)
    && (Owned(pc).Some? && Owned(pc).value in m.heap ==>
          Owned(pc).value in m'.heap && m'.heap[Owned(pc).value] == m.heap[Owned(pc).value])
    && (HoldsTail(pc) ==> m'.tail == m.tail && m'.heap[m.tail].data == m.heap[m.tail].data)
    && (HoldsHead(pc) ==>
          && m'.head == m.head
          && (forall a | a in chain :: a in chain')
          && (|chain| >= 2 ==> |chain'| >= 2)
          && chain'[0] == chain[0]
          && (|chain| >= 2 ==> m'.heap[chain[0]] == m.heap[chain[0]]))
    && (HoldsHead(pc) && HoldsTail(pc) ==> chain' == chain && forall a | a in chain :: m'.heap[a] == m.heap[a])
  }

  lemma UndisturbedLocal<T(!new)>(m: Memory<T>, chain: Chain, m': Memory<T>, chain': Chain, pc: Pc<T>)
    requires ChainOk(m, chain) && ChainOk(m', chain')
    requires LocalOk(m, chain, pc) && Undisturbed(m, chain, m', chain', pc)
    ensures LocalOk(m', chain', pc)
  {
  }

  /** A thread at `pc` changed the memory and the list only where its locks and its own node allow. */
  ghost predicate Touches<T(!new)>(m: Memory<T>, chain: Chain, m': Memory<T>, chain': Chain, pc: Pc<T>)
    requires ChainOk(m, chain) && ChainOk(m', chain')
  {
    && (m.stop ==> m'.stop)
    && (forall a | a in m.heap :: (a in m'.heap && m'.heap[a] == m.heap[a]) || a in chain || Owned(pc) == Some(a))
    && (forall a | a in chain' :: a in chain || Owned(pc) == Some(a))
    && (!HoldsTail(pc) ==> m'.tail == m.tail && m'.heap[m.tail].data == m.heap[m.tail].data)
    && (!HoldsHead(pc) ==>
          && m'.head == m.head
          && (forall a | a in chain :: a in chain')
          && (|chain| >= 2 ==> |chain'| >= 2)
          && chain'[0] == chain[0]
          && (|chain| >= 2 ==> m'.heap[chain[0]] == m.heap[chain[0]]))
    && (!HoldsHead(pc) && !HoldsTail(pc) ==> chain' == chain && forall a | a in chain :: m'.heap[a] == m.heap[a])
  }

  lemma OthersUndisturbed<T(!new)>(s: State<T>, t: Thread, m': Memory<T>, chain: Chain, chain': Chain, u: Thread)
    requires ChainOk(s.mem, chain) && ChainOk(m', chain') && LocksOk(s) && OwnersOk(s, chain)
    requires t in s.pcs && u in s.pcs && u != t
    requires Touches(s.mem, chain, m', chain', s.pcs[t])
    ensures Undisturbed(s.mem, chain, m', chain', s.pcs[u])
  {
  }

  /** A node that a thread comes to own is fresh, or was in the list and has left it. */
  ghost predicate OwnsAfter<T(!new)>(m: Memory<T>, chain: Chain, m': Memory<T>, chain': Chain, pc: Pc<T>, pc': Pc<T>) {
    var mine := Owned(pc');
    mine.Some? ==>
      && mine.value in m'.heap && mine.value !in chain'
      && (mine == Owned(pc) || mine.value !in m.heap || mine.value in chain)
  }

  lemma OwnersKept<T(!new)>(s: State<T>, t: Thread, s': State<T>, chain: Chain, chain': Chain)
    requires ChainOk(s.mem, chain) && ChainOk(s'.mem, chain') && OwnersOk(s, chain) && Moved(s, t, s')
    requires Touches(s.mem, chain, s'.mem, chain', s.pcs[t])
    requires OwnsAfter(s.mem, chain, s'.mem, chain', s.pcs[t], s'.pcs[t])
    ensures OwnersOk(s', chain')
  {
  }

  /** The place of a lock's holder after thread `t` went from `pc` to `pc'`. */
  function HolderAfter<T>(holder: Pc<T>, pc': Pc<T>, held: bool, holds: bool): Pc<T> {
    if holds then pc' else if held then Ready else holder
  }

  lemma HoldersFollow<T(!new)>(s: State<T>, t: Thread, s': State<T>)
    requires LocksOk(s) && Moved(s, t, s')
    ensures PcOf(s'.pcs, s'.headLock) ==
            HolderAfter(PcOf(s.pcs, s.headLock), s'.pcs[t], HoldsHead(s.pcs[t]), HoldsHead(s'.pcs[t]))
    ensures PcOf(s'.pcs, s'.tailLock) ==
            HolderAfter(PcOf(s.pcs, s.tailLock), s'.pcs[t], HoldsTail(s.pcs[t]), HoldsTail(s'.pcs[t]))
    ensures HoldsHead(s.pcs[t]) ==> PcOf(s.pcs, s.headLock) == s.pcs[t]
    ensures HoldsTail(s.pcs[t]) ==> PcOf(s.pcs, s.tailLock) == s.pcs[t]
    ensures !HoldsHead(s.pcs[t]) && HoldsHead(s'.pcs[t]) ==> PcOf(s.pcs, s.headLock) == Ready
    ensures !HoldsTail(s.pcs[t]) && HoldsTail(s'.pcs[t]) ==> PcOf(s.pcs, s.tailLock) == Ready
  {
  }

  /** Everything a step has to establish, said of the memory, the list and the places involved. */
  ghost predicate Establishes<T(!new)>(m: Memory<T>, chain: Chain, pc: Pc<T>, headPc: Pc<T>, tailPc: Pc<T>,
                                       m': Memory<T>, chain': Chain, pc': Pc<T>)
    requires ChainOk(m, chain)
  {
    && ChainOk(m', chain')
    && LocalOk(m', chain', pc')
    && Touches(m, chain, m', chain', pc)
    && OwnsAfter(m, chain, m', chain', pc, pc')
    && EndsOk(m', chain', HolderAfter(headPc, pc', HoldsHead(pc), HoldsHead(pc')),
              HolderAfter(tailPc, pc', HoldsTail(pc), HoldsTail(pc')))
  }

  /** What a step may assume of them. */
  ghost predicate Assumes<T(!new)>(m: Memory<T>, chain: Chain, pc: Pc<T>, headPc: Pc<T>, tailPc: Pc<T>, pc': Pc<T>) {
    && ChainOk(m, chain)
    && LocalOk(m, chain, pc)
    && EndsOk(m, chain, headPc, tailPc)
    && (Owned(pc).Some? ==> Owned(pc).value in m.heap && Owned(pc).value !in chain)
    && (HoldsHead(pc) ==> headPc == pc)
    && (HoldsTail(pc) ==> tailPc == pc)
    && (!HoldsHead(pc) && HoldsHead(pc') ==> headPc == Ready)
    && (!HoldsTail(pc) && HoldsTail(pc') ==> tailPc == Ready)
    && (headPc.Ready? || HoldsHead(headPc)) && (tailPc.Ready? || HoldsTail(tailPc))
    && (Stealing(tailPc) && tailPc != pc ==> !HoldsHead(pc) && !HoldsHead(pc'))
  }

  /** Puts the invariant together again after thread `t` has moved. */
  lemma Rebuild<T(!new)>(s: State<T>, t: Thread, s': State<T>, chain: Chain, chain': Chain)
    requires Good(s, chain) && Moved(s, t, s')
    requires Establishes(s.mem, chain, s.pcs[t], PcOf(s.pcs, s.headLock), PcOf(s.pcs, s.tailLock),
                         s'.mem, chain', s'.pcs[t])
    ensures Good(s', chain')
  {
    MovedKeepsLocks(s, t, s');
    HoldersFollow(s, t, s');
    OwnersKept(s, t, s', chain, chain');
    forall u | u in s'.pcs
      ensures LocalOk(s'.mem, chain', s'.pcs[u])
    {
      if u != t {
        assert LocalOk(s.mem, chain, s.pcs[u]);
        OthersUndisturbed(s, t, s'.mem, chain, chain', u);
        UndisturbedLocal(s.mem, chain, s'.mem, chain', s.pcs[u]);
      }
    }
  }

  lemma GoodAssumes<T(!new)>(s: State<T>, t: Thread, s': State<T>, chain: Chain)
    requires Good(s, chain) && Moved(s, t, s')
    ensures Assumes(s.mem, chain, s.pcs[t], PcOf(s.pcs, s.headLock), PcOf(s.pcs, s.tailLock), s'.pcs[t])
  {
    assert LocalOk(s.mem, chain, s.pcs[t]);
    HoldersFollow(s, t, s');
  }
}

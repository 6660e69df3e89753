/** Which memory locations a step accesses, that it accesses no others, and that two threads never have next
    steps on the same one: this is what makes interleaved steps an adequate model of the program. */
module QueueRaces {
  import opened Options
  import opened QueueProtocol
  import opened QueueInvariant
  import opened QueueTheorems

  /** The plain (not atomic, not lock) memory locations. */
  datatype Location = HeadPointer | TailPointer | DataOf(a: Addr) | NextOf(a: Addr) | PrevOf(a: Addr)

  function WholeNode(a: Addr): set<Location> {
    {DataOf(a), NextOf(a), PrevOf(a)}
  }

  /** The locations that the next step of a thread at `pc` reads or writes. */
  function Footprint<T>(m: Memory<T>, pc: Pc<T>, c: Choice<T>): set<Location>
    requires Safe(m, pc)
  {
    match pc
    case PushAlloc(_) => WholeNode(c.addr)
    case PushData(_, _) => {TailPointer, DataOf(m.tail)}
    case PushPrev(_, p) => {TailPointer, PrevOf(p)}
    case PushNext(_, _) => {TailPointer, NextOf(m.tail)}
    case PushTail(_, _) => {TailPointer}
    case TailRead(_, _) => {TailPointer}
    case Compare(_, _, _) => {HeadPointer}
    case TakeValue(_) => {HeadPointer, DataOf(m.head.value)}
    case Detach(_, _) => {HeadPointer}
    case Advance(_, _, node) => {HeadPointer} + WholeNode(node)
    case CopyOut(_, node) => {DataOf(node)}
    case FreeOld(_, _, node) => WholeNode(node)
    case StealCompare => {HeadPointer, TailPointer}
    case StealPrev => {TailPointer, PrevOf(m.tail)}
    case StealValue(pn) => {DataOf(pn)}
    case StealTail(_, _) => {TailPointer}
    case StealCut(_, node) => {TailPointer, NextOf(m.tail)} + WholeNode(node)
    case _ => {}
  }

  // ---------------------------------------------------------------- the footprint is what a step accesses

  /** Two memories hold the same at a location: for a field of a node, that it is live in both or in neither and,
      if live, the same value. */
  predicate SameAt<T(==)>(m: Memory<T>, n: Memory<T>, l: Location) {
    match l
    case HeadPointer => m.head == n.head
    case TailPointer => m.tail == n.tail
    case DataOf(a) =>
      (a in m.heap <==> a in n.heap) && (a in m.heap && a in n.heap ==> m.heap[a].data == n.heap[a].data)
    case NextOf(a) =>
      (a in m.heap <==> a in n.heap) && (a in m.heap && a in n.heap ==> m.heap[a].next == n.heap[a].next)
    case PrevOf(a) =>
      (a in m.heap <==> a in n.heap) && (a in m.heap && a in n.heap ==> m.heap[a].prev == n.heap[a].prev)
  }

  /** A step writes nothing outside its footprint. */
  lemma WritesInFootprint<T>(m: Memory<T>, pc: Pc<T>, c: Choice<T>, l: Location)
    requires Safe(m, pc) && l !in Footprint(m, pc, c)
    ensures SameAt(m, MemAfter(m, pc, c), l)
  {
  }

  ghost predicate AgreeOn<T>(m: Memory<T>, n: Memory<T>, pc: Pc<T>, c: Choice<T>)
    requires Safe(m, pc)
  {
    && (forall l | l in Footprint(m, pc, c) :: SameAt(m, n, l))
    && m.stop == n.stop
  }

  /** The locations of a footprint, one at a time. */
  lemma AgreeAt<T>(m: Memory<T>, n: Memory<T>, pc: Pc<T>, c: Choice<T>)
    requires Safe(m, pc) && AgreeOn(m, n, pc, c)
    ensures HeadPointer in Footprint(m, pc, c) ==> m.head == n.head
    ensures TailPointer in Footprint(m, pc, c) ==> m.tail == n.tail
    ensures forall a | DataOf(a) in Footprint(m, pc, c) :: SameAt(m, n, DataOf(a))
    ensures forall a | NextOf(a) in Footprint(m, pc, c) :: SameAt(m, n, NextOf(a))
    ensures forall a | PrevOf(a) in Footprint(m, pc, c) :: SameAt(m, n, PrevOf(a))
  {
    assert HeadPointer in Footprint(m, pc, c) ==> SameAt(m, n, HeadPointer);
    assert TailPointer in Footprint(m, pc, c) ==> SameAt(m, n, TailPointer);
  }

  lemma ReadsSafety<T>(m: Memory<T>, n: Memory<T>, pc: Pc<T>, c: Choice<T>)
    requires Safe(m, pc) && AgreeOn(m, n, pc, c)
    ensures Safe(n, pc) && Footprint(n, pc, c) == Footprint(m, pc, c)
  {
    AgreeAt(m, n, pc, c);
    match pc
    case PushData(_, _) => assert DataOf(m.tail) in Footprint(m, pc, c);
    case PushPrev(_, p) => assert PrevOf(p) in Footprint(m, pc, c);
    case PushNext(_, _) => assert NextOf(m.tail) in Footprint(m, pc, c);
    case TakeValue(_) => assert DataOf(m.head.value) in Footprint(m, pc, c);
    case Advance(_, _, node) => assert NextOf(node) in Footprint(m, pc, c);
    case CopyOut(_, node) => assert DataOf(node) in Footprint(m, pc, c);
    case FreeOld(_, _, node) => assert NextOf(node) in Footprint(m, pc, c);
    case StealPrev => assert PrevOf(m.tail) in Footprint(m, pc, c);
    case StealValue(pn) => assert DataOf(pn) in Footprint(m, pc, c);
    case StealCut(_, node) => assert NextOf(m.tail) in Footprint(m, pc, c) && NextOf(node) in Footprint(m, pc, c);
    case _ =>
  }

  /** A step reads nothing plain outside its footprint: in any two memories that agree there, and on the stop
      flag, it is equally safe, goes to the same place and leaves the same in its footprint. */
  lemma ReadsInFootprint<T>(m: Memory<T>, n: Memory<T>, pc: Pc<T>, c: Choice<T>)
    requires Safe(m, pc) && AgreeOn(m, n, pc, c)
    ensures Safe(n, pc) && Footprint(n, pc, c) == Footprint(m, pc, c)
    ensures PcAfter(n, pc, c) == PcAfter(m, pc, c)
    ensures forall l | l in Footprint(m, pc, c) :: SameAt(MemAfter(m, pc, c), MemAfter(n, pc, c), l)
  {
    ReadsSafety(m, n, pc, c);
    ReadsPlace(m, n, pc, c);
    forall l | l in Footprint(m, pc, c)
      ensures SameAt(MemAfter(m, pc, c), MemAfter(n, pc, c), l)
    {
      ReadsEffect(m, n, pc, c, l);
    }
  }

  lemma ReadsPlace<T>(m: Memory<T>, n: Memory<T>, pc: Pc<T>, c: Choice<T>)
    requires Safe(m, pc) && AgreeOn(m, n, pc, c) && Safe(n, pc)
    ensures PcAfter(n, pc, c) == PcAfter(m, pc, c)
  {
    AgreeAt(m, n, pc, c);
    match pc
    case TakeValue(_) => assert DataOf(m.head.value) in Footprint(m, pc, c);
    case CopyOut(_, node) => assert DataOf(node) in Footprint(m, pc, c);
    case StealPrev => assert PrevOf(m.tail) in Footprint(m, pc, c);
    case StealValue(pn) => assert DataOf(pn) in Footprint(m, pc, c);
    case _ =>
  }

  lemma ReadsEffect<T>(m: Memory<T>, n: Memory<T>, pc: Pc<T>, c: Choice<T>, l: Location)
    requires Safe(m, pc) && AgreeOn(m, n, pc, c) && Safe(n, pc) && l in Footprint(m, pc, c)
    ensures SameAt(MemAfter(m, pc, c), MemAfter(n, pc, c), l)
  {
    AgreeAt(m, n, pc, c);
    assert SameAt(m, n, l);
    if pc.Advance? {
      ReadsAdvance(m, n, pc, c, l);
    }
  }

  lemma ReadsAdvance<T>(m: Memory<T>, n: Memory<T>, pc: Pc<T>, c: Choice<T>, l: Location)
    requires Safe(m, pc) && Safe(n, pc) && pc.Advance? && l in Footprint(m, pc, c)
    requires SameAt(m, n, l) && AgreeOn(m, n, pc, c)
    ensures SameAt(MemAfter(m, pc, c), MemAfter(n, pc, c), l)
  {
    assert NextOf(pc.node) in Footprint(m, pc, c);
    assert SameAt(m, n, NextOf(pc.node));
  }

  // ---------------------------------------------------------------- who may access what

  /** Where a thread at `pc` may go: the pointers of the locks it holds, its own node, the tail node under
      the tail lock, the front node under the head lock if another follows, any live node under both. */
  ghost predicate MayTouch<T(!new)>(m: Memory<T>, chain: Chain, pc: Pc<T>, l: Location)
    requires ChainOk(m, chain)
  {
    match l
    case HeadPointer => HoldsHead(pc)
    case TailPointer => HoldsTail(pc)
    case _ =>
      || Owned(pc) == Some(l.a)
      || (HoldsTail(pc) && l.a == m.tail)
      || (HoldsHead(pc) && |chain| >= 2 && l.a == chain[0])
      || (HoldsHead(pc) && HoldsTail(pc) && l.a in chain)
  }

  lemma FootprintAllowed<T(!new)>(m: Memory<T>, chain: Chain, pc: Pc<T>, c: Choice<T>, l: Location)
    requires ChainOk(m, chain) && LocalOk(m, chain, pc) && Safe(m, pc) && !pc.PushAlloc?
    requires HoldsHead(pc) && !DetachedHead(pc) ==> m.head == Some(chain[0])
    requires l in Footprint(m, pc, c)
    ensures MayTouch(m, chain, pc, l)
  {
  }

  /** Every node a step accesses is live, except the one it allocates. */
  lemma FootprintIsLive<T>(m: Memory<T>, pc: Pc<T>, c: Choice<T>, l: Location)
    requires Safe(m, pc) && l in Footprint(m, pc, c) && !l.HeadPointer? && !l.TailPointer?
    ensures l.a in m.heap || (pc.PushAlloc? && l.a == c.addr)
  {
  }

  lemma OneToucher<T(!new)>(s: State<T>, chain: Chain, t: Thread, u: Thread, l: Location)
    requires Good(s, chain) && t in s.pcs && u in s.pcs && t != u
    requires MayTouch(s.mem, chain, s.pcs[t], l)
    ensures !MayTouch(s.mem, chain, s.pcs[u], l)
  {
  }

  /** The allocator gives two threads different nodes, neither of them allocated. */
  predicate Allocates<T>(s: State<T>, t: Thread, c: Choice<T>, u: Thread, d: Choice<T>)
    requires t in s.pcs && u in s.pcs
  {
    && (s.pcs[t].PushAlloc? ==> c.addr !in s.mem.heap)
    && (s.pcs[u].PushAlloc? ==> d.addr !in s.mem.heap)
    && (s.pcs[t].PushAlloc? && s.pcs[u].PushAlloc? ==> c.addr != d.addr)
  }

  lemma GoodHasNoRace<T(!new)>(s: State<T>, chain: Chain, t: Thread, c: Choice<T>, u: Thread, d: Choice<T>)
    requires Good(s, chain) && t in s.pcs && u in s.pcs && t != u && Allocates(s, t, c, u, d)
    ensures Safe(s.mem, s.pcs[t]) && Safe(s.mem, s.pcs[u])
    ensures Footprint(s.mem, s.pcs[t], c) !! Footprint(s.mem, s.pcs[u], d)
  {
    var pc, pd := s.pcs[t], s.pcs[u];
    GoodIsSafe(s, chain, t);
    GoodIsSafe(s, chain, u);
    assert LocalOk(s.mem, chain, pc) && LocalOk(s.mem, chain, pd);
    forall l | l in Footprint(s.mem, pc, c) && l in Footprint(s.mem, pd, d)
      ensures false
    {
      if pc.PushAlloc? {
        FootprintIsLive(s.mem, pd, d, l);
      } else if pd.PushAlloc? {
        FootprintIsLive(s.mem, pc, c, l);
      } else {
        FootprintAllowed(s.mem, chain, pc, c, l);
        FootprintAllowed(s.mem, chain, pd, d, l);
        OneToucher(s, chain, t, u, l);
      }
    }
  }

  /** There are no data races: in every reachable state the next steps of two threads never touch the
      same plain location, although a push holds only the tail lock and a pop only the head lock. */
  lemma NoDataRace<T(!new)>(run: seq<State<T>>, i: nat, t: Thread, c: Choice<T>, u: Thread, d: Choice<T>)
    requires IsRun(run) && i < |run| && t in run[i].pcs && u in run[i].pcs && t != u
    requires Allocates(run[i], t, c, u, d)
    ensures Safe(run[i].mem, run[i].pcs[t]) && Safe(run[i].mem, run[i].pcs[u])
    ensures Footprint(run[i].mem, run[i].pcs[t], c) !! Footprint(run[i].mem, run[i].pcs[u], d)
  {
    var chains, abstractRun := RunRefines(run);
    assert Refines(run[i], chains[i], abstractRun[i]);
    GoodHasNoRace(run[i], chains[i], t, c, u, d);
  }
}

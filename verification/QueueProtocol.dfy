/** The concurrent queue as threads really run it: one step per statement that touches the nodes,
    the two end pointers, a lock, the stop flag or the counter.

    The state holds only what the program holds.  A step that would touch a freed node, read an
    empty or moved-out cell, or free a node that still owns another one is `Unsafe`; after it
    anything may happen.  The theorems show that no reachable step is. */
module QueueProtocol {
  import opened Options
  import opened D = AtomicDeque

  type Thread = nat
  type Addr = nat

  /** A node's `data`: null, or a value that may since have been moved out of its cell. */
  datatype Cell<T> = Null | Full(v: T, moved: bool)

  datatype Node<T> = Node(data: Cell<T>, next: Option<Addr>, prev: Option<Addr>)

  datatype Memory<T> = Memory(heap: map<Addr, Node<T>>, head: Option<Addr>, tail: Addr, stop: bool)

  /** What a thread does next.  `late` says that the 100 ms of a timed wait are over, `viaStop` that
      only the stop flag made the wait predicate true, `out` is a value already moved out. */
  datatype Pc<T> =
    | Ready
      // push
    | PushAlloc(v: T)
    | PushLock(v: T, p: Addr)
    | PushData(v: T, p: Addr)
    | PushPrev(v: T, p: Addr)
    | PushNext(v: T, p: Addr)
    | PushTail(v: T, p: Addr)
    | PushUnlock(v: T)
    | PushCount(v: T)
      // the pops and empty
    | HeadLock(k: Kind, late: bool)
    | TailLock(k: Kind, late: bool)
    | TailRead(k: Kind, late: bool)
    | TailUnlock(k: Kind, late: bool, seen: Addr)
    | Compare(k: Kind, late: bool, seen: Addr)
    | WaitStop(k: Kind, late: bool)
    | Parked(k: Kind)
    | StopCheck(k: Kind, late: bool, viaStop: bool)
    | TakeValue(k: Kind)
    | Detach(k: Kind, out: Option<T>)
    | Advance(k: Kind, out: Option<T>, node: Addr)
    | PopCount(k: Kind, out: Option<T>, popped: Option<Addr>)
    | PopUnlock(k: Kind, out: Option<T>, popped: Option<Addr>)
    | CopyOut(k: Kind, node: Addr)
    | FreeOld(k: Kind, v: T, node: Addr)
    | GiveUp(k: Kind, res: Result<T>)
      // try_steal
    | StealLock
    | StealCompare
    | StealPrev
    | StealValue(pn: Addr)
    | StealTail(pn: Addr, v: T)
    | StealCut(v: T, node: Addr)
    | StealCount(v: T)
    | StealUnlockHead(res: Result<T>)
    | StealUnlockTail(res: Result<T>)
      // Exit
    | ExitStore
    | Return(op: Op<T>, res: Result<T>)

  datatype State<T> = State(
    mem: Memory<T>,
    headLock: Option<Thread>,
    tailLock: Option<Thread>,
    count: int,
    pcs: map<Thread, Pc<T>>)

  /** What the environment decides at a step: the operation called, the address the allocator
      returns, and whether a timed wait has run out of time when it wakes. */
  datatype Choice<T> = Choice(op: Op<T>, addr: Addr, timeout: bool)

  /** The value of a 32-bit signed counter, as `std::atomic_int` wraps. */
  function Wrap32(x: int): (c: int)
    ensures -0x8000_0000 <= c < 0x8000_0000
    decreases if -0x8000_0000 <= x < 0x8000_0000 then 0 else if x < 0 then -x else x
  {
    if x >= 0x8000_0000 then Wrap32(x - 0x1_0000_0000)
    else if x < -0x8000_0000 then Wrap32(x + 0x1_0000_0000)
    else x
  }

  /** Counting up and down on the wrapped counter follows the integers. */
  lemma {:induction false} WrapSteps(x: int)
    ensures Wrap32(Wrap32(x) + 1) == Wrap32(x + 1)
    ensures Wrap32(Wrap32(x) - 1) == Wrap32(x - 1)
    decreases if -0x8000_0000 <= x < 0x8000_0000 then 0 else if x < 0 then -x else x
  {
    if x >= 0x8000_0000 {
      WrapSteps(x - 0x1_0000_0000);
    } else if x < -0x8000_0000 {
      WrapSteps(x + 0x1_0000_0000);
    }
  }

  ghost predicate Init<T(!new)>(s: State<T>) {
    && (exists dummy: Addr ::
         s.mem == Memory(map[dummy := Node(Null, None, None)], Some(dummy), dummy, false))
    && s.headLock == None && s.tailLock == None && s.count == 0
    && forall t | t in s.pcs :: s.pcs[t] == Ready
  }

  /** Where a call starts. */
  function Entry<T>(op: Op<T>): Pc<T> {
    match op
    case Push(v) => PushAlloc(v)
    case AtHead(k) => HeadLock(k, false)
    case Steal => StealLock
    case Exit => ExitStore
  }

  /** Whether the pop moves the value out under the head lock or hands on the shared pointer. */
  predicate ByRef(k: Kind) {
    k.TimedPop? || ((k.TryPop? || k.WaitPop?) && k.byRef)
  }

  function StartTaking<T>(k: Kind): Pc<T> {
    if ByRef(k) then TakeValue(k) else Detach(k, None)
  }

  /** Where `m_head.get() != get_tail()` leads, given its outcome. */
  function Compared<T>(k: Kind, late: bool, isEmpty: bool): Pc<T> {
    match k
    case IsEmpty => GiveUp(k, Answer(isEmpty))
    case TryPop(_) => if isEmpty then GiveUp(k, Nothing) else StartTaking(k)
    case _ => if isEmpty then WaitStop(k, late) else StopCheck(k, late, false)
  }

  predicate Enabled<T>(s: State<T>, t: Thread, c: Choice<T>) {
    && t in s.pcs
    && match s.pcs[t]
       case PushAlloc(_) => c.addr !in s.mem.heap
       case PushLock(_, _) => s.tailLock.None?
       case HeadLock(_, _) => s.headLock.None?
       case TailLock(_, _) => s.tailLock.None?
       case StealLock => s.headLock.None? && s.tailLock.None?
       case _ => true
  }

  predicate Holds<T>(m: Memory<T>, a: Addr) {
    a in m.heap && m.heap[a].data.Full? && !m.heap[a].data.moved
  }

  /** The next step of `pc` touches only live nodes, reads only filled cells, and frees at most one node. */
  predicate Safe<T>(m: Memory<T>, pc: Pc<T>) {
    match pc
    case PushData(_, _) => m.tail in m.heap
    case PushPrev(_, p) => p in m.heap
    case PushNext(_, _) => m.tail in m.heap && m.heap[m.tail].next.None?
    case TakeValue(_) => m.head.Some? && Holds(m, m.head.value)
    case Detach(_, _) => m.head.Some?
    case Advance(_, _, node) => node in m.heap && m.heap[node].next.Some?
    case CopyOut(_, node) => Holds(m, node)
    case FreeOld(_, _, node) => node in m.heap && m.heap[node].next.None?
    case PopUnlock(_, out, popped) => out.None? ==> popped.Some?
    case StealPrev => m.tail in m.heap && m.heap[m.tail].prev.Some?
    case StealValue(pn) => Holds(m, pn)
    case StealCut(_, node) =>
      && m.tail in m.heap && m.heap[m.tail].next == Some(node)
      && node != m.tail && node in m.heap && m.heap[node].next.None?
    case _ => true
  }

  function SetData<T>(m: Memory<T>, a: Addr, d: Cell<T>): Memory<T>
    requires a in m.heap
  {
    m.(heap := m.heap[a := m.heap[a].(data := d)])
  }

  function SetNext<T>(m: Memory<T>, a: Addr, n: Option<Addr>): Memory<T>
    requires a in m.heap
  {
    m.(heap := m.heap[a := m.heap[a].(next := n)])
  }

  function SetPrev<T>(m: Memory<T>, a: Addr, n: Option<Addr>): Memory<T>
    requires a in m.heap
  {
    m.(heap := m.heap[a := m.heap[a].(prev := n)])
  }

  function Free<T>(m: Memory<T>, a: Addr): Memory<T> {
    m.(heap := m.heap - {a})
  }

  function MoveOut<T>(m: Memory<T>, a: Addr): Memory<T>
    requires Holds(m, a)
  {
    SetData(m, a, Full(m.heap[a].data.v, true))
  }

  /** The effect of the next step on the nodes, the end pointers and the stop flag. */
  function MemAfter<T>(m: Memory<T>, pc: Pc<T>, c: Choice<T>): Memory<T>
    requires Safe(m, pc)
  {
    match pc
    case PushAlloc(_) => m.(heap := m.heap[c.addr := Node(Null, None, None)])
    case PushData(v, _) => SetData(m, m.tail, Full(v, false))
    case PushPrev(_, p) => SetPrev(m, p, Some(m.tail))
    case PushNext(_, p) => SetNext(m, m.tail, Some(p))
    case PushTail(_, p) => m.(tail := p)
    case TakeValue(_) => MoveOut(m, m.head.value)
    case Detach(_, _) => m.(head := None)
    case Advance(k, _, node) =>
      var advanced := SetNext(m, node, None).(head := m.heap[node].next);
      if k.TimedPop? then Free(advanced, node) else advanced
    case FreeOld(_, _, node) => Free(m, node)
    case StealValue(pn) => MoveOut(m, pn)
    case StealTail(pn, _) => m.(tail := pn)
    case StealCut(_, node) => Free(SetNext(m, m.tail, None), node)
    case ExitStore => m.(stop := true)
    case _ => m
  }

  /** Where the thread goes next. */
  function PcAfter<T(==)>(m: Memory<T>, pc: Pc<T>, c: Choice<T>): Pc<T>
    requires Safe(m, pc)
  {
    match pc
    case Ready => Entry(c.op)
    case PushAlloc(v) => PushLock(v, c.addr)
    case PushLock(v, p) => PushData(v, p)
    case PushData(v, p) => PushPrev(v, p)
    case PushPrev(v, p) => PushNext(v, p)
    case PushNext(v, p) => PushTail(v, p)
    case PushTail(v, p) => PushUnlock(v)
    case PushUnlock(v) => PushCount(v)
    case PushCount(v) => Return(Push(v), Unit)
    case HeadLock(k, late) => TailLock(k, late)
    case TailLock(k, late) => TailRead(k, late)
    case TailRead(k, late) => TailUnlock(k, late, m.tail)
    case TailUnlock(k, late, seen) => Compare(k, late, seen)
    case Compare(k, late, seen) => Compared(k, late, m.head == Some(seen))
    case WaitStop(k, late) =>
      if m.stop then StopCheck(k, late, true)
      else if late then GiveUp(k, Nothing)
      else Parked(k)
    case Parked(k) => HeadLock(k, k.TimedPop? && c.timeout)
    case StopCheck(k, late, viaStop) => if m.stop then GiveUp(k, Nothing) else StartTaking(k)
    case TakeValue(k) =>
      var v := m.heap[m.head.value].data.v;
      if k.TimedPop? then Advance(k, Some(v), m.head.value) else Detach(k, Some(v))
    case Detach(k, out) => Advance(k, out, m.head.value)
    case Advance(k, out, node) => PopCount(k, out, if k.TimedPop? then None else Some(node))
    case PopCount(k, out, popped) => PopUnlock(k, out, popped)
    case PopUnlock(k, out, popped) =>
      if out.None? then CopyOut(k, popped.value)
      else if popped.None? then Return(AtHead(k), Got(out.value))
      else FreeOld(k, out.value, popped.value)
    case CopyOut(k, node) => FreeOld(k, m.heap[node].data.v, node)
    case FreeOld(k, v, node) => Return(AtHead(k), Got(v))
    case GiveUp(k, res) => Return(AtHead(k), res)
    case StealLock => StealCompare
    case StealCompare => if m.head == Some(m.tail) then StealUnlockHead(Nothing) else StealPrev
    case StealPrev => StealValue(m.heap[m.tail].prev.value)
    case StealValue(pn) => StealTail(pn, m.heap[pn].data.v)
    case StealTail(pn, v) => StealCut(v, m.tail)
    case StealCut(v, node) => StealCount(v)
    case StealCount(v) => StealUnlockHead(Got(v))
    case StealUnlockHead(res) => StealUnlockTail(res)
    case StealUnlockTail(res) => Return(Steal, res)
    case ExitStore => Return(Exit, Unit)
    case Return(op, res) => Ready
  }

  /** The head lock is taken on entry, released on return and while parked. */
  function HeadLockAfter<T>(lock: Option<Thread>, t: Thread, m: Memory<T>, pc: Pc<T>): Option<Thread> {
    match pc
    case HeadLock(_, _) => Some(t)
    case StealLock => Some(t)
    case WaitStop(_, late) => if m.stop || late then lock else None
    case PopUnlock(_, _, _) => None
    case GiveUp(_, _) => None
    case StealUnlockHead(_) => None
    case _ => lock
  }

  function TailLockAfter<T>(lock: Option<Thread>, t: Thread, pc: Pc<T>): Option<Thread> {
    match pc
    case PushLock(_, _) => Some(t)
    case TailLock(_, _) => Some(t)
    case StealLock => Some(t)
    case PushUnlock(_) => None
    case TailUnlock(_, _, _) => None
    case StealUnlockTail(_) => None
    case _ => lock
  }

  function CountAfter<T>(count: int, pc: Pc<T>): int {
    match pc
    case PushCount(_) => Wrap32(count + 1)
    case PopCount(_, _, _) => Wrap32(count - 1)
    case StealCount(_) => Wrap32(count - 1)
    case _ => count
  }

  function Do<T(==)>(s: State<T>, t: Thread, c: Choice<T>): State<T>
    requires Enabled(s, t, c) && Safe(s.mem, s.pcs[t])
  {
    var pc := s.pcs[t];
    State(MemAfter(s.mem, pc, c),
          HeadLockAfter(s.headLock, t, s.mem, pc),
          TailLockAfter(s.tailLock, t, pc),
          CountAfter(s.count, pc),
          s.pcs[t := PcAfter(s.mem, pc, c)])
  }

  /** One step of thread `t`; an unsafe step may lead anywhere. */
  ghost predicate Step<T(!new)>(s: State<T>, t: Thread, c: Choice<T>, s': State<T>) {
    Enabled(s, t, c) && (Safe(s.mem, s.pcs[t]) ==> s' == Do(s, t, c))
  }

  ghost predicate Next<T(!new)>(s: State<T>, s': State<T>) {
    exists t, c :: Step(s, t, c, s')
  }

  ghost predicate IsRun<T(!new)>(run: seq<State<T>>) {
    && |run| > 0
    && Init(run[0])
    && forall i | 0 <= i < |run| - 1 :: Next(run[i], run[i + 1])
  }
}

/** When a call on the queue waits, and how many steps of its own it takes otherwise. */
module QueueWaiting {
  import opened Options
  import opened D = AtomicDeque
  import opened QueueProtocol
  import opened QueueInvariant
  import opened QueueProgress
  import opened QueueConservation
  import opened QueueAnswers

  // ---------------------------------------------------------------- bounded steps

  /** How many steps a thread at `pc` is away from its return or from being parked, at most. */
  function Rank<T>(pc: Pc<T>): nat {
    match pc
    case Ready => 0
    case Parked(_) => 0
    case PushAlloc(_) => 9
    case PushLock(_, _) => 8
    case PushData(_, _) => 7
    case PushPrev(_, _) => 6
    case PushNext(_, _) => 5
    case PushTail(_, _) => 4
    case PushUnlock(_) => 3
    case PushCount(_) => 2
    case HeadLock(_, _) => 15
    case TailLock(_, _) => 14
    case TailRead(_, _) => 13
    case TailUnlock(_, _, _) => 12
    case Compare(_, _, _) => 11
    case WaitStop(_, _) => 10
    case StopCheck(_, _, _) => 9
    case TakeValue(_) => 8
    case Detach(_, _) => 7
    case Advance(_, _, _) => 6
    case PopCount(_, _, _) => 5
    case PopUnlock(_, _, _) => 4
    case CopyOut(_, _) => 3
    case FreeOld(_, _, _) => 2
    case GiveUp(_, _) => 2
    case StealLock => 10
    case StealCompare => 9
    case StealPrev => 8
    case StealValue(_) => 7
    case StealTail(_, _) => 6
    case StealCut(_, _) => 5
    case StealCount(_) => 4
    case StealUnlockHead(_) => 3
    case StealUnlockTail(_) => 2
    case ExitStore => 2
    case Return(_, _) => 1
  }

  lemma StepLowersRank<T>(m: Memory<T>, pc: Pc<T>, c: Choice<T>)
    requires Safe(m, pc) && Busy(pc)
    ensures Rank(PcAfter(m, pc, c)) < Rank(pc)
  {
  }

  /** An operation ends only by returning its answer, and a call begins it. */
  lemma EndsByReturning<T>(m: Memory<T>, pc: Pc<T>, c: Choice<T>)
    requires Safe(m, pc)
    ensures PcAfter(m, pc, c).Ready? <==> pc.Return?
  {
  }

  /** The steps thread `t` makes from state `i` to state `n`. */
  function OwnSteps<T>(moves: seq<Move<T>>, t: Thread, i: nat, n: nat): nat
    requires i <= n <= |moves|
  {
    if n == i then 0 else OwnSteps(moves, t, i, n - 1) + if moves[n - 1].t == t then 1 else 0
  }

  /** No operation runs in circles: from any state on, a thread makes at most 15 steps before it has returned or is
      parked, whatever the other threads do in between. */
  lemma {:induction false} OwnStepsAreBounded<T(!new)>(run: seq<State<T>>, moves: seq<Move<T>>, t: Thread,
                                                       i: nat, n: nat)
    requires Follows(run, moves) && i <= n < |run| && t in run[i].pcs
    requires forall j | i <= j < n :: t in run[j].pcs && Busy(run[j].pcs[t])
    ensures t in run[n].pcs && OwnSteps(moves, t, i, n) + Rank(run[n].pcs[t]) <= Rank(run[i].pcs[t]) <= 15
  {
    if n > i {
      OwnStepsAreBounded(run, moves, t, i, n - 1);
      StepIsDone(run, moves, n - 1);
      if moves[n - 1].t == t {
        StepLowersRank(run[n - 1].mem, run[n - 1].pcs[t], moves[n - 1].c);
      }
    }
  }

  // ---------------------------------------------------------------- when a pop is parked

  /** The program's own test for an empty queue. */
  predicate IsEmptyNow<T>(m: Memory<T>) {
    m.head == Some(m.tail)
  }

  /** Since some instant at which the queue was empty the thread has held the head lock. */
  ghost predicate SawEmpty<T(!new)>(run: seq<State<T>>, n: nat, t: Thread)
    requires n < |run|
  {
    exists j | 0 <= j <= n :: IsEmptyNow(run[j].mem) && forall l | j <= l <= n :: Locked(run[l], t)
  }

  predicate Locked<T>(s: State<T>, t: Thread) {
    t in s.pcs && HoldsHead(s.pcs[t])
  }

  /** What the test of the wait predicate has found so far. */
  ghost predicate EmptyIfSaid<T(!new)>(run: seq<State<T>>, n: nat, t: Thread)
    requires n < |run| && t in run[n].pcs
  {
    match run[n].pcs[t]
    case TailUnlock(_, _, seen) => run[n].mem.head == Some(seen) ==> SawEmpty(run, n, t)
    case Compare(_, _, seen) => run[n].mem.head == Some(seen) ==> SawEmpty(run, n, t)
    case WaitStop(_, _) => SawEmpty(run, n, t)
    case _ => true
  }

  lemma HeadIsOwn<T(!new)>(run: seq<State<T>>, moves: seq<Move<T>>, n: nat, t: Thread)
    requires Follows(run, moves) && n < |moves| && Locked(run[n], t) && moves[n].t != t
    ensures run[n + 1].mem.head == run[n].mem.head && t in run[n + 1].pcs && run[n + 1].pcs[t] == run[n].pcs[t]
  {
    StepIsDone(run, moves, n);
    var chain, a := RunAccounts(run, moves, n);
    OneHeadHolder(run[n], chain, t, moves[n].t);
    OnlyHolderMovesHead(run[n].mem, run[n].pcs[moves[n].t], moves[n].c);
  }

  lemma OneHeadHolder<T(!new)>(s: State<T>, chain: Chain, t: Thread, u: Thread)
    requires Good(s, chain) && Locked(s, t) && u in s.pcs && u != t
    ensures !HoldsHead(s.pcs[u])
  {
  }

  lemma OnlyHolderMovesHead<T>(m: Memory<T>, pc: Pc<T>, c: Choice<T>)
    requires Safe(m, pc) && !HoldsHead(pc)
    ensures MemAfter(m, pc, c).head == m.head
  {
  }

  lemma StillSawEmpty<T(!new)>(run: seq<State<T>>, n: nat, t: Thread)
    requires n + 1 < |run| && SawEmpty(run, n, t) && Locked(run[n + 1], t)
    ensures SawEmpty(run, n + 1, t)
  {
    var j :| 0 <= j <= n && IsEmptyNow(run[j].mem) && forall l | j <= l <= n :: Locked(run[l], t);
    assert forall l | j <= l <= n + 1 :: Locked(run[l], t);
  }

  lemma {:induction false} SaidIsSeen<T(!new)>(run: seq<State<T>>, moves: seq<Move<T>>, n: nat, t: Thread)
    requires Follows(run, moves) && n < |run| && t in run[n].pcs
    ensures EmptyIfSaid(run, n, t)
  {
    if n > 0 {
      StepIsDone(run, moves, n - 1);
      SaidIsSeen(run, moves, n - 1, t);
      var pc := run[n].pcs[t];
      if pc.TailUnlock? || pc.Compare? || pc.WaitStop? {
        if moves[n - 1].t == t {
          OwnSaidIsSeen(run, moves, n - 1, t);
        } else {
          HeadIsOwn(run, moves, n - 1, t);
          if SawEmpty(run, n - 1, t) {
            StillSawEmpty(run, n - 1, t);
          }
        }
      }
    }
  }

  lemma OwnSaidIsSeen<T(!new)>(run: seq<State<T>>, moves: seq<Move<T>>, n: nat, t: Thread)
    requires n < |moves| < |run| && moves[n].t == t && t in run[n].pcs && Safe(run[n].mem, run[n].pcs[t])
    requires Enabled(run[n], t, moves[n].c) && run[n + 1] == Do(run[n], t, moves[n].c)
    requires EmptyIfSaid(run, n, t)
    requires var pc := run[n + 1].pcs[t]; pc.TailUnlock? || pc.Compare? || pc.WaitStop?
    ensures EmptyIfSaid(run, n + 1, t)
  {
    assert Locked(run[n + 1], t);
    if run[n].pcs[t].TailRead? {
      if IsEmptyNow(run[n].mem) {
        assert Locked(run[n], t) && forall l | n <= l <= n :: Locked(run[l], t);
        assert SawEmpty(run, n, t);
        StillSawEmpty(run, n, t);
      }
    } else if SawEmpty(run, n, t) {
      StillSawEmpty(run, n, t);
    }
  }

  /** A pop is parked only if the queue was empty at an instant since which it has held the head lock, if the stop
      flag was not set, and if it has not timed out. */
  lemma ParksOnlyOnEmpty<T(!new)>(run: seq<State<T>>, moves: seq<Move<T>>, n: nat, t: Thread)
    requires Follows(run, moves) && n < |moves| && moves[n].t == t && t in run[n].pcs
    requires t in run[n + 1].pcs && run[n + 1].pcs[t].Parked?
    ensures SawEmpty(run, n, t) && !run[n].mem.stop && !IsLate(run[n].pcs[t])
  {
    StepIsDone(run, moves, n);
    SaidIsSeen(run, moves, n, t);
  }

  // ---------------------------------------------------------------- the timed pop

  /** A timed wait that is over. */
  predicate IsLate<T>(pc: Pc<T>) {
    match pc
    case HeadLock(_, late) => late
    case TailLock(_, late) => late
    case TailRead(_, late) => late
    case TailUnlock(_, late, _) => late
    case Compare(_, late, _) => late
    case WaitStop(_, late) => late
    case StopCheck(_, late, _) => late
    case _ => false
  }

  /** The thread woke because its 100 ms were over. */
  predicate WokeLate<T>(run: seq<State<T>>, moves: seq<Move<T>>, j: nat, t: Thread)
    requires j < |moves| && j < |run|
  {
    moves[j].t == t && t in run[j].pcs && run[j].pcs[t] == Parked(TimedPop) && moves[j].c.timeout
  }

  /** Whether a timed pop that says `pc` has a reason to give up. */
  ghost predicate Excused<T(!new)>(run: seq<State<T>>, moves: seq<Move<T>>, i: nat, n: nat, t: Thread)
    requires n <= |moves| < |run| && t in run[n].pcs
  {
    var pc := run[n].pcs[t];
    var timedOut := exists j | i < j < n :: WokeLate(run, moves, j, t);
    && (IsLate(pc) ==> timedOut)
    && (pc == GiveUp(TimedPop, Nothing) || pc == Return(AtHead(TimedPop), Nothing) ==> timedOut || run[n].mem.stop)
  }

  predicate InTimedPop<T>(pc: Pc<T>) {
    match pc
    case HeadLock(k, _) => k.TimedPop?
    case TailLock(k, _) => k.TimedPop?
    case TailRead(k, _) => k.TimedPop?
    case TailUnlock(k, _, _) => k.TimedPop?
    case Compare(k, _, _) => k.TimedPop?
    case WaitStop(k, _) => k.TimedPop?
    case Parked(k) => k.TimedPop?
    case StopCheck(k, _, _) => k.TimedPop?
    case TakeValue(k) => k.TimedPop?
    case Detach(k, _) => k.TimedPop?
    case Advance(k, out, _) => k.TimedPop? && out.Some?
    case PopCount(k, out, popped) => k.TimedPop? && out.Some?
    case PopUnlock(k, out, popped) => k.TimedPop? && out.Some?
    case FreeOld(k, _, _) => k.TimedPop?
    case GiveUp(k, _) => k.TimedPop?
    case Return(op, _) => op == AtHead(TimedPop)
    case _ => false
  }

  lemma TimedStep<T(!new)>(m: Memory<T>, pc: Pc<T>, c: Choice<T>)
    requires Safe(m, pc) && InTimedPop(pc) && !pc.Detach?
    ensures var pc' := PcAfter(m, pc, c);
            && (pc'.Ready? || (InTimedPop(pc') && !pc'.Detach?))
            && (IsLate(pc') ==> IsLate(pc) || (pc == Parked(TimedPop) && c.timeout))
            && (pc' == GiveUp(TimedPop, Nothing) ==> IsLate(pc) || m.stop)
            && (pc' == Return(AtHead(TimedPop), Nothing) ==> pc == GiveUp(TimedPop, Nothing))
            && (pc'.Parked? ==> !IsLate(pc))
  {
  }

  /** A timed pop gives up only on a stopped queue or after its time is over. */
  lemma {:induction false} TimedPopGivesUpLate<T(!new)>(run: seq<State<T>>, moves: seq<Move<T>>, i: nat, n: nat,
                                                        t: Thread)
    requires Follows(run, moves) && Calling(run, moves, i, n, t) && moves[i].c.op == AtHead(TimedPop)
    ensures InTimedPop(run[n].pcs[t]) && !run[n].pcs[t].Detach? && Excused(run, moves, i, n, t)
  {
    StepIsDone(run, moves, n - 1);
    StopStays(run[n - 1].mem, run[n - 1].pcs[moves[n - 1].t], moves[n - 1].c);
    if n - 1 > i {
      TimedPopGivesUpLate(run, moves, i, n - 1, t);
      if moves[n - 1].t == t {
        TimedStep(run[n - 1].mem, run[n - 1].pcs[t], moves[n - 1].c);
        assert run[n - 1].pcs[t] == Parked(TimedPop) && moves[n - 1].c.timeout ==> WokeLate(run, moves, n - 1, t);
      }
    }
  }

  /** Once its time is over a timed pop is not parked again. */
  lemma {:induction false} TimedPopEnds<T(!new)>(run: seq<State<T>>, moves: seq<Move<T>>, i: nat, j: nat, n: nat,
                                                 t: Thread)
    requires Follows(run, moves) && Calling(run, moves, i, n, t) && moves[i].c.op == AtHead(TimedPop)
    requires i < j < n && WokeLate(run, moves, j, t)
    ensures !run[n].pcs[t].Parked? && (Rank(run[n].pcs[t]) > 8 ==> IsLate(run[n].pcs[t]))
  {
    StepIsDone(run, moves, n - 1);
    if n - 1 > j {
      TimedPopEnds(run, moves, i, j, n - 1, t);
      TimedPopGivesUpLate(run, moves, i, n - 1, t);
      if moves[n - 1].t == t {
        TimedStep(run[n - 1].mem, run[n - 1].pcs[t], moves[n - 1].c);
      }
    }
  }
}

/** Conservation over the queue's own runs: the values its steps put into the list and take out of it, and the
    values callers pass and get back. */
module QueueConservation {
  import opened Options
  import opened D = AtomicDeque
  import opened P = QueueProtocol
  import opened QueueInvariant
  import opened QueueSteps
  import opened QueueRefinement
  import opened QueueTheorems

  /** Who makes a step, and what the environment decides at it. */
  datatype Move<T> = Move(t: Thread, c: Choice<T>)

  /** A run together with the moves that make it. */
  ghost predicate Follows<T(!new)>(run: seq<State<T>>, moves: seq<Move<T>>) {
    && |run| == |moves| + 1
    && P.Init(run[0])
    && forall i | 0 <= i < |moves| :: Makes(run, moves, i)
  }

  ghost predicate Makes<T(!new)>(run: seq<State<T>>, moves: seq<Move<T>>, i: nat)
    requires i < |moves| && i + 1 < |run|
  {
    Step(run[i], moves[i].t, moves[i].c, run[i + 1])
  }

  /** Every run has such moves. */
  lemma MovesExist<T(!new)>(run: seq<State<T>>) returns (moves: seq<Move<T>>)
    requires P.IsRun(run)
    ensures Follows(run, moves)
  {
    moves := [];
    while |moves| < |run| - 1
      invariant |moves| <= |run| - 1
      invariant forall i | 0 <= i < |moves| :: Makes(run, moves, i)
    {
      var i := |moves|;
      assert P.Next(run[i], run[i + 1]);
      var t, c :| Step(run[i], t, c, run[i + 1]);
      var longer := moves + [Move(t, c)];
      forall j | 0 <= j < |longer|
        ensures Makes(run, longer, j)
      {
        assert j < i ==> Makes(run, moves, j);
      }
      moves := longer;
    }
  }

  // ---------------------------------------------------------------- the values that move at a step

  /** What happens to a value at a step: a caller passes it to a push, a push makes it part of the list, a pop or a
      steal takes it out of the list, a caller gets it back. */
  datatype Passage = Called | Linked | TakenFront | TakenBack | Returned

  /** The value that makes the passage at a step, if one does. */
  function Moving<T>(p: Passage, m: Memory<T>, pc: Pc<T>, c: Choice<T>): seq<T> {
    match p
    case Called => if pc.Ready? && c.op.Push? then [c.op.v] else []
    case Linked => if pc.PushTail? then [pc.v] else []
    case TakenFront =>
      if !pc.Advance? then []
      else if pc.out.Some? then [pc.out.value]
      else if pc.node in m.heap && m.heap[pc.node].data.Full? then [m.heap[pc.node].data.v]
      else []
    case TakenBack => if pc.StealTail? then [pc.v] else []
    case Returned => if pc.Return? && pc.res.Got? then [pc.res.v] else []
  }

  function MovingAt<T>(p: Passage, s: State<T>, move: Move<T>): seq<T> {
    if move.t in s.pcs then Moving(p, s.mem, s.pcs[move.t], move.c) else []
  }

  /** The values that make the passage in the first `n` steps, at steps of the threads `ts`. */
  function Values<T>(p: Passage, run: seq<State<T>>, moves: seq<Move<T>>, ts: set<Thread>, n: nat): seq<T>
    requires n <= |moves| <= |run|
  {
    if n == 0 then []
    else Values(p, run, moves, ts, n - 1) + if moves[n - 1].t in ts then MovingAt(p, run[n - 1], moves[n - 1]) else []
  }

  /** The value passed by a caller whose push has not linked it yet. */
  function Unlinked<T>(st: Status<T>): seq<T> {
    if st.Pending? && st.op.Push? then [st.op.v] else []
  }

  /** The value taken by an operation that has not returned it yet. */
  function Unreturned<T>(st: Status<T>): seq<T> {
    if st.Done? && st.res.Got? then [st.res.v] else []
  }

  /** What an abstract operation may do to the content, told by the number of its items. */
  lemma ApplyBySize<T>(b: Content<T>, op: Op<T>, res: Result<T>)
    requires Apply(b, op, res).Some?
    ensures var items := Apply(b, op, res).value.items;
            && (|items| == |b.items| ==> items == b.items && !op.Push? && !res.Got?)
            && (|items| == |b.items| + 1 <==> op.Push?)
            && (|items| == |b.items| - 1 <==> res.Got?)
  {
  }

  lemma FrontMovesItems<T(!new)>(m: Memory<T>, chain: Chain, pc: Pc<T>, c: Choice<T>)
    requires ChainOk(m, chain) && LocalOk(m, chain, pc) && Safe(m, pc) && pc.Advance?
    requires ChainOk(MemAfter(m, pc, c), ChainAfter(pc, chain)) && MoveOk(m, chain, pc, c)
    ensures Moving(TakenFront, m, pc, c) + Items(MemAfter(m, pc, c), ChainAfter(pc, chain)) == Items(m, chain)
  {
    var items := Items(m, chain);
    assert items == [items[0]] + items[1..];
  }

  lemma BackMovesItems<T(!new)>(m: Memory<T>, chain: Chain, pc: Pc<T>, c: Choice<T>)
    requires ChainOk(m, chain) && LocalOk(m, chain, pc) && Safe(m, pc) && pc.StealTail?
    requires ChainOk(MemAfter(m, pc, c), ChainAfter(pc, chain)) && MoveOk(m, chain, pc, c)
    ensures Items(MemAfter(m, pc, c), ChainAfter(pc, chain)) + [pc.v] == Items(m, chain)
  {
    var items := Items(m, chain);
    assert items == items[..|items| - 1] + [items[|items| - 1]];
  }

  lemma OthersMoveItems<T(!new)>(m: Memory<T>, chain: Chain, pc: Pc<T>, c: Choice<T>)
    requires ChainOk(m, chain) && LocalOk(m, chain, pc) && Safe(m, pc) && !pc.Advance? && !pc.StealTail?
    requires ChainOk(MemAfter(m, pc, c), ChainAfter(pc, chain)) && MoveOk(m, chain, pc, c)
    ensures Items(MemAfter(m, pc, c), ChainAfter(pc, chain)) == Items(m, chain) + Moving(Linked, m, pc, c)
  {
    var m', chain' := MemAfter(m, pc, c), ChainAfter(pc, chain);
    if ContentOf(m', chain') != ContentOf(m, chain) {
      ApplyBySize(ContentOf(m, chain), StatusOf(m, pc).op, StatusOf(m', PcAfter(m, pc, c)).res);
    }
  }

  /** What one step does to the items of the list. */
  lemma StepMovesItems<T(!new)>(m: Memory<T>, chain: Chain, pc: Pc<T>, c: Choice<T>)
    requires ChainOk(m, chain) && LocalOk(m, chain, pc) && Safe(m, pc)
    requires ChainOk(MemAfter(m, pc, c), ChainAfter(pc, chain)) && MoveOk(m, chain, pc, c)
    ensures var items' := Items(MemAfter(m, pc, c), ChainAfter(pc, chain));
            Moving(TakenFront, m, pc, c) + items' + Moving(TakenBack, m, pc, c) ==
            Items(m, chain) + Moving(Linked, m, pc, c)
  {
    if pc.Advance? {
      FrontMovesItems(m, chain, pc, c);
    } else if pc.StealTail? {
      BackMovesItems(m, chain, pc, c);
    } else {
      OthersMoveItems(m, chain, pc, c);
    }
  }

  /** What one step does to the value its thread is about to link ... */
  lemma StepMovesCall<T(!new)>(m: Memory<T>, chain: Chain, pc: Pc<T>, c: Choice<T>)
    requires ChainOk(m, chain) && LocalOk(m, chain, pc) && Safe(m, pc)
    requires ChainOk(MemAfter(m, pc, c), ChainAfter(pc, chain)) && MoveOk(m, chain, pc, c)
    ensures Unlinked(StatusOf(m, pc)) + Moving(Called, m, pc, c) ==
            Moving(Linked, m, pc, c) + Unlinked(StatusOf(MemAfter(m, pc, c), PcAfter(m, pc, c)))
  {
    LinkedStatus(m, chain, pc, c);
  }

  lemma LinkedStatus<T(!new)>(m: Memory<T>, chain: Chain, pc: Pc<T>, c: Choice<T>)
    requires ChainOk(m, chain) && LocalOk(m, chain, pc) && Safe(m, pc)
    requires ChainOk(MemAfter(m, pc, c), ChainAfter(pc, chain)) && MoveOk(m, chain, pc, c)
    ensures var st, st' := StatusOf(m, pc), StatusOf(MemAfter(m, pc, c), PcAfter(m, pc, c));
            && (st.Pending? && st'.Done? && st.op.Push? <==> pc.PushTail?)
            && (st.Pending? && st'.Done? && st'.res.Got? <==> pc.Advance? || pc.StealTail?)
  {
    var m', pc' := MemAfter(m, pc, c), PcAfter(m, pc, c);
    var b, st, st' := ContentOf(m, chain), StatusOf(m, pc), StatusOf(m', pc');
    if st.Pending? && st'.Done? {
      ApplyBySize(b, st.op, st'.res);
    }
  }

  lemma TakingMovesAnswer<T(!new)>(m: Memory<T>, chain: Chain, pc: Pc<T>, c: Choice<T>)
    requires ChainOk(m, chain) && LocalOk(m, chain, pc) && Safe(m, pc) && (pc.Advance? || pc.StealTail?)
    requires ChainOk(MemAfter(m, pc, c), ChainAfter(pc, chain)) && MoveOk(m, chain, pc, c)
    ensures Unreturned(StatusOf(m, pc)) + Moving(TakenFront, m, pc, c) + Moving(TakenBack, m, pc, c) ==
            Moving(Returned, m, pc, c) + Unreturned(StatusOf(MemAfter(m, pc, c), PcAfter(m, pc, c)))
  {
  }

  lemma OthersKeepAnswer<T(!new)>(m: Memory<T>, chain: Chain, pc: Pc<T>, c: Choice<T>)
    requires ChainOk(m, chain) && LocalOk(m, chain, pc) && Safe(m, pc)
    requires !pc.Advance? && !pc.StealTail? && !pc.Return?
    requires ChainOk(MemAfter(m, pc, c), ChainAfter(pc, chain)) && MoveOk(m, chain, pc, c)
    ensures Unreturned(StatusOf(m, pc)) == Unreturned(StatusOf(MemAfter(m, pc, c), PcAfter(m, pc, c)))
  {
    LinkedStatus(m, chain, pc, c);
    assert !StatusOf(MemAfter(m, pc, c), PcAfter(m, pc, c)).Idle?;
  }

  /** ... and to the value it is about to return. */
  lemma StepMovesAnswer<T(!new)>(m: Memory<T>, chain: Chain, pc: Pc<T>, c: Choice<T>)
    requires ChainOk(m, chain) && LocalOk(m, chain, pc) && Safe(m, pc)
    requires ChainOk(MemAfter(m, pc, c), ChainAfter(pc, chain)) && MoveOk(m, chain, pc, c)
    ensures Unreturned(StatusOf(m, pc)) + Moving(TakenFront, m, pc, c) + Moving(TakenBack, m, pc, c) ==
            Moving(Returned, m, pc, c) + Unreturned(StatusOf(MemAfter(m, pc, c), PcAfter(m, pc, c)))
  {
    if pc.Advance? || pc.StealTail? {
      TakingMovesAnswer(m, chain, pc, c);
    } else if !pc.Return? {
      OthersKeepAnswer(m, chain, pc, c);
    }
  }

  // ---------------------------------------------------------------- along a run

  /** The values of the first `n` steps against the state they lead to. */
  ghost predicate Balanced<T(!new)>(run: seq<State<T>>, moves: seq<Move<T>>, n: nat, items: seq<T>)
    requires n <= |moves| < |run|
  {
    var all := run[0].pcs.Keys;
    var linked := Values(Linked, run, moves, all, n);
    var front, back := Values(TakenFront, run, moves, all, n), Values(TakenBack, run, moves, all, n);
    && multiset(linked) == multiset(front) + multiset(back) + multiset(items)
    && (back == [] ==> linked == front + items)
  }

  /** The same for one thread with status `st`. */
  ghost predicate Squared<T(!new)>(run: seq<State<T>>, moves: seq<Move<T>>, n: nat, t: Thread, st: Status<T>)
    requires n <= |moves| < |run|
  {
    && Values(Called, run, moves, {t}, n) == Values(Linked, run, moves, {t}, n) + Unlinked(st)
    && multiset(Values(TakenFront, run, moves, {t}, n)) + multiset(Values(TakenBack, run, moves, {t}, n)) ==
       multiset(Values(Returned, run, moves, {t}, n)) + multiset(Unreturned(st))
  }

  lemma BalanceStep<T>(linked: seq<T>, front: seq<T>, back: seq<T>, items: seq<T>,
                       put: seq<T>, first: seq<T>, last: seq<T>, items': seq<T>)
    requires multiset(linked) == multiset(front) + multiset(back) + multiset(items)
    requires back == [] ==> linked == front + items
    requires first + items' + last == items + put
    ensures multiset(linked + put) == multiset(front + first) + multiset(back + last) + multiset(items')
    ensures back + last == [] ==> linked + put == front + first + items'
  {
    assert multiset(first + items' + last) == multiset(items + put);
    Balance(multiset(linked), multiset(front) + multiset(back), multiset(items), multiset(items'), multiset(put),
            multiset(first) + multiset(last));
    if back + last == [] {
      assert back == [] && last == [];
      assert first + items' + last == first + items';
      assert front + items + put == front + (items + put);
      assert front + first + items' == front + (first + items');
    }
  }

  lemma CallStep<T>(called: seq<T>, linked: seq<T>, unlinked: seq<T>, call: seq<T>, link: seq<T>, unlinked': seq<T>)
    requires called == linked + unlinked && unlinked + call == link + unlinked'
    ensures called + call == linked + link + unlinked'
  {
    assert linked + unlinked + call == linked + (unlinked + call);
    assert linked + link + unlinked' == linked + (link + unlinked');
  }

  lemma AnswerStep<T>(front: seq<T>, back: seq<T>, returned: seq<T>, unreturned: seq<T>,
                      first: seq<T>, last: seq<T>, ret: seq<T>, unreturned': seq<T>)
    requires multiset(front) + multiset(back) == multiset(returned) + multiset(unreturned)
    requires unreturned + first + last == ret + unreturned'
    ensures multiset(front + first) + multiset(back + last) == multiset(returned + ret) + multiset(unreturned')
  {
    assert multiset(unreturned + first + last) == multiset(ret + unreturned');
    assert multiset(unreturned + first + last) == multiset(unreturned) + (multiset(first) + multiset(last));
    assert multiset(ret + unreturned') == multiset(unreturned') + multiset(ret);
    Balance(multiset(front) + multiset(back), multiset(returned), multiset(unreturned), multiset(unreturned'),
            multiset(first) + multiset(last), multiset(ret));
  }

  lemma FollowsStep<T(!new)>(run: seq<State<T>>, moves: seq<Move<T>>, i: nat)
    requires Follows(run, moves) && i < |moves|
    ensures Step(run[i], moves[i].t, moves[i].c, run[i + 1]) && moves[i].t in run[i].pcs
  {
    assert Makes(run, moves, i);
  }

  /** Everything that is kept along a run, for the list `chain` and an abstract state that the run refines. */
  ghost predicate Accounted<T(!new)>(run: seq<State<T>>, moves: seq<Move<T>>, n: nat, chain: Chain, a: Machine<T>) {
    && n <= |moves| < |run|
    && Refines(run[n], chain, a)
    && run[n].pcs.Keys == run[0].pcs.Keys
    && Balanced(run, moves, n, a.content.items)
    && forall t | t in run[n].pcs :: Squared(run, moves, n, t, a.threads[t])
  }

  /** How a move takes the items of the list from `items` to `items'` and the status of its thread from `st` to
      `st'`, told by the values it moves. */
  ghost predicate Passes<T(!new)>(s: State<T>, move: Move<T>, items: seq<T>, st: Status<T>,
                                  items': seq<T>, st': Status<T>) {
    && MovingAt(TakenFront, s, move) + items' + MovingAt(TakenBack, s, move) == items + MovingAt(Linked, s, move)
    && Unlinked(st) + MovingAt(Called, s, move) == MovingAt(Linked, s, move) + Unlinked(st')
    && Unreturned(st) + MovingAt(TakenFront, s, move) + MovingAt(TakenBack, s, move) ==
       MovingAt(Returned, s, move) + Unreturned(st')
  }

  lemma OwnPasses<T(!new)>(s: State<T>, t: Thread, c: Choice<T>, s': State<T>, chain: Chain)
    requires Good(s, chain) && Step(s, t, c, s') && Safe(s.mem, s.pcs[t]) && Good(s', ChainAfter(s.pcs[t], chain))
    requires Readable(s.mem, s.pcs[t]) && t in s'.pcs && Readable(s'.mem, s'.pcs[t])
    ensures Passes(s, Move(t, c), Items(s.mem, chain), StatusOf(s.mem, s.pcs[t]),
                   Items(s'.mem, ChainAfter(s.pcs[t], chain)), StatusOf(s'.mem, s'.pcs[t]))
  {
    OwnStatus(s, t, c, s', chain);
    assert LocalOk(s.mem, chain, s.pcs[t]);
    StepMovesItems(s.mem, chain, s.pcs[t], c);
    StepMovesCall(s.mem, chain, s.pcs[t], c);
    StepMovesAnswer(s.mem, chain, s.pcs[t], c);
  }

  lemma BalanceKept<T(!new)>(run: seq<State<T>>, moves: seq<Move<T>>, n: nat,
                             items: seq<T>, st: Status<T>, items': seq<T>, st': Status<T>)
    requires n < |moves| < |run| && moves[n].t in run[0].pcs && Balanced(run, moves, n, items)
    requires Passes(run[n], moves[n], items, st, items', st')
    ensures Balanced(run, moves, n + 1, items')
  {
    var all := run[0].pcs.Keys;
    BalanceStep(Values(Linked, run, moves, all, n), Values(TakenFront, run, moves, all, n),
                Values(TakenBack, run, moves, all, n), items, MovingAt(Linked, run[n], moves[n]),
                MovingAt(TakenFront, run[n], moves[n]), MovingAt(TakenBack, run[n], moves[n]), items');
  }

  lemma OtherSquareKept<T(!new)>(run: seq<State<T>>, moves: seq<Move<T>>, n: nat, t: Thread, st: Status<T>)
    requires n < |moves| < |run| && Squared(run, moves, n, t, st) && moves[n].t != t
    ensures Squared(run, moves, n + 1, t, st)
  {
    assert forall p: Passage :: Values(p, run, moves, {t}, n + 1) == Values(p, run, moves, {t}, n);
  }

  lemma OwnSquareKept<T(!new)>(run: seq<State<T>>, moves: seq<Move<T>>, n: nat,
                               items: seq<T>, st: Status<T>, items': seq<T>, st': Status<T>)
    requires n < |moves| < |run| && Squared(run, moves, n, moves[n].t, st)
    requires Passes(run[n], moves[n], items, st, items', st')
    ensures Squared(run, moves, n + 1, moves[n].t, st')
  {
    var s, move, mine := run[n], moves[n], {moves[n].t};
    CallStep(Values(Called, run, moves, mine, n), Values(Linked, run, moves, mine, n), Unlinked(st),
             MovingAt(Called, s, move), MovingAt(Linked, s, move), Unlinked(st'));
    AnswerStep(Values(TakenFront, run, moves, mine, n), Values(TakenBack, run, moves, mine, n),
               Values(Returned, run, moves, mine, n), Unreturned(st), MovingAt(TakenFront, s, move),
               MovingAt(TakenBack, s, move), MovingAt(Returned, s, move), Unreturned(st'));
  }

  /** One step, as far as it concerns refinement. */
  lemma StepPasses<T(!new)>(s: State<T>, t: Thread, c: Choice<T>, s': State<T>, chain: Chain, a: Machine<T>)
    returns (chain': Chain, a': Machine<T>)
    requires Refines(s, chain, a) && Step(s, t, c, s')
    ensures Refines(s', chain', a') && s'.pcs.Keys == s.pcs.Keys && t in s.pcs
    ensures forall u | u in s.pcs && u != t :: a'.threads[u] == a.threads[u]
    ensures Passes(s, Move(t, c), a.content.items, a.threads[t], a'.content.items, a'.threads[t])
  {
    StepKeepsGood(s, t, c, s', chain);
    chain' := ChainAfter(s.pcs[t], chain);
    a' := OwnAbstractStep(s, t, c, s', chain, a);
    StatusesFollow(s, t, c, s', chain, a);
    OwnPasses(s, t, c, s', chain);
  }

  lemma StepAccounts<T(!new)>(run: seq<State<T>>, moves: seq<Move<T>>, n: nat, a: Machine<T>, a': Machine<T>)
    requires n < |moves| < |run| && moves[n].t in run[0].pcs && a.threads.Keys == a'.threads.Keys == run[0].pcs.Keys
    requires Balanced(run, moves, n, a.content.items)
    requires forall t | t in a.threads :: Squared(run, moves, n, t, a.threads[t])
    requires forall u | u in a.threads && u != moves[n].t :: a'.threads[u] == a.threads[u]
    requires Passes(run[n], moves[n], a.content.items, a.threads[moves[n].t], a'.content.items, a'.threads[moves[n].t])
    ensures Balanced(run, moves, n + 1, a'.content.items)
    ensures forall t | t in a'.threads :: Squared(run, moves, n + 1, t, a'.threads[t])
  {
    var t, b, b' := moves[n].t, a.content.items, a'.content.items;
    BalanceKept(run, moves, n, b, a.threads[t], b', a'.threads[t]);
    OwnSquareKept(run, moves, n, b, a.threads[t], b', a'.threads[t]);
    forall u | u in a'.threads && u != t
      ensures Squared(run, moves, n + 1, u, a'.threads[u])
    {
      OtherSquareKept(run, moves, n, u, a.threads[u]);
    }
  }

  lemma StartAccounts<T(!new)>(run: seq<State<T>>, moves: seq<Move<T>>) returns (chain: Chain, a: Machine<T>)
    requires Follows(run, moves)
    ensures Accounted(run, moves, 0, chain, a)
  {
    var dummy: Addr :| run[0].mem == Memory(map[dummy := Node(Null, None, None)], Some(dummy), dummy, false);
    chain, a := [dummy], Machine(Content([], false), map t | t in run[0].pcs :: Status<T>.Idle, []);
    InitRefines(run[0], dummy, a);
  }

  lemma NextAccounts<T(!new)>(run: seq<State<T>>, moves: seq<Move<T>>, n: nat, chain: Chain, a: Machine<T>)
    returns (chain': Chain, a': Machine<T>)
    requires Follows(run, moves) && n < |moves| && Accounted(run, moves, n, chain, a)
    ensures Accounted(run, moves, n + 1, chain', a')
  {
    FollowsStep(run, moves, n);
    chain', a' := StepPasses(run[n], moves[n].t, moves[n].c, run[n + 1], chain, a);
    StepAccounts(run, moves, n, a, a');
  }

  lemma {:induction false} RunAccounts<T(!new)>(run: seq<State<T>>, moves: seq<Move<T>>, n: nat)
    returns (chain: Chain, a: Machine<T>)
    requires Follows(run, moves) && n < |run|
    ensures Accounted(run, moves, n, chain, a)
  {
    if n == 0 {
      chain, a := StartAccounts(run, moves);
    } else {
      chain, a := RunAccounts(run, moves, n - 1);
      chain, a := NextAccounts(run, moves, n - 1, chain, a);
    }
  }

  // ---------------------------------------------------------------- what holds in every run

  /** In every state of every run the values in the live nodes are exactly those that pushes have linked and neither
      pops nor steals have taken out: none lost, duplicated, invented, or taken from a stale cell.  Without steals they
      leave in the order in which they were linked. */
  lemma NothingLost<T(!new)>(run: seq<State<T>>, moves: seq<Move<T>>, n: nat) returns (chain: Chain)
    requires Follows(run, moves) && n < |run|
    ensures Good(run[n], chain)
    ensures var all := run[0].pcs.Keys;
            var linked := Values(Linked, run, moves, all, n);
            var front, back := Values(TakenFront, run, moves, all, n), Values(TakenBack, run, moves, all, n);
            && multiset(linked) == multiset(front) + multiset(back) + multiset(Items(run[n].mem, chain))
            && (back == [] ==> linked == front + Items(run[n].mem, chain))
  {
    var a;
    chain, a := RunAccounts(run, moves, n);
  }

  /** What a thread's pushes link is what its callers pass, in that order, but for the push in progress; what its
      callers get back is what its pops and steals take out, but for the one in progress. */
  lemma CallersAreServed<T(!new)>(run: seq<State<T>>, moves: seq<Move<T>>, n: nat, t: Thread)
    requires Follows(run, moves) && n < |run| && t in run[n].pcs
    ensures Readable(run[n].mem, run[n].pcs[t])
    ensures var st := StatusOf(run[n].mem, run[n].pcs[t]);
            && Values(Called, run, moves, {t}, n) == Values(Linked, run, moves, {t}, n) + Unlinked(st)
            && multiset(Values(TakenFront, run, moves, {t}, n)) + multiset(Values(TakenBack, run, moves, {t}, n)) ==
               multiset(Values(Returned, run, moves, {t}, n)) + multiset(Unreturned(st))
  {
    var chain, a := RunAccounts(run, moves, n);
    assert Squared(run, moves, n, t, a.threads[t]);
  }

  lemma {:induction false} ValuesOfOne<T>(p: Passage, run: seq<State<T>>, moves: seq<Move<T>>, ts: set<Thread>,
                                          t: Thread, n: nat)
    requires n <= |moves| <= |run| && t in ts
    ensures multiset(Values(p, run, moves, ts, n)) ==
            multiset(Values(p, run, moves, ts - {t}, n)) + multiset(Values(p, run, moves, {t}, n))
  {
    if n > 0 {
      ValuesOfOne(p, run, moves, ts, t, n - 1);
    }
  }

  lemma {:induction false} ValuesOfNone<T>(p: Passage, run: seq<State<T>>, moves: seq<Move<T>>, n: nat)
    requires n <= |moves| <= |run|
    ensures Values(p, run, moves, {}, n) == []
  {
    if n > 0 {
      ValuesOfNone(p, run, moves, n - 1);
    }
  }

  /** Threads that have nothing in progress have linked what was passed to them and returned what they took. */
  lemma {:induction false} ThreadsAreSquare<T(!new)>(run: seq<State<T>>, moves: seq<Move<T>>, n: nat, ts: set<Thread>)
    requires Follows(run, moves) && n < |run|
    requires forall t | t in ts :: t in run[n].pcs && run[n].pcs[t].Ready?
    ensures multiset(Values(Called, run, moves, ts, n)) == multiset(Values(Linked, run, moves, ts, n))
    ensures multiset(Values(TakenFront, run, moves, ts, n)) + multiset(Values(TakenBack, run, moves, ts, n)) ==
            multiset(Values(Returned, run, moves, ts, n))
  {
    if ts == {} {
      ValuesOfNone(Called, run, moves, n);
      ValuesOfNone(Linked, run, moves, n);
      ValuesOfNone(TakenFront, run, moves, n);
      ValuesOfNone(TakenBack, run, moves, n);
      ValuesOfNone(Returned, run, moves, n);
    } else {
      var t :| t in ts;
      ThreadsAreSquare(run, moves, n, ts - {t});
      ReadyIsSquare(run, moves, n, t);
      ValuesOfOne(Called, run, moves, ts, t, n);
      ValuesOfOne(Linked, run, moves, ts, t, n);
      ValuesOfOne(TakenFront, run, moves, ts, t, n);
      ValuesOfOne(TakenBack, run, moves, ts, t, n);
      ValuesOfOne(Returned, run, moves, ts, t, n);
    }
  }

  lemma ReadyIsSquare<T(!new)>(run: seq<State<T>>, moves: seq<Move<T>>, n: nat, t: Thread)
    requires Follows(run, moves) && n < |run| && t in run[n].pcs && run[n].pcs[t].Ready?
    ensures multiset(Values(Called, run, moves, {t}, n)) == multiset(Values(Linked, run, moves, {t}, n))
    ensures multiset(Values(TakenFront, run, moves, {t}, n)) + multiset(Values(TakenBack, run, moves, {t}, n)) ==
            multiset(Values(Returned, run, moves, {t}, n))
  {
    CallersAreServed(run, moves, n, t);
    assert Values(Linked, run, moves, {t}, n) + [] == Values(Linked, run, moves, {t}, n);
  }

  /** Whenever no operation is in progress, the values callers have passed to pushes are exactly the ones callers have
      got back and the ones still in the list. */
  lemma NothingLostForCallers<T(!new)>(run: seq<State<T>>, moves: seq<Move<T>>, n: nat) returns (chain: Chain)
    requires Follows(run, moves) && n < |run| && forall t | t in run[n].pcs :: run[n].pcs[t].Ready?
    ensures Good(run[n], chain)
    ensures var all := run[0].pcs.Keys;
            multiset(Values(Called, run, moves, all, n)) ==
            multiset(Values(Returned, run, moves, all, n)) + multiset(Items(run[n].mem, chain))
  {
    var a;
    chain, a := RunAccounts(run, moves, n);
    ThreadsAreSquare(run, moves, n, run[0].pcs.Keys);
  }
}

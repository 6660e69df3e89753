/** The atomic deque that the concurrent queue promises to be.

    `Apply` is the sequential meaning of one operation together with the answer it gave.  The
    abstract machine lets any number of threads invoke an operation, have it take effect at one
    instant, and return the answer fixed at that instant, so refining it is linearizability. */
module AtomicDeque {
  import opened Options

  /** The operations that start by locking the head; `byRef` tells the overload that moves the value
      out under the lock from the one that returns the node's shared pointer. */
  datatype Kind = TryPop(byRef: bool) | WaitPop(byRef: bool) | TimedPop | IsEmpty

  datatype Op<T> = Push(v: T) | AtHead(kind: Kind) | Steal | Exit

  datatype Result<T> = Unit | Got(v: T) | Nothing | Answer(b: bool)

  datatype Content<T> = Content(items: seq<T>, stop: bool)

  datatype Event<T> = Event(thread: nat, op: Op<T>, res: Result<T>)

  datatype Status<T> = Idle | Pending(op: Op<T>) | Done(op: Op<T>, res: Result<T>)

  datatype Machine<T> = Machine(content: Content<T>, threads: map<nat, Status<T>>, hist: seq<Event<T>>)

  /** The content after `op` answers `res`, or None when that answer is not allowed. */
  function Apply<T(==)>(c: Content<T>, op: Op<T>, res: Result<T>): Option<Content<T>> {
    match op
    case Push(v) =>
      if res == Unit then Some(c.(items := c.items + [v])) else None
    case Exit =>
      if res == Unit then Some(c.(stop := true)) else None
    case Steal =>
      if res == Nothing && c.items == [] then Some(c)
      else if res.Got? && c.items != [] && res.v == c.items[|c.items| - 1] then
        Some(c.(items := c.items[..|c.items| - 1]))
      else None
    case AtHead(k) =>
      if res.Answer? && k.IsEmpty? && res.b == (c.items == []) then Some(c)
      else if res.Got? && !k.IsEmpty? && c.items != [] && res.v == c.items[0] then
        Some(c.(items := c.items[1..]))
      else if res == Nothing && MayGiveUp(c, k) then Some(c)
      else None
  }

  /** When a pop may come back without a value: only on an empty queue or a stopped one. */
  predicate MayGiveUp<T>(c: Content<T>, k: Kind) {
    match k
    case TryPop(_) => |c.items| == 0
    case WaitPop(_) => c.stop
    case TimedPop => c.stop || |c.items| == 0
    case IsEmpty => false
  }

  ghost predicate Init<T(!new)>(a: Machine<T>) {
    a.content == Content([], false) && a.hist == [] && forall t | t in a.threads :: a.threads[t] == Idle
  }

  ghost predicate Invoke<T(!new)>(a: Machine<T>, t: nat, op: Op<T>, a': Machine<T>) {
    t in a.threads && a.threads[t] == Idle && a' == a.(threads := a.threads[t := Pending(op)])
  }

  ghost predicate Linearize<T(!new)>(a: Machine<T>, t: nat, res: Result<T>, a': Machine<T>) {
    && t in a.threads
    && a.threads[t].Pending?
    && var op := a.threads[t].op;
    && Apply(a.content, op, res).Some?
    && a' == Machine(Apply(a.content, op, res).value, a.threads[t := Done(op, res)], a.hist + [Event(t, op, res)])
  }

  ghost predicate Respond<T(!new)>(a: Machine<T>, t: nat, a': Machine<T>) {
    t in a.threads && a.threads[t].Done? && a' == a.(threads := a.threads[t := Idle])
  }

  ghost predicate Next<T(!new)>(a: Machine<T>, a': Machine<T>) {
    || a' == a
    || (exists t, op :: Invoke(a, t, op, a'))
    || (exists t, res :: Linearize(a, t, res, a'))
    || (exists t :: Respond(a, t, a'))
  }

  ghost predicate IsRun<T(!new)>(run: seq<Machine<T>>) {
    && |run| > 0
    && Init(run[0])
    && forall i | 0 <= i < |run| - 1 :: Next(run[i], run[i + 1])
  }

  /** Runs the operations of a history one after another on an empty queue. */
  function Replay<T(==)>(h: seq<Event<T>>): Option<Content<T>> {
    if h == [] then Some(Content([], false))
    else
      var before := Replay(h[..|h| - 1]);
      var e := h[|h| - 1];
      if before.None? then None else Apply(before.value, e.op, e.res)
  }

  function Pushed<T>(h: seq<Event<T>>): seq<T> {
    if h == [] then []
    else
      var e := h[|h| - 1];
      Pushed(h[..|h| - 1]) + if e.op.Push? then [e.op.v] else []
  }

  function Popped<T>(h: seq<Event<T>>): seq<T> {
    if h == [] then []
    else
      var e := h[|h| - 1];
      Popped(h[..|h| - 1]) + if e.op.AtHead? && e.res.Got? then [e.res.v] else []
  }

  function Stolen<T>(h: seq<Event<T>>): seq<T> {
    if h == [] then []
    else
      var e := h[|h| - 1];
      Stolen(h[..|h| - 1]) + if e.op.Steal? && e.res.Got? then [e.res.v] else []
  }

  /** The history explains the content. */
  ghost predicate Explained<T(!new)>(a: Machine<T>) {
    Replay(a.hist) == Some(a.content)
  }

  lemma ReplayAppends<T>(h: seq<Event<T>>, e: Event<T>)
    requires Replay(h).Some?
    ensures Replay(h + [e]) == Apply(Replay(h).value, e.op, e.res)
  {
    assert (h + [e])[..|h|] == h;
  }

  lemma NextKeepsExplained<T(!new)>(a: Machine<T>, a': Machine<T>)
    requires Explained(a) && Next(a, a')
    ensures Explained(a')
    ensures a.hist <= a'.hist
  {
    if t, res :| Linearize(a, t, res, a') {
      ReplayAppends(a.hist, Event(t, a.threads[t].op, res));
    }
  }

  /** In every state of every run the content is what the history of operations leaves behind, each
      with the answer it gave: the history is a legal sequential execution. */
  lemma {:induction false} RunsAreExplained<T(!new)>(run: seq<Machine<T>>)
    requires IsRun(run)
    ensures forall i | 0 <= i < |run| :: Explained(run[i])
  {
    if |run| > 1 {
      var shorter := run[..|run| - 1];
      forall i | 0 <= i < |shorter| - 1
        ensures Next(shorter[i], shorter[i + 1])
      {
        assert Next(run[i], run[i + 1]);
      }
      RunsAreExplained(shorter);
      assert Explained(shorter[|run| - 2]);
      NextKeepsExplained(run[|run| - 2], run[|run| - 1]);
      forall i | 0 <= i < |run|
        ensures Explained(run[i])
      {
        if i < |run| - 1 {
          assert run[i] == shorter[i];
        }
      }
    }
  }

  /** One operation moves a value in at the back or out at one end, and touches no other. */
  lemma ApplyMovesOneValue<T>(c: Content<T>, op: Op<T>, res: Result<T>)
    requires Apply(c, op, res).Some?
    ensures var after := Apply(c, op, res).value.items;
            multiset(c.items) + (if op.Push? then multiset{op.v} else multiset{}) ==
            multiset(after) + (if !op.Push? && res.Got? then multiset{res.v} else multiset{})
  {
    if op.AtHead? && res.Got? {
      assert c.items == [res.v] + c.items[1..];
    } else if op.Steal? && res.Got? {
      assert c.items == c.items[..|c.items| - 1] + [res.v];
    }
  }

  /** Nothing is lost, duplicated or made up: pushed = popped + stolen + still queued. */
  lemma {:induction false} Conservation<T>(h: seq<Event<T>>)
    requires Replay(h).Some?
    ensures multiset(Pushed(h)) ==
            multiset(Popped(h)) + multiset(Stolen(h)) + multiset(Replay(h).value.items)
  {
    if h != [] {
      var before, e := h[..|h| - 1], h[|h| - 1];
      assert h == before + [e];
      var items, after := Replay(before).value.items, Replay(h).value.items;
      var moved := if e.op.Push? then multiset{e.op.v} else multiset{};
      var taken := if !e.op.Push? && e.res.Got? then multiset{e.res.v} else multiset{};
      Conservation(before);
      ApplyMovesOneValue(Replay(before).value, e.op, e.res);
      ConservationStep(before, e);
      Balance(multiset(Pushed(before)), multiset(Popped(before)) + multiset(Stolen(before)), multiset(items),
              multiset(after), moved, taken);
    }
  }

  lemma Balance<T>(pushed: multiset<T>, out: multiset<T>, items: multiset<T>, after: multiset<T>,
                   moved: multiset<T>, taken: multiset<T>)
    requires pushed == out + items
    requires items + moved == after + taken
    ensures pushed + moved == out + taken + after
  {
    assert pushed + moved == out + (items + moved);
  }

  lemma HistoryAppends<T>(before: seq<Event<T>>, e: Event<T>)
    ensures Pushed(before + [e]) == Pushed(before) + if e.op.Push? then [e.op.v] else []
    ensures Popped(before + [e]) == Popped(before) + if e.op.AtHead? && e.res.Got? then [e.res.v] else []
    ensures Stolen(before + [e]) == Stolen(before) + if e.op.Steal? && e.res.Got? then [e.res.v] else []
  {
    assert (before + [e])[..|before|] == before;
  }

  lemma ConservationStep<T>(before: seq<Event<T>>, e: Event<T>)
    requires Replay(before).Some? && Apply(Replay(before).value, e.op, e.res).Some?
    ensures multiset(Pushed(before + [e])) ==
            multiset(Pushed(before)) + (if e.op.Push? then multiset{e.op.v} else multiset{})
    ensures multiset(Popped(before + [e])) + multiset(Stolen(before + [e])) ==
            multiset(Popped(before)) + multiset(Stolen(before)) +
            (if !e.op.Push? && e.res.Got? then multiset{e.res.v} else multiset{})
  {
    HistoryAppends(before, e);
  }

  /** Without steals the queue is first-in first-out: what was popped, followed by what is still
      queued, is what was pushed, in that order. */
  lemma {:induction false} FirstInFirstOut<T>(h: seq<Event<T>>)
    requires Replay(h).Some? && Stolen(h) == []
    ensures Pushed(h) == Popped(h) + Replay(h).value.items
  {
    if h != [] {
      var before, e := h[..|h| - 1], h[|h| - 1];
      assert h == before + [e];
      FirstInFirstOut(before);
      FifoStep(before, e);
    }
  }

  lemma ApplyIsFifo<T>(c: Content<T>, op: Op<T>, res: Result<T>)
    requires Apply(c, op, res).Some? && !(op.Steal? && res.Got?)
    ensures c.items + (if op.Push? then [op.v] else []) ==
            (if op.AtHead? && res.Got? then [res.v] else []) + Apply(c, op, res).value.items
  {
    if op.AtHead? && res.Got? {
      assert c.items == [res.v] + c.items[1..];
    }
  }

  lemma Regroup<T>(popped: seq<T>, items: seq<T>, pushed: seq<T>, taken: seq<T>, after: seq<T>)
    requires items + pushed == taken + after
    ensures popped + items + pushed == popped + taken + after
  {
    assert popped + items + pushed == popped + (items + pushed);
  }

  lemma FifoStep<T>(before: seq<Event<T>>, e: Event<T>)
    requires Replay(before + [e]).Some? && Stolen(before + [e]) == []
    requires Replay(before).Some? && Pushed(before) == Popped(before) + Replay(before).value.items
    ensures Pushed(before + [e]) == Popped(before + [e]) + Replay(before + [e]).value.items
  {
    ReplayAppends(before, e);
    HistoryAppends(before, e);
    ApplyIsFifo(Replay(before).value, e.op, e.res);
    Regroup(Popped(before), Replay(before).value.items, if e.op.Push? then [e.op.v] else [],
            if e.op.AtHead? && e.res.Got? then [e.res.v] else [], Replay(before + [e]).value.items);
  }
}

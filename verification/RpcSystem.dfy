/** Client stubs on any number of threads, the two directions of the link, and a server that runs requests on a
    pool which may reorder them.  Requests and replies may be lost and calls may time out. */
module RpcSystem {
  import opened Options
  import opened CallTable

  type Thread = nat

  /** What travels: a call or its reply, a notification, or a text that is neither request nor response. */
  datatype Item = Call(id: Id, call: nat) | Notice | Text

  /** Where a stub is in `rpcReturnCall`.  `call` is the record it filed, `found` the one it looked up. */
  datatype Stub =
    | Ready
    | Entered(id: Id)
    | Sleeping(id: Id, call: nat)
    | Holding(id: Id, call: nat, found: Option<nat>)
    | Removing(id: Id, call: nat, found: Option<nat>)
    | Finished(filed: Option<nat>, found: Option<nat>)

  datatype System = System(
    table: Table,
    stubs: map<Thread, Stub>,
    requests: multiset<Item>,
    tasks: multiset<Item>,
    replies: multiset<Item>)

  datatype Event =
    | Enter(t: Thread, id: Id, connected: bool)
    | DoRegister(t: Thread, lost: bool)
    | DoLookup(t: Thread)
    | DoCheck(t: Thread)
    | DoRemove(t: Thread)
    | Restart(t: Thread)
    | Notify
    | Babble
    | LoseRequest(i: Item)
    | Accept(i: Item)
    | RunTask(i: Item, answers: bool)
    | LoseReply(i: Item)
    | Deliver(i: Item)

  predicate Enabled(s: System, e: Event) {
    match e
    case Enter(t, _, _) => t in s.stubs && s.stubs[t].Ready?
    case DoRegister(t, _) => t in s.stubs && s.stubs[t].Entered?
    case DoLookup(t) => t in s.stubs && s.stubs[t].Sleeping?
    case DoCheck(t) => t in s.stubs && s.stubs[t].Holding?
    case DoRemove(t) => t in s.stubs && s.stubs[t].Removing?
    case Restart(t) => t in s.stubs && s.stubs[t].Finished?
    case Notify => true
    case Babble => true
    case LoseRequest(i) => i in s.requests
    case Accept(i) => i in s.requests
    case RunTask(i, _) => i in s.tasks
    case LoseReply(i) => i in s.replies
    case Deliver(i) => i in s.replies
  }

  function At(s: System, t: Thread, stub: Stub): System {
    s.(stubs := s.stubs[t := stub])
  }

  function Next(s: System, e: Event): System
    requires Enabled(s, e)
  {
    match e
    case Enter(t, id, connected) => At(s, t, if connected then Entered(id) else Finished(None, None))
    case DoRegister(t, lost) =>
      var id := s.stubs[t].id;
      if id in s.table.ids then At(s, t, Finished(None, None))
      else
        var call := |s.table.records|;
        At(s.(table := Register(s.table, id),
              requests := if lost then s.requests else s.requests + multiset{Call(id, call)}),
           t, Sleeping(id, call))
    case DoLookup(t) =>
      var stub := s.stubs[t];
      At(s, t, Holding(stub.id, stub.call, Lookup(s.table, stub.id)))
    case DoCheck(t) =>
      var stub := s.stubs[t];
      if stub.found.Some? && IsDone(s.table, stub.found.value) then At(s, t, Removing(stub.id, stub.call, stub.found))
      else At(s, t, Finished(Some(stub.call), stub.found))
    case DoRemove(t) =>
      var stub := s.stubs[t];
      At(s.(table := Remove(s.table, stub.id)), t, Finished(Some(stub.call), stub.found))
    case Restart(t) => At(s, t, Ready)
    case Notify => s.(requests := s.requests + multiset{Notice})
    case Babble => s.(requests := s.requests + multiset{Text})
    case LoseRequest(i) => s.(requests := s.requests - multiset{i})
    case Accept(i) =>
      // A request with an id and a notification go to the pool; anything else is answered with a text.
      if i.Text? then s.(requests := s.requests - multiset{i}, replies := s.replies + multiset{Text})
      else s.(requests := s.requests - multiset{i}, tasks := s.tasks + multiset{i})
    case RunTask(i, answers) =>
      // The handler echoes the id of a call, at most once; a notification is never answered.
      if i.Call? && answers then s.(tasks := s.tasks - multiset{i}, replies := s.replies + multiset{i})
      else s.(tasks := s.tasks - multiset{i})
    case LoseReply(i) => s.(replies := s.replies - multiset{i})
    case Deliver(i) =>
      s.(replies := s.replies - multiset{i},
         table := if i.Call? then Receive(s.table, Response(i.id, i.call)) else s.table)
  }

  ghost predicate Init(s: System) {
    && s.table == EMPTY
    && s.requests == s.tasks == s.replies == multiset{}
    && forall t | t in s.stubs :: s.stubs[t].Ready?
  }

  /** A run from any state. */
  ghost predicate Runs(states: seq<System>, events: seq<Event>) {
    |states| == |events| + 1 && forall i | 0 <= i < |events| :: Leads(states, events, i)
  }

  predicate Leads(states: seq<System>, events: seq<Event>, i: nat)
    requires i < |events| && i + 1 < |states|
  {
    Enabled(states[i], events[i]) && states[i + 1] == Next(states[i], events[i])
  }

  ghost predicate IsRun(states: seq<System>, events: seq<Event>) {
    Runs(states, events) && Init(states[0])
  }

  lemma RunStep(states: seq<System>, events: seq<Event>, i: nat)
    requires Runs(states, events) && i < |events|
    ensures Enabled(states[i], events[i]) && states[i + 1] == Next(states[i], events[i])
  {
    assert Leads(states, events, i);
  }

  // ---------------------------------------------------------------- the invariant

  function InFlight(s: System, i: Item): nat {
    s.requests[i] + s.tasks[i] + s.replies[i]
  }

  /** The record a stub has filed and not yet given up. */
  function Owned(stub: Stub): Option<nat> {
    match stub
    case Sleeping(_, call) => Some(call)
    case Holding(_, call, _) => Some(call)
    case Removing(_, call, _) => Some(call)
    case _ => None
  }

  /** At most one request, task or reply is about for a call, and only while its record is filed and open. */
  ghost predicate FlightOf(s: System, id: Id, call: nat) {
    && InFlight(s, Call(id, call)) <= 1
    && (InFlight(s, Call(id, call)) == 1 ==>
          && id in s.table.ids && s.table.ids[id] == call
          && call < |s.table.records| && s.table.records[call].response.None?)
  }

  ghost predicate FlightOk(s: System) {
    forall id, call: nat :: FlightOf(s, id, call)
  }

  /** A record is only ever completed by the reply to its own call, and then its callback has run once. */
  ghost predicate RecordsOk(s: System) {
    forall n | 0 <= n < |s.table.records| ::
      var r := s.table.records[n];
      && (r.response.Some? ==> r.response.value == Response(r.request.id, n))
      && r.callbackRuns == if r.response.Some? then 1 else 0
  }

  ghost predicate StubOk(s: System, stub: Stub) {
    && (Owned(stub).Some? ==> stub.id in s.table.ids && s.table.ids[stub.id] == stub.call)
    && (stub.Holding? || stub.Removing? ==> stub.found == Some(stub.call))
    && (stub.Removing? ==> IsDone(s.table, stub.call))
    && (stub.Finished? && stub.filed.Some? ==> stub.found == stub.filed)
  }

  ghost predicate StubsOk(s: System) {
    && (forall t | t in s.stubs :: StubOk(s, s.stubs[t]))
    && (forall t, u | t in s.stubs && u in s.stubs && t != u && Owned(s.stubs[t]).Some? ::
          Owned(s.stubs[t]) != Owned(s.stubs[u]))
  }

  ghost predicate Good(s: System) {
    Filed(s.table) && FlightOk(s) && RecordsOk(s) && StubsOk(s)
  }

  lemma StepKeepsFiled(s: System, e: Event)
    requires Filed(s.table) && Enabled(s, e)
    ensures Filed(Next(s, e).table)
  {
  }

  lemma TravelMoves(s: System, e: Event, i: Item)
    requires Enabled(s, e) && i.Call? && (e.LoseRequest? || e.Accept? || e.RunTask? || e.LoseReply? || e.Deliver?)
    ensures InFlight(Next(s, e), i) <= InFlight(s, i)
  {
  }

  /** Nothing about a call multiplies on the way: only registering a call puts something about it in flight. */
  lemma FlightMoves(s: System, e: Event, i: Item)
    requires Enabled(s, e) && i.Call?
    ensures var files := e.DoRegister? && !e.lost && s.stubs[e.t].id !in s.table.ids
                         && i == Call(s.stubs[e.t].id, |s.table.records|);
            InFlight(Next(s, e), i) <= InFlight(s, i) + if files then 1 else 0
  {
    if e.LoseRequest? || e.Accept? || e.RunTask? || e.LoseReply? || e.Deliver? {
      TravelMoves(s, e, i);
    }
  }

  lemma DeliveryEndsFlight(s: System, i: Item)
    requires Enabled(s, Deliver(i))
    ensures InFlight(s, i) >= 1 && InFlight(Next(s, Deliver(i)), i) == InFlight(s, i) - 1
  {
  }

  /** A filed, open record stays filed and open until its reply is delivered. */
  lemma FiledStaysOpen(s: System, e: Event, id: Id)
    requires Filed(s.table) && StubsOk(s) && Enabled(s, e) && id in s.table.ids
    requires s.table.records[s.table.ids[id]].response.None?
    requires !(e.Deliver? && e.i.Call? && e.i.id == id)
    ensures id in Next(s, e).table.ids && Next(s, e).table.ids[id] == s.table.ids[id]
    ensures Next(s, e).table.records[s.table.ids[id]].response.None?
  {
    if e.DoRemove? {
      assert StubOk(s, s.stubs[e.t]);
    }
  }

  lemma StepKeepsFlightOf(s: System, e: Event, id: Id, call: nat)
    requires Filed(s.table) && StubsOk(s) && Enabled(s, e)
    requires FlightOk(s)
    ensures FlightOf(Next(s, e), id, call)
  {
    FlightMoves(s, e, Call(id, call));
    assert FlightOf(s, id, call);
    if InFlight(s, Call(id, call)) == 1 {
      if e.Deliver? && e.i.Call? && e.i.id == id {
        assert FlightOf(s, id, e.i.call);
        DeliveryEndsFlight(s, e.i);
      } else {
        FiledStaysOpen(s, e, id);
      }
    }
  }

  lemma StepKeepsFlight(s: System, e: Event)
    requires Good(s) && Enabled(s, e)
    ensures FlightOk(Next(s, e))
  {
    forall id, call: nat
      ensures FlightOf(Next(s, e), id, call)
    {
      StepKeepsFlightOf(s, e, id, call);
    }
  }

  lemma DeliveryKeepsRecords(s: System, i: Item)
    requires Filed(s.table) && FlightOk(s) && RecordsOk(s) && i in s.replies
    ensures RecordsOk(Next(s, Deliver(i)))
  {
    if i.Call? {
      assert FlightOf(s, i.id, i.call);
      assert InFlight(s, i) >= 1;
    }
  }

  lemma StepKeepsRecords(s: System, e: Event)
    requires Filed(s.table) && FlightOk(s) && RecordsOk(s) && Enabled(s, e)
    ensures RecordsOk(Next(s, e))
  {
    if e.Deliver? {
      DeliveryKeepsRecords(s, e.i);
    }
  }

  /** Entries and answers stay, but for the one entry a stub removes. */
  lemma EntriesStay(s: System, e: Event, id: Id)
    requires Enabled(s, e) && id in s.table.ids && !(e.DoRemove? && s.stubs[e.t].id == id)
    ensures id in Next(s, e).table.ids && Next(s, e).table.ids[id] == s.table.ids[id]
    ensures forall n | IsDone(s.table, n) :: IsDone(Next(s, e).table, n)
  {
  }

  lemma OtherStub(s: System, e: Event, t: Thread)
    requires Filed(s.table) && StubsOk(s) && Enabled(s, e) && t in s.stubs && Next(s, e).stubs[t] == s.stubs[t]
    ensures StubOk(Next(s, e), s.stubs[t])
  {
    assert StubOk(s, s.stubs[t]);
    if Owned(s.stubs[t]).Some? {
      if e.DoRemove? {
        assert StubOk(s, s.stubs[e.t]);
        assert e.t != t ==> Owned(s.stubs[t]) != Owned(s.stubs[e.t]);
      }
      EntriesStay(s, e, s.stubs[t].id);
    }
  }

  /** The stub of the thread that moves ... */
  lemma OwnStub(s: System, e: Event, t: Thread)
    requires Filed(s.table) && Enabled(s, e) && t in s.stubs && StubOk(s, s.stubs[t])
    requires Next(s, e).stubs[t] != s.stubs[t]
    ensures StubOk(Next(s, e), Next(s, e).stubs[t])
  {
  }

  /** ... and what it owns afterwards. */
  lemma OwnStubOwns(s: System, e: Event, t: Thread)
    requires Enabled(s, e) && t in s.stubs && Next(s, e).stubs[t] != s.stubs[t]
    ensures Owned(Next(s, e).stubs[t]).None? || Owned(Next(s, e).stubs[t]) == Owned(s.stubs[t])
            || Owned(Next(s, e).stubs[t]) == Some(|s.table.records|)
    ensures forall u | u in s.stubs && u != t :: Next(s, e).stubs[u] == s.stubs[u]
  {
  }

  lemma StepKeepsStubs(s: System, e: Event)
    requires Good(s) && Enabled(s, e)
    ensures StubsOk(Next(s, e))
  {
    var s' := Next(s, e);
    forall t | t in s'.stubs
      ensures StubOk(s', s'.stubs[t])
    {
      if s'.stubs[t] == s.stubs[t] {
        OtherStub(s, e, t);
      } else {
        OwnStub(s, e, t);
      }
    }
    forall t, u | t in s'.stubs && u in s'.stubs && t != u && Owned(s'.stubs[t]).Some?
      ensures Owned(s'.stubs[t]) != Owned(s'.stubs[u])
    {
      DistinctAfter(s, e, t, u);
    }
  }

  lemma DistinctAfter(s: System, e: Event, t: Thread, u: Thread)
    requires Filed(s.table) && StubsOk(s) && Enabled(s, e) && t in s.stubs && u in s.stubs && t != u
    requires Owned(Next(s, e).stubs[t]).Some?
    ensures Owned(Next(s, e).stubs[t]) != Owned(Next(s, e).stubs[u])
  {
    var s' := Next(s, e);
    assert StubOk(s, s.stubs[t]) && StubOk(s, s.stubs[u]);
    if s'.stubs[t] != s.stubs[t] {
      OwnStubOwns(s, e, t);
    } else if s'.stubs[u] != s.stubs[u] {
      OwnStubOwns(s, e, u);
    }
  }

  lemma {:induction false} RunKeeps(states: seq<System>, events: seq<Event>, n: nat)
    requires Runs(states, events) && Good(states[0]) && n < |states|
    ensures Good(states[n])
  {
    if n > 0 {
      RunKeeps(states, events, n - 1);
      RunStep(states, events, n - 1);
      StepKeepsGood(states[n - 1], events[n - 1]);
    }
  }

  lemma StepKeepsGood(s: System, e: Event)
    requires Good(s) && Enabled(s, e)
    ensures Good(Next(s, e))
  {
    StepKeepsFiled(s, e);
    StepKeepsFlight(s, e);
    StepKeepsRecords(s, e);
    StepKeepsStubs(s, e);
  }

  // ---------------------------------------------------------------- correlation

  /** In every run, after any losses, timeouts, reordering and reuse of ids, a record's response is the reply to
      exactly the call that made the record, and its callback has run once if and only if that reply came. */
  lemma RepliesMatchCalls(states: seq<System>, events: seq<Event>, n: nat, record: nat)
    requires IsRun(states, events) && n < |states| && record < |states[n].table.records|
    ensures var r := states[n].table.records[record];
            && r.request.call == record
            && (r.response.Some? ==> r.response.value.call == record && r.response.value.id == r.request.id)
            && r.callbackRuns == (if r.response.Some? then 1 else 0)
  {
    RunKeeps(states, events, n);
  }

  /** A stub that filed a record returns that very record, although it looks it up by id later, and the entry
      it removes is its own and answered, although it removes it by id later still. */
  lemma StubsKeepTheirRecords(states: seq<System>, events: seq<Event>, n: nat, t: Thread)
    requires IsRun(states, events) && n < |states| && t in states[n].stubs
    ensures var s, stub := states[n], states[n].stubs[t];
            && (stub.Finished? && stub.filed.Some? ==> stub.found == stub.filed)
            && (stub.Removing? ==> Lookup(s.table, stub.id) == Some(stub.call) && IsDone(s.table, stub.call))
  {
    RunKeeps(states, events, n);
    assert StubOk(states[n], states[n].stubs[t]);
  }

  /** An id is abandoned when its record is filed but the stub that filed it has given up waiting. */
  ghost predicate Abandoned(s: System, id: Id) {
    id in s.table.ids && forall t | t in s.stubs :: Owned(s.stubs[t]) != Some(s.table.ids[id])
  }

  lemma StepKeepsAbandoned(s: System, e: Event, id: Id)
    requires Good(s) && Enabled(s, e) && Abandoned(s, id)
    ensures Abandoned(Next(s, e), id) && Next(s, e).table.ids[id] == s.table.ids[id]
  {
    var s' := Next(s, e);
    if e.DoRemove? {
      assert StubOk(s, s.stubs[e.t]);
    }
    forall t | t in s'.stubs
      ensures Owned(s'.stubs[t]) != Some(s.table.ids[id])
    {
      if s'.stubs[t] != s.stubs[t] {
        OwnStubOwns(s, e, t);
      }
    }
  }

  ghost predicate KeepsAbandoned(s: System, s': System, id: Id) {
    Abandoned(s, id) ==> Abandoned(s', id) && s'.table.ids[id] == s.table.ids[id]
  }

  lemma {:induction false} AbandonedForGood(states: seq<System>, k: nat, n: nat, id: Id)
    requires k <= n < |states| && Abandoned(states[k], id)
    requires forall i | k <= i < n :: KeepsAbandoned(states[i], states[i + 1], id)
    ensures Abandoned(states[n], id) && states[n].table.ids[id] == states[k].table.ids[id]
  {
    if n > k {
      AbandonedForGood(states, k, n - 1, id);
      assert KeepsAbandoned(states[n - 1], states[n - 1 + 1], id);
    }
  }

  /** A call that timed out keeps its id for good: its late reply still goes to its own record. */
  lemma TimedOutIdStaysTaken(states: seq<System>, events: seq<Event>, k: nat, n: nat, id: Id)
    requires IsRun(states, events) && k <= n < |states| && Abandoned(states[k], id)
    ensures Abandoned(states[n], id) && states[n].table.ids[id] == states[k].table.ids[id]
  {
    forall i | k <= i < n
      ensures KeepsAbandoned(states[i], states[i + 1], id)
    {
      if Abandoned(states[i], id) {
        RunKeeps(states, events, i);
        RunStep(states, events, i);
        StepKeepsAbandoned(states[i], events[i], id);
      }
    }
    AbandonedForGood(states, k, n, id);
  }

  /** Every later call with the id of a timed-out one is refused and returns an empty record. */
  lemma TimedOutIdIsRefused(states: seq<System>, events: seq<Event>, k: nat, n: nat, id: Id)
    requires IsRun(states, events) && k <= n < |events| && Abandoned(states[k], id)
    requires events[n].DoRegister? && events[n].t in states[n].stubs && states[n].stubs[events[n].t] == Entered(id)
    ensures events[n].t in states[n + 1].stubs && states[n + 1].stubs[events[n].t] == Finished(None, None)
    ensures states[n + 1].table == states[n].table
  {
    TimedOutIdStaysTaken(states, events, k, n, id);
    RunStep(states, events, n);
  }

  /** When a stub looks at its record after the sleep, its id is abandoned exactly if no reply has come. */
  lemma TimeoutAbandons(states: seq<System>, events: seq<Event>, n: nat)
    requires IsRun(states, events) && n < |events| && events[n].DoCheck?
    ensures events[n].t in states[n].stubs && states[n].stubs[events[n].t].Holding?
    ensures var stub := states[n].stubs[events[n].t];
            Abandoned(states[n + 1], stub.id) <==> !IsDone(states[n].table, stub.call)
  {
    RunKeeps(states, events, n);
    RunStep(states, events, n);
    CheckAbandons(states[n], events[n].t);
  }

  lemma CheckAbandons(s: System, t: Thread)
    requires StubsOk(s) && Enabled(s, DoCheck(t))
    ensures Abandoned(Next(s, DoCheck(t)), s.stubs[t].id) <==> !IsDone(s.table, s.stubs[t].call)
  {
    var s', stub := Next(s, DoCheck(t)), s.stubs[t];
    assert StubOk(s, stub);
    if IsDone(s.table, stub.call) {
      assert t in s'.stubs && Owned(s'.stubs[t]) == Some(s'.table.ids[stub.id]);
    } else {
      forall u | u in s'.stubs
        ensures Owned(s'.stubs[u]) != Some(stub.call)
      {
        if u != t {
          assert Owned(s.stubs[t]) != Owned(s.stubs[u]);
        }
      }
    }
  }

  /** Such a run exists: a call whose request is lost times out, and the next call with its id is refused. */
  lemma TimeoutRefusesNextCall(id: Id) returns (states: seq<System>, events: seq<Event>)
    ensures IsRun(states, events) && |events| == 7 && Abandoned(states[4], id)
    ensures events[6] == DoRegister(0, false) && 0 in states[6].stubs && states[6].stubs[0] == Entered(id)
    ensures 0 in states[7].stubs && states[7].stubs[0] == Finished(None, None) && states[7].table == states[4].table
  {
    events := [Enter(0, id, true), DoRegister(0, true), DoLookup(0), DoCheck(0), Restart(0), Enter(0, id, true),
               DoRegister(0, false)];
    var filed := Register(EMPTY, id);
    states := [Alone(EMPTY, Ready), Alone(EMPTY, Entered(id)), Alone(filed, Sleeping(id, 0)),
               Alone(filed, Holding(id, 0, Some(0))), Alone(filed, Finished(Some(0), Some(0))), Alone(filed, Ready),
               Alone(filed, Entered(id)), Alone(filed, Finished(None, None))];
    forall i | 0 <= i < 7
      ensures Leads(states, events, i)
    {
      StepsAlone(states[i].table, states[i].stubs[0], events[i]);
    }
  }

  /** One caller, and nothing in flight. */
  function Alone(table: Table, stub: Stub): System {
    System(table, map[0 := stub], multiset{}, multiset{}, multiset{})
  }

  lemma StepsAlone(table: Table, stub: Stub, e: Event)
    requires Enabled(Alone(table, stub), e)
    requires e.Enter? || e.DoRegister? || e.DoLookup? || e.DoCheck? || e.Restart?
    requires e.DoRegister? ==> e.lost || stub.id in table.ids
    ensures var s' := Next(Alone(table, stub), e); e.t == 0 && s' == Alone(s'.table, s'.stubs[0])
  {
    var s' := Next(Alone(table, stub), e);
    assert s'.stubs == map[0 := s'.stubs[0]];
  }

  // ---------------------------------------------------------------- why a timed-out id must stay taken

  /** The table a stub would leave if it freed the id of a call it has given up. */
  function Freed(s: System, id: Id): System {
    s.(table := Remove(s.table, id))
  }

  /** Some run from `s` completes a record with the reply to another call, or runs its callback a wrong number of
      times. */
  ghost predicate CanMismatch(s: System) {
    exists states, events :: Runs(states, events) && states[0] == s && !RecordsOk(states[|events|])
  }

  lemma MismatchBefore(s: System, e: Event)
    requires Enabled(s, e) && CanMismatch(Next(s, e))
    ensures CanMismatch(s)
  {
    var states, events :| Runs(states, events) && states[0] == Next(s, e) && !RecordsOk(states[|events|]);
    var states', events' := [s] + states, [e] + events;
    forall i | 0 <= i < |events'|
      ensures Leads(states', events', i)
    {
      if i > 0 {
        RunStep(states, events, i - 1);
      }
    }
    assert Runs(states', events') && states'[|events'|] == states[|events|];
  }

  lemma MismatchNow(s: System)
    requires !RecordsOk(s)
    ensures CanMismatch(s)
  {
    var states: seq<System>, events: seq<Event> := [s], [];
    assert Runs(states, events) && states[|events|] == s;
  }

  lemma GoodNeverMismatches(s: System)
    requires Good(s)
    ensures !CanMismatch(s)
  {
    if CanMismatch(s) {
      var states, events :| Runs(states, events) && states[0] == s && !RecordsOk(states[|events|]);
      RunKeeps(states, events, |events|);
      assert false;
    }
  }

  /** Reuse of the id, and the old reply completes the new record. */
  lemma ReuseMismatches(s: System, t: Thread, id: Id, call: nat)
    requires id !in s.table.ids && call < |s.table.records| && t in s.stubs && s.stubs[t].Ready?
    requires Call(id, call) in s.replies
    ensures CanMismatch(s)
  {
    var s1 := Next(s, Enter(t, id, true));
    var s2 := Next(s1, DoRegister(t, true));
    var s3 := Next(s2, Deliver(Call(id, call)));
    assert s3.table.records[|s.table.records|].response == Some(Response(id, call));
    MismatchNow(s3);
    MismatchBefore(s2, Deliver(Call(id, call)));
    MismatchBefore(s1, DoRegister(t, true));
    MismatchBefore(s, Enter(t, id, true));
  }

  /** The same from wherever the old call is: its request is handled and answered first. */
  lemma FlightMismatches(s: System, t: Thread, id: Id, call: nat)
    requires id !in s.table.ids && call < |s.table.records| && t in s.stubs && s.stubs[t].Ready?
    requires InFlight(s, Call(id, call)) > 0
    ensures CanMismatch(s)
  {
    var i := Call(id, call);
    if i in s.replies {
      ReuseMismatches(s, t, id, call);
    } else if i in s.tasks {
      ReuseMismatches(Next(s, RunTask(i, true)), t, id, call);
      MismatchBefore(s, RunTask(i, true));
    } else {
      var s1 := Next(s, Accept(i));
      ReuseMismatches(Next(s1, RunTask(i, true)), t, id, call);
      MismatchBefore(s1, RunTask(i, true));
      MismatchBefore(s, Accept(i));
    }
  }

  lemma FreeingKeepsGood(s: System, id: Id)
    requires Good(s) && Abandoned(s, id) && InFlight(s, Call(id, s.table.ids[id])) == 0
    ensures Good(Freed(s, id))
  {
    var s' := Freed(s, id);
    forall other, c: nat
      ensures FlightOf(s', other, c)
    {
      assert FlightOf(s, other, c);
    }
    forall t | t in s'.stubs
      ensures StubOk(s', s'.stubs[t])
    {
      assert StubOk(s, s.stubs[t]);
    }
  }

  /** Why a stub must not free its id when it gives up: with a caller free to use the id again, some later run
      completes a record with the reply to another call if and only if something about the old call is still in
      flight. */
  lemma EarlyRemovalIsSafeIff(s: System, id: Id, t: Thread)
    requires Good(s) && Abandoned(s, id) && t in s.stubs && s.stubs[t].Ready?
    ensures !CanMismatch(Freed(s, id)) <==> InFlight(s, Call(id, s.table.ids[id])) == 0
  {
    if InFlight(s, Call(id, s.table.ids[id])) == 0 {
      FreeingKeepsGood(s, id);
      GoodNeverMismatches(Freed(s, id));
    } else {
      FlightMismatches(Freed(s, id), t, id, s.table.ids[id]);
    }
  }

  /** What goes wrong otherwise: free the id of an answered but undelivered call, use it again, and the old reply
      completes the new record while its own stays open. */
  lemma EarlyRemovalMisdelivers(s: System, id: Id)
    requires Good(s) && id in s.table.ids && Call(id, s.table.ids[id]) in s.replies
    ensures var mine, next := s.table.ids[id], |s.table.records|;
            var t := Receive(Register(Remove(s.table, id), id), Response(id, mine));
            && t.records[next].response == Some(Response(id, mine)) && mine != next
            && t.records[mine].response.None?
  {
    assert FlightOf(s, id, s.table.ids[id]);
  }
}

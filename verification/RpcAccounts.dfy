/** What the RPC system's state owes to its events: which replies came, which ids are filed, what is in flight, and
    what each call of a stub comes back with. */
module RpcAccounts {
  import opened Options
  import opened Sets
  import opened CallTable
  import opened RpcSystem

  // ---------------------------------------------------------------- replies

  /** The reply to call `call` has been delivered. */
  ghost predicate Came(events: seq<Event>, n: nat, id: Id, call: nat)
    requires n <= |events|
  {
    exists k | 0 <= k < n :: events[k] == Deliver(Call(id, call))
  }

  lemma CameStep(events: seq<Event>, n: nat, id: Id, call: nat)
    requires n < |events|
    ensures Came(events, n + 1, id, call) <==> Came(events, n, id, call) || events[n] == Deliver(Call(id, call))
  {
  }

  lemma StepAnswers(s: System, e: Event, call: nat)
    requires Good(s) && Enabled(s, e) && call < |s.table.records|
    ensures call < |Next(s, e).table.records|
    ensures Next(s, e).table.records[call].request == s.table.records[call].request
    ensures Next(s, e).table.records[call].response.Some? <==>
              s.table.records[call].response.Some? || e == Deliver(Call(s.table.records[call].request.id, call))
  {
    if e.Deliver? && e.i.Call? {
      assert FlightOf(s, e.i.id, e.i.call);
      assert InFlight(s, e.i) >= 1;
    }
  }

  /** A new record's call has no reply yet: whatever is delivered is about a call made before. */
  lemma {:induction false} NoReplyBeforeCall(states: seq<System>, events: seq<Event>, n: nat, id: Id, call: nat)
    requires IsRun(states, events) && n < |states| && call >= |states[n].table.records|
    ensures !Came(events, n, id, call)
  {
    if n > 0 {
      RecordsStay(states, events, n - 1);
      NoReplyBeforeCall(states, events, n - 1, id, call);
      NotDeliveredEarly(states, events, n - 1, id, call);
      CameStep(events, n - 1, id, call);
    }
  }

  lemma RecordsStay(states: seq<System>, events: seq<Event>, n: nat)
    requires IsRun(states, events) && n < |events|
    ensures |states[n].table.records| <= |states[n + 1].table.records|
  {
    RunStep(states, events, n);
    RecordsGrow(states[n], events[n]);
  }

  lemma NotDeliveredEarly(states: seq<System>, events: seq<Event>, n: nat, id: Id, call: nat)
    requires IsRun(states, events) && n < |events| && call >= |states[n].table.records|
    ensures events[n] != Deliver(Call(id, call))
  {
    RunKeeps(states, events, n);
    RunStep(states, events, n);
    NoEarlyReply(states[n], id, call);
  }

  lemma NoEarlyReply(s: System, id: Id, call: nat)
    requires FlightOk(s) && call >= |s.table.records|
    ensures !Enabled(s, Deliver(Call(id, call)))
  {
    assert FlightOf(s, id, call);
  }

  lemma RecordsGrow(s: System, e: Event)
    requires Enabled(s, e)
    ensures |s.table.records| <= |Next(s, e).table.records|
    ensures |Next(s, e).table.records| > |s.table.records| ==>
              && e.DoRegister? && s.stubs[e.t].id !in s.table.ids
              && |Next(s, e).table.records| == |s.table.records| + 1
              && Next(s, e).table.records[|s.table.records|] ==
                 Record(Request(s.stubs[e.t].id, |s.table.records|), None, 0)
  {
  }

  lemma AnswerStep(states: seq<System>, events: seq<Event>, n: nat, call: nat)
    requires IsRun(states, events) && n < |events| && call < |states[n].table.records|
    ensures call < |states[n + 1].table.records|
    ensures states[n + 1].table.records[call].request == states[n].table.records[call].request
    ensures states[n + 1].table.records[call].response.Some? <==>
              || states[n].table.records[call].response.Some?
              || events[n] == Deliver(Call(states[n].table.records[call].request.id, call))
  {
    RunKeeps(states, events, n);
    RunStep(states, events, n);
    StepAnswers(states[n], events[n], call);
  }

  lemma NewRecordIsOpen(states: seq<System>, events: seq<Event>, n: nat, call: nat)
    requires IsRun(states, events) && n < |events| && |states[n].table.records| <= call < |states[n + 1].table.records|
    ensures states[n + 1].table.records[call].response.None?
    ensures !Came(events, n + 1, states[n + 1].table.records[call].request.id, call)
  {
    var id := states[n + 1].table.records[call].request.id;
    RunStep(states, events, n);
    RecordsGrow(states[n], events[n]);
    NoReplyBeforeCall(states, events, n, id, call);
    CameStep(events, n, id, call);
  }

  /** In every run a record has a response if and only if the reply to its call has been delivered: none is thrown
      away, and none is taken from another call. */
  lemma {:induction false} AnsweredIffDelivered(states: seq<System>, events: seq<Event>, n: nat, call: nat)
    requires IsRun(states, events) && n < |states| && call < |states[n].table.records|
    ensures var r := states[n].table.records[call];
            r.response.Some? <==> Came(events, n, r.request.id, call)
  {
    if n > 0 {
      if call < |states[n - 1].table.records| {
        AnsweredIffDelivered(states, events, n - 1, call);
        AnswerStep(states, events, n - 1, call);
        CameStep(events, n - 1, states[n].table.records[call].request.id, call);
      } else {
        NewRecordIsOpen(states, events, n - 1, call);
      }
    }
  }

  // ---------------------------------------------------------------- ids

  /** A stub has removed the entry of the record it filed. */
  ghost predicate Removed(states: seq<System>, events: seq<Event>, n: nat, call: nat)
    requires n <= |events| <= |states|
  {
    exists k | 0 <= k < n :: RemovesAt(states[k], events[k], call)
  }

  predicate RemovesAt(s: System, e: Event, call: nat) {
    e.DoRemove? && e.t in s.stubs && s.stubs[e.t].Removing? && s.stubs[e.t].call == call
  }

  lemma RegisterFiles(s: System, e: Event, id: Id, call: nat)
    requires Filed(s.table) && Enabled(s, e) && e.DoRegister?
    ensures var s' := Next(s, e);
            (id in s'.table.ids && s'.table.ids[id] == call) <==>
              || (id in s.table.ids && s.table.ids[id] == call)
              || (|s'.table.records| > |s.table.records| && call == |s.table.records|
                  && s'.table.records[call].request.id == id)
  {
  }

  lemma RemoveUnfiles(s: System, e: Event, id: Id, call: nat)
    requires Filed(s.table) && StubsOk(s) && Enabled(s, e) && e.DoRemove?
    ensures |Next(s, e).table.records| == |s.table.records|
    ensures var s' := Next(s, e);
            (id in s'.table.ids && s'.table.ids[id] == call) <==>
              id in s.table.ids && s.table.ids[id] == call && !RemovesAt(s, e, call)
  {
    assert StubOk(s, s.stubs[e.t]);
  }

  lemma OthersFileNothing(s: System, e: Event)
    requires Enabled(s, e) && !e.DoRegister? && !e.DoRemove?
    ensures Next(s, e).table.ids == s.table.ids && |Next(s, e).table.records| == |s.table.records|
  {
    if e.Deliver? && e.i.Call? {
      ReceiveFilesNothing(s.table, Response(e.i.id, e.i.call));
    } else {
      assert Next(s, e).table == s.table;
    }
  }

  lemma ReceiveFilesNothing(t: Table, response: Response)
    ensures Receive(t, response).ids == t.ids && |Receive(t, response).records| == |t.records|
  {
  }

  lemma StepFiles(s: System, e: Event, id: Id, call: nat)
    requires Filed(s.table) && StubsOk(s) && Enabled(s, e)
    ensures var s' := Next(s, e);
            (id in s'.table.ids && s'.table.ids[id] == call) <==>
              || (id in s.table.ids && s.table.ids[id] == call && !RemovesAt(s, e, call))
              || (|s'.table.records| > |s.table.records| && call == |s.table.records|
                  && s'.table.records[call].request.id == id)
  {
    if e.DoRegister? {
      RegisterFiles(s, e, id, call);
    } else if e.DoRemove? {
      RemoveUnfiles(s, e, id, call);
    } else {
      OthersFileNothing(s, e);
    }
  }

  lemma {:induction false} NotRemovedBeforeCall(states: seq<System>, events: seq<Event>, n: nat, call: nat)
    requires IsRun(states, events) && n < |states| && call >= |states[n].table.records|
    ensures !Removed(states, events, n, call)
    decreases n, 0
  {
    if n > 0 {
      RecordsStay(states, events, n - 1);
      NewRecordIsFiled(states, events, n - 1, call);
    }
  }

  lemma RemovesFiled(s: System, e: Event, call: nat)
    requires Filed(s.table) && StubsOk(s) && RemovesAt(s, e, call)
    ensures call < |s.table.records|
  {
    assert StubOk(s, s.stubs[e.t]);
  }

  lemma RemovedStep(states: seq<System>, events: seq<Event>, n: nat, call: nat)
    requires n < |events| <= |states|
    ensures Removed(states, events, n + 1, call) <==>
              Removed(states, events, n, call) || RemovesAt(states[n], events[n], call)
  {
  }

  lemma FileStep(states: seq<System>, events: seq<Event>, n: nat, id: Id, call: nat)
    requires IsRun(states, events) && n < |events|
    ensures |states[n].table.records| <= |states[n + 1].table.records|
    ensures var t, t' := states[n].table, states[n + 1].table;
            (id in t'.ids && t'.ids[id] == call) <==>
              || (id in t.ids && t.ids[id] == call && !RemovesAt(states[n], events[n], call))
              || (|t.records| <= call < |t'.records| && t'.records[call].request.id == id)
  {
    RunKeeps(states, events, n);
    RunStep(states, events, n);
    RecordsGrow(states[n], events[n]);
    StepFiles(states[n], events[n], id, call);
  }

  lemma NewRecordIsFiled(states: seq<System>, events: seq<Event>, n: nat, call: nat)
    requires IsRun(states, events) && n < |events| && |states[n].table.records| <= call
    ensures !Removed(states, events, n + 1, call)
    decreases n, 1
  {
    RunKeeps(states, events, n);
    NotRemovedBeforeCall(states, events, n, call);
    RemovedStep(states, events, n, call);
    if RemovesAt(states[n], events[n], call) {
      RemovesFiled(states[n], events[n], call);
    }
  }

  /** In every run an id is filed under exactly the records made for it that no stub has removed: a call that is
      registered keeps its id until its own stub frees it, and then it is free. */
  lemma {:induction false} FiledIffNotRemoved(states: seq<System>, events: seq<Event>, n: nat, id: Id, call: nat)
    requires IsRun(states, events) && n < |states|
    ensures var t := states[n].table;
            (id in t.ids && t.ids[id] == call) <==>
              call < |t.records| && t.records[call].request.id == id && !Removed(states, events, n, call)
  {
    if n > 0 {
      FiledIffNotRemoved(states, events, n - 1, id, call);
      FileStep(states, events, n - 1, id, call);
      if call < |states[n - 1].table.records| {
        AnswerStep(states, events, n - 1, call);
        RemovedStep(states, events, n - 1, call);
      } else {
        NewRecordIsFiled(states, events, n - 1, call);
      }
    }
  }

  // ---------------------------------------------------------------- what is in flight

  /** How often event `e` is among the first `n`. */
  function Times(events: seq<Event>, e: Event, n: nat): nat
    requires n <= |events|
  {
    if n == 0 then 0 else Times(events, e, n - 1) + One(events[n - 1] == e)
  }

  /** The event sends item `i` to the server. */
  predicate Sends(s: System, e: Event, i: Item) {
    match e
    case DoRegister(t, lost) =>
      && t in s.stubs && s.stubs[t].Entered? && !lost && s.stubs[t].id !in s.table.ids
      && i == Call(s.stubs[t].id, |s.table.records|)
    case Notify => i.Notice?
    case Babble => i.Text?
    case _ => false
  }

  function Sendings(states: seq<System>, events: seq<Event>, i: Item, n: nat): nat
    requires n <= |events| <= |states|
  {
    if n == 0 then 0 else Sendings(states, events, i, n - 1) + One(Sends(states[n - 1], events[n - 1], i))
  }

  /** The replies about item `i` that the server has sent. */
  function Replies(events: seq<Event>, i: Item, n: nat): nat
    requires n <= |events|
  {
    match i
    case Call(_, _) => Times(events, RunTask(i, true), n)
    case Text => Times(events, Accept(Text), n)
    case Notice => 0
  }

  lemma StepRequests(s: System, e: Event, i: Item)
    requires Enabled(s, e)
    ensures Next(s, e).requests[i] + One(e == LoseRequest(i)) + One(e == Accept(i)) ==
            s.requests[i] + One(Sends(s, e, i))
  {
  }

  lemma StepTasks(s: System, e: Event, i: Item)
    requires Enabled(s, e)
    ensures Next(s, e).tasks[i] + One(e == RunTask(i, true)) + One(e == RunTask(i, false)) ==
            s.tasks[i] + (if i.Text? then 0 else One(e == Accept(i)))
  {
  }

  lemma StepReplies(s: System, e: Event, i: Item)
    requires Enabled(s, e)
    ensures Next(s, e).replies[i] + One(e == LoseReply(i)) + One(e == Deliver(i)) ==
            s.replies[i] + (if i.Call? then One(e == RunTask(i, true)) else if i.Text? then One(e == Accept(i)) else 0)
  {
  }

  lemma {:induction false} RequestsAdd(states: seq<System>, events: seq<Event>, n: nat, i: Item)
    requires IsRun(states, events) && n < |states|
    ensures states[n].requests[i] + Times(events, LoseRequest(i), n) + Times(events, Accept(i), n) ==
            Sendings(states, events, i, n)
  {
    if n > 0 {
      RequestsAdd(states, events, n - 1, i);
      RunStep(states, events, n - 1);
      StepRequests(states[n - 1], events[n - 1], i);
    }
  }

  lemma {:induction false} TasksAdd(states: seq<System>, events: seq<Event>, n: nat, i: Item)
    requires IsRun(states, events) && n < |states|
    ensures states[n].tasks[i] + Times(events, RunTask(i, true), n) + Times(events, RunTask(i, false), n) ==
            (if i.Text? then 0 else Times(events, Accept(i), n))
  {
    if n > 0 {
      TasksAdd(states, events, n - 1, i);
      RunStep(states, events, n - 1);
      StepTasks(states[n - 1], events[n - 1], i);
    }
  }

  lemma {:induction false} RepliesAdd(states: seq<System>, events: seq<Event>, n: nat, i: Item)
    requires IsRun(states, events) && n < |states|
    ensures states[n].replies[i] + Times(events, LoseReply(i), n) + Times(events, Deliver(i), n) ==
            Replies(events, i, n)
  {
    if n > 0 {
      RepliesAdd(states, events, n - 1, i);
      RunStep(states, events, n - 1);
      StepReplies(states[n - 1], events[n - 1], i);
    }
  }

  /** In every run each of the three bags holds exactly what has been put there and has not left it: what stubs and
      other clients have sent is lost, accepted or still on its way; what was accepted has run or is still in the pool,
      but for texts, which are answered at once; what was answered is lost, delivered or still on its way. */
  lemma NothingVanishes(states: seq<System>, events: seq<Event>, n: nat, i: Item)
    requires IsRun(states, events) && n < |states|
    ensures states[n].requests[i] + Times(events, LoseRequest(i), n) + Times(events, Accept(i), n) ==
            Sendings(states, events, i, n)
    ensures states[n].tasks[i] + Times(events, RunTask(i, true), n) + Times(events, RunTask(i, false), n) ==
            (if i.Text? then 0 else Times(events, Accept(i), n))
    ensures states[n].replies[i] + Times(events, LoseReply(i), n) + Times(events, Deliver(i), n) ==
            Replies(events, i, n)
  {
    RequestsAdd(states, events, n, i);
    TasksAdd(states, events, n, i);
    RepliesAdd(states, events, n, i);
  }

  // ---------------------------------------------------------------- what a call comes back with

  /** The event at `k` is the registration that a call of stub `t` under `id` makes. */
  predicate Registers(states: seq<System>, events: seq<Event>, k: nat, t: Thread, id: Id)
    requires k < |events| && k < |states|
  {
    events[k].DoRegister? && events[k].t == t && t in states[k].stubs && states[k].stubs[t] == Entered(id)
  }

  /** The call of stub `t` entered at `i` has been registered under the new record `call`. */
  ghost predicate Registered(states: seq<System>, events: seq<Event>, i: nat, n: nat, t: Thread, id: Id, call: nat)
    requires n <= |events| <= |states|
  {
    exists k | i < k < n ::
      Registers(states, events, k, t, id) && id !in states[k].table.ids && call == |states[k].table.records|
  }

  /** It has found its id in use. */
  ghost predicate Refused(states: seq<System>, events: seq<Event>, i: nat, n: nat, t: Thread, id: Id)
    requires n <= |events| <= |states|
  {
    exists k | i < k < n :: Registers(states, events, k, t, id) && id in states[k].table.ids
  }

  /** How far a call has come, told by what has happened since it was entered. */
  ghost predicate Follows(states: seq<System>, events: seq<Event>, i: nat, n: nat, t: Thread, id: Id, connected: bool)
    requires i < n <= |events| < |states| && t in states[n].stubs
  {
    match states[n].stubs[t]
    case Ready => false
    case Entered(d) => d == id && connected
    case Sleeping(d, call) => d == id && connected && Registered(states, events, i, n, t, id, call)
    case Holding(d, call, _) => d == id && connected && Registered(states, events, i, n, t, id, call)
    case Removing(d, call, _) => d == id && connected && Registered(states, events, i, n, t, id, call)
    case Finished(None, found) => found.None? && (connected ==> Refused(states, events, i, n, t, id))
    case Finished(Some(call), _) => connected && Registered(states, events, i, n, t, id, call)
  }

  lemma StubStep(s: System, e: Event, t: Thread)
    requires Enabled(s, e) && t in s.stubs
    ensures t in Next(s, e).stubs
    ensures Next(s, e).stubs[t] == s.stubs[t] ||
            ((e.Enter? || e.DoRegister? || e.DoLookup? || e.DoCheck? || e.DoRemove? || e.Restart?) && e.t == t)
  {
  }

  /** In every run a call comes back with an empty record exactly if its stub is not connected or its id was in use
      when it came to register; otherwise with the record it made at that moment. */
  lemma {:induction false} CallsComeBack(states: seq<System>, events: seq<Event>, i: nat, n: nat, t: Thread)
    requires IsRun(states, events) && i < n < |states| && events[i].Enter? && events[i].t == t
    requires forall j | i < j <= n :: t in states[j].stubs && !states[j].stubs[t].Ready?
    ensures Follows(states, events, i, n, t, events[i].id, events[i].connected)
  {
    RunStep(states, events, n - 1);
    if n - 1 > i {
      CallsComeBack(states, events, i, n - 1, t);
      var s, e, id := states[n - 1], events[n - 1], events[i].id;
      StubStep(s, e, t);
      if e.DoRegister? && e.t == t {
        assert Registers(states, events, n - 1, t, id);
      }
    }
  }

  /** One caller, with what is on the way. */
  function Lone(table: Table, stub: Stub, requests: multiset<Item>, tasks: multiset<Item>,
                replies: multiset<Item>): System {
    System(table, map[0 := stub], requests, tasks, replies)
  }

  predicate Becomes(s: System, e: Event, s': System) {
    Enabled(s, e) && Next(s, e) == s'
  }

  lemma RegisterAlone(id: Id)
    ensures var none, one := multiset{}, multiset{Call(id, 0)};
            && Becomes(Lone(EMPTY, Ready, none, none, none), Enter(0, id, true),
                       Lone(EMPTY, Entered(id), none, none, none))
            && Becomes(Lone(EMPTY, Entered(id), none, none, none), DoRegister(0, false),
                       Lone(Register(EMPTY, id), Sleeping(id, 0), one, none, none))
  {
    var s := Lone(EMPTY, Entered(id), multiset{}, multiset{}, multiset{});
    assert Next(s, DoRegister(0, false)).stubs == map[0 := Sleeping(id, 0)];
  }

  lemma ServeAlone(table: Table, stub: Stub, i: Item)
    requires i.Call?
    ensures var none, one := multiset{}, multiset{i};
            && Becomes(Lone(table, stub, one, none, none), Accept(i), Lone(table, stub, none, one, none))
            && Becomes(Lone(table, stub, none, one, none), RunTask(i, true), Lone(table, stub, none, none, one))
            && Becomes(Lone(table, stub, none, none, one), Deliver(i),
                       Lone(Receive(table, Response(i.id, i.call)), stub, none, none, none))
  {
    assert multiset{i} - multiset{i} == multiset{};
  }

  lemma CollectAlone(table: Table, id: Id)
    requires id in table.ids && table.ids[id] == 0 && IsDone(table, 0)
    ensures var none: multiset<Item> := multiset{};
            && Becomes(Lone(table, Sleeping(id, 0), none, none, none), DoLookup(0),
                       Lone(table, Holding(id, 0, Some(0)), none, none, none))
            && Becomes(Lone(table, Holding(id, 0, Some(0)), none, none, none), DoCheck(0),
                       Lone(table, Removing(id, 0, Some(0)), none, none, none))
            && Becomes(Lone(table, Removing(id, 0, Some(0)), none, none, none), DoRemove(0),
                       Lone(Remove(table, id), Finished(Some(0), Some(0)), none, none, none))
  {
    var s := Lone(table, Sleeping(id, 0), multiset{}, multiset{}, multiset{});
    assert Next(s, DoLookup(0)).stubs == map[0 := Holding(id, 0, Some(0))];
  }

  /** How many events of its own a stub is away from being ready again. */
  function Rank(stub: Stub): nat {
    match stub
    case Ready => 0
    case Finished(_, _) => 1
    case Removing(_, _, _) => 2
    case Holding(_, _, _) => 3
    case Sleeping(_, _) => 4
    case Entered(_) => 5
  }

  /** The event is one of stub `t`. */
  predicate IsOf(e: Event, t: Thread) {
    match e
    case Enter(u, _, _) => u == t
    case DoRegister(u, _) => u == t
    case DoLookup(u) => u == t
    case DoCheck(u) => u == t
    case DoRemove(u) => u == t
    case Restart(u) => u == t
    case _ => false
  }

  /** A call ends only by returning: a stub becomes ready again only from `Finished`, and a call that is entered has
      begun. */
  lemma CallsReturn(s: System, e: Event, t: Thread)
    requires Enabled(s, e) && t in s.stubs && t in Next(s, e).stubs
    ensures Next(s, e).stubs[t].Ready? ==> s.stubs[t].Ready? || s.stubs[t].Finished?
    ensures e.Enter? && e.t == t ==> s.stubs[t].Ready? && !Next(s, e).stubs[t].Ready?
  {
  }

  lemma EventsLowerRank(s: System, e: Event, t: Thread)
    requires Enabled(s, e) && IsOf(e, t) && t in s.stubs && !s.stubs[t].Ready?
    ensures t in Next(s, e).stubs && Rank(Next(s, e).stubs[t]) < Rank(s.stubs[t]) <= 5
  {
  }

  /** A stub in a call always has a next event, whatever is lost or late, and every event of its own brings it nearer
      to the end of the call: no call hangs. */
  lemma CallsEnd(s: System, t: Thread)
    requires t in s.stubs && !s.stubs[t].Ready?
    ensures exists e :: Enabled(s, e) && IsOf(e, t)
    ensures forall e | Enabled(s, e) && IsOf(e, t) ::
              t in Next(s, e).stubs && Rank(Next(s, e).stubs[t]) < Rank(s.stubs[t]) <= 5
  {
    var e := match s.stubs[t]
      case Entered(_) => DoRegister(t, false)
      case Sleeping(_, _) => DoLookup(t)
      case Holding(_, _, _) => DoCheck(t)
      case Removing(_, _, _) => DoRemove(t)
      case _ => Restart(t);
    assert Enabled(s, e) && IsOf(e, t);
    forall e | Enabled(s, e) && IsOf(e, t)
      ensures t in Next(s, e).stubs && Rank(Next(s, e).stubs[t]) < Rank(s.stubs[t]) <= 5
    {
      EventsLowerRank(s, e, t);
    }
  }

  /** A call that is answered: the request is sent, accepted and run, its reply is delivered while the stub sleeps, the
      stub finds its own record answered, frees the id and returns the record. */
  lemma AnsweredCall(id: Id) returns (states: seq<System>, events: seq<Event>)
    ensures IsRun(states, events) && |events| == 8 && |states| == 9 && events[0] == Enter(0, id, true)
    ensures 0 in states[8].stubs && states[8].stubs[0] == Finished(Some(0), Some(0)) && id !in states[8].table.ids
    ensures states[8].table.records == [Record(Request(id, 0), Some(Response(id, 0)), 1)]
  {
    var i, none, one := Call(id, 0), multiset{}, multiset{Call(id, 0)};
    var filed := Register(EMPTY, id);
    var answered := Receive(filed, Response(id, 0));
    RegisterAlone(id);
    ServeAlone(filed, Sleeping(id, 0), i);
    CollectAlone(answered, id);
    states, events := [Lone(EMPTY, Ready, none, none, none)], [];
    states, events := Then(states, events, Enter(0, id, true), Lone(EMPTY, Entered(id), none, none, none));
    states, events := Then(states, events, DoRegister(0, false), Lone(filed, Sleeping(id, 0), one, none, none));
    states, events := Then(states, events, Accept(i), Lone(filed, Sleeping(id, 0), none, one, none));
    states, events := Then(states, events, RunTask(i, true), Lone(filed, Sleeping(id, 0), none, none, one));
    states, events := Then(states, events, Deliver(i), Lone(answered, Sleeping(id, 0), none, none, none));
    states, events := Then(states, events, DoLookup(0), Lone(answered, Holding(id, 0, Some(0)), none, none, none));
    states, events := Then(states, events, DoCheck(0), Lone(answered, Removing(id, 0, Some(0)), none, none, none));
    states, events := Then(states, events, DoRemove(0),
                           Lone(Remove(answered, id), Finished(Some(0), Some(0)), none, none, none));
  }

  /** A run with one event more. */
  lemma Then(states: seq<System>, events: seq<Event>, e: Event, s: System)
    returns (states': seq<System>, events': seq<Event>)
    requires Runs(states, events) && Becomes(states[|events|], e, s)
    ensures states' == states + [s] && events' == events + [e] && Runs(states', events')
  {
    states', events' := states + [s], events + [e];
    forall k | 0 <= k < |events'|
      ensures Leads(states', events', k)
    {
      if k < |events| {
        assert Leads(states, events, k);
      }
    }
  }
}

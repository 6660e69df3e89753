/** The server's dispatch into the pool, and what a pool task sends back.  The pool is a bag: its tasks run at most
    once, in any order.  What the server does here is what `RpcSystem` does at its server events. */
module RpcServers {
  import opened Options
  import opened JsonRpc
  import S = RpcSystem

  type Members = map<string, Json>

  /** `call` is history, the serial number of the call a request was made for.  No code reads it. */
  datatype Task = ReturnTask(session: nat, request: Members, call: nat) | NotifyTask(session: nat, request: Members)

  datatype Packet = ObjectPacket(session: nat, members: Members, call: nat) | TextPacket(session: nat, text: string)

  /** `getMethod` on a request that passed `fieldsExist`. */
  function MethodOf(request: Members): string {
    if HasString(request, "method") then request["method"].s else ""
  }

  /** What a packet adds to the pool ... */
  function NewTasks(session: nat, parsed: Option<Members>, call: nat): seq<Task> {
    match Dispatched(parsed)
    case ToReturnPool => [ReturnTask(session, parsed.value, call)]
    case ToNotifyPool => [NotifyTask(session, parsed.value)]
    case ErrorText(_) => []
  }

  /** ... and what it is answered with at once. */
  function AnsweredAtOnce(session: nat, parsed: Option<Members>): seq<Packet> {
    match Dispatched(parsed)
    case ErrorText(text) => [TextPacket(session, text)]
    case _ => []
  }

  /** What running a task sends, where the handler of a call answers with `result`, if it answers: a call of an
      unknown method dies in the task's future, and a notification is never answered. */
  function Answers(known: set<string>, task: Task, result: Option<Json>): seq<Packet> {
    if && task.ReturnTask? && MethodOf(task.request) in known
       && result.Some? && ResponseTo(task.request, result.value).Some?
    then [ObjectPacket(task.session, ResponseTo(task.request, result.value).value, task.call)]
    else []
  }

  class RpcServer {
    var returnProcedures: set<string>
    /** The tasks in the pool, in no particular order. */
    var tasks: seq<Task>
    var sent: seq<Packet>

    constructor ()
      ensures returnProcedures == {} && tasks == [] && sent == []
    {
      returnProcedures, tasks, sent := {}, [], [];
    }

    method AddProcedureReturn(name: string)
      modifies this`returnProcedures
      ensures returnProcedures == old(returnProcedures) + {name}
    {
      returnProcedures := returnProcedures + {name};
    }

    /** A call and a notification become pool tasks, anything else is answered at once with a plain text. */
    method OnDataReady(session: nat, parsed: Option<Members>, call: nat)
      modifies this`tasks, this`sent
      ensures tasks == old(tasks) + NewTasks(session, parsed, call)
      ensures sent == old(sent) + AnsweredAtOnce(session, parsed)
    {
      if parsed.None? || !RequestFields(parsed.value) {
        var error := ErrorFromInt(CodeNumber(ParseError));
        sent := sent + [TextPacket(session, CodeName(error))];
      } else if IsReturnCall(parsed.value) {
        tasks := tasks + [ReturnTask(session, parsed.value, call)];
      } else if IsNotification(parsed.value) {
        tasks := tasks + [NotifyTask(session, parsed.value)];
      }
    }

    /** A worker runs one task, whichever the pool hands it. */
    method RunTask(k: nat, result: Option<Json>)
      requires k < |tasks|
      modifies this`tasks, this`sent
      ensures tasks == old(tasks[..k] + tasks[k + 1..])
      ensures sent == old(sent) + Answers(returnProcedures, old(tasks[k]), result)
    {
      var task := tasks[k];
      tasks := tasks[..k] + tasks[k + 1..];
      if task.ReturnTask? && MethodOf(task.request) in returnProcedures && result.Some? {
        var response := ResponseTo(task.request, result.value);
        if response.Some? {
          sent := sent + [ObjectPacket(task.session, response.value, task.call)];
        }
      }
    }
  }

  /** Every packet gives one task or one text, for the session it came from: a well-formed request the task that runs
      it, for an answer exactly if it has an id. */
  lemma TasksAreForTheirSession(session: nat, parsed: Option<Members>, call: nat)
    ensures |NewTasks(session, parsed, call)| + |AnsweredAtOnce(session, parsed)| == 1
    ensures forall task | task in NewTasks(session, parsed, call) ::
              && task.session == session && parsed == Some(task.request) && RequestFields(task.request)
              && (task.ReturnTask? <==> "id" in task.request) && (task.ReturnTask? ==> task.call == call)
    ensures forall packet | packet in AnsweredAtOnce(session, parsed) :: packet.TextPacket? && packet.session == session
  {
  }

  /** A task sends at most one packet.  It sends one exactly if it is a well-formed call of a known method and the
      handler answers: the response with the handler's result, to the session of the call and with the call's id. */
  lemma AnswerIsForItsCall(known: set<string>, task: Task, result: Option<Json>)
    ensures |Answers(known, task, result)| <= 1
    ensures Answers(known, task, result) != [] <==>
              && task.ReturnTask? && result.Some?
              && RequestFields(task.request) && Text(task.request, "id").Some?
              && HasString(task.request, "method") && task.request["method"].s in known
    ensures forall reply | reply in Answers(known, task, result) ::
              && reply.ObjectPacket? && reply.session == task.session && reply.call == task.call
              && ResponseFields(reply.members) && Text(reply.members, "id") == Text(task.request, "id")
              && reply.members["result"] == result.value
              && "jsonrpc" in task.request && reply.members["jsonrpc"] == task.request["jsonrpc"]
  {
  }

  /** From the caller to the caller: a call of a known method that the handler answers with `result` comes back as the
      one packet with that result and that id, to the session that sent it. */
  lemma CallComesBack(session: nat, version: string, method_: string, params: map<string, Json>, id: string, call: nat,
                      known: set<string>, result: Json)
    ensures var parsed := Some(CallRequest(version, method_, params, id));
            && |NewTasks(session, parsed, call)| == 1 && NewTasks(session, parsed, call)[0].request == parsed.value
            && Answers(known, NewTasks(session, parsed, call)[0], Some(result)) ==
               if method_ in known then
                 [ObjectPacket(session, map["jsonrpc" := JString(version), "result" := result, "id" := JString(id)],
                               call)]
               else []
  {
    AnswerCarriesTheId(version, method_, params, id, result);
    AnswerIsExact(CallRequest(version, method_, params, id), result);
  }

  // ---------------------------------------------------------------- the server's part of the system

  function IdOf(o: Members): string {
    var id := Text(o, "id");
    if id.Some? then id.value else ""
  }

  /** A packet from a client as an item of the system. */
  function Arrived(parsed: Option<Members>, call: nat): S.Item {
    match Dispatched(parsed)
    case ToReturnPool => S.Call(IdOf(parsed.value), call)
    case ToNotifyPool => S.Notice
    case ErrorText(_) => S.Text
  }

  function TaskItem(task: Task): S.Item {
    match task
    case ReturnTask(_, request, call) => S.Call(IdOf(request), call)
    case NotifyTask(_, _) => S.Notice
  }

  function PacketItem(packet: Packet): S.Item {
    match packet
    case ObjectPacket(_, members, call) => S.Call(IdOf(members), call)
    case TextPacket(_, _) => S.Text
  }

  function ItemsOf(tasks: seq<Task>): (items: seq<S.Item>)
    ensures |items| == |tasks|
  {
    seq(|tasks|, i requires 0 <= i < |tasks| => TaskItem(tasks[i]))
  }

  function TaskItems(tasks: seq<Task>): multiset<S.Item> {
    multiset(ItemsOf(tasks))
  }

  function PacketItems(packets: seq<Packet>): multiset<S.Item> {
    multiset(seq(|packets|, i requires 0 <= i < |packets| => PacketItem(packets[i])))
  }

  lemma ItemsWithout(tasks: seq<Task>, k: nat)
    requires k < |tasks|
    ensures TaskItem(tasks[k]) in TaskItems(tasks)
    ensures TaskItems(tasks[..k] + tasks[k + 1..]) == TaskItems(tasks) - multiset{TaskItem(tasks[k])}
  {
    assert tasks == tasks[..k] + ([tasks[k]] + tasks[k + 1..]);
    ItemsWith(tasks[..k], [tasks[k]] + tasks[k + 1..]);
    ItemsWith([tasks[k]], tasks[k + 1..]);
    ItemsWith(tasks[..k], tasks[k + 1..]);
    OneItem(tasks[k]);
  }

  lemma ItemsWith(tasks: seq<Task>, more: seq<Task>)
    ensures TaskItems(tasks + more) == TaskItems(tasks) + TaskItems(more)
  {
    assert ItemsOf(tasks + more) == ItemsOf(tasks) + ItemsOf(more);
  }

  lemma OneItem(task: Task)
    ensures TaskItems([task]) == multiset{TaskItem(task)}
  {
    assert ItemsOf([task]) == [TaskItem(task)];
  }

  lemma NoItems()
    ensures TaskItems([]) == multiset{} && PacketItems([]) == multiset{}
  {
    assert ItemsOf([]) == [];
  }

  lemma OnePacket(packet: Packet)
    ensures PacketItems([packet]) == multiset{PacketItem(packet)}
  {
    assert seq(1, i requires 0 <= i < 1 => PacketItem([packet][i])) == [PacketItem(packet)];
  }

  lemma ArrivalItems(session: nat, parsed: Option<Members>, call: nat)
    ensures var i := Arrived(parsed, call);
            && TaskItems(NewTasks(session, parsed, call)) == (if i.Text? then multiset{} else multiset{i})
            && PacketItems(AnsweredAtOnce(session, parsed)) == (if i.Text? then multiset{S.Text} else multiset{})
  {
    NoItems();
    match Dispatched(parsed)
    case ToReturnPool => OneItem(ReturnTask(session, parsed.value, call));
    case ToNotifyPool => OneItem(NotifyTask(session, parsed.value));
    case ErrorText(text) => OnePacket(TextPacket(session, text));
  }

  lemma AcceptMoves(s: S.System, i: S.Item)
    requires i in s.requests
    ensures S.Next(s, S.Accept(i)) ==
            s.(requests := s.requests - multiset{i},
               tasks := s.tasks + (if i.Text? then multiset{} else multiset{i}),
               replies := s.replies + (if i.Text? then multiset{S.Text} else multiset{}))
  {
    assert s.tasks + multiset{} == s.tasks && s.replies + multiset{} == s.replies;
  }

  /** `OnDataReady` is the system's event `Accept`: it moves what arrived into the pool, or answers with a text. */
  lemma ArrivalIsAccept(s: S.System, tasks: seq<Task>, session: nat, parsed: Option<Members>, call: nat)
    requires Arrived(parsed, call) in s.requests && s.tasks == TaskItems(tasks)
    ensures var i := Arrived(parsed, call);
            S.Next(s, S.Accept(i)) ==
            s.(requests := s.requests - multiset{i},
               tasks := TaskItems(tasks + NewTasks(session, parsed, call)),
               replies := s.replies + PacketItems(AnsweredAtOnce(session, parsed)))
  {
    ItemsWith(tasks, NewTasks(session, parsed, call));
    ArrivalItems(session, parsed, call);
    AcceptMoves(s, Arrived(parsed, call));
  }

  /** `RunTask` is the system's event of the same name: the task's item leaves the pool and, if the handler answers,
      goes back as the reply. */
  lemma RunTaskIsEvent(s: S.System, tasks: seq<Task>, k: nat, known: set<string>, result: Option<Json>)
    requires k < |tasks| && s.tasks == TaskItems(tasks)
    ensures var e := S.RunTask(TaskItem(tasks[k]), Answers(known, tasks[k], result) != []);
            && S.Enabled(s, e)
            && S.Next(s, e) == s.(tasks := TaskItems(tasks[..k] + tasks[k + 1..]),
                                  replies := s.replies + PacketItems(Answers(known, tasks[k], result)))
  {
    ItemsWithout(tasks, k);
    AnswerIsForItsCall(known, tasks[k], result);
    NoItems();
    var packets := Answers(known, tasks[k], result);
    if packets != [] {
      assert packets == [packets[0]];
      OnePacket(packets[0]);
    }
  }
}

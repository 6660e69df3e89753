/** The JSON-RPC objects that carry a call, a notification and their answers, and how the two sides tell them
    apart.  JSON text is not modelled: an object is its members. */
module JsonRpc {
  import opened Options

  datatype Json =
    | JNull
    | JNumber(n: int)
    | JString(s: string)
    | JObject(members: map<string, Json>)

  predicate HasString(o: map<string, Json>, key: string) {
    key in o && o[key].JString?
  }

  /** `JsonRpcRequestFactory::fieldsExist`: the id is not looked at. */
  predicate RequestFields(o: map<string, Json>) {
    HasString(o, "jsonrpc") && HasString(o, "method") && "params" in o && o["params"].JObject?
  }

  /** `JsonRpcResponseFactory::fieldsExist`: an id, and exactly one of `result` and `error`. */
  predicate ResponseFields(o: map<string, Json>) {
    "jsonrpc" in o && "id" in o && ("error" in o <==> "result" !in o)
  }

  predicate IsReturnCall(o: map<string, Json>) {
    "id" in o
  }

  predicate IsNotification(o: map<string, Json>) {
    "id" !in o
  }

  /** `asString` on a member that may be missing; None stands for the conversions not modelled. */
  function Text(o: map<string, Json>, key: string): Option<string> {
    if key !in o || o[key].JNull? then Some("")
    else if o[key].JString? then Some(o[key].s)
    else None
  }

  function CallRequest(version: string, method_: string, params: map<string, Json>, id: string): map<string, Json> {
    map["jsonrpc" := JString(version), "method" := JString(method_), "params" := JObject(params), "id" := JString(id)]
  }

  /** The overload of `createNotifyCallRequest` that takes a map of parameters. */
  function NotifyRequest(version: string, method_: string, params: map<string, Json>): map<string, Json> {
    map["jsonrpc" := JString(version), "method" := JString(method_), "params" := JObject(params)]
  }

  /** Its variadic overload, which goes through the constructor that takes an id. */
  function VariadicNotifyRequest(version: string, method_: string, params: map<string, Json>): map<string, Json> {
    CallRequest(version, method_, params, "")
  }

  /** `createResponseFromRequest`: no response for a request without the required fields. */
  function ResponseTo(request: map<string, Json>, result: Json): Option<map<string, Json>> {
    if !RequestFields(request) then None
    else
      var id := Text(request, "id");
      if id.None? then None
      else Some(map["jsonrpc" := request["jsonrpc"], "result" := result, "id" := JString(id.value)])
  }

  datatype Dispatch = ToReturnPool | ToNotifyPool | ErrorText(text: string)

  datatype ErrorCode = ParseError | InvalidRequest | MethodNotFound | InvalidParams | InternalError

  function CodeNumber(c: ErrorCode): int {
    match c
    case ParseError => -32700
    case InvalidRequest => -32600
    case MethodNotFound => -32601
    case InvalidParams => -32602
    case InternalError => -32603
  }

  function CodeName(c: ErrorCode): string {
    match c
    case ParseError => "ParseError"
    case InvalidRequest => "InvalidRequest"
    case MethodNotFound => "MethodNotFound"
    case InvalidParams => "InvalidParams"
    case InternalError => "InternalError"
  }

  /** `JsonRpcErrorFactory::createFromInt` tells small indices apart, not the JSON-RPC codes. */
  function ErrorFromInt(code: int): ErrorCode {
    match code
    case 0 => ParseError
    case 1 => InvalidRequest
    case 2 => MethodNotFound
    case 3 => InvalidParams
    case 4 => InternalError
    case _ => InternalError
  }

  /** `RpcServer::onDataReady` on a packet that does or does not parse to a JSON object. */
  function Dispatched(parsed: Option<map<string, Json>>): Dispatch {
    if parsed.None? || !RequestFields(parsed.value) then ErrorText(CodeName(ErrorFromInt(CodeNumber(ParseError))))
    else if IsReturnCall(parsed.value) then ToReturnPool
    else ToNotifyPool
  }

  /** A call reaches the return pool, and the answer made from it is a response that carries exactly one of result
      and error and the id of the call (section 5 of JSON-RPC 2.0), for every id, the empty one included. */
  lemma AnswerCarriesTheId(version: string, method_: string, params: map<string, Json>, id: string, result: Json)
    ensures var request := CallRequest(version, method_, params, id);
            && Dispatched(Some(request)) == ToReturnPool
            && ResponseTo(request, result).Some?
            && ResponseFields(ResponseTo(request, result).value)
            && Text(ResponseTo(request, result).value, "id") == Some(id)
            && ResponseTo(request, result).value["result"] == result
            && ResponseTo(request, result).value["jsonrpc"] == JString(version)
            && !ResponseFields(request)
  {
    var request := CallRequest(version, method_, params, id);
    assert "result" !in request && "error" !in request;
  }

  /** The answer to any well-formed request has the handler's result, the version and the id of the request, and no
      other member; there is none for a request that is not well-formed. */
  lemma AnswerIsExact(request: map<string, Json>, result: Json)
    ensures ResponseTo(request, result).Some? <==> RequestFields(request) && Text(request, "id").Some?
    ensures ResponseTo(request, result).Some? ==>
              var answer := ResponseTo(request, result).value;
              && answer.Keys == {"jsonrpc", "result", "id"} && "jsonrpc" in request
              && answer["result"] == result && answer["jsonrpc"] == request["jsonrpc"]
              && answer["id"] == JString(Text(request, "id").value) && !RequestFields(answer)
  {
  }

  /** A packet is taken for a response exactly if it has a version, an id and one outcome, a result or an error. */
  lemma ResponseIffOneOutcome(o: map<string, Json>)
    ensures ResponseFields(o) <==>
              "jsonrpc" in o && "id" in o && |o.Keys * {"result", "error"}| == 1
  {
    var outcomes := o.Keys * {"result", "error"};
    if "result" in o && "error" in o {
      assert outcomes == {"result", "error"};
    } else if "result" in o {
      assert outcomes == {"result"};
    } else if "error" in o {
      assert outcomes == {"error"};
    } else {
      assert outcomes == {};
    }
  }

  /** What a caller puts into a call is what the server finds in it. */
  lemma CallIsFaithful(version: string, method_: string, params: map<string, Json>, id: string)
    ensures var o := CallRequest(version, method_, params, id);
            && RequestFields(o) && o.Keys == {"jsonrpc", "method", "params", "id"}
            && o["jsonrpc"] == JString(version) && o["method"] == JString(method_)
            && o["params"] == JObject(params) && o["id"] == JString(id)
    ensures var o := NotifyRequest(version, method_, params);
            && RequestFields(o) && o.Keys == {"jsonrpc", "method", "params"}
            && o["jsonrpc"] == JString(version) && o["method"] == JString(method_) && o["params"] == JObject(params)
  {
  }

  /** A request is refused with a text exactly if it lacks its version, method or parameters, or has one of another
      type; the id does not matter. */
  lemma RefusedIffMalformed(o: map<string, Json>)
    ensures Dispatched(Some(o)).ErrorText? <==>
              !(exists version, method_, params ::
                  && "jsonrpc" in o && o["jsonrpc"] == JString(version)
                  && "method" in o && o["method"] == JString(method_)
                  && "params" in o && o["params"] == JObject(params))
  {
    if RequestFields(o) {
      assert o["jsonrpc"] == JString(o["jsonrpc"].s) && o["method"] == JString(o["method"].s)
             && o["params"] == JObject(o["params"].members);
    }
  }

  /** A request is handed on as a notification exactly when it has no id (section 4.1 of JSON-RPC 2.0). */
  lemma NotificationIffNoId(o: map<string, Json>)
    ensures Dispatched(Some(o)) == ToNotifyPool <==> RequestFields(o) && "id" !in o
    ensures Dispatched(Some(o)) == ToReturnPool <==> RequestFields(o) && "id" in o
  {
  }

  /** The two overloads that make a notification disagree: the one that takes a map of parameters makes one, the
      variadic one makes a call with the empty id, for every method and all parameters. */
  lemma VariadicNotifyIsACall(version: string, method_: string, params: map<string, Json>)
    ensures Dispatched(Some(NotifyRequest(version, method_, params))) == ToNotifyPool
    ensures Dispatched(Some(VariadicNotifyRequest(version, method_, params))) == ToReturnPool
    ensures Text(VariadicNotifyRequest(version, method_, params), "id") == Some("")
  {
    assert "id" !in NotifyRequest(version, method_, params);
  }

  /** An error factory called with a JSON-RPC code reports the right name only for InternalError, so a parse error
      is reported as an internal one. */
  lemma OnlyInternalErrorKeepsItsName(c: ErrorCode)
    ensures ErrorFromInt(CodeNumber(c)) == c <==> c == InternalError
    ensures Dispatched(None) == ErrorText("InternalError")
  {
  }
}

/** The RPC client's call table with its record objects, one method for each critical section. */
module RpcClients {
  import opened Options
  import opened CallTable

  class CallRecord {
    const request: Option<Request>
    var response: Option<Response>
    var callbackRuns: nat

    constructor (request: Option<Request>)
      ensures this.request == request && response == None && callbackRuns == 0
    {
      this.request, response, callbackRuns := request, None, 0;
    }

    predicate IsDone()
      reads this
    {
      response.Some?
    }

    predicate IsError()
      reads this
    {
      request.None? || response.None?
    }
  }

  class RpcClient {
    var callRecords: map<Id, CallRecord>
    var running: bool
    /** The requests handed to the session. */
    var sent: seq<Request>
    /** History: every record made by a call, in order. */
    var created: seq<CallRecord>

    /** The same as a value. */
    ghost var table: Table

    ghost predicate Valid()
      reads this, created
    {
      && (forall i, j | 0 <= i < j < |created| :: created[i] != created[j])
      && Kept(table)
      && |table.records| == |created|
      && (forall i | 0 <= i < |created| ::
            && created[i].request == Some(table.records[i].request)
            && created[i].response == table.records[i].response
            && created[i].callbackRuns == table.records[i].callbackRuns)
      && table.ids.Keys == callRecords.Keys
      && (forall id | id in callRecords :: table.ids[id] < |created| && created[table.ids[id]] == callRecords[id])
    }

    constructor ()
      ensures Valid() && table == EMPTY && sent == []
    {
      callRecords, running, sent, created := map[], false, [], [];
      table := EMPTY;
    }

    /** Files a record for the id and sends the request, unless the id is in use; a client that is not running
        drops the request but keeps the record. */
    method CallReturnProcedure(id: Id) returns (ok: bool)
      requires Valid()
      modifies this`callRecords, this`created, this`sent, this`table
      ensures Valid() && (ok <==> id !in old(callRecords))
      ensures table == if ok then Register(old(table), id) else old(table)
      ensures ok ==> |created| == |old(created)| + 1 && created[..|old(created)|] == old(created)
                     && fresh(created[|old(created)|])
      ensures !ok ==> created == old(created)
      ensures sent == if ok && running then old(sent) + [Request(id, |old(created)|)] else old(sent)
    {
      if id in callRecords {
        return false;
      }
      var request := Request(id, |created|);
      FileRecord(request);
      if running {
        sent := sent + [request];
      }
      ok := true;
    }

    /** Its first half: makes the record and files it. */
    method FileRecord(request: Request)
      requires Valid() && request.id !in callRecords && request.call == |created|
      modifies this`callRecords, this`created, this`table
      ensures Valid() && table == Register(old(table), request.id)
      ensures |created| == |old(created)| + 1 && created[..|old(created)|] == old(created)
      ensures fresh(created[|old(created)|])
    {
      SectionsKeepTable(table, request.id, Response(request.id, 0));
      var record := new CallRecord(Some(request));
      callRecords := callRecords[request.id := record];
      created := created + [record];
      table := Register(table, request.id);
    }

    /** The record filed under the id, or an empty record that belongs to no call. */
    method GetReturnCallRecord(id: Id) returns (record: CallRecord)
      requires Valid()
      ensures if id in callRecords then
                record == callRecords[id] && Lookup(table, id).Some? && record == created[table.ids[id]]
              else fresh(record) && record.IsError() && !record.IsDone() && Lookup(table, id) == None
    {
      if id in callRecords {
        return callRecords[id];
      }
      record := new CallRecord(None);
    }

    method RemoveCallRecord(id: Id)
      requires Valid()
      modifies this`callRecords, this`table
      ensures Valid() && table == Remove(old(table), id)
    {
      if id in callRecords {
        callRecords := callRecords - {id};
      }
      table := Remove(table, id);
    }

    /** A packet that does not decode to a response changes nothing; one that does completes the record filed
        under its id, if there is one, and runs its callback. */
    method OnDataReady(parsed: Option<Response>)
      requires Valid()
      modifies created, this`table
      ensures Valid() && table == if parsed.Some? then Receive(old(table), parsed.value) else old(table)
    {
      if parsed.Some? && parsed.value.id in callRecords {
        SectionsKeepTable(table, parsed.value.id, parsed.value);
        var record := callRecords[parsed.value.id];
        record.response := parsed;
        record.callbackRuns := record.callbackRuns + 1;
        table := Receive(table, parsed.value);
      }
    }
  }
}

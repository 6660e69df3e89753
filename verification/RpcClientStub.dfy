/** One stub call on real records: file the call, sleep while replies arrive, look the record up again by its id,
    and free the id only if the reply has come. */
module RpcClientStubs {
  import opened Options
  import opened CallTable
  import opened RpcClients

  /** The replies that arrive during the sleep, one after another. */
  function ReceiveAll(t: Table, arriving: seq<Response>): Table {
    if arriving == [] then t
    else Receive(ReceiveAll(t, arriving[..|arriving| - 1]), arriving[|arriving| - 1])
  }

  /** The table after the sleep and what follows it, for a filed call. */
  function Collected(t: Table, id: Id, arriving: seq<Response>): Table
    requires id in t.ids
  {
    var received := ReceiveAll(t, arriving);
    if IsDone(received, t.ids[id]) then Remove(received, id) else received
  }

  /** The table after the whole call. */
  function AfterCall(t: Table, id: Id, arriving: seq<Response>): Table
    requires id !in t.ids
  {
    Collected(Register(t, id), id, arriving)
  }

  /** Replies change no entry of the table. */
  lemma {:induction false} ReceiveAllKeepsEntries(t: Table, arriving: seq<Response>)
    requires Filed(t)
    ensures Filed(ReceiveAll(t, arriving))
    ensures ReceiveAll(t, arriving).ids == t.ids && |ReceiveAll(t, arriving).records| == |t.records|
  {
    if arriving != [] {
      ReceiveAllKeepsEntries(t, arriving[..|arriving| - 1]);
    }
  }

  /** They complete a record exactly when one of them has its id. */
  lemma {:induction false} ReceiveAllCompletes(t: Table, arriving: seq<Response>, id: Id)
    requires Filed(t) && id in t.ids && t.records[t.ids[id]].response.None?
    ensures IsDone(ReceiveAll(t, arriving), t.ids[id]) <==> exists r :: r in arriving && r.id == id
  {
    if arriving != [] {
      var before, last := arriving[..|arriving| - 1], arriving[|arriving| - 1];
      ReceiveAllKeepsEntries(t, before);
      ReceiveAllCompletes(t, before, id);
      assert arriving == before + [last];
      ReceiveCompletes(ReceiveAll(t, before), last, id);
      if last.id == id {
        assert last in arriving;
      }
    }
  }

  lemma ReceiveCompletes(t: Table, response: Response, id: Id)
    requires Filed(t) && id in t.ids
    ensures IsDone(Receive(t, response), t.ids[id]) <==> IsDone(t, t.ids[id]) || response.id == id
  {
    if response.id in t.ids && response.id != id {
      assert t.records[t.ids[response.id]].request.id == response.id && t.records[t.ids[id]].request.id == id;
    }
  }

  /** The call is answered exactly when a reply with its id arrives during the sleep, and frees its id exactly then. */
  lemma AnsweredIffReplied(t: Table, id: Id, arriving: seq<Response>)
    requires Filed(t) && id !in t.ids
    ensures IsDone(AfterCall(t, id, arriving), |t.records|) <==> exists r :: r in arriving && r.id == id
    ensures id in AfterCall(t, id, arriving).ids <==> !IsDone(AfterCall(t, id, arriving), |t.records|)
    ensures forall other | other != id :: other in AfterCall(t, id, arriving).ids <==> other in t.ids
  {
    var filed := Register(t, id);
    assert Filed(filed);
    ReceiveAllKeepsEntries(filed, arriving);
    ReceiveAllCompletes(filed, arriving, id);
  }

  /** How many of the replies have the id. */
  function Hits(arriving: seq<Response>, id: Id): nat {
    if arriving == [] then 0
    else Hits(arriving[..|arriving| - 1], id) + if arriving[|arriving| - 1].id == id then 1 else 0
  }

  /** The callback runs once for each reply with the id, and the record keeps the last of them. */
  lemma {:induction false} EveryReplyCounts(t: Table, arriving: seq<Response>, id: Id)
    requires Filed(t) && id in t.ids
    ensures |ReceiveAll(t, arriving).records| == |t.records|
    ensures var before, after := t.records[t.ids[id]], ReceiveAll(t, arriving).records[t.ids[id]];
            && after.callbackRuns == before.callbackRuns + Hits(arriving, id)
            && (Hits(arriving, id) == 0 ==> after == before)
            && (forall k | 0 <= k < |arriving| && arriving[k].id == id
                           && (forall l | k < l < |arriving| :: arriving[l].id != id) ::
                  after.response == Some(arriving[k]))
  {
    if arriving != [] {
      var before, last := arriving[..|arriving| - 1], arriving[|arriving| - 1];
      ReceiveAllKeepsEntries(t, before);
      EveryReplyCounts(t, before, id);
      ReceiveHits(ReceiveAll(t, before), last, id);
      assert forall k | 0 <= k < |before| :: before[k] == arriving[k];
    }
  }

  lemma ReceiveHits(t: Table, response: Response, id: Id)
    requires Filed(t) && id in t.ids
    ensures |Receive(t, response).records| == |t.records|
    ensures var before, after := t.records[t.ids[id]], Receive(t, response).records[t.ids[id]];
            if response.id == id then
              && after.request == before.request && after.response == Some(response)
              && after.callbackRuns == before.callbackRuns + 1
            else after == before
  {
    if response.id in t.ids && response.id != id {
      assert t.records[t.ids[response.id]].request.id == response.id && t.records[t.ids[id]].request.id == id;
    }
  }

  class RpcClientStub {
    const client: RpcClient
    var connected: bool

    constructor (client: RpcClient)
      ensures this.client == client && !connected
    {
      this.client := client;
      connected := false;
    }

    /** The sleep: meanwhile the client's own thread handles what arrives. */
    method Sleep(arriving: seq<Response>)
      requires client.Valid()
      modifies client`table, client.created
      ensures client.Valid() && client.table == ReceiveAll(old(client.table), arriving)
    {
      for i := 0 to |arriving|
        invariant client.Valid() && client.table == ReceiveAll(old(client.table), arriving[..i])
      {
        client.OnDataReady(Some(arriving[i]));
        assert arriving[..i + 1][..i] == arriving[..i];
      }
      assert arriving[..|arriving|] == arriving;
    }

    /** From the sleep to the return, for a call that has been filed. */
    method Collect(id: Id, arriving: seq<Response>) returns (record: CallRecord)
      requires client.Valid() && id in client.callRecords
      modifies client`table, client`callRecords, client.created
      ensures client.Valid() && record == old(client.callRecords[id])
      ensures client.table == Collected(old(client.table), id, arriving)
      ensures record.IsDone() <==> IsDone(client.table, old(client.table.ids[id]))
    {
      ReceiveAllKeepsEntries(client.table, arriving);
      Sleep(arriving);
      assert id in client.callRecords && client.callRecords[id] == old(client.callRecords[id]);
      record := client.GetReturnCallRecord(id);
      assert record == old(client.callRecords[id]);
      FreeIfDone(id, record);
    }

    /** What follows the lookup: the id is freed if the record is answered. */
    method FreeIfDone(id: Id, record: CallRecord)
      requires client.Valid() && id in client.callRecords && record == client.callRecords[id]
      modifies client`table, client`callRecords
      ensures client.Valid() && (record.IsDone() <==> IsDone(old(client.table), old(client.table.ids[id])))
      ensures client.table == if record.IsDone() then Remove(old(client.table), id) else old(client.table)
    {
      if !record.IsError() && record.IsDone() {
        client.RemoveCallRecord(id);
      }
    }

    method RpcReturnCall(id: Id, arriving: seq<Response>) returns (record: CallRecord)
      requires client.Valid()
      modifies client, client.created
      ensures client.Valid()
      ensures !connected || id in old(client.table.ids) ==>
                fresh(record) && record.IsError() && !record.IsDone() && client.table == old(client.table)
      ensures connected && id !in old(client.table.ids) ==>
                && client.table == AfterCall(old(client.table), id, arriving)
                && record.request == Some(Request(id, |old(client.table.records)|))
                && |client.created| == |old(client.created)| + 1 && record == client.created[|old(client.created)|]
                && (record.IsDone() <==> IsDone(client.table, |old(client.table.records)|))
    {
      if connected {
        var ok := client.CallReturnProcedure(id);
        if ok {
          record := Collect(id, arriving);
          return record;
        }
      }
      record := new CallRecord(None);
    }
  }
}

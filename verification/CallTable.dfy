/** The table of outstanding calls, as a value: what each critical section of the client does to it. */
module CallTable {
  import opened Options

  type Id = string

  /** `call` is history: the serial number of the call a request was made for.  No code reads it. */
  datatype Request = Request(id: Id, call: nat)

  /** A well-formed JSON-RPC response; `call` is the serial number of the call it answers. */
  datatype Response = Response(id: Id, call: nat)

  datatype Record = Record(request: Request, response: Option<Response>, callbackRuns: nat)

  /** The ids in use, each with the serial number of its record, and every record ever made. */
  datatype Table = Table(ids: map<Id, nat>, records: seq<Record>)

  const EMPTY := Table(map[], [])

  /** First half of `callReturnProcedure`, for an id that is not in use. */
  function Register(t: Table, id: Id): Table
    requires id !in t.ids
  {
    var n := |t.records|;
    Table(t.ids[id := n], t.records + [Record(Request(id, n), None, 0)])
  }

  /** `onDataReady` on a well-formed response: the record found under its id gets it, and its callback runs. */
  function Receive(t: Table, response: Response): Table {
    if response.id in t.ids && t.ids[response.id] < |t.records| then
      var n := t.ids[response.id];
      var record := t.records[n];
      t.(records := t.records[n := record.(response := Some(response), callbackRuns := record.callbackRuns + 1)])
    else t
  }

  function Remove(t: Table, id: Id): Table {
    t.(ids := t.ids - {id})
  }

  function Lookup(t: Table, id: Id): Option<nat> {
    if id in t.ids then Some(t.ids[id]) else None
  }

  predicate IsDone(t: Table, n: nat) {
    n < |t.records| && t.records[n].response.Some?
  }

  /** Different ids have different records, each made for the id it is filed under. */
  ghost predicate Filed(t: Table) {
    && (forall n | 0 <= n < |t.records| :: t.records[n].request.call == n)
    && (forall id | id in t.ids :: t.ids[id] < |t.records| && t.records[t.ids[id]].request.id == id)
  }

  /** Between critical sections, a record's callback has run if and only if the record has a response. */
  ghost predicate CallbacksMatch(t: Table) {
    forall n | 0 <= n < |t.records| :: t.records[n].callbackRuns > 0 <==> t.records[n].response.Some?
  }

  /** What the client keeps between critical sections. */
  ghost predicate Kept(t: Table) {
    Filed(t) && CallbacksMatch(t)
  }

  lemma SectionsKeepTable(t: Table, id: Id, response: Response)
    requires Kept(t)
    ensures id !in t.ids ==> Kept(Register(t, id))
    ensures Kept(Receive(t, response))
    ensures Kept(Remove(t, id))
  {
  }
}

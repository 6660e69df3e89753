/** The sending half of a session: a bounded queue of packets and the writes started for them. */
module WritePump {
  import opened Packets

  const MAX_PENDING := 64

  /** An `async_write` that has not completed; the first `put` bytes of its packet are on the wire. */
  datatype Write = Write(packet: seq<byte>, put: nat)

  /** Nothing in the type keeps a second write from being started while one is outstanding: the bytes of two
      writes would mix on the wire. */
  datatype Sender = Sender(queue: seq<seq<byte>>, writes: seq<Write>, open: bool)

  const IDLE := Sender([], [], true)

  predicate Accepts(s: Sender) {
    |s.queue| < MAX_PENDING
  }

  function Started(s: Sender): Sender
    requires s.queue != []
  {
    s.(writes := s.writes + [Write(s.queue[0], 0)])
  }

  /** `send`: refused when the queue is full; starts a write only when the queue was empty. */
  function Sent(s: Sender, packet: seq<byte>): Sender {
    if !Accepts(s) then s
    else
      var queued := s.(queue := s.queue + [packet]);
      if s.queue == [] then Started(queued) else queued
  }

  /** The socket puts the next `n` bytes of write `i` on the wire. */
  function PutOn(s: Sender, i: nat, n: nat): Sender
    requires i < |s.writes|
  {
    s.(writes := s.writes[i := s.writes[i].(put := s.writes[i].put + n)])
  }

  /** `handleWrite` for write `i`: the front packet leaves the queue if the write succeeded, and the next one
      is written.  Popping an empty queue would be undefined; `OneWriteAtATime` excludes it. */
  function Written(s: Sender, i: nat, ok: bool): Sender
    requires i < |s.writes|
  {
    var rest := s.(writes := s.writes[..i] + s.writes[i + 1..]);
    if !ok then rest.(open := false)
    else if |s.queue| <= 1 then rest.(queue := [])
    else Started(rest.(queue := s.queue[1..]))
  }

  function Closed(s: Sender): Sender {
    s.(open := false)
  }

  /** What every step keeps: there is at most one write, it is for the front packet, and the queue is bounded. */
  predicate Pumping(s: Sender) {
    && |s.writes| <= 1
    && (s.writes != [] ==> s.queue != [] && s.writes[0].packet == s.queue[0] && s.writes[0].put <= |s.queue[0]|)
    && |s.queue| <= MAX_PENDING
  }

  /** A write has failed: packets are queued, but nobody will write them. */
  predicate Dead(s: Sender) {
    s.writes == [] && s.queue != []
  }

  datatype Call = Send(packet: seq<byte>) | Put(i: nat, n: nat) | WriteDone(i: nat, ok: bool) | Close

  predicate May(s: Sender, c: Call) {
    match c
    case Put(i, n) => s.open && i < |s.writes| && s.writes[i].put + n <= |s.writes[i].packet|
    case WriteDone(i, ok) => i < |s.writes| && (ok ==> s.writes[i].put == |s.writes[i].packet|)
    case _ => true
  }

  function Do(s: Sender, c: Call): Sender
    requires May(s, c)
  {
    match c
    case Send(packet) => Sent(s, packet)
    case Put(i, n) => PutOn(s, i, n)
    case WriteDone(i, ok) => Written(s, i, ok)
    case Close => Closed(s)
  }

  ghost predicate IsRun(states: seq<Sender>, calls: seq<Call>) {
    && |states| == |calls| + 1
    && states[0] == IDLE
    && forall i | 0 <= i < |calls| :: Leads(states, calls, i)
  }

  predicate Leads(states: seq<Sender>, calls: seq<Call>, i: nat)
    requires i < |calls| && i + 1 < |states|
  {
    May(states[i], calls[i]) && states[i + 1] == Do(states[i], calls[i])
  }

  predicate Fails(c: Call) {
    c.WriteDone? && !c.ok
  }

  /** In every run there are never two writes outstanding: as long as none has failed there is exactly one if
      packets are queued and none otherwise.  It is for the front packet, so a completion never pops an empty
      queue, and the queue never exceeds its bound. */
  lemma {:induction false} OneWriteAtATime(states: seq<Sender>, calls: seq<Call>, n: nat)
    requires IsRun(states, calls) && n < |states|
    ensures |states[n].writes| <= 1 && |states[n].queue| <= MAX_PENDING
    ensures (forall i | 0 <= i < n :: !Fails(calls[i])) ==>
              |states[n].writes| == if states[n].queue == [] then 0 else 1
    ensures forall w | w in states[n].writes :: states[n].queue != [] && w.packet == states[n].queue[0]
    ensures Pumping(states[n])
  {
    if n > 0 {
      OneWriteAtATime(states, calls, n - 1);
      RunStep(states, calls, n - 1);
      DoKeeps(states[n - 1], calls[n - 1]);
    }
  }

  lemma DoKeeps(s: Sender, c: Call)
    requires Pumping(s) && May(s, c)
    ensures Pumping(Do(s, c))
    ensures !Fails(c) && !Dead(s) ==> !Dead(Do(s, c))
    ensures Fails(c) ==> Dead(Do(s, c)) && Do(s, c).queue == s.queue
    ensures Dead(s) ==> Dead(Do(s, c)) && s.queue <= Do(s, c).queue
  {
  }

  lemma RunStep(states: seq<Sender>, calls: seq<Call>, i: nat)
    requires IsRun(states, calls) && i < |calls|
    ensures May(states[i], calls[i]) && states[i + 1] == Do(states[i], calls[i])
  {
    assert Leads(states, calls, i);
  }

  lemma DeadStep(states: seq<Sender>, calls: seq<Call>, i: nat)
    requires IsRun(states, calls) && i < |calls| && Dead(states[i])
    ensures Dead(states[i + 1]) && states[i].queue <= states[i + 1].queue
  {
    OneWriteAtATime(states, calls, i);
    RunStep(states, calls, i);
    DoKeeps(states[i], calls[i]);
  }

  lemma {:induction false} DeadStays(states: seq<Sender>, calls: seq<Call>, k: nat, n: nat)
    requires IsRun(states, calls) && k <= n < |states| && Dead(states[k])
    ensures Dead(states[n]) && states[k].queue <= states[n].queue
  {
    if n > k {
      DeadStays(states, calls, k, n - 1);
      DeadStep(states, calls, n - 1);
    }
  }

  /** After a failed write no write is outstanding and no later call starts or completes one; the failed packet
      stays at the front. */
  lemma FailureIsFinal(states: seq<Sender>, calls: seq<Call>, k: nat, n: nat)
    requires IsRun(states, calls) && k < n < |states| && Fails(calls[k])
    ensures states[n].writes == [] && states[k].queue != [] && states[k].queue <= states[n].queue
    ensures n < |calls| ==> !calls[n].WriteDone? && !calls[n].Put?
  {
    OneWriteAtATime(states, calls, k);
    RunStep(states, calls, k);
    DoKeeps(states[k], calls[k]);
    DeadStays(states, calls, k + 1, n);
    if n < |calls| {
      RunStep(states, calls, n);
    }
  }

  // ---------------------------------------------------------------- what becomes of the packets

  /** The packet of a call of `send` that finds fewer than 64 queued. */
  function Taken(s: Sender, c: Call): seq<seq<byte>> {
    if c.Send? && |s.queue| < 64 then [c.packet] else []
  }

  /** The packet whose write completes without an error. */
  function Gone(s: Sender, c: Call): seq<seq<byte>> {
    if c.WriteDone? && c.ok && c.i < |s.writes| then [s.writes[c.i].packet] else []
  }

  function AllTaken(states: seq<Sender>, calls: seq<Call>, n: nat): seq<seq<byte>>
    requires n <= |calls| <= |states|
  {
    if n == 0 then [] else AllTaken(states, calls, n - 1) + Taken(states[n - 1], calls[n - 1])
  }

  function AllGone(states: seq<Sender>, calls: seq<Call>, n: nat): seq<seq<byte>>
    requires n <= |calls| <= |states|
  {
    if n == 0 then [] else AllGone(states, calls, n - 1) + Gone(states[n - 1], calls[n - 1])
  }

  lemma DoMovesPackets(s: Sender, c: Call)
    requires Pumping(s) && May(s, c)
    ensures Gone(s, c) + Do(s, c).queue == s.queue + Taken(s, c)
    ensures c.Send? && |s.queue| >= 64 ==> Do(s, c) == s
  {
    if c.WriteDone? && c.ok {
      assert s.queue == [s.queue[0]] + s.queue[1..];
    }
  }

  lemma Regroup(gone: seq<seq<byte>>, queue: seq<seq<byte>>, taken: seq<seq<byte>>,
                first: seq<seq<byte>>, queue': seq<seq<byte>>, last: seq<seq<byte>>)
    requires taken == gone + queue && first + queue' == queue + last
    ensures taken + last == gone + first + queue'
  {
    assert gone + queue + last == gone + (queue + last);
    assert gone + first + queue' == gone + (first + queue');
  }

  /** In every run the packets taken by `send`, in the order of the calls, are those whose writes have succeeded, in
      the order of the writes, followed by those still queued; and a refused call changes nothing. */
  lemma {:induction false} PacketsKeepTheirOrder(states: seq<Sender>, calls: seq<Call>, n: nat)
    requires IsRun(states, calls) && n < |states|
    ensures AllTaken(states, calls, n) == AllGone(states, calls, n) + states[n].queue
    ensures n < |calls| && calls[n].Send? && |states[n].queue| >= 64 ==> states[n + 1] == states[n]
  {
    if n < |calls| {
      OneWriteAtATime(states, calls, n);
      RunStep(states, calls, n);
      DoMovesPackets(states[n], calls[n]);
    }
    if n > 0 {
      PacketsKeepTheirOrder(states, calls, n - 1);
      OneWriteAtATime(states, calls, n - 1);
      RunStep(states, calls, n - 1);
      DoMovesPackets(states[n - 1], calls[n - 1]);
      Regroup(AllGone(states, calls, n - 1), states[n - 1].queue, AllTaken(states, calls, n - 1),
              Gone(states[n - 1], calls[n - 1]), states[n].queue, Taken(states[n - 1], calls[n - 1]));
    }
  }

  /** The sender is open exactly until it is closed or a write fails. */
  lemma {:induction false} OpenUntilClosed(states: seq<Sender>, calls: seq<Call>, n: nat)
    requires IsRun(states, calls) && n < |states|
    ensures states[n].open <==> forall k | 0 <= k < n :: !calls[k].Close? && !Fails(calls[k])
  {
    if n > 0 {
      OpenUntilClosed(states, calls, n - 1);
      RunStep(states, calls, n - 1);
    }
  }
}

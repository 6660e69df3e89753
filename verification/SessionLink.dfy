/** A sending session, the byte stream and the receiving session at its other end, as one system. */
module SessionLink {
  import opened Packets
  import opened Framing
  import opened WritePump

  /** `offered`, `accepted` and `received` are history: the data of the calls `send` did not refuse, the
      messages made of them, and the bytes the receiver has read. */
  datatype Link = Link(
    sender: Sender,
    wire: seq<byte>,
    input: Input,
    offered: seq<seq<byte>>,
    accepted: seq<Message>,
    received: seq<byte>)

  const QUIET := Link(IDLE, [], Open([]), [], [], [])

  datatype Event =
    | CallSend(data: seq<byte>, spare0: byte, spare1: byte)
    | WireOut(i: nat, n: nat)
    | WriteCompletes(i: nat, ok: bool)
    | SenderCloses
    | WireIn(n: nat)
    | ReadCompletes(handled: bool)
    | ReadFails

  predicate Enabled(l: Link, e: Event) {
    match e
    case CallSend(data, _, _) => ToU16(|data|) <= MAX_BODY
    case WireOut(i, n) => May(l.sender, Put(i, n))
    case WriteCompletes(i, ok) => May(l.sender, WriteDone(i, ok))
    case SenderCloses => true
    case WireIn(n) => Reading(l.input.r.phase) && n <= |l.wire| && |l.input.buf| + n <= Need(l.input.r.phase)
    case ReadCompletes(_) => Reading(l.input.r.phase) && |l.input.buf| == Need(l.input.r.phase)
    case ReadFails => Reading(l.input.r.phase)
  }

  function Next(l: Link, e: Event): Link
    requires Enabled(l, e)
  {
    match e
    case CallSend(data, spare0, spare1) =>
      var m := Message(Clip(data), spare0, spare1);
      var sent := l.(sender := Sent(l.sender, Frame(m)));
      if Accepts(l.sender) then sent.(offered := l.offered + [data], accepted := l.accepted + [m]) else sent
    case WireOut(i, n) =>
      var w := l.sender.writes[i];
      l.(wire := l.wire + w.packet[w.put..w.put + n], sender := PutOn(l.sender, i, n))
    case WriteCompletes(i, ok) => l.(sender := Written(l.sender, i, ok))
    case SenderCloses => l.(sender := Closed(l.sender))
    case WireIn(n) =>
      l.(wire := l.wire[n..], input := l.input.(buf := l.input.buf + l.wire[..n]), received := l.received + l.wire[..n])
    case ReadCompletes(handled) =>
      if l.input.r.phase.AwaitHead? then l.(input := Input(HeadRead(l.input.r, l.input.buf), []))
      else l.(input := Input(BodyRead(l.input.r, l.input.buf, handled), []))
    case ReadFails => l.(input := Input(Fail(l.input.r), []))
  }

  ghost predicate IsRun(states: seq<Link>, events: seq<Event>) {
    && |states| == |events| + 1
    && states[0] == QUIET
    && forall i | 0 <= i < |events| :: Leads(states, events, i)
  }

  predicate Leads(states: seq<Link>, events: seq<Event>, i: nat)
    requires i < |events| && i + 1 < |states|
  {
    Enabled(states[i], events[i]) && states[i + 1] == Next(states[i], events[i])
  }

  lemma RunStep(states: seq<Link>, events: seq<Event>, i: nat)
    requires IsRun(states, events) && i < |events|
    ensures Enabled(states[i], events[i]) && states[i + 1] == Next(states[i], events[i])
  {
    assert Leads(states, events, i);
  }

  // ---------------------------------------------------------------- the invariant

  /** The packets still queued are the frames of the messages accepted last. */
  ghost predicate QueueOk(l: Link) {
    && Pumping(l.sender)
    && Sendable(l.accepted)
    && |l.sender.queue| <= |l.accepted|
    && forall i | 0 <= i < |l.sender.queue| :: l.sender.queue[i] == Frame(l.accepted[WrittenCount(l) + i])
  }

  /** The number of accepted messages whose write has succeeded. */
  function WrittenCount(l: Link): int {
    |l.accepted| - |l.sender.queue|
  }

  function WrittenBytes(l: Link): seq<byte>
    requires Sendable(l.accepted) && |l.sender.queue| <= |l.accepted|
  {
    Stream(l.accepted[..WrittenCount(l)])
  }

  /** The bytes put on the wire so far are the frames written in full and, of the front one, what its write has
      put out, or some part when that write has failed. */
  ghost predicate WireOk(l: Link)
    requires QueueOk(l)
  {
    var out := l.received + l.wire;
    if l.sender.writes != [] then out == WrittenBytes(l) + l.sender.queue[0][..l.sender.writes[0].put]
    else if l.sender.queue != [] then WrittenBytes(l) <= out <= WrittenBytes(l) + l.sender.queue[0]
    else out == WrittenBytes(l)
  }

  /** A message is what the 16-bit size left of the data it was made of. */
  ghost predicate OfferedOk(l: Link) {
    && |l.offered| == |l.accepted|
    && forall k | 0 <= k < |l.offered| :: l.accepted[k].body == Clip(l.offered[k])
  }

  /** The receiver is where the bytes it has read lead, unless an error has stopped it there. */
  ghost predicate InputOk(l: Link) {
    var fed := Feed(Open([]), l.received);
    && Within(l.input)
    && (l.input.r.phase.Stopped? ==> l.input.r.delivered <= fed.r.delivered)
    && (!l.input.r.phase.Stopped? ==> Settle(l.input) == fed)
  }

  ghost predicate LinkOk(l: Link) {
    OfferedOk(l) && QueueOk(l) && WireOk(l) && InputOk(l)
  }

  lemma OfferedKept(l: Link, e: Event)
    requires OfferedOk(l) && Enabled(l, e)
    ensures OfferedOk(Next(l, e))
  {
  }

  lemma CompletionKeepsQueue(l: Link, i: nat, ok: bool)
    requires QueueOk(l) && Enabled(l, WriteCompletes(i, ok))
    ensures QueueOk(Next(l, WriteCompletes(i, ok)))
  {
    DoKeeps(l.sender, WriteDone(i, ok));
    if ok {
      var l' := Next(l, WriteCompletes(i, ok));
      assert forall j | 0 <= j < |l'.sender.queue| :: l'.sender.queue[j] == l.sender.queue[j + 1];
    }
  }

  lemma QueueKept(l: Link, e: Event)
    requires QueueOk(l) && Enabled(l, e)
    ensures QueueOk(Next(l, e))
  {
    match e
    case CallSend(data, spare0, spare1) => DoKeeps(l.sender, Send(Frame(Message(Clip(data), spare0, spare1))));
    case WireOut(i, n) => DoKeeps(l.sender, Put(i, n));
    case WriteCompletes(i, ok) => CompletionKeepsQueue(l, i, ok);
    case _ =>
  }

  lemma WireOutKept(l: Link, i: nat, n: nat)
    requires QueueOk(l) && WireOk(l) && Enabled(l, WireOut(i, n)) && QueueOk(Next(l, WireOut(i, n)))
    ensures WireOk(Next(l, WireOut(i, n)))
  {
    var put, front := l.sender.writes[0].put, l.sender.queue[0];
    Append(l.received, l.wire, WrittenBytes(l), front[..put], front[put..put + n]);
    assert front[..put] + front[put..put + n] == front[..put + n];
  }

  lemma Append(received: seq<byte>, wire: seq<byte>, done: seq<byte>, part: seq<byte>, more: seq<byte>)
    requires received + wire == done + part
    ensures received + (wire + more) == done + (part + more)
  {
    assert received + (wire + more) == received + wire + more;
    assert done + (part + more) == done + part + more;
  }

  lemma WriteSucceedsKept(l: Link, i: nat)
    requires QueueOk(l) && WireOk(l) && Enabled(l, WriteCompletes(i, true))
    requires QueueOk(Next(l, WriteCompletes(i, true)))
    ensures WireOk(Next(l, WriteCompletes(i, true)))
  {
    var l', k := Next(l, WriteCompletes(i, true)), WrittenCount(l);
    assert l.sender.queue[0] == Frame(l.accepted[k + 0]);
    StreamAppends(l.accepted[..k], l.accepted[k]);
    assert l.accepted[..k] + [l.accepted[k]] == l.accepted[..k + 1];
    assert l.sender.queue[0][..l.sender.writes[0].put] == l.sender.queue[0];
    if l'.sender.queue != [] {
      assert WrittenBytes(l') + l'.sender.queue[0][..0] == WrittenBytes(l');
    }
  }

  lemma WriteFailsKept(l: Link, i: nat)
    requires QueueOk(l) && WireOk(l) && Enabled(l, WriteCompletes(i, false))
    requires QueueOk(Next(l, WriteCompletes(i, false)))
    ensures WireOk(Next(l, WriteCompletes(i, false)))
  {
    PartOf(WrittenBytes(l), l.sender.queue[0], l.sender.writes[0].put);
  }

  lemma PartOf(done: seq<byte>, front: seq<byte>, put: nat)
    requires put <= |front|
    ensures done <= done + front[..put] <= done + front
  {
    assert front == front[..put] + front[put..];
    assert done + front == done + front[..put] + front[put..];
  }

  lemma CallSendKept(l: Link, e: Event)
    requires QueueOk(l) && WireOk(l) && e.CallSend? && Enabled(l, e) && QueueOk(Next(l, e))
    ensures WireOk(Next(l, e))
  {
    var l' := Next(l, e);
    assert l'.accepted[..WrittenCount(l')] == l.accepted[..WrittenCount(l)];
    if l.sender.queue == [] && Accepts(l.sender) {
      assert WrittenBytes(l') + l'.sender.queue[0][..0] == WrittenBytes(l');
    }
  }

  lemma WireKept(l: Link, e: Event)
    requires QueueOk(l) && WireOk(l) && Enabled(l, e) && QueueOk(Next(l, e))
    ensures WireOk(Next(l, e))
  {
    match e
    case CallSend(_, _, _) => CallSendKept(l, e);
    case WireOut(i, n) => WireOutKept(l, i, n);
    case WriteCompletes(i, ok) =>
      if ok {
        WriteSucceedsKept(l, i);
      } else {
        WriteFailsKept(l, i);
      }
    case WireIn(n) => assert Next(l, e).received + Next(l, e).wire == l.received + l.wire;
    case _ =>
  }

  lemma SettleOnlyAdds(i: Input)
    requires Within(i)
    ensures i.r.delivered <= Settle(i).r.delivered
  {
  }

  lemma InputKept(l: Link, e: Event)
    requires InputOk(l) && Enabled(l, e)
    ensures InputOk(Next(l, e))
  {
    var fed := Feed(Open([]), l.received);
    match e
    case WireIn(n) =>
      var bytes := l.wire[..n];
      FeedInChunks(Open([]), l.received, bytes);
      if n == 0 {
        assert l.input.buf + bytes == l.input.buf;
      } else {
        FeedUpTo(l.input, bytes);
      }
    case ReadCompletes(handled) =>
      CompleteThenSettle(l.input);
      SettleOnlyAdds(Complete(l.input));
    case ReadFails =>
      SettleOnlyAdds(l.input);
    case _ =>
  }

  lemma {:induction false} RunKeeps(states: seq<Link>, events: seq<Event>, n: nat)
    requires IsRun(states, events) && n < |states|
    ensures LinkOk(states[n])
  {
    if n > 0 {
      RunKeeps(states, events, n - 1);
      var l, e := states[n - 1], events[n - 1];
      RunStep(states, events, n - 1);
      OfferedKept(l, e);
      QueueKept(l, e);
      WireKept(l, e);
      InputKept(l, e);
    }
  }

  lemma PutOutIsPart(l: Link)
    requires QueueOk(l) && WireOk(l)
    ensures l.received + l.wire <= Stream(l.accepted)
    ensures l.sender.queue == [] ==> l.received + l.wire == Stream(l.accepted)
  {
    var k := WrittenCount(l);
    if l.sender.queue == [] {
      assert l.accepted[..k] == l.accepted;
    } else {
      assert l.sender.queue[0] == Frame(l.accepted[k + 0]);
      StreamOfPrefix(l.accepted, k);
    }
  }

  // ---------------------------------------------------------------- what is delivered

  /** At every moment of every run, whatever fails and however the bytes are cut up, the delivered messages are
      the first accepted ones, in order and without duplicates, and none is above the limit. */
  lemma DeliveredIsPrefix(states: seq<Link>, events: seq<Event>, n: nat)
    requires IsRun(states, events) && n < |states|
    ensures var l := states[n];
            && l.input.r.delivered <= Fitting(l.accepted)
            && |l.input.r.delivered| <= |l.accepted|
            && forall k | 0 <= k < |l.input.r.delivered| ::
                 l.input.r.delivered[k] == l.accepted[k].body && |l.accepted[k].body| <= MAX_SIZE
  {
    var l := states[n];
    RunKeeps(states, events, n);
    PutOutIsPart(l);
    assert l.received <= l.received + l.wire;
    DeliveredFromPart(l.accepted, l.received);
    if !l.input.r.phase.Stopped? {
      SettleOnlyAdds(l.input);
    }
    FittingIsPrefix(l.accepted);
  }

  /** The data of the calls of `send` that find fewer than 64 packets queued, in the order of the calls. */
  function Given(states: seq<Link>, events: seq<Event>, n: nat): seq<seq<byte>>
    requires n <= |events| <= |states|
  {
    if n == 0 then []
    else
      var e := events[n - 1];
      Given(states, events, n - 1) + if e.CallSend? && |states[n - 1].sender.queue| < 64 then [e.data] else []
  }

  /** The two histories are what they are called: `offered` the data of those calls, `accepted` the messages made of
      them. */
  lemma {:induction false} OfferedIsGiven(states: seq<Link>, events: seq<Event>, n: nat)
    requires IsRun(states, events) && n < |states|
    ensures states[n].offered == Given(states, events, n)
    ensures |states[n].accepted| == |states[n].offered|
    ensures forall k | 0 <= k < |states[n].offered| :: states[n].accepted[k].body == Clip(states[n].offered[k])
  {
    RunKeeps(states, events, n);
    if n > 0 {
      OfferedIsGiven(states, events, n - 1);
      RunStep(states, events, n - 1);
    }
  }

  /** The event stops the receiver with an error: a read fails, or a handler throws on a body. */
  predicate Breaks(l: Link, e: Event) {
    e.ReadFails? || (e.ReadCompletes? && !e.handled && l.input.r.phase.AwaitBody?)
  }

  /** The sending session is open exactly until it is closed or one of its writes fails, and puts nothing on the wire
      after that. */
  lemma {:induction false} SenderOpenUntilClosed(states: seq<Link>, events: seq<Event>, n: nat)
    requires IsRun(states, events) && n < |states|
    ensures states[n].sender.open <==>
              forall k | 0 <= k < n :: !events[k].SenderCloses? && !(events[k].WriteCompletes? && !events[k].ok)
    ensures n < |events| && !states[n].sender.open ==>
              !events[n].WireOut? && states[n + 1].received + states[n + 1].wire == states[n].received + states[n].wire
  {
    if n < |events| {
      RunStep(states, events, n);
      if events[n].WireIn? {
        assert states[n].wire == states[n].wire[..events[n].n] + states[n].wire[events[n].n..];
      }
    }
    if n > 0 {
      SenderOpenUntilClosed(states, events, n - 1);
      RunStep(states, events, n - 1);
    }
  }

  /** The receiver is stopped by an error exactly if one has happened. */
  lemma {:induction false} StoppedIffBroken(states: seq<Link>, events: seq<Event>, n: nat)
    requires IsRun(states, events) && n < |states|
    ensures states[n].input.r.phase.Stopped? <==> exists k | 0 <= k < n :: Breaks(states[k], events[k])
  {
    if n > 0 {
      StoppedIffBroken(states, events, n - 1);
      RunStep(states, events, n - 1);
      BreakStops(states[n - 1], events[n - 1]);
    }
  }

  lemma BreakStops(l: Link, e: Event)
    requires Enabled(l, e)
    ensures Next(l, e).input.r.phase.Stopped? <==> l.input.r.phase.Stopped? || Breaks(l, e)
  {
  }

  /** A delivered message is unaltered exactly for data shorter than 65536 bytes: each delivered message is the
      clipped data of the call, in the order of the calls, and all of them are the data themselves if and only if no
      such call passed more. */
  lemma DeliveredIffShort(states: seq<Link>, events: seq<Event>, n: nat)
    requires IsRun(states, events) && n < |states|
    ensures var l := states[n];
            && |l.input.r.delivered| <= |l.offered|
            && (forall k | 0 <= k < |l.input.r.delivered| ::
                  && l.input.r.delivered[k] == Clip(l.offered[k])
                  && (l.input.r.delivered[k] == l.offered[k] <==> |l.offered[k]| < 0x1_0000))
            && (l.input.r.delivered <= l.offered <==>
                  forall k | 0 <= k < |l.input.r.delivered| :: |l.offered[k]| < 0x1_0000)
  {
    RunKeeps(states, events, n);
    DeliveredIsPrefix(states, events, n);
    var l := states[n];
    forall k | 0 <= k < |l.input.r.delivered|
      ensures l.input.r.delivered[k] == Clip(l.offered[k])
      ensures l.input.r.delivered[k] == l.offered[k] <==> |l.offered[k]| < 0x1_0000
    {
      ClipKeepsIff(l.offered[k]);
    }
  }

  lemma ClipKeepsIff(data: seq<byte>)
    ensures Clip(data) == data <==> |data| < 0x1_0000
  {
  }

  /** Such a call exists: 65536 bytes are accepted without an error and arrive as the empty message. */
  lemma LongMessageArrivesEmpty(data: seq<byte>) returns (states: seq<Link>, events: seq<Event>)
    requires |data| == 0x1_0000
    ensures IsRun(states, events) && states[|events|].offered == [data] && states[|events|].input.r.delivered == [[]]
  {
    events := [CallSend(data, 0, 0), WireOut(0, HEAD_SIZE), WriteCompletes(0, true), WireIn(HEAD_SIZE),
               ReadCompletes(true), ReadCompletes(true)];
    var l1 := Next(QUIET, events[0]);
    assert Clip(data) == [] && Frame(Message([], 0, 0)) == [0, 0, 0, 0];
    var l2 := Next(l1, events[1]);
    assert l2.wire == [0, 0, 0, 0];
    var l3 := Next(l2, events[2]);
    var l4 := Next(l3, events[3]);
    assert l4.input.buf == [0, 0, 0, 0];
    var l5 := Next(l4, events[4]);
    var l6 := Next(l5, events[5]);
    states := [QUIET, l1, l2, l3, l4, l5, l6];
  }

  /** No error has stopped the receiver, and it has read all it will ever read: everything accepted has been written and
      read, or it has closed for size. */
  predicate Drained(l: Link) {
    && !l.input.r.phase.Stopped?
    && (l.input.r.phase.TooLarge? || (l.sender.queue == [] && l.wire == []))
  }

  /** When it has read all, exactly the messages up to the first one above the limit are delivered once the handlers
      that are due have run, and the receiver is closed if and only if there is such a one. */
  lemma NothingMissing(states: seq<Link>, events: seq<Event>, n: nat)
    requires IsRun(states, events) && n < |states| && Drained(states[n])
    ensures Within(states[n].input) && Settle(states[n].input).r.delivered == Fitting(states[n].accepted)
    ensures Settle(states[n].input).r.phase.TooLarge? <==> exists m :: m in states[n].accepted && |m.body| > MAX_SIZE
    ensures Settled(states[n].input) ==>
              && states[n].input.r.delivered == Fitting(states[n].accepted)
              && (states[n].input.r.phase.TooLarge? <==> exists m :: m in states[n].accepted && |m.body| > MAX_SIZE)
  {
    var l := states[n];
    RunKeeps(states, events, n);
    FitsAllOrNot(l.accepted);
    if l.input.r.phase.TooLarge? {
      ClosesAtFirstLarge(states, events, n);
    } else {
      PutOutIsPart(l);
      assert l.received == Stream(l.accepted);
      RoundTrip(l.accepted, []);
      assert [] + Fitting(l.accepted) == Fitting(l.accepted);
      FittingIsPrefix(l.accepted);
    }
  }

  /** Then everything callers passed is delivered, each message unaltered, if and only if none was above the receiver's
      limit. */
  lemma DeliveredIffSmall(states: seq<Link>, events: seq<Event>, n: nat)
    requires IsRun(states, events) && n < |states| && Drained(states[n]) && Settled(states[n].input)
    ensures states[n].input.r.delivered == states[n].offered <==>
              forall k | 0 <= k < |states[n].offered| :: |states[n].offered[k]| <= 1024
  {
    var l := states[n];
    NothingMissing(states, events, n);
    RunKeeps(states, events, n);
    FittingIsPrefix(l.accepted);
    forall k | 0 <= k < |l.offered|
      ensures |l.offered[k]| <= MAX_SIZE ==> l.accepted[k].body == l.offered[k]
    {
      ClipKeepsIff(l.offered[k]);
    }
    if forall k | 0 <= k < |l.offered| :: |l.offered[k]| <= MAX_SIZE {
      assert |Fitting(l.accepted)| == |l.accepted|;
    }
  }

  /** A message above the limit that is not altered is not delivered either: it is accepted without an error, and the
      receiver closes on its header. */
  lemma LargeMessageCloses(data: seq<byte>) returns (states: seq<Link>, events: seq<Event>)
    requires 1024 < |data| <= 65531
    ensures IsRun(states, events) && states[|events|].offered == [data]
    ensures states[|events|].input.r == Receiver(TooLarge, []) && Drained(states[|events|])
  {
    events := [CallSend(data, 0, 0), WireOut(0, HEAD_SIZE), WireIn(HEAD_SIZE), ReadCompletes(true)];
    var l1 := Next(QUIET, events[0]);
    var header := Header(|data|, 0, 0);
    assert Clip(data) == data && l1.sender.writes == [Write(header + data, 0)];
    var l2 := Next(l1, events[1]);
    assert l2.wire == header;
    var l3 := Next(l2, events[2]);
    assert l3.input.buf == header;
    LengthOfHeader(|data|, 0, 0);
    states := [QUIET, l1, l2, l3, Next(l3, events[3])];
  }

  predicate Becomes(l: Link, e: Event, l': Link) {
    Enabled(l, e) && Next(l, e) == l'
  }

  /** A run with one event more. */
  lemma Then(states: seq<Link>, events: seq<Event>, e: Event, l: Link) returns (states': seq<Link>, events': seq<Event>)
    requires IsRun(states, events) && Becomes(states[|events|], e, l)
    ensures states' == states + [l] && events' == events + [e] && IsRun(states', events')
  {
    states', events' := states + [l], events + [e];
    forall k | 0 <= k < |events'|
      ensures Leads(states', events', k)
    {
      if k < |events| {
        assert Leads(states, events, k);
      }
    }
  }

  /** A session on which `data` has been sent in full, `wire` is still to be read and the receiver is at `input`. */
  function AllSent(data: seq<byte>, wire: seq<byte>, input: Input, received: seq<byte>): Link {
    Link(IDLE, wire, input, [data], [Message(data, 0, 0)], received)
  }

  lemma SendAlone(data: seq<byte>)
    requires |data| <= MAX_SIZE
    ensures var frame, size := Frame(Message(data, 0, 0)), |data| + HEAD_SIZE;
            var queued := AllSent(data, [], Open([]), []).(sender := Sender([frame], [Write(frame, 0)], true));
            var written := AllSent(data, frame, Open([]), []).(sender := Sender([frame], [Write(frame, size)], true));
            && Becomes(QUIET, CallSend(data, 0, 0), queued)
            && Becomes(queued, WireOut(0, size), written)
            && Becomes(written, WriteCompletes(0, true), AllSent(data, frame, Open([]), []))
  {
    var frame := Frame(Message(data, 0, 0));
    assert Clip(data) == data;
    assert frame[0..|frame|] == frame && [] + frame == frame;
  }

  lemma ReceiveAlone(data: seq<byte>)
    requires 0 < |data| <= MAX_SIZE
    ensures var header := Header(|data|, 0, 0);
            var headed := Input(Receiver(AwaitHead, []), header);
            var waiting := Input(Receiver(AwaitBody(|data|), []), []);
            && Becomes(AllSent(data, header + data, Open([]), []), WireIn(HEAD_SIZE),
                       AllSent(data, data, headed, header))
            && Becomes(AllSent(data, data, headed, header), ReadCompletes(true), AllSent(data, data, waiting, header))
            && Becomes(AllSent(data, data, waiting, header), WireIn(|data|),
                       AllSent(data, [], waiting.(buf := data), header + data))
            && Becomes(AllSent(data, [], waiting.(buf := data), header + data), ReadCompletes(true),
                       AllSent(data, [], Open([data]), header + data))
  {
    var header := Header(|data|, 0, 0);
    LengthOfHeader(|data|, 0, 0);
    assert (header + data)[..HEAD_SIZE] == header && (header + data)[HEAD_SIZE..] == data && [] + header == header;
    assert data[..|data|] == data && data[|data|..] == [] && [] + data == data;
  }

  /** A message within the limit is delivered in some run, and the receiver then waits for the next one. */
  lemma SmallMessageArrives(data: seq<byte>) returns (states: seq<Link>, events: seq<Event>)
    requires 0 < |data| <= MAX_SIZE
    ensures IsRun(states, events) && states[|events|].offered == [data]
    ensures states[|events|].input == Open([data]) && states[|events|].sender == IDLE
  {
    var frame, header, size := Frame(Message(data, 0, 0)), Header(|data|, 0, 0), |data| + HEAD_SIZE;
    var headed, waiting := Input(Receiver(AwaitHead, []), header), Input(Receiver(AwaitBody(|data|), []), []);
    var sent := AllSent(data, frame, Open([]), []);
    SendAlone(data);
    ReceiveAlone(data);
    states, events := [QUIET], [];
    states, events := Then(states, events, CallSend(data, 0, 0),
                           AllSent(data, [], Open([]), []).(sender := Sender([frame], [Write(frame, 0)], true)));
    states, events := Then(states, events, WireOut(0, size),
                           sent.(sender := Sender([frame], [Write(frame, size)], true)));
    states, events := Then(states, events, WriteCompletes(0, true), sent);
    states, events := Then(states, events, WireIn(HEAD_SIZE), AllSent(data, data, headed, header));
    states, events := Then(states, events, ReadCompletes(true), AllSent(data, data, waiting, header));
    states, events := Then(states, events, WireIn(|data|), AllSent(data, [], waiting.(buf := data), header + data));
    states, events := Then(states, events, ReadCompletes(true), AllSent(data, [], Open([data]), header + data));
  }

  lemma {:induction false} FitsAllOrNot(ms: seq<Message>)
    ensures |Fitting(ms)| == |ms| <==> forall m | m in ms :: |m.body| <= MAX_SIZE
  {
    FittingIsPrefix(ms);
    if |Fitting(ms)| == |ms| {
      forall m | m in ms
        ensures |m.body| <= MAX_SIZE
      {
        var k :| 0 <= k < |ms| && ms[k] == m;
        assert |ms[k].body| <= MAX_SIZE;
      }
    }
  }

  /** The receiver closes for size exactly at the first accepted message above the limit, having delivered
      all before it. */
  lemma ClosesAtFirstLarge(states: seq<Link>, events: seq<Event>, n: nat)
    requires IsRun(states, events) && n < |states| && states[n].input.r.phase.TooLarge?
    ensures var l, k := states[n], |states[n].input.r.delivered|;
            l.input.r.delivered == Fitting(l.accepted) && k < |l.accepted| && |l.accepted[k].body| > MAX_SIZE
  {
    var l := states[n];
    RunKeeps(states, events, n);
    PutOutIsPart(l);
    var fed, rest := Feed(Open([]), l.received), Stream(l.accepted)[|l.received|..];
    assert l.received <= l.received + l.wire;
    assert l.received + rest == Stream(l.accepted);
    FeedInChunks(Open([]), l.received, rest);
    FeedClosed(fed, rest);
    RoundTrip(l.accepted, []);
    assert [] + Fitting(l.accepted) == Fitting(l.accepted);
    FittingIsPrefix(l.accepted);
  }
}

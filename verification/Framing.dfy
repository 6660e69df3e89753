/** The framing receiver as a function of the bytes that reach it. */
module Framing {
  import opened Packets

  datatype Phase =
    | AwaitHead
    | AwaitBody(n: nat)
    | TooLarge    // closed on a length above the limit
    | Stopped     // no read outstanding: not started yet, or closed on an error

  datatype Receiver = Receiver(phase: Phase, delivered: seq<seq<byte>>)

  /** How many bytes the outstanding read still asks for in all; a closed session reads nothing. */
  function Need(p: Phase): nat {
    match p
    case AwaitHead => HEAD_SIZE
    case AwaitBody(n) => n
    case _ => 0
  }

  predicate Reading(p: Phase) {
    p.AwaitHead? || p.AwaitBody?
  }

  /** `handleHeadRead` without an error, on a full header buffer. */
  function HeadRead(r: Receiver, header: seq<byte>): Receiver
    requires |header| == HEAD_SIZE
  {
    var n := LengthOf(header);
    if n > MAX_SIZE then r.(phase := TooLarge) else r.(phase := AwaitBody(n))
  }

  /** `handleBodyRead` without an error; `accepted` tells whether the data handler returned normally. */
  function BodyRead(r: Receiver, body: seq<byte>, accepted: bool): Receiver {
    Receiver(if accepted then AwaitHead else Stopped, r.delivered + [body])
  }

  function Fail(r: Receiver): Receiver {
    r.(phase := Stopped)
  }

  /** The receiver together with the part of the current read that has arrived. */
  datatype Input = Input(r: Receiver, buf: seq<byte>)

  predicate Within(i: Input) {
    |i.buf| <= Need(i.r.phase)
  }

  /** The completion of a read whose bytes are all there. */
  function Complete(i: Input): Input
    requires Reading(i.r.phase) && |i.buf| == Need(i.r.phase)
  {
    Input(if i.r.phase.AwaitHead? then HeadRead(i.r, i.buf) else BodyRead(i.r, i.buf, true), [])
  }

  /** Runs the completions that are due: at most two, since a body may have no bytes. */
  function Settle(i: Input): (j: Input)
    requires Within(i)
    ensures Within(j) && (Reading(j.r.phase) ==> |j.buf| < Need(j.r.phase))
  {
    if Reading(i.r.phase) && |i.buf| == Need(i.r.phase) then
      var j := Complete(i);
      if j.r.phase == AwaitBody(0) then Complete(j) else j
    else i
  }

  predicate Settled(i: Input) {
    Within(i) && (Reading(i.r.phase) ==> |i.buf| < Need(i.r.phase))
  }

  /** A receiver between two messages. */
  function Open(delivered: seq<seq<byte>>): (i: Input)
    ensures Settled(i)
  {
    Input(Receiver(AwaitHead, delivered), [])
  }

  function PutByte(i: Input, b: byte): (j: Input)
    requires Settled(i)
    ensures Settled(j)
  {
    if Reading(i.r.phase) then Settle(i.(buf := i.buf + [b])) else i
  }

  function Feed(i: Input, bytes: seq<byte>): (j: Input)
    requires Settled(i)
    ensures Settled(j)
  {
    if bytes == [] then i else PutByte(Feed(i, bytes[..|bytes| - 1]), bytes[|bytes| - 1])
  }

  predicate Sendable(ms: seq<Message>) {
    forall m | m in ms :: |m.body| <= MAX_BODY
  }

  function Stream(ms: seq<Message>): seq<byte>
    requires Sendable(ms)
  {
    if ms == [] then [] else Frame(ms[0]) + Stream(ms[1..])
  }

  /** The bodies up to the first one above the receiver's limit. */
  function Fitting(ms: seq<Message>): seq<seq<byte>> {
    if ms == [] || |ms[0].body| > MAX_SIZE then [] else [ms[0].body] + Fitting(ms[1..])
  }

  /** How the stream is cut into chunks makes no difference. */
  lemma {:induction false} FeedInChunks(i: Input, a: seq<byte>, b: seq<byte>)
    requires Settled(i)
    ensures Feed(Feed(i, a), b) == Feed(i, a + b)
  {
    if b == [] {
      assert a + b == a;
    } else {
      var init := b[..|b| - 1];
      FeedInChunks(i, a, init);
      assert (a + b)[..|a + b| - 1] == a + init;
    }
  }

  /** Bytes that do not complete the outstanding read are only collected. */
  lemma {:induction false} FeedPartial(i: Input, bytes: seq<byte>)
    requires Settled(i) && Reading(i.r.phase) && |i.buf| + |bytes| < Need(i.r.phase)
    ensures Feed(i, bytes) == i.(buf := i.buf + bytes)
  {
    if bytes == [] {
      assert i.buf + bytes == i.buf;
    } else {
      var init := bytes[..|bytes| - 1];
      FeedPartial(i, init);
      assert i.buf + bytes == i.buf + init + [bytes[|bytes| - 1]];
    }
  }

  /** Bytes up to the end of it are handed to its completion as one buffer. */
  lemma FeedUpTo(i: Input, bytes: seq<byte>)
    requires Settled(i) && Reading(i.r.phase) && |i.buf| + |bytes| <= Need(i.r.phase)
    ensures Feed(i, bytes) == Settle(i.(buf := i.buf + bytes))
  {
    if |i.buf| + |bytes| < Need(i.r.phase) {
      FeedPartial(i, bytes);
    } else {
      var init, last := bytes[..|bytes| - 1], bytes[|bytes| - 1];
      FeedPartial(i, init);
      PutLast(i.(buf := i.buf + init), last);
      assert i.buf + init + [last] == i.buf + bytes;
    }
  }

  lemma PutLast(i: Input, b: byte)
    requires Settled(i) && Reading(i.r.phase)
    ensures PutByte(i, b) == Settle(i.(buf := i.buf + [b]))
  {
  }

  /** Running a completion that is due does not change where things settle. */
  lemma CompleteThenSettle(i: Input)
    requires Reading(i.r.phase) && |i.buf| == Need(i.r.phase)
    ensures Within(Complete(i)) && Settle(Complete(i)) == Settle(i)
  {
  }

  /** One frame is delivered as its body if that fits, and closes the session if it does not. */
  lemma FeedFrame(m: Message, delivered: seq<seq<byte>>)
    requires |m.body| <= MAX_BODY
    ensures Feed(Open(delivered), Frame(m)) ==
            if |m.body| <= MAX_SIZE then Open(delivered + [m.body]) else Input(Receiver(TooLarge, delivered), [])
  {
    var i := Open(delivered);
    var header := Header(|m.body|, m.spare0, m.spare1);
    LengthOfHeader(|m.body|, m.spare0, m.spare1);
    FeedUpTo(i, header);
    assert [] + header == header && [] + m.body == m.body;
    FeedInChunks(i, header, m.body);
    var j := Feed(i, header);
    if |m.body| > MAX_SIZE {
      FeedClosed(j, m.body);
    } else if |m.body| > 0 {
      FeedUpTo(j, m.body);
    } else {
      assert m.body == [];
    }
  }

  lemma {:induction false} FeedClosed(i: Input, bytes: seq<byte>)
    requires Settled(i) && !Reading(i.r.phase)
    ensures Feed(i, bytes) == i
  {
    if bytes != [] {
      FeedClosed(i, bytes[..|bytes| - 1]);
    }
  }

  /** The framing round trip: for any messages, any spare header bytes and (with `FeedInChunks`) any
      chunking, the receiver delivers exactly the longest prefix of messages within its limit, and has
      closed if and only if some message is above it. */
  lemma {:induction false} RoundTrip(ms: seq<Message>, delivered: seq<seq<byte>>)
    requires Sendable(ms)
    ensures Feed(Open(delivered), Stream(ms)) ==
            Input(Receiver(if |Fitting(ms)| == |ms| then AwaitHead else TooLarge, delivered + Fitting(ms)), [])
  {
    var i := Open(delivered);
    if ms == [] {
      assert delivered + Fitting(ms) == delivered;
    } else {
      var frame, rest := Frame(ms[0]), Stream(ms[1..]);
      FeedFrame(ms[0], delivered);
      FeedInChunks(i, frame, rest);
      if |ms[0].body| <= MAX_SIZE {
        assert Feed(i, frame) == Open(delivered + [ms[0].body]);
        RoundTrip(ms[1..], delivered + [ms[0].body]);
        assert delivered + [ms[0].body] + Fitting(ms[1..]) == delivered + Fitting(ms);
      } else {
        FeedClosed(Feed(i, frame), rest);
        assert delivered + Fitting(ms) == delivered;
      }
    }
  }

  /** What has been delivered stays delivered. */
  lemma {:induction false} FeedOnlyAdds(i: Input, bytes: seq<byte>)
    requires Settled(i)
    ensures i.r.delivered <= Feed(i, bytes).r.delivered
  {
    if bytes != [] {
      FeedOnlyAdds(i, bytes[..|bytes| - 1]);
    }
  }

  lemma {:induction false} FittingIsPrefix(ms: seq<Message>)
    ensures |Fitting(ms)| <= |ms|
    ensures forall k | 0 <= k < |Fitting(ms)| :: Fitting(ms)[k] == ms[k].body && |ms[k].body| <= MAX_SIZE
    ensures |Fitting(ms)| < |ms| ==> |ms[|Fitting(ms)|].body| > MAX_SIZE
  {
    if ms != [] {
      FittingIsPrefix(ms[1..]);
    }
  }

  /** Whatever part of a stream of frames has arrived, the delivered bodies are the first messages, in
      order, each once. */
  lemma DeliveredFromPart(ms: seq<Message>, part: seq<byte>)
    requires Sendable(ms) && part <= Stream(ms)
    ensures Feed(Open([]), part).r.delivered <= Fitting(ms)
  {
    var rest := Stream(ms)[|part|..];
    assert part + rest == Stream(ms);
    FeedInChunks(Open([]), part, rest);
    FeedOnlyAdds(Feed(Open([]), part), rest);
    RoundTrip(ms, []);
    assert [] + Fitting(ms) == Fitting(ms);
  }

  lemma {:induction false} StreamAppends(ms: seq<Message>, m: Message)
    requires Sendable(ms) && |m.body| <= MAX_BODY
    ensures Sendable(ms + [m]) && Stream(ms + [m]) == Stream(ms) + Frame(m)
  {
    if ms == [] {
      assert ms + [m] == [m];
      assert Stream([m]) == Frame(m) + Stream([]);
    } else {
      StreamAppends(ms[1..], m);
      assert (ms + [m])[1..] == ms[1..] + [m];
    }
  }

  lemma {:induction false} StreamOfPrefix(ms: seq<Message>, k: nat)
    requires Sendable(ms) && k < |ms|
    ensures Sendable(ms[..k]) && Stream(ms[..k]) + Frame(ms[k]) <= Stream(ms)
  {
    if k == 0 {
      assert ms[..0] == [];
    } else {
      StreamOfPrefix(ms[1..], k - 1);
      assert ms[..k][1..] == ms[1..][..k - 1];
    }
  }
}

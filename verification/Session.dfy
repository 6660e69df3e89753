/** A session's buffers and handlers.  The bytes of an outstanding read are put into its buffer by the socket
    before the handler runs; the handler's arguments are the error code and the byte count. */
module Sessions {
  import opened Packets
  import opened Framing
  import opened WritePump

  class Session {
    const recvHead: Packet
    var recvPacket: Packet?
    var phase: Phase
    /** The contents of the queued packets, front first. */
    var sendQueue: seq<seq<byte>>
    /** The writes started on the socket and not yet completed. */
    var writes: seq<Write>
    var open: bool
    /** The packets handed to the data handlers, in the order of the calls. */
    var delivered: seq<seq<byte>>

    ghost predicate Valid()
      reads this, recvHead, recvPacket
    {
      && recvHead.Valid() && recvHead.size == HEAD_SIZE
      && (recvPacket != null ==> recvPacket != recvHead && recvPacket.Valid() && recvPacket.data != recvHead.data)
      && (phase.AwaitBody? ==> recvPacket != null && recvPacket.size == phase.n)
      && Pumping(SenderView())
    }

    ghost function SenderView(): Sender
      reads this
    {
      Sender(sendQueue, writes, open)
    }

    ghost function ReceiverView(): Receiver
      reads this
    {
      Receiver(phase, delivered)
    }

    constructor ()
      ensures Valid() && fresh(recvHead) && fresh(recvHead.data)
      ensures SenderView() == IDLE && ReceiverView() == Receiver(Stopped, [])
    {
      recvHead := new Packet.OfSize(HEAD_SIZE);
      recvPacket := null;
      phase := Stopped;
      sendQueue, writes, open, delivered := [], [], true, [];
    }

    /** Asks for the first header; `connected` tells whether the connect handlers returned normally. */
    method Start(connected: bool)
      requires Valid()
      modifies this
      ensures Valid() && delivered == old(delivered)
      ensures if connected then
                ReceiverView() == old(ReceiverView()).(phase := AwaitHead) && SenderView() == old(SenderView())
              else ReceiverView() == Fail(old(ReceiverView())) && SenderView() == Closed(old(SenderView()))
    {
      phase := AwaitHead;
      if !connected {
        CloseBecause(Stopped);
      }
    }

    /** `close`, with the reason the reading half stops for. */
    method CloseBecause(why: Phase)
      requires Valid() && !Reading(why)
      modifies this`open, this`phase
      ensures Valid() && phase == why && SenderView() == Closed(old(SenderView()))
    {
      open := false;
      phase := why;
    }

    /** Refuses the message when the queue is full; otherwise queues its packet and, if the queue was empty,
        starts writing it. */
    method Send(data: seq<byte>, spare0: byte, spare1: byte)
      requires Valid() && ToU16(|data|) <= MAX_BODY
      modifies this`sendQueue, this`writes
      ensures Valid()
      ensures SenderView() == Sent(old(SenderView()), Frame(Message(Clip(data), spare0, spare1)))
    {
      var queuePending := false;
      if |sendQueue| >= MAX_PENDING {
        return;
      }
      if sendQueue != [] {
        queuePending := true;
      }
      var packet := new Packet.Send(data, ToU16(|data|), spare0, spare1);
      sendQueue := sendQueue + [packet.data[..]];
      if queuePending {
        return;
      }
      writes := writes + [Write(sendQueue[0], 0)];
    }

    /** The socket puts `n` more bytes of an outstanding write on the wire. */
    method Put(i: nat, n: nat)
      requires Valid() && May(SenderView(), WritePump.Put(i, n))
      modifies this`writes
      ensures Valid() && SenderView() == PutOn(old(SenderView()), i, n)
    {
      DoKeeps(SenderView(), WritePump.Put(i, n));
      writes := writes[i := writes[i].(put := writes[i].put + n)];
    }

    /** The completion of outstanding write `i`. */
    method HandleWrite(i: nat, ok: bool)
      requires Valid() && May(SenderView(), WriteDone(i, ok))
      modifies this
      ensures Valid() && SenderView() == Written(old(SenderView()), i, ok)
      ensures ReceiverView() == if ok then old(ReceiverView()) else Fail(old(ReceiverView()))
    {
      DoKeeps(SenderView(), WriteDone(i, ok));
      writes := writes[..i] + writes[i + 1..];
      if ok {
        sendQueue := sendQueue[1..];
        if sendQueue != [] {
          writes := writes + [Write(sendQueue[0], 0)];
        }
      } else {
        CloseBecause(Stopped);
      }
    }

    /** The completion of a header read. */
    method HandleHeadRead(ok: bool, transferred: nat)
      requires Valid() && phase.AwaitHead?
      modifies this
      ensures Valid()
      ensures ReceiverView() == if ok && transferred == HEAD_SIZE then HeadRead(old(ReceiverView()), recvHead.data[..])
                                else Fail(old(ReceiverView()))
      ensures SenderView() == if Reading(phase) then old(SenderView()) else Closed(old(SenderView()))
      ensures Reading(phase) ==> fresh(recvPacket) && fresh(recvPacket.data)
    {
      if ok {
        if transferred < HEAD_SIZE || transferred > HEAD_SIZE {
          CloseBecause(Stopped);
          return;
        }
        var dataSize := (recvHead.data[0] as int) * 256 + recvHead.data[1] as int;
        if dataSize > MAX_SIZE {
          CloseBecause(TooLarge);
          return;
        }
        recvPacket := new Packet.OfSize(dataSize);
        phase := AwaitBody(dataSize);
      } else {
        CloseBecause(Stopped);
      }
    }

    /** The completion of a body read; `handled` tells whether the data handlers returned normally.  They get
        a copy, so clearing the buffer for the next read does not touch what was delivered. */
    method HandleBodyRead(ok: bool, handled: bool)
      requires Valid() && phase.AwaitBody?
      modifies this, recvPacket.data
      ensures Valid()
      ensures ReceiverView() == if ok then BodyRead(old(ReceiverView()), old(recvPacket.data[..]), handled)
                                else Fail(old(ReceiverView()))
      ensures SenderView() == if Reading(phase) then old(SenderView()) else Closed(old(SenderView()))
      ensures Reading(phase) ==>
                recvPacket == old(recvPacket) && forall i | 0 <= i < recvPacket.size :: recvPacket.data[i] == 0
    {
      if ok {
        var newPacket := new Packet.Copy(recvPacket);
        delivered := delivered + [newPacket.data[..]];
        if !handled {
          CloseBecause(Stopped);
          return;
        }
        recvPacket.Clear();
        phase := AwaitHead;
      } else {
        CloseBecause(Stopped);
      }
    }
  }
}

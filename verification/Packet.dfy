/** Packets and their framing: four header bytes, of which the first two are the body's length in network
    order and the other two are whatever the copy of a two-byte variable as four bytes picked up. */
module Packets {
  type byte = x: int | 0 <= x < 256

  const HEAD_SIZE := 4
  const MAX_SIZE := 1024
  /** The largest body whose size plus the header still fits the 16-bit packet size. */
  const MAX_BODY := 65531

  /** The conversion of an `int` argument to an `unsigned short` parameter. */
  function ToU16(n: int): nat {
    n % 0x1_0000
  }

  /** What the 16-bit size parameter leaves of a message. */
  function Clip(data: seq<byte>): seq<byte> {
    data[..ToU16(|data|)]
  }

  datatype Message = Message(body: seq<byte>, spare0: byte, spare1: byte)

  function Header(size: nat, spare0: byte, spare1: byte): seq<byte>
    requires size < 0x1_0000
  {
    [size / 256, size % 256, spare0, spare1]
  }

  function LengthOf(header: seq<byte>): nat
    requires |header| == HEAD_SIZE
  {
    (header[0] as int) * 256 + header[1] as int
  }

  function Frame(m: Message): seq<byte>
    requires |m.body| <= MAX_BODY
  {
    Header(|m.body|, m.spare0, m.spare1) + m.body
  }

  /** The receiver reads back the length, whatever the two spare bytes are. */
  lemma LengthOfHeader(size: nat, spare0: byte, spare1: byte)
    requires size < 0x1_0000
    ensures LengthOf(Header(size, spare0, spare1)) == size
  {
  }

  /** The 16-bit size of a packet has room for the header and the body exactly up to MAX_BODY; above it the
      size wraps to less than the header. */
  lemma SizeFitsIff(n: nat)
    requires n < 0x1_0000
    ensures ToU16(n + HEAD_SIZE) == n + HEAD_SIZE <==> n <= MAX_BODY
    ensures n > MAX_BODY ==> ToU16(n + HEAD_SIZE) < HEAD_SIZE
  {
  }

  /** The length is in network byte order, the more significant byte first, followed by the two spare bytes. */
  lemma HeaderIsBigEndian(size: nat, spare0: byte, spare1: byte)
    requires size < 0x1_0000
    ensures var h := Header(size, spare0, spare1);
            |h| == 4 && 256 * (h[0] as int) + h[1] as int == size && h[2] == spare0 && h[3] == spare1
    ensures Header(0x0102, 0, 0)[..2] == [1, 2] && LengthOf([1, 2, 0, 0]) == 0x0102
  {
  }

  class Packet {
    var data: array<byte>
    var size: nat

    ghost predicate Valid()
      reads this
    {
      size < 0x1_0000 && data.Length == size
    }

    constructor OfSize(n: nat)
      requires n < 0x1_0000
      ensures Valid() && size == n && fresh(data) && data[..] == seq(n, i => 0)
    {
      data := new byte[n](i => 0);
      size := n;
      new;
      assert data[..] == seq(n, i => 0);
    }

    constructor Copy(other: Packet)
      requires other.Valid()
      ensures Valid() && fresh(data) && data[..] == other.data[..]
    {
      var copy := new byte[other.size];
      for i := 0 to other.size
        invariant forall j | 0 <= j < i :: copy[j] == other.data[j]
      {
        copy[i] := other.data[i];
      }
      size := other.size;
      data := copy;
      new;
      assert data[..] == other.data[..];
    }

    /** `SendPacket`: the header followed by the first `n` bytes of `bytes`. */
    constructor Send(bytes: seq<byte>, n: nat, spare0: byte, spare1: byte)
      requires n <= MAX_BODY && n <= |bytes|
      ensures Valid() && fresh(data) && data[..] == Frame(Message(bytes[..n], spare0, spare1))
    {
      var buffer := new byte[ToU16(n + HEAD_SIZE)];
      buffer[0], buffer[1], buffer[2], buffer[3] := n / 256, n % 256, spare0, spare1;
      for i := 0 to n
        invariant buffer[..HEAD_SIZE] == Header(n, spare0, spare1)
        invariant forall j | 0 <= j < i :: buffer[HEAD_SIZE + j] == bytes[j]
      {
        buffer[HEAD_SIZE + i] := bytes[i];
      }
      assert buffer[HEAD_SIZE..] == bytes[..n];
      assert buffer[..] == buffer[..HEAD_SIZE] + buffer[HEAD_SIZE..];
      size := ToU16(n + HEAD_SIZE);
      data := buffer;
    }

    /** Assignment makes a copy of its own, also when a packet is assigned to itself. */
    method Assign(other: Packet)
      requires Valid() && other.Valid()
      modifies this
      ensures Valid() && data[..] == old(other.data[..])
      ensures if other == this then data == old(data) else fresh(data)
    {
      if this != other {
        var copy := new Packet.Copy(other);
        data, size := copy.data, copy.size;
      }
    }

    method Clear()
      requires Valid()
      modifies data
      ensures data[..] == seq(size, i => 0)
    {
      for i := 0 to size
        invariant forall j | 0 <= j < i :: data[j] == 0
      {
        data[i] := 0;
      }
      assert data[..] == seq(size, i => 0);
    }
  }
}

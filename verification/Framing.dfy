/** Length-prefixed frames (`send` and `recv` in connection/net_op.go). */
module Framing {
  import opened Messages

  const INT64_SIZE := 0x8000_0000_0000_0000

  /** The `len` low bytes of n, the highest first. */
  function BigEndian(n: nat, len: nat): (b: seq<Byte>)
    ensures |b| == len
    decreases len
  {
    if len == 0 then [] else BigEndian(n / 256, len - 1) + [n % 256]
  }

  function Value(b: seq<Byte>): nat {
    if b == [] then 0 else Value(b[..|b| - 1]) * 256 + b[|b| - 1]
  }

  function Power(len: nat): nat {
    if len == 0 then 1 else 256 * Power(len - 1)
  }

  lemma {:induction false} ValueOfBigEndian(n: nat, len: nat)
    requires n < Power(len)
    ensures Value(BigEndian(n, len)) == n
    decreases len
  {
    if len == 0 {
    } else {
      assert n / 256 < Power(len - 1);
      ValueOfBigEndian(n / 256, len - 1);
      var b := BigEndian(n, len);
      assert b[..len - 1] == BigEndian(n / 256, len - 1);
    }
  }

  lemma {:induction false} BigEndianOfValue(b: seq<Byte>)
    ensures BigEndian(Value(b), |b|) == b
    ensures Value(b) < Power(|b|)
    decreases |b|
  {
    if b == [] {
    } else {
      var front := b[..|b| - 1];
      BigEndianOfValue(front);
      assert b == front + [b[|b| - 1]];
    }
  }

  lemma EightBytes()
    ensures Power(8) == UINT64_SIZE
  {
    assert Power(2) == 0x1_0000;
    assert Power(4) == 0x1_0000_0000;
    assert Power(6) == 0x1_0000_0000_0000;
  }

  // ---------------------------------------------------------------- the two ends

  datatype Error = ReadHeader | InvalidSizeHeader | ReadBody

  datatype Received = Payload(data: seq<Byte>) | Failed(error: Error)

  /** What send writes. */
  function Frame(data: seq<Byte>): seq<Byte>
    requires |data| < UINT64_SIZE
  {
    BigEndian(|data|, 8) + data
  }

  /** The header read as a signed number. */
  function Size(header: seq<Byte>): int {
    if Value(header) >= INT64_SIZE then Value(header) - UINT64_SIZE else Value(header)
  }

  /** What recv makes of the bytes of a stream that then ends. */
  function Unframe(bytes: seq<Byte>): Received {
    if |bytes| < 8 then Failed(ReadHeader)
    else
      var size := Size(bytes[..8]);
      if size < 0 then Failed(InvalidSizeHeader)
      else if |bytes| - 8 < size then Failed(ReadBody)
      else Payload(bytes[8..8 + size])
  }

  lemma FrameIsRead(bytes: seq<Byte>, data: seq<Byte>)
    requires |data| < INT64_SIZE && Frame(data) <= bytes
    ensures Unframe(bytes) == Payload(data)
  {
    hide Value, BigEndian, Power;
    EightBytes();
    ValueOfBigEndian(|data|, 8);
    assert bytes[..8] == BigEndian(|data|, 8);
    assert bytes[8..8 + |data|] == data;
  }

  lemma ReadIsFrame(bytes: seq<Byte>, data: seq<Byte>)
    requires |data| < INT64_SIZE && Unframe(bytes) == Payload(data)
    ensures Frame(data) <= bytes
  {
    hide Value, BigEndian, Power;
    BigEndianOfValue(bytes[..8]);
    EightBytes();
    assert bytes[..8] + bytes[8..8 + |data|] == bytes[..8 + |data|];
  }

  /** recv returns a payload exactly when the stream starts with that payload's frame. */
  lemma ExactlyTheFrame(bytes: seq<Byte>, data: seq<Byte>)
    requires |data| < INT64_SIZE
    ensures Unframe(bytes) == Payload(data) <==> Frame(data) <= bytes
  {
    hide Unframe, Frame;
    if Frame(data) <= bytes {
      FrameIsRead(bytes, data);
    }
    if Unframe(bytes) == Payload(data) {
      ReadIsFrame(bytes, data);
    }
  }

  /** Round trip, and every strict prefix of a frame is an error. */
  lemma RoundTrip(data: seq<Byte>, cut: nat)
    requires |data| < INT64_SIZE && cut < 8 + |data|
    ensures Unframe(Frame(data)) == Payload(data)
    ensures Unframe(Frame(data)[..cut]) == Failed(if cut < 8 then ReadHeader else ReadBody)
  {
    ExactlyTheFrame(Frame(data), data);
    if cut >= 8 {
      EightBytes();
      assert Frame(data)[..cut][..8] == BigEndian(|data|, 8);
      ValueOfBigEndian(|data|, 8);
    }
  }

  /** A header whose top bit is set is rejected: no payload of 2^63 bytes or more
      gets through, and only those headers are rejected so. */
  lemma TopBitRejected(bytes: seq<Byte>)
    requires |bytes| >= 8
    ensures Unframe(bytes) == Failed(InvalidSizeHeader) <==> bytes[0] >= 128
  {
    var header := bytes[..8];
    TopByte(header);
    Scale(header[0], Power(7));
    EightBytes();
    BigEndianOfValue(header);
    hide Value, BigEndian;
    assert Power(8) == 256 * Power(7);
    hide Power;
  }

  /** The first byte fixes the value up to the lower bytes. */
  lemma {:induction false} TopByte(b: seq<Byte>)
    requires |b| > 0
    ensures b[0] * Power(|b| - 1) <= Value(b) < b[0] * Power(|b| - 1) + Power(|b| - 1)
    decreases |b|
  {
    if |b| == 1 {
      assert b[..0] == [];
    } else {
      var front, p := b[..|b| - 1], Power(|b| - 2);
      TopByte(front);
      Times256(b[0], p, Value(front), b[|b| - 1]);
    }
  }

  lemma Times256(top: nat, p: nat, v: nat, low: nat)
    requires top * p <= v < top * p + p && low < 256
    ensures top * (256 * p) <= v * 256 + low < top * (256 * p) + 256 * p
  {
    assert top * (256 * p) == (top * p) * 256;
  }

  lemma Scale(x: nat, p: nat)
    ensures x >= 128 ==> x * p >= 128 * p
    ensures x < 128 ==> x * p + p <= 128 * p
  {
    if x < 128 {
      assert x * p + p == (x + 1) * p;
    }
  }

  // ---------------------------------------------------------------- the code

  /** n shifted right by k bytes. */
  function Shift(n: nat, k: nat): nat {
    if k == 0 then n else Shift(n, k - 1) / 256
  }

  /** A unidirectional stream: bytes written, and how far they have been read. */
  class Stream {
    var bytes: seq<Byte>
    var pos: nat

    constructor ()
      ensures bytes == [] && pos == 0
    {
      bytes, pos := [], 0;
    }

    method Write(data: seq<Byte>)
      modifies this`bytes
      ensures bytes == old(bytes) + data
    {
      bytes := bytes + data;
    }

    /** Fill the buffer, or fail at the end of the stream. */
    method ReadFull(buf: array<Byte>) returns (ok: bool)
      requires pos <= |bytes|
      modifies this`pos, buf
      ensures ok <==> old(pos) + buf.Length <= |bytes|
      ensures ok ==> pos == old(pos) + buf.Length && buf[..] == bytes[old(pos)..pos]
      ensures pos <= |bytes|
    {
      var i := 0;
      while i < buf.Length
        invariant 0 <= i <= buf.Length
        invariant pos == old(pos) + i <= |bytes|
        invariant buf[..i] == bytes[old(pos)..pos]
      {
        if pos == |bytes| {
          return false;
        }
        buf[i] := bytes[pos];
        i, pos := i + 1, pos + 1;
      }
      return true;
    }
  }

  /** Serialize the length header into the buffer. */
  method PutUint64(lb: array<Byte>, v: nat)
    requires lb.Length == 8
    modifies lb
    ensures lb[..] == BigEndian(v, 8)
  {
    var i := 0;
    while i < 8
      invariant 0 <= i <= 8
      invariant lb[..i] == BigEndian(Shift(v, 8 - i), i)
    {
      lb[i] := Shift(v, 7 - i) % 256;
      assert lb[..i + 1] == lb[..i] + [lb[i]];
      i := i + 1;
    }
    assert lb[..] == lb[..8];
  }

  method Send(stream: Stream, data: seq<Byte>)
    requires |data| < UINT64_SIZE
    modifies stream`bytes
    ensures stream.bytes == old(stream.bytes) + Frame(data)
  {
    var lb := new Byte[8](_ => 0);
    PutUint64(lb, |data|);
    stream.Write(lb[..]);
    stream.Write(data);
  }

  method Recv(stream: Stream) returns (result: Received)
    requires stream.pos == 0
    modifies stream`pos
    ensures result == Unframe(stream.bytes)
  {
    var header := new Byte[8](_ => 0);
    var ok := stream.ReadFull(header);
    if !ok {
      return Failed(ReadHeader);
    }
    assert header[..] == stream.bytes[..8];
    var size := Size(header[..]);
    if size < 0 {
      return Failed(InvalidSizeHeader);
    }
    var buf := new Byte[size](_ => 0);
    ok := stream.ReadFull(buf);
    if !ok {
      return Failed(ReadBody);
    }
    return Payload(buf[..]);
  }

  /** What one end sends the other receives. */
  method SendThenReceive(data: seq<Byte>) returns (result: Received)
    requires |data| < INT64_SIZE
    ensures result == Payload(data)
  {
    var stream := new Stream();
    Send(stream, data);
    result := Recv(stream);
    assert stream.bytes == Frame(data);
    ExactlyTheFrame(stream.bytes, data);
  }
}

/** Length-prefixed frames over a stream socket. */
module Net {
  import opened Bytes
  import opened Files
  import opened Results

  /**
   The sending side of a connection: the bytes the kernel has taken so far.  If `breaksAt` is
   given, the connection takes that many bytes and no more.
   */
  class Sender {
    const breaksAt: Option<nat>
    var wire: seq<byte>

    ghost predicate Valid()
      reads this
    {
      Takes(|wire|)
    }

    /** The connection takes this many bytes. */
    ghost predicate Takes(n: nat) {
      breaksAt.Some? ==> n <= breaksAt.value
    }

    constructor (breaksAt: Option<nat>)
      ensures Valid() && wire == [] && this.breaksAt == breaksAt
    {
      this.breaksAt, wire := breaksAt, [];
    }

    /** send(2): takes some of the bytes, or fails taking none. */
    method Send(data: seq<byte>) returns (n: int)
      requires Valid() && data != []
      modifies this
      ensures Valid() && (n < 0 <==> breaksAt == Some(|old(wire)|))
      ensures n < 0 ==> wire == old(wire)
      ensures n >= 0 ==> 0 < n <= |data| && wire == old(wire) + data[..n]
    {
      if breaksAt == Some(|wire|) {
        return -1;
      }
      n :| 0 < n <= |data| && (breaksAt.Some? ==> |wire| + n <= breaksAt.value);
      wire := wire + data[..n];
    }
  }

  method NetSend(fd: Sender, buf: seq<byte>) returns (ret: int, ghost sent: nat)
    requires fd.Valid()
    modifies fd
    ensures fd.Valid() && sent <= |buf| && fd.wire == old(fd.wire) + buf[..sent]
    ensures ret >= 0 <==> fd.Takes(|old(fd.wire)| + |buf|)
    ensures ret < 0 <==> sent < |buf|
  {
    var sentTotal := 0;
    while sentTotal < |buf|
      invariant sentTotal <= |buf| && fd.Valid()
      invariant fd.wire == old(fd.wire) + buf[..sentTotal]
    {
      var sentNow := fd.Send(buf[sentTotal..]);
      if sentNow < 0 {
        return -1, sentTotal;
      }
      assert buf[..sentTotal + sentNow] == buf[..sentTotal] + buf[sentTotal..][..sentNow];
      sentTotal := sentTotal + sentNow;
    }
    return 0, sentTotal;
  }

  /** Succeeds exactly when `size` more bytes can be read, and then consumes exactly those. */
  method NetRecv(fd: Stream, buf: array<byte>, size: nat) returns (ret: int)
    requires fd.Valid() && size <= buf.Length
    modifies fd, buf
    ensures fd.Valid() && (ret == 0 || ret == -1)
    ensures ret == 0 <==> old(fd.pos) + size <= fd.Readable()
    ensures ret == 0 ==> fd.pos == old(fd.pos) + size && buf[..size] == fd.bytes[old(fd.pos)..fd.pos]
  {
    var readTotal := 0;
    while readTotal < size
      invariant 0 <= readTotal <= size && fd.Valid()
      invariant fd.pos == old(fd.pos) + readTotal
      invariant buf[..readTotal] == fd.bytes[old(fd.pos)..fd.pos]
    {
      var readNow := fd.Read(buf, readTotal, size - readTotal);
      if readNow == 0 {
        break;
      }
      if readNow < 0 {
        return -1;
      }
      assert buf[..readTotal + readNow] == buf[..readTotal] + buf[readTotal..readTotal + readNow];
      ghost var p0 := old(fd.pos);
      assert fd.bytes[p0..fd.pos] == fd.bytes[p0..p0 + readTotal] + fd.bytes[p0 + readTotal..fd.pos];
      readTotal := readTotal + readNow;
    }
    if readTotal < size {
      return -1;
    }
    return 0;
  }

  const TWO_TO_THE_32: int := 0x1_0000_0000

  /** htonl: most significant byte first. */
  function BigEndian(n: nat): (r: seq<byte>)
    requires n < TWO_TO_THE_32
    ensures |r| == 4
  {
    [(n / 0x100_0000) as byte, (n / 0x1_0000 % 0x100) as byte, (n / 0x100 % 0x100) as byte, (n % 0x100) as byte]
  }

  /** ntohl. */
  function FromBigEndian(s: seq<byte>): (n: nat)
    requires |s| == 4
    ensures n < TWO_TO_THE_32
  {
    s[0] as int * 0x100_0000 + s[1] as int * 0x1_0000 + s[2] as int * 0x100 + s[3] as int
  }

  lemma LengthRoundTrip(n: nat)
    requires n < TWO_TO_THE_32
    ensures FromBigEndian(BigEndian(n)) == n
  {
    var q1, q2 := n / 0x100, n / 0x1_0000;
    assert q1 == q2 * 0x100 + q1 % 0x100 by {
      assert q1 / 0x100 == q2;
    }
    assert q2 == q2 / 0x100 * 0x100 + q2 % 0x100 && q2 / 0x100 == n / 0x100_0000;
  }

  /** Most significant byte first: sizes compare as their encodings do, byte by byte. */
  lemma BigEndianOrders(n: nat, m: nat)
    requires n < m < TWO_TO_THE_32
    ensures exists k :: 0 <= k < 4 && BigEndian(n)[..k] == BigEndian(m)[..k] && BigEndian(n)[k] < BigEndian(m)[k]
  {
    var x, y := BigEndian(n), BigEndian(m);
    LengthRoundTrip(n);
    LengthRoundTrip(m);
    var k := if x[0] != y[0] then 0 else if x[1] != y[1] then 1 else if x[2] != y[2] then 2 else 3;
    assert x[..k] == y[..k];
    assert x[k] < y[k];
  }

  /** A buffer small enough for a 32-bit size. */
  type Buf = b: seq<byte> | |b| < TWO_TO_THE_32

  function FrameOf(b: Buf): seq<byte> {
    BigEndian(|b|) + b
  }

  method NetSendBuf(fd: Sender, b: Buf) returns (ret: int, ghost sent: nat)
    requires fd.Valid()
    modifies fd
    ensures fd.Valid() && sent <= |FrameOf(b)| && fd.wire == old(fd.wire) + FrameOf(b)[..sent]
    ensures ret >= 0 <==> fd.Takes(|old(fd.wire)| + |FrameOf(b)|)
    ensures ret < 0 <==> sent < |FrameOf(b)|
  {
    var size := BigEndian(|b|);
    ret, sent := NetSend(fd, size);
    assert FrameOf(b)[..sent] == size[..sent];
    if ret < 0 {
      return;
    }
    ghost var sentBody: nat;
    ret, sentBody := NetSend(fd, b);
    sent := 4 + sentBody;
    assert FrameOf(b)[..sent] == size + b[..sentBody];
  }

  /** What the bytes ahead on a stream amount to. */
  datatype Parsed = Frame(data: seq<byte>, rest: seq<byte>) | MidFrame

  function ParseFrame(s: seq<byte>): Parsed {
    if |s| < 4 then MidFrame
    else
      var n := FromBigEndian(s[..4]);
      if |s| - 4 < n then MidFrame else Frame(s[4..4 + n], s[4 + n..])
  }

  /** Returns the next frame and consumes no byte of the one after, or reports an error. */
  method NetRecvBuf(fd: Stream) returns (ret: int, data: seq<byte>)
    requires fd.Valid()
    modifies fd
    ensures fd.Valid() && (ret == 0 || ret == -1)
    ensures ret == 0 <==> ParseFrame(fd.bytes[old(fd.pos)..fd.Readable()]).Frame?
    ensures ret == 0 ==> ParseFrame(fd.bytes[old(fd.pos)..fd.Readable()]) == Frame(data,
                                                                                   fd.bytes[fd.pos..fd.Readable()])
  {
    data := [];
    ghost var ahead := fd.bytes[fd.pos..fd.Readable()];
    var sizeBuf := new byte[4];
    ret := NetRecv(fd, sizeBuf, 4);
    if ret < 0 {
      return -1, [];
    }
    assert sizeBuf[..4] == ahead[..4];
    var size := FromBigEndian(sizeBuf[..4]);
    var contents := new byte[size];
    ret := NetRecv(fd, contents, size);
    if ret < 0 {
      return -1, [];
    }
    data := contents[..size];
    assert data == ahead[4..4 + size] && fd.bytes[fd.pos..fd.Readable()] == ahead[4 + size..];
  }

  // ---- round trips ----

  /** One frame, whatever follows it. */
  lemma FrameRoundTrip(b: Buf, rest: seq<byte>)
    ensures ParseFrame(FrameOf(b) + rest) == Frame(b, rest)
  {
    var s := FrameOf(b) + rest;
    assert s[..4] == BigEndian(|b|);
    LengthRoundTrip(|b|);
    assert s[4..4 + |b|] == b && s[4 + |b|..] == rest;
  }

  /** A stream that ends inside a frame is an error, wherever it ends. */
  lemma CutFrameIsAnError(b: Buf, k: nat)
    requires k < |FrameOf(b)|
    ensures ParseFrame(FrameOf(b)[..k]) == MidFrame
  {
    if k >= 4 {
      assert FrameOf(b)[..k][..4] == BigEndian(|b|);
      LengthRoundTrip(|b|);
    }
  }

  ghost function Frames(bufs: seq<Buf>): seq<byte> {
    if bufs == [] then [] else FrameOf(bufs[0]) + Frames(bufs[1..])
  }

  /** Receiving until the stream ends: the frames, and whether it ended between two of them. */
  ghost function ReceiveAll(s: seq<byte>): (seq<seq<byte>>, bool)
    decreases |s|
  {
    if s == [] then ([], true)
    else
      match ParseFrame(s)
      case MidFrame => ([], false)
      case Frame(data, rest) => var after := ReceiveAll(rest); ([data] + after.0, after.1)
  }

  /** Any sequence of buffers arrives as it was sent, with nothing left over. */
  lemma {:induction false} FramesRoundTrip(bufs: seq<Buf>)
    ensures ReceiveAll(Frames(bufs)) == (bufs, true)
  {
    if bufs != [] {
      FirstFrame(bufs[0], Frames(bufs[1..]));
      FramesRoundTrip(bufs[1..]);
      assert bufs == [bufs[0]] + bufs[1..];
    }
  }

  /** If the sender gives up inside a frame, the receiver gets every earlier one and then an error. */
  lemma {:induction false} BrokenSendIsNoticed(bufs: seq<Buf>, b: Buf, k: nat)
    requires 0 < k < |FrameOf(b)|
    ensures ReceiveAll(Frames(bufs) + FrameOf(b)[..k]) == (bufs, false)
  {
    hide FrameOf;
    var tail := FrameOf(b)[..k];
    if bufs == [] {
      assert Frames(bufs) + tail == tail;
      CutFrameIsAnError(b, k);
    } else {
      var rest := Frames(bufs[1..]);
      assert FrameOf(bufs[0]) + rest + tail == FrameOf(bufs[0]) + (rest + tail);
      FirstFrame(bufs[0], rest + tail);
      BrokenSendIsNoticed(bufs[1..], b, k);
      assert bufs == [bufs[0]] + bufs[1..];
    }
  }

  lemma FirstFrame(b: Buf, rest: seq<byte>)
    ensures ReceiveAll(FrameOf(b) + rest) == ([b] + ReceiveAll(rest).0, ReceiveAll(rest).1)
  {
    FrameRoundTrip(b, rest);
  }

  // ---- strings as buffers (src/buf.c) ----

  /** `buf_create_from_string`: the size, with the terminator, is cut to 32 bits. */
  function BufFromString(str: seq<byte>): (b: Buf) {
    var size := (|str| + 1) % TWO_TO_THE_32;
    (str + [0])[..size]
  }

  /** The buffer carries the whole string and its terminator exactly when the size fits. */
  lemma StringFitsIff(str: seq<byte>)
    requires 0 !in str
    ensures |str| + 1 < TWO_TO_THE_32 <==> 0 in BufFromString(str)
    ensures |str| + 1 < TWO_TO_THE_32 ==> BufFromString(str) == str + [0]
  {
    var size := (|str| + 1) % TWO_TO_THE_32;
    if |str| + 1 < TWO_TO_THE_32 {
      assert BufFromString(str)[|str|] == 0;
    } else {
      assert size <= |str| && BufFromString(str) == str[..size];
    }
  }
}

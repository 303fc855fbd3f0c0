/** Reading a descriptor or a link of unknown size into a growing buffer. */
module Files {
  import opened Bytes
  import opened Results

  /**
   A finite stream of bytes behind a descriptor.  Reads may be short, and if `failsAt` is given,
   no read gets past that position: the one that begins there fails.
   */
  class Stream {
    const bytes: seq<byte>
    const failsAt: Option<nat>
    var pos: nat

    ghost predicate Valid()
      reads this
    {
      pos <= Readable() <= |bytes|
    }

    /** The position up to which the stream can be read. */
    ghost function Readable(): nat {
      if failsAt.Some? then failsAt.value else |bytes|
    }

    constructor (bytes: seq<byte>, failsAt: Option<nat>)
      requires failsAt.Some? ==> failsAt.value <= |bytes|
      ensures Valid() && this.bytes == bytes && this.failsAt == failsAt && pos == 0
    {
      this.bytes, this.failsAt, pos := bytes, failsAt, 0;
    }

    /** read(2): at most `count` bytes; none at the end of the stream, or when none are asked for. */
    method Read(buf: array<byte>, at: nat, count: nat) returns (n: int)
      requires Valid() && at + count <= buf.Length
      modifies this, buf
      ensures Valid() && (n < 0 <==> failsAt == Some(old(pos)))
      ensures n < 0 ==> pos == old(pos)
      ensures n >= 0 ==> n <= count && pos == old(pos) + n && buf[at..at + n] == bytes[old(pos)..pos]
      ensures n == 0 ==> count == 0 || pos == |bytes|
      ensures buf[..at] == old(buf[..at])
    {
      if failsAt == Some(pos) {
        return -1;
      }
      var end := if failsAt.Some? then failsAt.value else |bytes|;
      var most := if count <= end - pos then count else end - pos;
      n :| 0 <= n <= most && (most > 0 ==> n > 0);
      var i := 0;
      while i < n
        invariant i <= n && pos == old(pos) && buf[..at] == old(buf[..at])
        invariant buf[at..at + i] == bytes[pos..pos + i]
      {
        buf[at + i] := bytes[pos + i];
        i := i + 1;
      }
      pos := pos + n;
    }
  }

  /** realloc: a buffer of the new size that starts with the old contents. */
  method Realloc(buf: array?<byte>, size: nat) returns (r: array<byte>)
    requires buf != null ==> buf.Length <= size
    ensures fresh(r) && r.Length == size
    ensures buf != null ==> r[..buf.Length] == buf[..]
  {
    r := new byte[size];
    if buf != null {
      for i := 0 to buf.Length
        invariant r[..i] == buf[..i]
      {
        r[i] := buf[i];
      }
    }
  }

  /**
   Whatever the chunks, the contents are the whole stream.  A read is never asked for nothing,
   so reading nothing means the end, and the buffer is at most twice what was read.
   */
  method FileRead(fd: Stream) returns (ret: int, contents: array?<byte>, size: nat)
    requires fd.Valid() && fd.pos == 0
    modifies fd
    ensures fd.Valid() && (ret < 0 <==> fd.failsAt.Some?)
    ensures ret < 0 ==> contents == null
    ensures ret >= 0 ==>
      && contents != null && size <= contents.Length && contents[..size] == fd.bytes
      && (contents.Length == 256 || contents.Length <= 2 * size)
  {
    var allocSize := 256;
    var buf: array?<byte> := null;
    size := 0;
    while true
      invariant fd.Valid() && fd.pos == size
      invariant size < allocSize && (allocSize == 256 || allocSize <= 2 * size)
      invariant buf == null ==> size == 0
      invariant buf != null ==> fresh(buf) && size <= buf.Length <= allocSize && buf[..size] == fd.bytes[..size]
      decreases |fd.bytes| - size
    {
      var tmp := Realloc(buf, allocSize);
      assert tmp[..size] == fd.bytes[..size] by {
        if buf != null {
          assert tmp[..size] == tmp[..buf.Length][..size];
        }
      }
      buf := tmp;
      var readSize := fd.Read(buf, size, allocSize - size);
      if readSize < 0 {
        return readSize, null, size;
      }
      if readSize == 0 {
        return 0, buf, size;
      }
      assert buf[..size + readSize] == buf[..size] + buf[size..size + readSize];
      size := size + readSize;
      if size == allocSize {
        allocSize := allocSize * 2;
      }
    }
  }

  /** What a path names, as far as readlink(2) can tell. */
  datatype Link = NoLink | LinkTo(target: seq<byte>)

  /** readlink(2): fails, or truncates silently to the room it is given. */
  method Readlink(link: Link, buf: array<byte>) returns (res: int)
    modifies buf
    ensures link.NoLink? ==> res < 0
    ensures link.LinkTo? ==>
      && res == (if |link.target| <= buf.Length then |link.target| else buf.Length)
      && buf[..res] == link.target[..res]
  {
    if link.NoLink? {
      return -1;
    }
    res := if |link.target| <= buf.Length then |link.target| else buf.Length;
    for i := 0 to res
      invariant buf[..i] == link.target[..i]
    {
      buf[i] := link.target[i];
    }
  }

  /** Doubles the buffer until the target certainly was not cut, so there is room for the terminator. */
  method ReadlinkWrapper(link: Link) returns (buf: array?<byte>)
    ensures buf == null <==> link.NoLink?
    ensures link.LinkTo? ==>
      && fresh(buf) && |link.target| < buf.Length
      && buf[..|link.target|] == link.target && buf[|link.target|] == 0
      && (buf.Length == 256 || buf.Length <= 2 * |link.target|)
  {
    var currentSize := 256;
    buf := null;
    while true
      invariant buf != null ==> fresh(buf) && buf.Length <= currentSize
      invariant currentSize == 256 || (link.LinkTo? && 256 < currentSize <= 2 * |link.target|)
      decreases (if link.LinkTo? then 2 * |link.target| else 0) + 256 - currentSize
    {
      var tmp := Realloc(buf, currentSize);
      var res := Readlink(link, tmp);
      if res < 0 {
        return null;
      }
      buf := tmp;
      if res == currentSize {
        currentSize := currentSize * 2;
        continue;
      }
      buf[res] := 0;
      break;
    }
  }
}

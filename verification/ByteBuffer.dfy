/**
 The network buffer: one array with a reader and a writer index, room kept in
 front for prepending, content moved to the front or the array enlarged when
 space runs out.
 */
module ByteBuffer {

  import opened Bytes

  const CHEAP_PREPEND: nat := 8

  /** The size of the overflow area of a scatter read. */
  const EXTRA: nat := 1024 * 1024

  class Buffer {
    var buf: array<byte>
    var reader: nat
    var writer: nat

    ghost predicate Valid()
      reads this
    {
      reader <= writer <= buf.Length && CHEAP_PREPEND <= buf.Length
    }

    /** The readable bytes. */
    ghost function Contents(): seq<byte>
      reads this, buf
      requires Valid()
    {
      buf[reader..writer]
    }

    constructor (initialSize: nat)
      ensures Valid() && fresh(buf) && Contents() == []
      ensures reader == CHEAP_PREPEND && buf.Length == CHEAP_PREPEND + initialSize
    {
      buf := new byte[CHEAP_PREPEND + initialSize];
      reader := CHEAP_PREPEND;
      writer := CHEAP_PREPEND;
    }

    function WritableBytes(): nat
      reads this
      requires Valid()
    {
      buf.Length - writer
    }

    method RetrieveAll()
      requires Valid()
      modifies this`reader, this`writer
      ensures Valid() && Contents() == [] && reader == CHEAP_PREPEND
    {
      reader := CHEAP_PREPEND;
      writer := CHEAP_PREPEND;
    }

    method Retrieve(len: nat)
      requires Valid() && len <= |Contents()|
      modifies this`reader, this`writer
      ensures Valid() && Contents() == old(Contents())[len..]
    {
      if len < writer - reader {
        reader := reader + len;
      } else {
        RetrieveAll();
      }
    }

    method RetrieveAsString(len: nat) returns (s: seq<byte>)
      requires Valid() && len <= |Contents()|
      modifies this`reader, this`writer
      ensures Valid() && s == old(Contents())[..len] && Contents() == old(Contents())[len..]
    {
      s := buf[reader..reader + len];
      Retrieve(len);
    }

    /** Gives up the last bytes written. */
    method Unwrite(len: nat)
      requires Valid() && len <= |Contents()|
      modifies this`writer
      ensures Valid() && Contents() == old(Contents())[..|old(Contents())| - len]
    {
      writer := writer - len;
    }

    method EnsureWritable(len: nat)
      requires Valid()
      modifies this, buf
      ensures Valid() && (buf == old(buf) || fresh(buf))
      ensures Contents() == old(Contents()) && WritableBytes() >= len
    {
      if WritableBytes() < len {
        MakeSpace(len);
      }
    }

    /** Enlarges the array, or moves the content to the front when that is enough. */
    method MakeSpace(len: nat)
      requires Valid() && WritableBytes() < len
      modifies this, buf
      ensures Valid() && (buf == old(buf) || fresh(buf))
      ensures Contents() == old(Contents()) && WritableBytes() >= len
    {
      if WritableBytes() + reader < len + CHEAP_PREPEND {
        Enlarge(writer + len);
      } else {
        assert CHEAP_PREPEND < reader;
        Compact();
      }
    }

    method Enlarge(size: nat)
      requires Valid() && size >= buf.Length
      modifies this`buf
      ensures Valid() && fresh(buf) && buf.Length == size && Contents() == old(Contents())
    {
      var old_ := buf;
      var bigger := new byte[size];
      for i := 0 to old_.Length
        invariant forall j :: 0 <= j < i ==> bigger[j] == old_[j]
      {
        bigger[i] := old_[i];
      }
      buf := bigger;
      assert bigger[reader..writer] == old_[reader..writer];
    }

    /** The overlapping copy towards the front, in place. */
    method Compact()
      requires Valid() && CHEAP_PREPEND < reader
      modifies this`reader, this`writer, buf
      ensures Valid() && Contents() == old(Contents()) && reader == CHEAP_PREPEND
    {
      var readable := writer - reader;
      ghost var was := buf[..];
      var from := reader;
      for i := 0 to readable
        invariant from == reader == old(reader) && writer == old(writer)
        invariant buf[CHEAP_PREPEND..CHEAP_PREPEND + i] == was[from..from + i]
        invariant buf[CHEAP_PREPEND + i..] == was[CHEAP_PREPEND + i..]
      {
        assert buf[from + i] == buf[CHEAP_PREPEND + i..][from - CHEAP_PREPEND] == was[from + i];
        buf[CHEAP_PREPEND + i] := buf[from + i];
        assert buf[CHEAP_PREPEND + i + 1..] == was[CHEAP_PREPEND + i + 1..];
      }
      reader := CHEAP_PREPEND;
      writer := reader + readable;
    }

    method Append(data: seq<byte>)
      requires Valid()
      modifies this, buf
      ensures Valid() && (buf == old(buf) || fresh(buf))
      ensures Contents() == old(Contents()) + data
    {
      EnsureWritable(|data|);
      Copy(data, writer);
      writer := writer + |data|;
      assert buf[reader..writer] == buf[reader..writer - |data|] + buf[writer - |data|..writer];
    }

    method Copy(data: seq<byte>, at: nat)
      requires at + |data| <= buf.Length
      modifies buf
      ensures buf[..at] == old(buf[..at]) && buf[at..at + |data|] == data &&
        buf[at + |data|..] == old(buf[at + |data|..])
    {
      for i := 0 to |data|
        invariant buf[..at] == old(buf[..at]) && buf[at..at + i] == data[..i]
        invariant buf[at + |data|..] == old(buf[at + |data|..])
      {
        buf[at + i] := data[i];
      }
    }

    method Prepend(data: seq<byte>)
      requires Valid() && |data| <= reader
      modifies this`reader, buf
      ensures Valid() && Contents() == data + old(Contents())
    {
      ghost var tail := buf[reader..];
      reader := reader - |data|;
      Copy(data, reader);
      assert buf[reader + |data|..] == tail;
      assert buf[reader..writer] == buf[reader..reader + |data|] + buf[reader + |data|..writer];
    }

    /** A scatter read that delivered `incoming`, or failed. */
    method ReadFd(failed: bool, incoming: seq<byte>) returns (n: int)
      requires Valid()
      requires |incoming| <= WritableBytes() + if WritableBytes() < EXTRA then EXTRA else 0
      modifies this, buf
      ensures Valid() && (buf == old(buf) || fresh(buf))
      ensures failed ==> n < 0 && Contents() == old(Contents())
      ensures !failed ==> n == |incoming| && Contents() == old(Contents()) + incoming
    {
      if failed {
        return -1;
      }
      var writable := WritableBytes();
      var direct := if |incoming| <= writable then incoming else incoming[..writable];
      ghost var before := Contents();
      Copy(direct, writer);
      assert buf[reader..writer] == before;
      if |incoming| <= writable {
        writer := writer + |incoming|;
        assert buf[reader..writer] == before + direct;
      } else {
        writer := buf.Length;
        assert buf[reader..writer] == before + direct;
        Append(incoming[writable..]);
        assert incoming == incoming[..writable] + incoming[writable..];
      }
      return |incoming|;
    }
  }
}

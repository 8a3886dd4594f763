/** An HTTP response on its loop thread: the header goes out with the first write, and only then; a plain response
    ends itself after a write, a stream goes on. */
module HttpResponse {

  import opened Bytes
  import opened TcpConnection

  class Response {
    const header: seq<byte>
    const sse: bool
    var headerSent: bool
    var conn: Conn

    /** What the connection has accepted so far is nothing, or the header and the data written. */
    ghost var written: seq<seq<byte>>

    ghost predicate Valid()
      reads this
    {
      && Inv(conn)
      && (headerSent <==> written != [])
      && conn.accepted == (if headerSent then header + Concat(written) else [])
    }

    constructor (header: seq<byte>, sse: bool, conn: Conn)
      requires Inv(conn) && conn.accepted == []
      ensures Valid() && this.conn == conn && this.header == header && this.sse == sse && written == []
    {
      this.header, this.sse, this.conn := header, sse, conn;
      headerSent, written := false, [];
    }

    /** WriteInLoop; `w` is what write(2) answers. */
    method WriteInLoop(data: seq<byte>, w: WriteResult)
      requires Valid() && Fits(w, (if headerSent then [] else header) + data)
      modifies this
      ensures Valid()
      ensures written == if old(conn.phase) == Connected then old(written) + [data] else old(written)
      ensures old(conn.phase) != Connected ==> conn == old(conn)
      ensures old(conn.phase) == Connected ==> conn.phase == if sse then Connected else Disconnecting
    {
      if conn.phase != Connected {
        return;
      }
      var buf := if headerSent then [] else header;
      buf := buf + data;
      ConcatOne(written, data);
      if headerSent {
        assert buf == data;
        Associative(header, Concat(written), data);
      } else {
        assert Concat<byte>([]) == [];
      }
      headerSent := true;
      StepKeeps(conn, OpSend(buf, w));
      conn := Send(conn, buf, w);
      written := written + [data];
      if !sse {
        EndInLoop();
      }
    }

    /** EndInLoop. */
    method EndInLoop()
      requires Valid()
      modifies this`conn
      ensures Valid() && conn.phase != Connected
      ensures old(conn.phase) == Connected ==> conn.phase == Disconnecting
    {
      StepKeeps(conn, OpShutdown);
      conn := Shutdown(conn);
    }
  }
}

/**
 The output side of a TCP connection, on its loop thread: a payload is written
 directly when nothing waits, the unsent part goes to the output buffer, write
 interest is on while the buffer drains, and shutdown waits for the drain.
 */
module TcpConnection {

  import opened Bytes

  datatype Phase = Connecting | Connected | Disconnecting | Disconnected

  /** Result of a write(2) on the socket. */
  datatype WriteResult = Wrote(n: nat) | WouldBlock | Reset | OtherError

  /** What has been accepted and what the wire held at one shutdown of the write side. */
  datatype Snapshot = Snapshot(accepted: seq<byte>, wire: seq<byte>)

  /** `phase`, `out` and `writing` are the program's state; the rest is history: the bytes handed to the
      socket, all payloads accepted, whether a direct write met EPIPE or ECONNRESET, and every SHUT_WR. */
  datatype Conn = Conn(
    phase: Phase,
    out: seq<byte>,
    writing: bool,
    wire: seq<byte>,
    accepted: seq<byte>,
    reset: bool,
    shutdowns: seq<Snapshot>)

  function Fresh(): Conn { Conn(Connecting, [], false, [], [], false, []) }

  predicate Fits(w: WriteResult, data: seq<byte>) { w.Wrote? ==> w.n <= |data| }

  /** TcpConnection::sendInLoop. */
  function SendInLoop(c: Conn, data: seq<byte>, w: WriteResult): Conn
    requires Fits(w, data)
  {
    if c.phase == Disconnected then c
    else
      var direct := !c.writing && c.out == [];
      var n := if direct && w.Wrote? then w.n else 0;
      var lost := direct && w.Reset?;
      var d := c.(wire := c.wire + data[..n], accepted := c.accepted + data, reset := c.reset || lost);
      if !lost && n < |data| then d.(out := c.out + data[n..], writing := true) else d
  }

  /** TcpConnection::send, called on the loop thread. */
  function Send(c: Conn, data: seq<byte>, w: WriteResult): Conn
    requires Fits(w, data)
  {
    if c.phase == Connected then SendInLoop(c, data, w) else c
  }

  /** TcpConnection::shutdownInLoop. */
  function ShutdownInLoop(c: Conn): Conn {
    if c.writing then c else c.(shutdowns := c.shutdowns + [Snapshot(c.accepted, c.wire)])
  }

  /** TcpConnection::shutdown, called on the loop thread. */
  function Shutdown(c: Conn): Conn {
    if c.phase == Connected then ShutdownInLoop(c.(phase := Disconnecting)) else c
  }

  /** TcpConnection::handleWrite. */
  function HandleWrite(c: Conn, w: WriteResult): Conn
    requires Fits(w, c.out)
  {
    if c.writing && w.Wrote? && w.n > 0 then
      var d := c.(wire := c.wire + c.out[..w.n], out := c.out[w.n..]);
      if d.out == [] then
        var e := d.(writing := false);
        if e.phase == Disconnecting then ShutdownInLoop(e) else e
      else d
    else c
  }

  function ConnectEstablished(c: Conn): Conn { c.(phase := Connected) }

  /** TcpConnection::handleClose. */
  function HandleClose(c: Conn): Conn { c.(phase := Disconnected, writing := false) }

  datatype Op =
    | OpEstablish
    | OpSendInLoop(data: seq<byte>, w: WriteResult)
    | OpSend(data: seq<byte>, w: WriteResult)
    | OpShutdown
    | OpWritable(w: WriteResult)
    | OpClose

  predicate Enabled(c: Conn, op: Op) {
    match op
    case OpEstablish => c.phase == Connecting
    case OpSendInLoop(data, w) => Fits(w, data)
    case OpSend(data, w) => Fits(w, data)
    case OpShutdown => true
    case OpWritable(w) => Fits(w, c.out)
    case OpClose => c.phase == Connected || c.phase == Disconnecting
  }

  function Apply(c: Conn, op: Op): Conn
    requires Enabled(c, op)
  {
    match op
    case OpEstablish => ConnectEstablished(c)
    case OpSendInLoop(data, w) => SendInLoop(c, data, w)
    case OpSend(data, w) => Send(c, data, w)
    case OpShutdown => Shutdown(c)
    case OpWritable(w) => HandleWrite(c, w)
    case OpClose => HandleClose(c)
  }

  predicate Legal(c: Conn, ops: seq<Op>)
    decreases |ops|
  {
    ops == [] || (Enabled(c, ops[0]) && Legal(Apply(c, ops[0]), ops[1..]))
  }

  function After(c: Conn, ops: seq<Op>): Conn
    requires Legal(c, ops)
    decreases |ops|
  {
    if ops == [] then c else After(Apply(c, ops[0]), ops[1..])
  }

  // ---------------------------------------------------------------- the invariant

  /** Nothing accepted is lost, repeated or reordered. */
  predicate Conserved(c: Conn) { c.wire + c.out == c.accepted }

  ghost predicate ShutdownsComplete(c: Conn) {
    forall i :: 0 <= i < |c.shutdowns| ==> c.shutdowns[i].wire == c.shutdowns[i].accepted
  }

  ghost predicate Inv(c: Conn) {
    && (c.phase != Disconnected ==> (c.writing <==> c.out != []))
    && (!c.reset ==> Conserved(c) && ShutdownsComplete(c))
    && (c.phase == Disconnecting && !c.writing ==> c.shutdowns != [])
    && (c.phase == Disconnected ==> !c.writing)
  }

  lemma SendInLoopKeeps(c: Conn, data: seq<byte>, w: WriteResult)
    requires Inv(c) && Fits(w, data)
    ensures Inv(SendInLoop(c, data, w))
  {
    if c.phase != Disconnected {
      SendConserves(c, data, w);
      var d := SendInLoop(c, data, w);
      if !d.reset {
        Associative(c.wire, c.out, data);
        assert d.wire + d.out == c.accepted + data;
      }
    }
  }

  lemma HandleWriteKeeps(c: Conn, w: WriteResult)
    requires Inv(c) && Fits(w, c.out)
    ensures Inv(HandleWrite(c, w))
  {
    if c.writing && w.Wrote? && w.n > 0 {
      assert c.wire + c.out[..w.n] + c.out[w.n..] == c.wire + c.out;
    }
  }

  lemma StepKeeps(c: Conn, op: Op)
    requires Inv(c) && Enabled(c, op)
    ensures Inv(Apply(c, op))
  {
    match op
    case OpSendInLoop(data, w) => SendInLoopKeeps(c, data, w);
    case OpSend(data, w) => SendInLoopKeeps(c, data, w);
    case OpWritable(w) => HandleWriteKeeps(c, w);
    case OpEstablish =>
    case OpShutdown =>
    case OpClose =>
  }

  lemma {:induction false} RunKeeps(c: Conn, ops: seq<Op>)
    requires Inv(c) && Legal(c, ops)
    ensures Inv(After(c, ops))
    decreases |ops|
  {
    hide Inv;
    if ops != [] {
      StepKeeps(c, ops[0]);
      RunKeeps(Apply(c, ops[0]), ops[1..]);
    }
  }

  // ---------------------------------------------------------------- what the operations say

  function PhaseAfter(p: Phase, op: Op): Phase {
    match op
    case OpEstablish => Connected
    case OpShutdown => if p == Connected then Disconnecting else p
    case OpClose => Disconnected
    case _ => p
  }

  /** The payload an operation hands over: send counts while connected, sendInLoop until disconnected. */
  function Payload(p: Phase, op: Op): seq<byte> {
    match op
    case OpSend(data, _) => if p == Connected then data else []
    case OpSendInLoop(data, _) => if p == Disconnected then [] else data
    case _ => []
  }

  /** All payloads handed over by a sequence of operations, in order. */
  function Payloads(p: Phase, ops: seq<Op>): seq<byte>
    decreases |ops|
  {
    if ops == [] then [] else Payload(p, ops[0]) + Payloads(PhaseAfter(p, ops[0]), ops[1..])
  }

  /** The operation writes to the socket at once. */
  predicate WritesDirectly(c: Conn, op: Op) {
    && ((op.OpSend? && c.phase == Connected) || (op.OpSendInLoop? && c.phase != Disconnected))
    && !c.writing && c.out == []
  }

  /** Some direct write of the run was answered by EPIPE or ECONNRESET. */
  predicate MeetsReset(c: Conn, ops: seq<Op>)
    requires Legal(c, ops)
    decreases |ops|
  {
    ops != [] && ((WritesDirectly(c, ops[0]) && ops[0].w.Reset?) || MeetsReset(Apply(c, ops[0]), ops[1..]))
  }

  /** Some write of the run was answered so. */
  predicate CarriesReset(ops: seq<Op>) {
    exists i :: 0 <= i < |ops| && (ops[i].OpSend? || ops[i].OpSendInLoop?) && ops[i].w.Reset?
  }

  /** How many bytes the socket took in a step. */
  function Took(c: Conn, op: Op): nat {
    if (WritesDirectly(c, op) || (op.OpWritable? && c.writing)) && op.w.Wrote? then op.w.n else 0
  }

  function TookAll(c: Conn, ops: seq<Op>): nat
    requires Legal(c, ops)
    decreases |ops|
  {
    if ops == [] then 0 else Took(c, ops[0]) + TookAll(Apply(c, ops[0]), ops[1..])
  }

  lemma StepSays(c: Conn, op: Op)
    requires Enabled(c, op)
    ensures var d := Apply(c, op);
      && d.phase == PhaseAfter(c.phase, op) && d.accepted == c.accepted + Payload(c.phase, op)
      && (d.reset <==> c.reset || (WritesDirectly(c, op) && op.w.Reset?))
      && |d.wire| == |c.wire| + Took(c, op)
      && (d.shutdowns == c.shutdowns || d.shutdowns == c.shutdowns + [Snapshot(d.accepted, d.wire)])
  {
  }

  /** Unless it is written directly and met by a reset, a payload is on the wire or in the buffer. */
  lemma SendConserves(c: Conn, data: seq<byte>, w: WriteResult)
    requires Fits(w, data)
    ensures var d := SendInLoop(c, data, w);
      c.phase != Disconnected && (!w.Reset? || c.writing || c.out != []) ==> d.wire + d.out == c.wire + c.out + data
  {
    var n := if !c.writing && c.out == [] && w.Wrote? then w.n else 0;
    assert data == data[..n] + data[n..];
    assert n == 0 ==> data[..n] == [] && data[n..] == data;
  }

  /** In every run: all payloads are accepted in order, the flag is set exactly by a direct write that met EPIPE or
      ECONNRESET, and the wire holds as many bytes as the socket took. */
  lemma {:induction false} RunSays(c: Conn, ops: seq<Op>)
    requires Legal(c, ops)
    ensures var d := After(c, ops);
      && d.accepted == c.accepted + Payloads(c.phase, ops)
      && (d.reset <==> c.reset || MeetsReset(c, ops))
      && |d.wire| == |c.wire| + TookAll(c, ops)
    decreases |ops|
  {
    if ops == [] {
      assert c.accepted + [] == c.accepted;
    } else {
      StepSays(c, ops[0]);
      RunSays(Apply(c, ops[0]), ops[1..]);
      hide Apply, Enabled, Payload, PhaseAfter, Took, WritesDirectly;
      Associative(c.accepted, Payload(c.phase, ops[0]), Payloads(PhaseAfter(c.phase, ops[0]), ops[1..]));
    }
  }

  lemma {:induction false} ResetIsCarried(c: Conn, ops: seq<Op>)
    requires Legal(c, ops) && MeetsReset(c, ops)
    ensures CarriesReset(ops)
    decreases |ops|
  {
    hide Apply, Enabled;
    if !(WritesDirectly(c, ops[0]) && ops[0].w.Reset?) {
      ResetIsCarried(Apply(c, ops[0]), ops[1..]);
      var i :| 0 <= i < |ops[1..]| && (ops[1..][i].OpSend? || ops[1..][i].OpSendInLoop?) && ops[1..][i].w.Reset?;
      assert ops[i + 1] == ops[1..][i];
    }
  }

  /** Output conservation over every run: until disconnect, write interest is on exactly while bytes wait; as long
      as no direct write was answered by EPIPE or ECONNRESET, the wire followed by the buffer is all the payloads
      handed over, in order, and every SHUT_WR found everything accepted already on the wire; the wire holds what the
      socket took; a finished drain is followed by SHUT_WR. */
  lemma OutputConservation(ops: seq<Op>)
    requires Legal(Fresh(), ops)
    ensures var c := After(Fresh(), ops);
      && (c.phase != Disconnected ==> (c.writing <==> c.out != []))
      && (!MeetsReset(Fresh(), ops) ==> c.wire + c.out == Payloads(Connecting, ops))
      && (!MeetsReset(Fresh(), ops) ==>
            forall i :: 0 <= i < |c.shutdowns| ==> c.shutdowns[i].wire == c.shutdowns[i].accepted)
      && |c.wire| == TookAll(Fresh(), ops)
      && (c.phase == Disconnecting && c.out == [] ==> c.shutdowns != [])
      && (!CarriesReset(ops) ==> !MeetsReset(Fresh(), ops))
  {
    RunKeeps(Fresh(), ops);
    RunSays(Fresh(), ops);
    if MeetsReset(Fresh(), ops) {
      ResetIsCarried(Fresh(), ops);
    }
    assert [] + Payloads(Connecting, ops) == Payloads(Connecting, ops);
  }

  // ---------------------------------------------------------------- the object

  /** The connection object; its socket histories are kept beside it for specification. */
  class Connection {
    var phase: Phase
    var out: seq<byte>
    var writing: bool
    ghost var wire: seq<byte>
    ghost var accepted: seq<byte>
    ghost var reset: bool
    ghost var shutdowns: seq<Snapshot>

    ghost function Value(): Conn
      reads this
    {
      Conn(phase, out, writing, wire, accepted, reset, shutdowns)
    }

    constructor ()
      ensures Value() == Fresh()
    {
      phase, out, writing := Connecting, [], false;
      wire, accepted, reset, shutdowns := [], [], false, [];
    }

    method SendData(data: seq<byte>, w: WriteResult)
      requires Fits(w, data)
      modifies this
      ensures Value() == SendInLoop(old(Value()), data, w)
      ensures old(phase) != Disconnected && (!w.Reset? || old(writing) || old(out) != []) ==>
        wire + out == old(wire) + old(out) + data
    {
      SendConserves(Value(), data, w);
      hide Inv;
      if phase == Disconnected {
        return;
      }
      var nwrote := 0;
      var remaining := |data|;
      var faultError := false;
      accepted := accepted + data;
      if !writing && |out| == 0 {
        match w
        case Wrote(n) =>
          nwrote := n;
          remaining := |data| - n;
        case Reset =>
          faultError := true;
          reset := true;
        case WouldBlock =>
        case OtherError =>
      }
      wire := wire + data[..nwrote];
      if !faultError && remaining > 0 {
        out := out + data[nwrote..];
        if !writing {
          writing := true;
        }
      }
    }

    method BeginShutdown()
      modifies this
      ensures Value() == Shutdown(old(Value()))
    {
      if phase == Connected {
        phase := Disconnecting;
        ShutdownNow();
      }
    }

    method ShutdownNow()
      modifies this`shutdowns
      ensures Value() == ShutdownInLoop(old(Value()))
    {
      if !writing {
        shutdowns := shutdowns + [Snapshot(accepted, wire)];
      }
    }

    method OnWritable(w: WriteResult)
      requires Fits(w, out)
      modifies this
      ensures Value() == HandleWrite(old(Value()), w)
    {
      if writing {
        if w.Wrote? && w.n > 0 {
          wire := wire + out[..w.n];
          out := out[w.n..];
          if |out| == 0 {
            writing := false;
            if phase == Disconnecting {
              ShutdownNow();
            }
          }
        }
      }
    }

    method OnClose()
      requires phase == Connected || phase == Disconnecting
      modifies this
      ensures Value() == HandleClose(old(Value()))
    {
      phase := Disconnected;
      writing := false;
    }
  }
}

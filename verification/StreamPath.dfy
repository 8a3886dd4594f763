/**
 A streamed chat response from the engine's worker thread to the wire.

 The gateway, on the loop thread, sends the header and a comment line.  The
 worker emits deltas and one finish; each becomes server-sent events that are
 handed to the loop thread through its functor queue, written to the
 connection there, and followed by a shutdown.  The functor queue is the one
 of module EventLoop and the connection the one of module TcpConnection, so
 other functors, partial writes and wakeups interleave with the stream.

 The connection is not the stream's alone: a client may send further requests
 on it, and each gets a response of its own that writes to and ends the same
 connection, from the loop thread or from a functor.  The connection may also
 go down at any time.
 */
module StreamPath {

  import opened Bytes
  import opened Reasons
  import U = Utf8Stream
  import L = EventLoop
  import T = TcpConnection

  datatype Event = DeltaEvent(text: seq<byte>) | FinishEvent(reason: Reason) | DoneEvent

  /** What the loop thread is handed: this stream's writes and end, those of other responses on the same
      connection, and functors that do not concern the connection. */
  datatype Job =
    | WriteJob(ev: Event)
    | EndJob
    | OtherWriteJob(data: seq<byte>)
    | OtherEndJob
    | Foreign(id: nat)

  predicate IsOthers(job: Job) { !job.WriteJob? && !job.EndJob? }

  /** The texts the program renders; how is left open. */
  datatype Page = Page(header: seq<byte>, comment: seq<byte>, render: Event -> seq<byte>)

  /** A payload the connection accepted, and whose it was. */
  datatype Part = Own(data: seq<byte>) | Other(data: seq<byte>)

  /** `todo` holds the rest of what the worker's current call will hand over.  The last seven fields are
      histories: the delta texts, the engine's bytes, the reason, the events and the payloads the connection
      accepted, and whether another response or a disconnect stopped it before this stream's end marker. */
  datatype Stream = Stream(
    loop: L.State<Job>,
    conn: T.Conn,
    started: bool,
    headerSent: bool,
    finished: bool,
    closed: bool,
    held: seq<byte>,
    todo: seq<Job>,
    texts: seq<seq<byte>>,
    raw: seq<byte>,
    reason: Reason,
    wrote: seq<Event>,
    parts: seq<Part>,
    cut: bool)

  datatype Label =
    | StartStream(w: T.WriteResult)          // HttpStreamSession::Start on the loop thread
    | EmitDelta(text: seq<byte>)             // ServingContext::EmitDelta on the worker
    | EmitFinish(reason: Reason)             // ServingContext::EmitFinish on the worker
    | HandOver                               // the worker's next HttpStreamSession::Write or Close
    | Notice                                 // the worker finds the connection down after a write
    | Reject(reason: Reason, w: T.WriteResult, w': T.WriteResult)  // the gateway could not queue the request
    | LoopStep(l: L.Label<Job>, w: T.WriteResult)  // any step of the loop or of other threads
    | Writable(w: T.WriteResult)             // the socket accepts more bytes
    | OtherWrites(data: seq<byte>, w: T.WriteResult)  // another response writes on the loop thread
    | OtherEnds                              // another response ends the connection on the loop thread
    | Disconnect(notified: bool)             // the peer is gone; the stream's close callback may have been replaced

  // ---------------------------------------------------------------- steps

  predicate Up(s: Stream) { s.conn.phase == T.Connected }

  function Payload(g: Page, s: Stream, data: seq<byte>): seq<byte> {
    (if s.headerSent then [] else g.header) + data
  }

  /** NetworkHttpResponse::WriteInLoop for this stream. */
  function WriteInLoop(g: Page, s: Stream, data: seq<byte>, w: T.WriteResult): Stream
    requires T.Fits(w, Payload(g, s, data))
  {
    if !Up(s) then s
    else
      var p := Payload(g, s, data);
      s.(conn := T.Send(s.conn, p, w), parts := s.parts + [Own(p)], headerSent := true)
  }

  function WriteEvent(g: Page, s: Stream, ev: Event, w: T.WriteResult): Stream
    requires T.Fits(w, Payload(g, s, g.render(ev)))
  {
    if !Up(s) then s else WriteInLoop(g, s, g.render(ev), w).(wrote := s.wrote + [ev])
  }

  /** WriteInLoop of another response; its own header block, if any, is part of the data. */
  function WriteOther(s: Stream, data: seq<byte>, w: T.WriteResult): Stream
    requires T.Fits(w, data)
  {
    if !Up(s) then s else s.(conn := T.Send(s.conn, data, w), parts := s.parts + [Other(data)])
  }

  /** The end marker of this stream has been accepted. */
  predicate MarkerWritten(s: Stream) { DoneEvent in s.wrote }

  /** EndInLoop of this stream. */
  function EndOwn(s: Stream): Stream { s.(conn := T.Shutdown(s.conn)) }

  /** EndInLoop of another response. */
  function EndOther(s: Stream): Stream {
    s.(conn := T.Shutdown(s.conn), cut := if Up(s) then !MarkerWritten(s) else s.cut)
  }

  /** TcpConnection::handleClose and the close callback, when it is still this stream's. */
  function Lose(s: Stream, notified: bool): Stream {
    s.(conn := T.HandleClose(s.conn), closed := s.closed || notified, cut := if Up(s) then !MarkerWritten(s) else s.cut)
  }

  predicate Enabled(g: Page, s: Stream, l: Label) {
    match l
    case StartStream(w) => !s.started && s.loop.pc.Handling? && T.Fits(w, Payload(g, s, g.comment))
    case EmitDelta(_) => s.started && s.todo == []
    case EmitFinish(_) => s.started && s.todo == []
    case HandOver => s.todo != []
    case Notice => s.started && !s.closed && !Up(s)
    case Reject(r, w, w') =>
      && s.started && !s.finished && s.todo == [] && s.texts == [] && s.loop.pc.Handling?
      && T.Fits(w, Payload(g, s, g.render(FinishEvent(r))))
      && T.Fits(w', Payload(g, WriteEvent(g, s, FinishEvent(r), w), g.render(DoneEvent)))
    case LoopStep(l, w) =>
      && L.Enabled(s.loop, l)
      && (l.ForeignPush? || l.OwnPush? ==> IsOthers(l.f))
      && (l.RunNext? ==> JobFits(g, s, s.loop.pc.batch[0], w))
    case Writable(w) => s.loop.pc.Handling? && T.Fits(w, s.conn.out)
    case OtherWrites(data, w) => s.loop.pc.Handling? && T.Fits(w, data)
    case OtherEnds => s.loop.pc.Handling?
    case Disconnect(_) => s.loop.pc.Handling? && s.conn.phase != T.Connecting && s.conn.phase != T.Disconnected
  }

  predicate JobFits(g: Page, s: Stream, job: Job, w: T.WriteResult) {
    && (job.WriteJob? ==> T.Fits(w, Payload(g, s, g.render(job.ev))))
    && (job.OtherWriteJob? ==> T.Fits(w, job.data))
  }

  function Apply(g: Page, s: Stream, l: Label): Stream
    requires Enabled(g, s, l)
  {
    match l
    case StartStream(w) => WriteInLoop(g, s, g.comment, w).(started := true)
    case EmitDelta(text) => Delta(s, text)
    case EmitFinish(r) => Finish(s, r)
    case HandOver => Hand(s)
    case Notice => Close(s)
    case Reject(r, w, w') => Refuse(g, s, r, w, w')
    case LoopStep(m, w) => RunLoop(g, s, m, w)
    case Writable(w) => s.(conn := T.HandleWrite(s.conn, w))
    case OtherWrites(data, w) => WriteOther(s, data, w)
    case OtherEnds => EndOther(s)
    case Disconnect(notified) => Lose(s, notified)
  }

  /** EmitDelta, and OnChunk for a chunk that does not finish. */
  function Delta(s: Stream, text: seq<byte>): Stream {
    if s.finished then s
    else
      var p := if text == [] then U.Parts([], s.held) else U.Split(s.held + text, false);
      s.(held := p.rest, raw := s.raw + text, texts := s.texts + [p.out], todo := [WriteJob(DeltaEvent(p.out))])
  }

  /** What the worker hands over for the finish: the finishing chunk, the end marker, and the end. */
  function FinalJobs(r: Reason): seq<Job> { [WriteJob(FinishEvent(r)), WriteJob(DoneEvent), EndJob] }

  /** EmitFinish, OnChunk for the finishing chunk, and the finish callback's Close. */
  function Finish(s: Stream, r: Reason): Stream {
    if s.finished then s else s.(finished := true, held := [], reason := r, todo := FinalJobs(r))
  }

  /** HttpStreamSession::Close on the worker: the first one ends the response. */
  function Close(s: Stream): Stream {
    if s.closed then s else s.(closed := true, loop := L.Apply(s.loop, L.ForeignPush(EndJob)))
  }

  /** HttpStreamSession::Write and Close on the worker: a write is dropped once the session is closed, and one
      that finds the connection down closes the session instead. */
  function Hand(s: Stream): Stream
    requires s.todo != []
  {
    var t := s.(todo := s.todo[1..]);
    if s.todo[0].EndJob? then Close(t)
    else if s.closed then t
    else if !Up(s) then Close(t)
    else t.(loop := L.Apply(s.loop, L.ForeignPush(s.todo[0])))
  }

  /** On the loop thread the events are written at once and the connection is shut down. */
  function Refuse(g: Page, s: Stream, r: Reason, w: T.WriteResult, w': T.WriteResult): Stream
    requires T.Fits(w, Payload(g, s, g.render(FinishEvent(r))))
    requires T.Fits(w', Payload(g, WriteEvent(g, s, FinishEvent(r), w), g.render(DoneEvent)))
  {
    var u := WriteEvent(g, s, FinishEvent(r), w);
    var v := WriteEvent(g, u, DoneEvent, w');
    EndOwn(v).(finished := true, held := [], closed := true, reason := r)
  }

  function RunLoop(g: Page, s: Stream, l: L.Label<Job>, w: T.WriteResult): Stream
    requires Enabled(g, s, LoopStep(l, w))
  {
    (if l.RunNext? then RunJob(g, s, s.loop.pc.batch[0], w) else s).(loop := L.Apply(s.loop, l))
  }

  function RunJob(g: Page, s: Stream, job: Job, w: T.WriteResult): Stream
    requires JobFits(g, s, job, w)
  {
    match job
    case WriteJob(ev) => WriteEvent(g, s, ev, w)
    case EndJob => EndOwn(s)
    case OtherWriteJob(data) => WriteOther(s, data, w)
    case OtherEndJob => EndOther(s)
    case Foreign(_) => s
  }

  predicate Legal(g: Page, s: Stream, ls: seq<Label>)
    decreases |ls|
  {
    ls == [] || (Enabled(g, s, ls[0]) && Legal(g, Apply(g, s, ls[0]), ls[1..]))
  }

  function After(g: Page, s: Stream, ls: seq<Label>): Stream
    requires Legal(g, s, ls)
    decreases |ls|
  {
    if ls == [] then s else After(g, Apply(g, s, ls[0]), ls[1..])
  }

  // ---------------------------------------------------------------- what has been issued and accepted

  function Events(js: seq<Job>): seq<Event> {
    if js == [] then []
    else (if js[0].WriteJob? then [js[0].ev] else []) + Events(js[1..])
  }

  function DeltaEvents(texts: seq<seq<byte>>): seq<Event> {
    seq(|texts|, i requires 0 <= i < |texts| => DeltaEvent(texts[i]))
  }

  /** The event grammar: deltas, then one finish and the end marker. */
  function Script(s: Stream): seq<Event> {
    DeltaEvents(s.texts) + if s.finished then [FinishEvent(s.reason), DoneEvent] else []
  }

  function Render(g: Page, evs: seq<Event>): seq<byte> {
    if evs == [] then [] else Render(g, evs[..|evs| - 1]) + g.render(evs[|evs| - 1])
  }

  /** One header block, the comment, then the events. */
  function Sent(g: Page, evs: seq<Event>): seq<byte> { g.header + g.comment + Render(g, evs) }

  /** All payloads, this stream's payloads, and the others', each in order. */
  function All(ps: seq<Part>): seq<byte> { if ps == [] then [] else All(ps[..|ps| - 1]) + ps[|ps| - 1].data }

  function Mine(ps: seq<Part>): seq<byte> {
    if ps == [] then []
    else Mine(ps[..|ps| - 1]) + if ps[|ps| - 1].Own? then ps[|ps| - 1].data else []
  }

  function Others(ps: seq<Part>): seq<byte> {
    if ps == [] then []
    else Others(ps[..|ps| - 1]) + if ps[|ps| - 1].Other? then ps[|ps| - 1].data else []
  }

  /** The whole response has been accepted. */
  predicate Complete(s: Stream) { s.finished && s.wrote == Script(s) }

  /** The request has just been dispatched on an established connection, which may already carry output of other
      responses, or have been ended by one; nothing of this stream is queued. */
  ghost predicate Initial(s: Stream) {
    && L.Inv(s.loop) && s.loop.pc.Handling? && (forall j :: j in s.loop.pushed ==> IsOthers(j))
    && T.Inv(s.conn) && (s.conn.phase == T.Connected || s.conn.phase == T.Disconnecting)
    && (s.conn.shutdowns != [] ==> s.conn.out == [] && !Up(s))
    && All(s.parts) == s.conn.accepted && Mine(s.parts) == []
    && !s.started && !s.headerSent && !s.finished && !s.closed && s.cut == !Up(s)
    && s.held == [] && s.todo == [] && s.texts == [] && s.raw == [] && s.wrote == []
  }
}

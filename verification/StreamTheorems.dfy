/** What reaches the wire of a streamed response, over whole runs. */
module StreamTheorems {

  import opened Bytes
  import opened Reasons
  import opened Options
  import opened StreamPath
  import opened StreamInvariant
  import U = Utf8Stream
  import L = EventLoop
  import T = TcpConnection

  lemma {:induction false} RunKeeps(g: Page, s: Stream, ls: seq<Label>)
    requires Inv(g, s) && Legal(g, s, ls)
    ensures Inv(g, After(g, s, ls))
    decreases |ls|
  {
    hide Inv, Apply, Enabled;
    if ls != [] {
      StepKeeps(g, s, ls[0]);
      RunKeeps(g, Apply(g, s, ls[0]), ls[1..]);
    }
  }

  // ---------------------------------------------------------------- what the labels say

  /** The texts the engine emits before the first finish: those of the deltas. */
  function Emissions(ls: seq<Label>): seq<seq<byte>> {
    if ls == [] || ls[0].EmitFinish? || ls[0].Reject? then []
    else (if ls[0].EmitDelta? then [ls[0].text] else []) + Emissions(ls[1..])
  }

  /** The reason of the first finish, if there is one. */
  function Ending(ls: seq<Label>): Option<Reason> {
    if ls == [] then None
    else if ls[0].EmitFinish? || ls[0].Reject? then Some(ls[0].reason)
    else Ending(ls[1..])
  }

  /** Steps that neither emit nor finish leave the texts alone. */
  lemma SilentStep(g: Page, s: Stream, l: Label)
    requires Enabled(g, s, l) && !l.EmitDelta? && !l.EmitFinish? && !l.Reject?
    ensures var t := Apply(g, s, l);
      t.texts == s.texts && t.raw == s.raw && t.held == s.held && t.finished == s.finished && t.reason == s.reason
  {
    hide T.Send, T.Shutdown, T.HandleWrite, T.HandleClose, L.Apply, MarkerWritten;
    if l.LoopStep? && l.l.RunNext? {
      RunJobTexts(g, s, s.loop.pc.batch[0], l.w);
      hide RunJob;
    }
  }

  lemma {:induction false} FinishedStays(g: Page, s: Stream, ls: seq<Label>)
    requires Legal(g, s, ls) && s.finished
    ensures var t := After(g, s, ls); t.texts == s.texts && t.raw == s.raw && t.finished && t.reason == s.reason
    decreases |ls|
  {
    if ls != [] {
      if !ls[0].EmitDelta? && !ls[0].EmitFinish? && !ls[0].Reject? {
        SilentStep(g, s, ls[0]);
      }
      assert Apply(g, s, ls[0]).finished;
      hide Apply, Enabled;
      FinishedStays(g, Apply(g, s, ls[0]), ls[1..]);
    }
  }

  /** In every run the bytes of the engine, the texts of the delta events and the reason are what the labels say. */
  lemma {:induction false} RunEmits(g: Page, s: Stream, ls: seq<Label>)
    requires Legal(g, s, ls) && !s.finished && U.Split(s.held, false) == U.Parts([], s.held)
    ensures var t := After(g, s, ls);
      && t.raw == s.raw + Concat(Emissions(ls))
      && t.texts == s.texts + U.Feed(s.held, Emissions(ls)).0
      && (t.finished <==> Ending(ls).Some?) && (t.finished ==> t.reason == Ending(ls).value)
    decreases |ls|
  {
    if ls == [] {
      assert s.raw + [] == s.raw && s.texts + [] == s.texts;
    } else if ls[0].EmitDelta? {
      DeltaEmits(g, s, ls);
    } else if ls[0].EmitFinish? || ls[0].Reject? {
      FinishEmits(g, s, ls[0]);
      FinishedStays(g, Apply(g, s, ls[0]), ls[1..]);
      assert s.raw + [] == s.raw && s.texts + [] == s.texts;
    } else {
      SilentStep(g, s, ls[0]);
      hide Apply, Enabled, U.Feed;
      RunEmits(g, Apply(g, s, ls[0]), ls[1..]);
      assert [] + Emissions(ls[1..]) == Emissions(ls[1..]);
    }
  }

  lemma FinishEmits(g: Page, s: Stream, l: Label)
    requires Enabled(g, s, l) && !s.finished && (l.EmitFinish? || l.Reject?)
    ensures var t := Apply(g, s, l); t.texts == s.texts && t.raw == s.raw && t.finished && t.reason == l.reason
  {
    hide T.Send, T.Shutdown;
  }

  lemma {:induction false} DeltaEmits(g: Page, s: Stream, ls: seq<Label>)
    requires Legal(g, s, ls) && !s.finished && U.Split(s.held, false) == U.Parts([], s.held)
    requires ls != [] && ls[0].EmitDelta?
    ensures var t := After(g, s, ls);
      && t.raw == s.raw + Concat(Emissions(ls))
      && t.texts == s.texts + U.Feed(s.held, Emissions(ls)).0
      && (t.finished <==> Ending(ls).Some?) && (t.finished ==> t.reason == Ending(ls).value)
    decreases |ls|, 0
  {
    var text, more := ls[0].text, Emissions(ls[1..]);
    var p := U.Split(s.held + text, false);
    var t := Delta(s, text);
    assert Emissions(ls) == [text] + more && ([text] + more)[1..] == more;
    DeltaSplits(s, text);
    U.RestIsStable(s.held + text);
    RunEmits(g, t, ls[1..]);
    hide Legal, After, Delta, U.Split;
    Associative(s.raw, text, Concat(more));
    Associative(s.texts, [p.out], U.Feed(p.rest, more).0);
  }

  lemma DeltaSplits(s: Stream, text: seq<byte>)
    requires !s.finished && U.Split(s.held, false) == U.Parts([], s.held)
    ensures var t, p := Delta(s, text), U.Split(s.held + text, false);
      t.held == p.rest && t.texts == s.texts + [p.out] && t.raw == s.raw + text && !t.finished
  {
    if text == [] {
      assert s.held + text == s.held;
    }
  }

  /** A write answered by EPIPE or ECONNRESET. */
  predicate Answered(l: Label) {
    match l
    case StartStream(w) => w.Reset?
    case Reject(_, w, w') => w.Reset? || w'.Reset?
    case LoopStep(_, w) => w.Reset?
    case OtherWrites(_, w) => w.Reset?
    case _ => false
  }

  predicate SomeReset(ls: seq<Label>) { exists i :: 0 <= i < |ls| && Answered(ls[i]) }

  lemma SendResets(c: T.Conn, data: seq<byte>, w: T.WriteResult)
    requires T.Fits(w, data)
    ensures T.Send(c, data, w).reset ==> c.reset || w.Reset?
  {
  }

  lemma StepResets(g: Page, s: Stream, l: Label)
    requires Enabled(g, s, l)
    ensures Apply(g, s, l).conn.reset ==> s.conn.reset || Answered(l)
  {
    hide L.Apply, MarkerWritten;
    match l
    case StartStream(w) => SendResets(s.conn, Payload(g, s, g.comment), w);
    case Reject(r, w, w') =>
      var u := WriteEvent(g, s, FinishEvent(r), w);
      SendResets(s.conn, Payload(g, s, g.render(FinishEvent(r))), w);
      SendResets(u.conn, Payload(g, u, g.render(DoneEvent)), w');
    case LoopStep(m, w) => if m.RunNext? { JobResets(g, s, s.loop.pc.batch[0], w); }
    case OtherWrites(data, w) => SendResets(s.conn, data, w);
    case EmitDelta(_) =>
    case EmitFinish(_) =>
    case HandOver =>
    case Notice =>
    case Writable(_) =>
    case OtherEnds =>
    case Disconnect(_) =>
  }

  lemma JobResets(g: Page, s: Stream, job: Job, w: T.WriteResult)
    requires JobFits(g, s, job, w)
    ensures RunJob(g, s, job, w).conn.reset ==> s.conn.reset || w.Reset?
  {
    hide MarkerWritten;
    match job
    case WriteJob(ev) => SendResets(s.conn, Payload(g, s, g.render(ev)), w);
    case OtherWriteJob(data) => SendResets(s.conn, data, w);
    case EndJob =>
    case OtherEndJob =>
    case Foreign(_) =>
  }

  /** The connection has met a reset only if some write of the run was answered so. */
  lemma {:induction false} RunResets(g: Page, s: Stream, ls: seq<Label>)
    requires Legal(g, s, ls)
    ensures After(g, s, ls).conn.reset ==> s.conn.reset || SomeReset(ls)
    decreases |ls|
  {
    hide Apply, Enabled, Answered;
    if ls != [] {
      StepResets(g, s, ls[0]);
      RunResets(g, Apply(g, s, ls[0]), ls[1..]);
      assert forall i :: 0 <= i < |ls[1..]| ==> ls[1..][i] == ls[i + 1];
    }
  }

  // ---------------------------------------------------------------- parts

  /** The parts hold this stream's bytes and the others', and nothing else. */
  lemma {:induction false} PartsCount(ps: seq<Part>)
    ensures |All(ps)| == |Mine(ps)| + |Others(ps)|
    ensures All(ps) == Mine(ps) <==> Others(ps) == []
    decreases |ps|
  {
    if ps != [] {
      PartsCount(ps[..|ps| - 1]);
    }
  }

  lemma {:induction false} RenderPrefix(g: Page, a: seq<Event>, b: seq<Event>)
    requires a <= b
    ensures Render(g, a) <= Render(g, b)
    decreases |b|
  {
    if a != b {
      RenderPrefix(g, a, b[..|b| - 1]);
    }
  }

  lemma SentPrefix(g: Page, a: seq<Event>, b: seq<Event>)
    requires a <= b
    ensures Sent(g, a) <= Sent(g, b)
  {
    RenderPrefix(g, a, b);
  }

  // ---------------------------------------------------------------- the grammar

  /** End to end, over every interleaving with other responses on the connection and with disconnects:
      the delta texts are what the filter makes of the texts emitted before the first finish, chunk by chunk, and
      together one split of all their bytes; what the connection has accepted of this stream is the header block, the
      comment and a prefix of deltas-then-finish-then-end-marker, in order, once; unless some write was answered by
      EPIPE or ECONNRESET, the wire and the buffer hold this stream's payloads and those of others in the order they
      were written; and once the write side is shut, the wire is exactly this stream's whole transcript if and only if
      no other response got a byte accepted, and none, and no disconnect, stopped the connection before the end
      marker. */
  lemma StreamGrammar(g: Page, start: Stream, ls: seq<Label>)
    requires Initial(start) && Legal(g, start, ls)
    ensures var s := After(g, start, ls);
      && s.texts == U.Feed([], Emissions(ls)).0
      && Concat(s.texts) == U.Split(Concat(Emissions(ls)), false).out
      && (s.finished <==> Ending(ls).Some?) && (s.finished ==> s.reason == Ending(ls).value)
      && s.wrote <= Script(s)
      && Mine(s.parts) == (if s.headerSent then Sent(g, s.wrote) else [])
      && (!start.conn.reset && !SomeReset(ls) ==> !s.conn.reset)
      && (!s.conn.reset ==> s.conn.wire + s.conn.out == All(s.parts))
      && (s.conn.shutdowns != [] && !s.conn.reset ==>
            (IsTranscript(g, s) <==> Others(s.parts) == [] && !s.cut))
  {
    InitialKeeps(g, start);
    RunKeeps(g, start, ls);
    Transcript(g, After(g, start, ls));
    RunResets(g, start, ls);
    RunTexts(g, start, ls);
  }

  lemma RunTexts(g: Page, start: Stream, ls: seq<Label>)
    requires Initial(start) && Legal(g, start, ls) && TextOk(After(g, start, ls))
    ensures var s := After(g, start, ls);
      && s.texts == U.Feed([], Emissions(ls)).0
      && Concat(s.texts) == U.Split(Concat(Emissions(ls)), false).out
      && (s.finished <==> Ending(ls).Some?) && (s.finished ==> s.reason == Ending(ls).value)
  {
    U.SplitNothing(false);
    RunEmits(g, start, ls);
    hide Legal, After, U.Feed, U.Split;
    assert start.raw + Concat(Emissions(ls)) == Concat(Emissions(ls));
    assert start.texts + U.Feed([], Emissions(ls)).0 == U.Feed([], Emissions(ls)).0;
  }

  /** The stream's end marker went out, and the wire holds one header block, the comment, the deltas, one finish
      event and the end marker, with nothing before, between or after. */
  predicate IsTranscript(g: Page, s: Stream) {
    MarkerWritten(s) && s.conn.wire == Sent(g, DeltaEvents(s.texts) + [FinishEvent(s.reason), DoneEvent])
  }

  lemma Transcript(g: Page, s: Stream)
    requires Inv(g, s)
    ensures s.wrote <= Script(s)
    ensures s.conn.shutdowns != [] && !s.conn.reset ==> (IsTranscript(g, s) <==> Others(s.parts) == [] && !s.cut)
  {
    if Up(s) {
      UpPrefix(s);
    }
    MarkerIff(s);
    PartsCount(s.parts);
    hide L.Inv, WorkerOk, TextOk, Sent, All, Mine, Others, MarkerWritten;
    if s.conn.shutdowns != [] {
      assert s.conn.wire + s.conn.out == s.conn.wire;
    }
  }

  /** Whatever disconnects: as long as no other response got a byte accepted and no write was answered by a reset, the
      wire holds a prefix of the transcript. */
  lemma WireIsPrefix(g: Page, start: Stream, ls: seq<Label>)
    requires Initial(start) && Legal(g, start, ls)
    ensures var s := After(g, start, ls);
      !start.conn.reset && !SomeReset(ls) && Others(s.parts) == [] ==> s.conn.wire <= Sent(g, Script(s))
  {
    var s := After(g, start, ls);
    StreamGrammar(g, start, ls);
    hide Inv, Legal, After, Initial, Sent, Script, All, Mine, Others, IsTranscript;
    SentPrefix(g, s.wrote, Script(s));
    PartsCount(s.parts);
  }

  /** Once disturbed, a stream stays so: nothing of what others wrote is taken back. */
  lemma {:induction false} DisturbanceStays(g: Page, s: Stream, ls: seq<Label>)
    requires Inv(g, s) && Legal(g, s, ls)
    ensures Others(s.parts) <= Others(After(g, s, ls).parts) && (s.cut ==> After(g, s, ls).cut)
    decreases |ls|
  {
    hide Inv, Apply, Enabled, Others;
    if ls != [] {
      StepKeeps(g, s, ls[0]);
      StepDisturbs(g, s, ls[0]);
      DisturbanceStays(g, Apply(g, s, ls[0]), ls[1..]);
    }
  }

  /** What one step adds to the disturbance: nothing, unless it is another response's or a disconnect. */
  lemma StepDisturbs(g: Page, s: Stream, l: Label)
    requires Inv(g, s) && Enabled(g, s, l)
    ensures Others(s.parts) <= Others(Apply(g, s, l).parts) && (s.cut ==> Apply(g, s, l).cut)
    ensures Undisturbing(s, l) ==> Others(Apply(g, s, l).parts) == Others(s.parts) && Apply(g, s, l).cut == s.cut
  {
    hide Others, L.Apply, L.Inv, ConnOk, TextOk, T.Send, T.Shutdown, T.HandleClose, T.HandleWrite, MarkerWritten,
      Script;
    match l
    case StartStream(w) => OwnPart(s.parts, Payload(g, s, g.comment));
    case Reject(r, w, w') =>
      var u := WriteEvent(g, s, FinishEvent(r), w);
      OwnPart(s.parts, Payload(g, s, g.render(FinishEvent(r))));
      OwnPart(u.parts, Payload(g, u, g.render(DoneEvent)));
    case OtherWrites(data, w) => OtherPart(s.parts, data);
    case LoopStep(m, w) => if m.RunNext? { JobDisturbs(g, s, s.loop.pc.batch[0], w); }
    case EmitDelta(_) =>
    case EmitFinish(_) =>
    case HandOver =>
    case Notice =>
    case Writable(_) =>
    case OtherEnds =>
    case Disconnect(_) =>
  }

  lemma OwnPart(ps: seq<Part>, data: seq<byte>)
    ensures Others(ps + [Own(data)]) == Others(ps)
  {
    PartsOne(ps, Own(data));
  }

  lemma OtherPart(ps: seq<Part>, data: seq<byte>)
    ensures Others(ps) <= Others(ps + [Other(data)])
  {
    PartsOne(ps, Other(data));
  }

  /** A step that is no other response's write or end and no disconnect. */
  predicate Undisturbing(s: Stream, l: Label) {
    && !l.OtherWrites? && !l.OtherEnds? && !l.Disconnect?
    && (l.LoopStep? && l.l.RunNext? && s.loop.pc.Calling? && s.loop.pc.batch != [] ==>
          !s.loop.pc.batch[0].OtherWriteJob? && !s.loop.pc.batch[0].OtherEndJob?)
  }

  lemma JobDisturbs(g: Page, s: Stream, job: Job, w: T.WriteResult)
    requires JobFits(g, s, job, w) && (Up(s) ==> !s.cut)
    ensures var t := RunJob(g, s, job, w);
      && Others(s.parts) <= Others(t.parts) && (s.cut ==> t.cut)
      && (!job.OtherWriteJob? && !job.OtherEndJob? ==> Others(t.parts) == Others(s.parts) && t.cut == s.cut)
  {
    hide Others, T.Send, T.Shutdown, MarkerWritten;
    match job
    case WriteJob(ev) => OwnPart(s.parts, Payload(g, s, g.render(ev)));
    case OtherWriteJob(data) => OtherPart(s.parts, data);
    case EndJob =>
    case OtherEndJob =>
    case Foreign(_) =>
  }

  /** Every step of the run leaves the stream alone. */
  predicate Alone(g: Page, s: Stream, ls: seq<Label>)
    requires Legal(g, s, ls)
    decreases |ls|
  {
    ls == [] || (Undisturbing(s, ls[0]) && Alone(g, Apply(g, s, ls[0]), ls[1..]))
  }

  lemma {:induction false} AloneStays(g: Page, s: Stream, ls: seq<Label>)
    requires Inv(g, s) && Legal(g, s, ls) && Alone(g, s, ls)
    ensures Others(After(g, s, ls).parts) == Others(s.parts) && After(g, s, ls).cut == s.cut
    decreases |ls|
  {
    hide Inv, Apply, Enabled, Others, Undisturbing;
    if ls != [] {
      StepKeeps(g, s, ls[0]);
      StepDisturbs(g, s, ls[0]);
      AloneStays(g, Apply(g, s, ls[0]), ls[1..]);
    }
  }

  /** A stream alone on a fresh connection that stays up until the close, no write of which is answered by a reset:
      once the write side is shut, the wire is one header block, the comment, what the filter makes of each text
      emitted before the finish, the finish and the end marker. */
  lemma StreamAlone(g: Page, start: Stream, ls: seq<Label>)
    requires Initial(start) && Legal(g, start, ls) && Alone(g, start, ls)
    requires Up(start) && start.parts == [] && !start.conn.reset && !SomeReset(ls)
    ensures var s := After(g, start, ls);
      s.conn.shutdowns != [] ==>
        && Ending(ls).Some?
        && s.conn.wire
           == Sent(g, DeltaEvents(U.Feed([], Emissions(ls)).0) + [FinishEvent(Ending(ls).value), DoneEvent])
  {
    InitialKeeps(g, start);
    AloneStays(g, start, ls);
    StreamGrammar(g, start, ls);
    var s := After(g, start, ls);
    hide Legal, After, Alone, Initial, Inv, Sent, U.Feed, U.Split, Emissions, Ending;
    if MarkerWritten(s) {
      MarkerIff(s);
    }
  }

  // ---------------------------------------------------------------- after a disconnect

  lemma FrozenStep(g: Page, s: Stream, l: Label)
    requires Enabled(g, s, l) && s.conn.phase == T.Disconnected && !s.conn.writing
    ensures Apply(g, s, l).conn == s.conn
  {
    hide L.Apply, MarkerWritten;
    if l.LoopStep? && l.l.RunNext? {
      RunJobDown(g, s, s.loop.pc.batch[0], l.w);
      hide RunJob;
    }
  }

  /** After a disconnect nothing more reaches the wire, whatever the worker, the loop and other responses do. */
  lemma {:induction false} DisconnectIsFinal(g: Page, s: Stream, ls: seq<Label>)
    requires Inv(g, s) && Legal(g, s, ls) && ls != [] && ls[0].Disconnect?
    ensures After(g, s, ls).conn == T.HandleClose(s.conn) && After(g, s, ls).conn.wire == s.conn.wire
  {
    var t := Apply(g, s, ls[0]);
    assert t.conn == T.HandleClose(s.conn);
    Frozen(g, t, ls[1..]);
  }

  lemma {:induction false} Frozen(g: Page, s: Stream, ls: seq<Label>)
    requires Legal(g, s, ls) && s.conn.phase == T.Disconnected && !s.conn.writing
    ensures After(g, s, ls).conn == s.conn
    decreases |ls|
  {
    hide Apply, Enabled;
    if ls != [] {
      FrozenStep(g, s, ls[0]);
      Frozen(g, Apply(g, s, ls[0]), ls[1..]);
    }
  }

  // ---------------------------------------------------------------- a second request on the connection

  /** The first request of a fresh connection has just been dispatched. */
  function Opening(): Stream {
    Stream(L.State(L.Handling(false), [], 0, 0, [], [], false), T.ConnectEstablished(T.Fresh()),
           false, false, false, false, [], [], [], [], Stop, [], [], false)
  }

  function Hello(g: Page): seq<byte> { g.header + g.comment }

  /** The same stream started, its header block and comment on the wire. */
  function Greeted(g: Page): Stream {
    Opening().(conn := T.Conn(T.Connected, [], false, Hello(g), Hello(g), false, []),
               started := true, headerSent := true, parts := [Own(Hello(g))])
  }

  lemma StartGreets(g: Page)
    ensures Enabled(g, Opening(), StartStream(T.Wrote(|Hello(g)|)))
    ensures Apply(g, Opening(), StartStream(T.Wrote(|Hello(g)|))) == Greeted(g)
  {
    var hello := Hello(g);
    assert hello[..|hello|] == hello && [] + hello == hello;
    assert Payload(g, Opening(), g.comment) == hello;
  }

  lemma Prepend(g: Page, s: Stream, l: Label, ls: seq<Label>)
    requires Enabled(g, s, l) && Legal(g, Apply(g, s, l), ls)
    ensures Legal(g, s, [l] + ls) && After(g, s, [l] + ls) == After(g, Apply(g, s, l), ls)
  {
    hide Enabled, Apply;
    assert ([l] + ls)[1..] == ls;
  }

  /** A second stream starts on the connection while the first one runs. */
  function SecondStream(g: Page): seq<Label> {
    [StartStream(T.Wrote(|Hello(g)|))] + ([OtherWrites(Hello(g), T.Wrote(|Hello(g)|))] + [])
  }

  lemma TwoHeaderBlocks(g: Page)
    ensures Initial(Opening()) && Legal(g, Opening(), SecondStream(g))
    ensures var s := After(g, Opening(), SecondStream(g));
      s.conn.wire == Hello(g) + Hello(g) && Others(s.parts) == Hello(g)
  {
    var hello := Hello(g);
    var second := OtherWrites(hello, T.Wrote(|hello|));
    StartGreets(g);
    OtherGreets(g);
    hide Enabled, Apply, Opening, Greeted, Hello, Initial;
    Prepend(g, Greeted(g), second, []);
    Prepend(g, Opening(), StartStream(T.Wrote(|hello|)), [second] + []);
    OpeningIsInitial();
  }

  lemma OpeningIsInitial()
    ensures Initial(Opening())
  {
  }

  lemma OtherGreets(g: Page)
    ensures Enabled(g, Greeted(g), OtherWrites(Hello(g), T.Wrote(|Hello(g)|)))
    ensures var s := Apply(g, Greeted(g), OtherWrites(Hello(g), T.Wrote(|Hello(g)|)));
      s.conn.wire == Hello(g) + Hello(g) && Others(s.parts) == Hello(g)
  {
    var hello := Hello(g);
    assert hello[..|hello|] == hello;
    PartsOne([], Own(hello));
    PartsOne([Own(hello)], Other(hello));
    assert [] + [Own(hello)] == [Own(hello)] && Others([]) == [];
  }

  /** However the run goes on from there, the wire never is the transcript. */
  lemma SecondRequestSpoils(g: Page, ls: seq<Label>)
    requires Hello(g) != []
    requires Legal(g, Opening(), SecondStream(g)) && Legal(g, After(g, Opening(), SecondStream(g)), ls)
    ensures var s := After(g, After(g, Opening(), SecondStream(g)), ls);
      s.conn.shutdowns != [] && !s.conn.reset ==> !IsTranscript(g, s)
  {
    TwoHeaderBlocks(g);
    InitialKeeps(g, Opening());
    RunKeeps(g, Opening(), SecondStream(g));
    var m := After(g, Opening(), SecondStream(g));
    hide Initial, Legal, After, Opening, SecondStream, Hello;
    DisturbanceStays(g, m, ls);
    RunKeeps(g, m, ls);
    Transcript(g, After(g, m, ls));
  }

  /** A plain request answered on the connection ends it: the stream, though it finishes, is cut. */
  function SecondPlain(g: Page, r: Reason): seq<Label> {
    [StartStream(T.Wrote(|Hello(g)|))] + ([OtherEnds] + ([EmitFinish(r)] + []))
  }

  lemma OtherEndCuts(g: Page, r: Reason)
    ensures Legal(g, Opening(), SecondPlain(g, r))
    ensures var s := After(g, Opening(), SecondPlain(g, r));
      s.finished && s.conn.shutdowns != [] && s.conn.wire == Hello(g) && s.cut && !IsTranscript(g, s)
  {
    StartGreets(g);
    var t := EndOther(Greeted(g));
    EndCuts(g, t, r);
    hide Enabled, Apply, Opening, Greeted, Hello, IsTranscript, Finish, EndOther;
    Prepend(g, t, EmitFinish(r), []);
    Prepend(g, Greeted(g), OtherEnds, [EmitFinish(r)] + []);
    Prepend(g, Opening(), StartStream(T.Wrote(|Hello(g)|)), [OtherEnds] + ([EmitFinish(r)] + []));
  }

  lemma EndCuts(g: Page, t: Stream, r: Reason)
    requires t == EndOther(Greeted(g))
    ensures Enabled(g, Greeted(g), OtherEnds) && Apply(g, Greeted(g), OtherEnds) == t
    ensures Enabled(g, t, EmitFinish(r))
    ensures var s := Apply(g, t, EmitFinish(r));
      s.finished && s.conn.shutdowns != [] && s.conn.wire == Hello(g) && s.cut && !IsTranscript(g, s)
  {
  }

  /** The bytes alone do not tell: another response that writes just what this stream still owes, and ends the
      connection, leaves the transcript's bytes on the wire although the stream was cut.  Hence the end marker in
      IsTranscript. */
  function Impersonation(g: Page, r: Reason): seq<Label> {
    var d := g.render(FinishEvent(r)) + g.render(DoneEvent);
    [StartStream(T.Wrote(|Hello(g)|))] + ([OtherWrites(d, T.Wrote(|d|))] + ([OtherEnds] + ([EmitFinish(r)] + [])))
  }

  lemma BytesAloneDoNotTell(g: Page, r: Reason)
    ensures Legal(g, Opening(), Impersonation(g, r))
    ensures var s := After(g, Opening(), Impersonation(g, r));
      && s.conn.shutdowns != [] && s.conn.wire == Sent(g, DeltaEvents(s.texts) + [FinishEvent(s.reason), DoneEvent])
      && s.cut && !IsTranscript(g, s)
  {
    var d := g.render(FinishEvent(r)) + g.render(DoneEvent);
    var mimic := OtherWrites(d, T.Wrote(|d|));
    StartGreets(g);
    var t := WriteOther(Greeted(g), d, T.Wrote(|d|));
    var u := EndOther(t);
    MimicWrites(g, d, t);
    MimicCuts(g, d, t, u, r);
    hide Enabled, Apply, Opening, Greeted, Hello, IsTranscript, Finish, EndOther, Sent, DeltaEvents, WriteOther;
    Prepend(g, u, EmitFinish(r), []);
    Prepend(g, t, OtherEnds, [EmitFinish(r)] + []);
    Prepend(g, Greeted(g), mimic, [OtherEnds] + ([EmitFinish(r)] + []));
    Prepend(g, Opening(), StartStream(T.Wrote(|Hello(g)|)), [mimic] + ([OtherEnds] + ([EmitFinish(r)] + [])));
  }

  lemma MimicWrites(g: Page, d: seq<byte>, t: Stream)
    requires t == WriteOther(Greeted(g), d, T.Wrote(|d|))
    ensures Enabled(g, Greeted(g), OtherWrites(d, T.Wrote(|d|)))
    ensures Apply(g, Greeted(g), OtherWrites(d, T.Wrote(|d|))) == t
    ensures t.conn == T.Conn(T.Connected, [], false, Hello(g) + d, Hello(g) + d, false, [])
    ensures t == Greeted(g).(conn := t.conn, parts := t.parts)
  {
    assert d[..|d|] == d;
  }

  lemma MimicCuts(g: Page, d: seq<byte>, t: Stream, u: Stream, r: Reason)
    requires d == g.render(FinishEvent(r)) + g.render(DoneEvent)
    requires t.conn == T.Conn(T.Connected, [], false, Hello(g) + d, Hello(g) + d, false, [])
    requires t == Greeted(g).(conn := t.conn, parts := t.parts) && u == EndOther(t)
    ensures Enabled(g, t, OtherEnds) && Apply(g, t, OtherEnds) == u && Enabled(g, u, EmitFinish(r))
    ensures var s := Apply(g, u, EmitFinish(r));
      && s.conn.shutdowns != [] && s.conn.wire == Sent(g, DeltaEvents(s.texts) + [FinishEvent(s.reason), DoneEvent])
      && s.cut && !IsTranscript(g, s)
  {
    var evs: seq<Event> := [FinishEvent(r)];
    SentNone(g);
    SentOne(g, [], FinishEvent(r));
    SentOne(g, evs, DoneEvent);
    assert [] + [FinishEvent(r)] == evs && evs + [DoneEvent] == [FinishEvent(r), DoneEvent];
    Associative(Hello(g), g.render(FinishEvent(r)), g.render(DoneEvent));
    assert DeltaEvents([]) + [FinishEvent(r), DoneEvent] == [FinishEvent(r), DoneEvent];
  }
}

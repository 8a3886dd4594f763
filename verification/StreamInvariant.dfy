/** What every step of a streamed response keeps. */
module StreamInvariant {

  import opened Bytes
  import opened Reasons
  import opened StreamPath
  import U = Utf8Stream
  import L = EventLoop
  import T = TcpConnection

  // ---------------------------------------------------------------- sequences of jobs, events and parts

  lemma {:induction false} EventsAppend(a: seq<Job>, b: seq<Job>)
    ensures Events(a + b) == Events(a) + Events(b)
  {
    if a == [] {
      assert a + b == b;
    } else {
      EventsAppend(a[1..], b);
      assert (a + b)[0] == a[0] && (a + b)[1..] == a[1..] + b;
      Associative(if a[0].WriteJob? then [a[0].ev] else [], Events(a[1..]), Events(b));
    }
  }

  lemma EventsOne(js: seq<Job>, job: Job)
    ensures Events(js + [job]) == Events(js) + if job.WriteJob? then [job.ev] else []
    ensures EndJob in js + [job] <==> EndJob in js || job.EndJob?
  {
    EventsAppend(js, [job]);
    assert Events([job]) == if job.WriteJob? then [job.ev] else [];
    assert job in js + [job];
  }

  lemma {:induction false} NoEvents(js: seq<Job>)
    requires forall j :: j in js ==> IsOthers(j)
    ensures Events(js) == []
  {
    if js != [] {
      assert js[0] in js;
      NoEvents(js[1..]);
    }
  }

  lemma EndIsPart(a: seq<Job>, b: seq<Job>)
    ensures EndJob in a ==> EndJob in a + b
  {
    if EndJob in a {
      var i :| 0 <= i < |a| && a[i] == EndJob;
      assert (a + b)[i] == EndJob;
    }
  }

  lemma SentOne(g: Page, evs: seq<Event>, ev: Event)
    ensures Sent(g, evs + [ev]) == Sent(g, evs) + g.render(ev)
  {
    assert (evs + [ev])[..|evs|] == evs;
    Associative(g.header + g.comment, Render(g, evs), g.render(ev));
  }

  lemma SentNone(g: Page)
    ensures Sent(g, []) == g.header + g.comment
  {
  }

  lemma PartsOne(ps: seq<Part>, p: Part)
    ensures All(ps + [p]) == All(ps) + p.data
    ensures Mine(ps + [p]) == Mine(ps) + if p.Own? then p.data else []
    ensures Others(ps + [p]) == Others(ps) + if p.Other? then p.data else []
  {
    assert (ps + [p])[..|ps|] == ps;
  }

  /** After the end of the response only the jobs of others follow. */
  predicate EndIsLast(js: seq<Job>) {
    forall i, j :: 0 <= i < j < |js| && js[i].EndJob? ==> IsOthers(js[j])
  }

  lemma AfterEnd(js: seq<Job>, prefix: seq<Job>, k: nat)
    requires EndIsLast(js) && prefix <= js && EndJob in prefix && |prefix| <= k < |js|
    ensures IsOthers(js[k])
  {
    var i :| 0 <= i < |prefix| && prefix[i] == EndJob;
    assert js[i] == EndJob;
  }

  lemma NothingAfterEnd(a: seq<Job>, b: seq<Job>)
    requires EndIsLast(a + b) && EndJob in a
    ensures Events(a + b) == Events(a)
  {
    forall j | j in b ensures IsOthers(j) {
      var k :| 0 <= k < |b| && b[k] == j;
      AfterEnd(a + b, a, |a| + k);
      assert (a + b)[|a| + k] == j;
    }
    NoEvents(b);
    EventsAppend(a, b);
  }

  // ---------------------------------------------------------------- the invariant

  /** While the connection is up, what the worker has issued is what it handed over and what it still holds. */
  ghost predicate WorkerOk(s: Stream) {
    && (s.todo != [] ==> s.started)
    && (forall i :: 0 <= i < |s.todo| ==> !IsOthers(s.todo[i]))
    && (s.finished <==> EndJob in s.loop.pushed + s.todo)
    && (s.closed <==> EndJob in s.loop.pushed)
    && EndIsLast(s.loop.pushed + s.todo)
    && Events(s.loop.pushed + s.todo) == Script(s)
    && (!s.started ==> !s.finished && s.texts == [])
  }

  /** While the connection is up, everything executed has been accepted, and the end has not been executed. */
  ghost predicate UpOk(s: Stream) {
    && WorkerOk(s)
    && s.wrote == Events(s.loop.executed) && EndJob !in s.loop.executed
    && s.headerSent == s.started && !s.cut
  }

  /** Once the connection is not up, nothing more is accepted, and `cut` tells whether something is missing. */
  ghost predicate DownOk(s: Stream) {
    && s.wrote <= Script(s) && (!s.headerSent ==> s.wrote == [])
    && (s.cut <==> !Complete(s))
  }

  /** The connection accepted the parts in order, and this stream's parts are the header, the comment and the
      events written. */
  ghost predicate ConnOk(g: Page, s: Stream) {
    && T.Inv(s.conn)
    && All(s.parts) == s.conn.accepted
    && Mine(s.parts) == (if s.headerSent then Sent(g, s.wrote) else [])
    && (s.conn.shutdowns != [] ==> s.conn.out == [] && !Up(s))
    && s.conn.phase != T.Connecting
  }

  /** The delta texts are the filter's output for the engine's bytes so far. */
  ghost predicate TextOk(s: Stream) {
    && Concat(s.texts) == U.Split(s.raw, false).out
    && (!s.finished ==> s.held == U.Split(s.raw, false).rest)
  }

  ghost predicate Inv(g: Page, s: Stream) {
    L.Inv(s.loop) && ConnOk(g, s) && TextOk(s) && if Up(s) then UpOk(s) else DownOk(s)
  }

  lemma InitialKeeps(g: Page, s: Stream)
    requires Initial(s)
    ensures Inv(g, s)
  {
    NoEvents(s.loop.pushed);
    assert s.loop.pushed + s.todo == s.loop.pushed;
    assert DeltaEvents(s.texts) == [];
    AllInOrder(s.loop, s.todo);
    var rest := L.Batch(s.loop) + s.loop.pending + s.todo;
    EventsAppend(s.loop.executed, rest);
    EndIsPart(s.loop.executed, rest);
  }

  lemma AllInOrder(l: L.State<Job>, todo: seq<Job>)
    requires L.Inv(l)
    ensures l.pushed + todo == l.executed + (L.Batch(l) + l.pending + todo)
  {
  }

  // ---------------------------------------------------------------- frames

  lemma TextFrame(s: Stream, t: Stream)
    requires TextOk(s) && t.texts == s.texts && t.raw == s.raw
    requires t.finished || (t.held == s.held && t.finished == s.finished)
    ensures TextOk(t)
  {
  }

  /** Steps that leave the connection and the histories of it alone. */
  lemma ConnFrame(g: Page, s: Stream, t: Stream)
    requires ConnOk(g, s) && t.conn == s.conn && t.headerSent == s.headerSent
    requires t.parts == s.parts && t.wrote == s.wrote
    ensures ConnOk(g, t)
  {
  }

  /** A step after the connection went down. */
  lemma DownFrame(s: Stream, t: Stream)
    requires DownOk(s) && t.wrote == s.wrote && t.headerSent == s.headerSent && t.cut == s.cut
    requires t.texts == s.texts && t.finished == s.finished && t.reason == s.reason
    ensures DownOk(t)
  {
  }

  /** The script only grows, so what is missing stays missing. */
  lemma DownGrows(s: Stream, t: Stream, more: seq<Event>)
    requires DownOk(s) && t.wrote == s.wrote && t.headerSent == s.headerSent && t.cut == s.cut
    requires !s.finished && Script(t) == Script(s) + more && (t.finished ==> more != [])
    ensures DownOk(t)
  {
  }

  // ---------------------------------------------------------------- the worker's steps

  lemma DeltaScript(s: Stream, text: seq<byte>)
    requires !s.finished
    ensures Script(Delta(s, text)) == Script(s) + [DeltaEvent(Delta(s, text).texts[|s.texts|])]
  {
    var t := Delta(s, text);
    assert DeltaEvents(t.texts) == DeltaEvents(s.texts) + [DeltaEvent(t.texts[|s.texts|])];
  }

  lemma DeltaKeeps(g: Page, s: Stream, text: seq<byte>)
    requires Inv(g, s) && s.started && s.todo == []
    ensures Inv(g, Delta(s, text))
  {
    if !s.finished {
      hide ConnOk, L.Inv, TextOk, WorkerOk, Script;
      var t := Delta(s, text);
      DeltaScript(s, text);
      ConnFrame(g, s, t);
      TextKept(s, text);
      if Up(s) {
        WorkerDelta(s, text);
      } else {
        DownGrows(s, t, [DeltaEvent(t.texts[|s.texts|])]);
      }
    }
  }

  lemma WorkerDelta(s: Stream, text: seq<byte>)
    requires WorkerOk(s) && s.started && s.todo == [] && !s.finished
    ensures WorkerOk(Delta(s, text))
  {
    var t := Delta(s, text);
    DeltaScript(s, text);
    assert s.loop.pushed + s.todo == s.loop.pushed;
    EventsOne(s.loop.pushed, t.todo[0]);
    assert t.todo == [t.todo[0]];
    hide Script, Events;
  }

  lemma TextKept(s: Stream, text: seq<byte>)
    requires TextOk(s) && !s.finished
    ensures TextOk(Delta(s, text))
  {
    var p := if text == [] then U.Parts([], s.held) else U.Split(s.held + text, false);
    ConcatOne(s.texts, p.out);
    if text == [] {
      assert s.raw + text == s.raw;
    } else {
      U.SplitExtends(s.raw, text);
    }
  }

  lemma FinishScript(s: Stream, r: Reason)
    requires !s.finished
    ensures Script(Finish(s, r)) == Script(s) + [FinishEvent(r), DoneEvent]
  {
  }

  lemma FinishKeeps(g: Page, s: Stream, r: Reason)
    requires Inv(g, s) && s.started && s.todo == []
    ensures Inv(g, Finish(s, r))
  {
    if !s.finished {
      hide ConnOk, L.Inv, TextOk, WorkerOk, Script;
      var t := Finish(s, r);
      FinishScript(s, r);
      ConnFrame(g, s, t);
      TextFrame(s, t);
      if Up(s) {
        WorkerFinish(s, r);
      } else {
        DownGrows(s, t, [FinishEvent(r), DoneEvent]);
      }
    }
  }

  lemma WorkerFinish(s: Stream, r: Reason)
    requires WorkerOk(s) && s.started && s.todo == [] && !s.finished
    ensures WorkerOk(Finish(s, r))
  {
    var t := Finish(s, r);
    var pushed := s.loop.pushed;
    assert t.loop.pushed == pushed && t.todo == FinalJobs(r);
    assert pushed + s.todo == pushed;
    FinishScript(s, r);
    FinalEvents(r);
    EventsAppend(pushed, FinalJobs(r));
    FinalIsLast(pushed, r);
    hide Script, Events, EndIsLast, Finish;
  }

  lemma FinalIsLast(pushed: seq<Job>, r: Reason)
    requires EndJob !in pushed
    ensures EndIsLast(pushed + FinalJobs(r)) && EndJob in pushed + FinalJobs(r)
  {
    var all := pushed + FinalJobs(r);
    assert all[|pushed| + 2] == EndJob;
    forall i | 0 <= i < |all| - 1 ensures !all[i].EndJob? {
      if i < |pushed| {
        assert all[i] == pushed[i];
      }
    }
  }

  lemma FinalEvents(r: Reason)
    ensures Events(FinalJobs(r)) == [FinishEvent(r), DoneEvent]
  {
    var js := FinalJobs(r);
    assert Events([EndJob]) == [];
    assert js[1..][1..] == [EndJob];
    assert Events(js[1..]) == [DoneEvent];
    assert Events(js) == [FinishEvent(r)] + Events(js[1..]);
  }

  /** While the worker still has something to hand over, the session is open. */
  lemma HandFacts(s: Stream)
    requires WorkerOk(s) && s.todo != []
    ensures EndJob !in s.loop.pushed && !s.closed
  {
    var all := s.loop.pushed + s.todo;
    assert all[|s.loop.pushed|] == s.todo[0];
    if EndJob in s.loop.pushed {
      AfterEnd(all, s.loop.pushed, |s.loop.pushed|);
    }
  }

  lemma HandKeeps(g: Page, s: Stream)
    requires Inv(g, s) && s.todo != []
    ensures Inv(g, Hand(s))
  {
    hide ConnOk, L.Inv, TextOk, WorkerOk;
    var t := Hand(s);
    L.StepKeeps(s.loop, L.ForeignPush(s.todo[0]));
    L.StepKeeps(s.loop, L.ForeignPush(EndJob));
    ConnFrame(g, s, t);
    TextFrame(s, t);
    if Up(s) {
      HandFacts(s);
      WorkerHand(s);
    } else {
      DownFrame(s, t);
    }
  }

  lemma WorkerHand(s: Stream)
    requires WorkerOk(s) && s.todo != [] && EndJob !in s.loop.pushed && !s.closed && Up(s)
    ensures WorkerOk(Hand(s))
  {
    var t := Hand(s);
    var pushed, todo := s.loop.pushed, s.todo;
    assert t.loop.pushed == pushed + [todo[0]] && t.todo == todo[1..];
    assert Script(t) == Script(s);
    hide Script, Events, EndIsLast, Hand;
    HandOne(pushed, todo);
  }

  lemma HandOne(pushed: seq<Job>, todo: seq<Job>)
    requires todo != []
    ensures (pushed + [todo[0]]) + todo[1..] == pushed + todo
    ensures EndJob in pushed + [todo[0]] <==> EndJob in pushed || todo[0].EndJob?
  {
    assert (pushed + [todo[0]])[|pushed|] == todo[0];
  }

  lemma NoticeKeeps(g: Page, s: Stream)
    requires Inv(g, s) && !Up(s)
    ensures Inv(g, Close(s))
  {
    hide ConnOk, L.Inv, TextOk;
    L.StepKeeps(s.loop, L.ForeignPush(EndJob));
    ConnFrame(g, s, Close(s));
    TextFrame(s, Close(s));
    DownFrame(s, Close(s));
  }

  // ---------------------------------------------------------------- writing

  /** A payload of this stream or of another response is accepted. */
  lemma ConnSend(g: Page, s: Stream, t: Stream, p: Part, w: T.WriteResult)
    requires ConnOk(g, s) && Up(s) && T.Fits(w, p.data) && t.conn == T.Send(s.conn, p.data, w)
    requires t.parts == s.parts + [p]
    requires (if t.headerSent then Sent(g, t.wrote) else [])
          == (if s.headerSent then Sent(g, s.wrote) else []) + if p.Own? then p.data else []
    ensures ConnOk(g, t) && Up(t)
  {
    T.SendInLoopKeeps(s.conn, p.data, w);
    PartsOne(s.parts, p);
    hide T.Inv, Sent, All, Mine, Others;
  }

  lemma StartKeeps(g: Page, s: Stream, w: T.WriteResult)
    requires Inv(g, s) && Enabled(g, s, StartStream(w))
    ensures Inv(g, Apply(g, s, StartStream(w)))
  {
    hide L.Inv, TextOk, ConnOk;
    var t := Apply(g, s, StartStream(w));
    TextFrame(s, t);
    if Up(s) {
      NothingYet(s);
      SentNone(g);
      ConnSend(g, s, t, Own(Payload(g, s, g.comment)), w);
      WorkerStarts(s, t);
    } else {
      ConnFrame(g, s, t);
      DownFrame(s, t);
    }
  }

  lemma WorkerStarts(s: Stream, t: Stream)
    requires WorkerOk(s) && t.loop == s.loop && t.started && t.finished == s.finished && t.closed == s.closed
    requires t.todo == s.todo && t.texts == s.texts && t.reason == s.reason
    ensures WorkerOk(t)
  {
  }

  /** Before the stream has started nothing of it has been executed. */
  lemma NothingYet(s: Stream)
    requires L.Inv(s.loop) && UpOk(s) && (!s.started || (!s.finished && s.texts == []))
    ensures s.wrote == []
  {
    var rest := L.Batch(s.loop) + s.loop.pending + s.todo;
    assert DeltaEvents(s.texts) == [] && Script(s) == [];
    AllInOrder(s.loop, s.todo);
    hide L.Inv, L.Batch, EndIsLast, Script, DeltaEvents, Events;
    EventsAppend(s.loop.executed, rest);
  }

  lemma OtherWriteKeeps(g: Page, s: Stream, data: seq<byte>, w: T.WriteResult)
    requires ConnOk(g, s) && T.Fits(w, data)
    ensures ConnOk(g, WriteOther(s, data, w)) && Up(WriteOther(s, data, w)) == Up(s)
  {
    hide ConnOk;
    if Up(s) {
      ConnSend(g, s, WriteOther(s, data, w), Other(data), w);
    }
  }

  lemma EventConn(g: Page, s: Stream, ev: Event, w: T.WriteResult)
    requires ConnOk(g, s) && Up(s) && s.headerSent && T.Fits(w, Payload(g, s, g.render(ev)))
    ensures var t := WriteEvent(g, s, ev, w);
      ConnOk(g, t) && Up(t) && t == s.(conn := t.conn, parts := t.parts, wrote := s.wrote + [ev])
  {
    hide ConnOk;
    var t := WriteEvent(g, s, ev, w);
    assert Payload(g, s, g.render(ev)) == g.render(ev);
    SentOne(g, s.wrote, ev);
    hide Sent;
    ConnSend(g, s, t, Own(g.render(ev)), w);
  }

  // ---------------------------------------------------------------- going down

  lemma UpPrefix(s: Stream)
    requires L.Inv(s.loop) && UpOk(s)
    ensures s.wrote <= Script(s)
  {
    var rest := L.Batch(s.loop) + s.loop.pending + s.todo;
    AllInOrder(s.loop, s.todo);
    hide L.Inv, L.Batch, EndIsLast, Script, Events;
    EventsAppend(s.loop.executed, rest);
  }

  /** The end marker is the last event of a finished script. */
  lemma MarkerIff(s: Stream)
    requires s.wrote <= Script(s)
    ensures MarkerWritten(s) <==> Complete(s)
  {
    if MarkerWritten(s) {
      var i :| 0 <= i < |s.wrote| && s.wrote[i] == DoneEvent;
      assert Script(s)[i] == DoneEvent;
      assert i >= |s.texts|;
    }
    if Complete(s) {
      assert Script(s)[|s.texts| + 1] == DoneEvent;
    }
  }

  lemma GoDown(s: Stream, t: Stream)
    requires L.Inv(s.loop) && UpOk(s) && t.wrote == s.wrote && t.headerSent == s.headerSent
    requires t.texts == s.texts && t.finished == s.finished && t.reason == s.reason && t.cut == !MarkerWritten(s)
    ensures DownOk(t)
  {
    UpPrefix(s);
    MarkerIff(s);
    if !s.started {
      NothingYet(s);
    }
    hide L.Inv, WorkerOk;
  }

  lemma ConnShut(g: Page, s: Stream, t: Stream)
    requires ConnOk(g, s) && t.conn == T.Shutdown(s.conn) && t.headerSent == s.headerSent
    requires t.parts == s.parts && t.wrote == s.wrote
    ensures ConnOk(g, t) && !Up(t)
  {
    T.StepKeeps(s.conn, T.OpShutdown);
    hide Sent, All, Mine;
  }

  lemma ConnLost(g: Page, s: Stream, t: Stream)
    requires ConnOk(g, s) && s.conn.phase != T.Disconnected && t.conn == T.HandleClose(s.conn)
    requires t.headerSent == s.headerSent && t.parts == s.parts && t.wrote == s.wrote
    ensures ConnOk(g, t) && !Up(t)
  {
    T.StepKeeps(s.conn, T.OpClose);
    hide Sent, All, Mine;
  }

  lemma ConnWritable(g: Page, s: Stream, w: T.WriteResult)
    requires ConnOk(g, s) && T.Fits(w, s.conn.out)
    ensures var t := s.(conn := T.HandleWrite(s.conn, w)); ConnOk(g, t) && Up(t) == Up(s)
  {
    T.HandleWriteKeeps(s.conn, w);
    hide Sent, All, Mine;
  }

  lemma WritableKeeps(g: Page, s: Stream, w: T.WriteResult)
    requires Inv(g, s) && T.Fits(w, s.conn.out)
    ensures Inv(g, s.(conn := T.HandleWrite(s.conn, w)))
  {
    hide L.Inv, ConnOk, TextOk, WorkerOk, T.HandleWrite;
    var t := s.(conn := T.HandleWrite(s.conn, w));
    ConnWritable(g, s, w);
    TextFrame(s, t);
    if Up(s) {
      UpFrame(s, t);
    } else {
      DownFrame(s, t);
    }
  }

  lemma UpFrame(s: Stream, t: Stream)
    requires UpOk(s) && t.loop == s.loop && t.started == s.started && t.finished == s.finished
    requires t.closed == s.closed && t.todo == s.todo && t.texts == s.texts && t.reason == s.reason
    requires t.wrote == s.wrote && t.headerSent == s.headerSent && t.cut == s.cut
    ensures UpOk(t)
  {
  }

  lemma OtherWritesKeeps(g: Page, s: Stream, data: seq<byte>, w: T.WriteResult)
    requires Inv(g, s) && T.Fits(w, data)
    ensures Inv(g, WriteOther(s, data, w))
  {
    hide L.Inv, ConnOk, TextOk, WorkerOk, T.Send;
    var t := WriteOther(s, data, w);
    OtherWriteKeeps(g, s, data, w);
    TextFrame(s, t);
    if Up(s) {
      UpFrame(s, t);
    }
  }

  lemma OtherEndsKeeps(g: Page, s: Stream)
    requires Inv(g, s)
    ensures Inv(g, EndOther(s))
  {
    hide L.Inv, ConnOk, TextOk, WorkerOk, T.Shutdown, MarkerWritten;
    var t := EndOther(s);
    ConnShut(g, s, t);
    TextFrame(s, t);
    if Up(s) {
      GoDown(s, t);
    } else {
      DownFrame(s, t);
    }
  }

  lemma DisconnectKeeps(g: Page, s: Stream, notified: bool)
    requires Inv(g, s) && s.conn.phase != T.Disconnected
    ensures Inv(g, Lose(s, notified))
  {
    hide L.Inv, ConnOk, TextOk, WorkerOk, T.HandleClose, MarkerWritten;
    var t := Lose(s, notified);
    ConnLost(g, s, t);
    TextFrame(s, t);
    if Up(s) {
      GoDown(s, t);
    } else {
      DownFrame(s, t);
    }
  }

  // ---------------------------------------------------------------- a request that could not be queued

  lemma RejectKeeps(g: Page, s: Stream, r: Reason, w: T.WriteResult, w': T.WriteResult)
    requires Inv(g, s) && Enabled(g, s, Reject(r, w, w'))
    ensures Inv(g, Apply(g, s, Reject(r, w, w')))
  {
    hide L.Inv, TextOk, ConnOk, WorkerOk, Payload, Script;
    var t := Refuse(g, s, r, w, w');
    TextFrame(s, t);
    FinishScript(s, r);
    assert Script(t) == Script(Finish(s, r)) by { SameScript(t, Finish(s, r)); }
    if Up(s) {
      NothingYet(s);
      RefuseUp(g, s, r, w, w');
      NoScript(s);
    } else {
      ConnShut(g, s, t);
      DownGrows(s, t, [FinishEvent(r), DoneEvent]);
    }
  }

  lemma SameScript(s: Stream, t: Stream)
    requires s.texts == t.texts && s.finished == t.finished && s.reason == t.reason
    ensures Script(s) == Script(t)
  {
  }

  lemma NoScript(s: Stream)
    requires s.texts == [] && !s.finished
    ensures Script(s) == []
  {
  }

  lemma RefuseUp(g: Page, s: Stream, r: Reason, w: T.WriteResult, w': T.WriteResult)
    requires ConnOk(g, s) && Up(s) && s.headerSent && s.wrote == [] && Enabled(g, s, Reject(r, w, w'))
    ensures var t := Refuse(g, s, r, w, w');
      && ConnOk(g, t) && !Up(t) && t.wrote == [FinishEvent(r), DoneEvent]
      && t.headerSent && t.cut == s.cut && t.loop == s.loop
  {
    hide ConnOk, Payload, WriteEvent;
    var u := WriteEvent(g, s, FinishEvent(r), w);
    EventConn(g, s, FinishEvent(r), w);
    EventConn(g, u, DoneEvent, w');
    var v := WriteEvent(g, u, DoneEvent, w');
    ConnShut(g, v, Refuse(g, s, r, w, w'));
  }

  // ---------------------------------------------------------------- the loop's steps

  lemma QueueFacts(s: L.State<Job>, l: L.Label<Job>)
    requires L.Enabled(s, l)
    ensures L.Apply(s, l).pushed == (if l.ForeignPush? || l.OwnPush? then s.pushed + [l.f] else s.pushed)
    ensures L.Apply(s, l).executed == (if l.RunNext? then s.executed + [s.pc.batch[0]] else s.executed)
  {
  }

  lemma ForeignEvents(a: seq<Job>, f: Job, b: seq<Job>)
    requires IsOthers(f)
    ensures Events(a + [f] + b) == Events(a + b)
  {
    EventsAppend(a + [f], b);
    EventsAppend(a, [f]);
    EventsAppend(a, b);
  }

  lemma ForeignEnd(a: seq<Job>, f: Job, b: seq<Job>)
    requires IsOthers(f) && EndIsLast(a + b)
    ensures EndIsLast(a + [f] + b)
    ensures EndJob in a + [f] + b <==> EndJob in a + b
    ensures EndJob in a + [f] <==> EndJob in a
  {
    var js, ks := a + [f] + b, a + b;
    forall i, j | 0 <= i < j < |js| && js[i].EndJob? ensures IsOthers(js[j]) {
      var i' := if i < |a| then i else i - 1;
      var j' := if j < |a| then j else j - 1;
      assert i != |a| && ks[i'] == js[i];
      if j != |a| { assert ks[j'] == js[j]; }
    }
    forall j ensures j in js <==> j in ks || j == f { }
  }

  /** A functor of others joins the queue. */
  lemma WorkerForeign(s: Stream, t: Stream, f: Job)
    requires WorkerOk(s) && IsOthers(f) && t == s.(loop := t.loop) && t.loop.pushed == s.loop.pushed + [f]
    ensures WorkerOk(t)
  {
    SameScript(s, t);
    ForeignEvents(s.loop.pushed, f, s.todo);
    ForeignEnd(s.loop.pushed, f, s.todo);
    hide Script, Events, EndIsLast;
  }

  lemma WorkerSamePushes(s: Stream, t: Stream)
    requires WorkerOk(s) && t.loop.pushed == s.loop.pushed && t.started == s.started && t.finished == s.finished
    requires t.closed == s.closed && t.todo == s.todo && t.texts == s.texts && t.reason == s.reason
    ensures WorkerOk(t)
  {
    SameScript(s, t);
    hide Script, Events, EndIsLast;
  }

  lemma LoopKeeps(g: Page, s: Stream, l: L.Label<Job>, w: T.WriteResult)
    requires Inv(g, s) && Enabled(g, s, LoopStep(l, w))
    ensures Inv(g, RunLoop(g, s, l, w))
  {
    if l.RunNext? {
      RunNextKeeps(g, s, w);
    } else {
      hide TextOk, WorkerOk, ConnOk, L.Inv, L.Apply, L.Enabled;
      var t := RunLoop(g, s, l, w);
      L.StepKeeps(s.loop, l);
      QueueFacts(s.loop, l);
      TextFrame(s, t);
      ConnFrame(g, s, t);
      if !Up(s) {
        DownFrame(s, t);
      } else if l.ForeignPush? || l.OwnPush? {
        WorkerForeign(s, t, l.f);
      } else {
        WorkerSamePushes(s, t);
      }
    }
  }

  /** A queued write belongs to a stream that has started and has not ended. */
  lemma WriteFacts(s: Stream)
    requires L.Inv(s.loop) && UpOk(s) && s.loop.pc.Calling? && s.loop.pc.batch != [] && s.loop.pc.batch[0].WriteJob?
    ensures s.started
  {
    var rest := BatchSplit(s);
    hide L.Inv;
    SomeEvent(s.loop.executed, s.loop.pc.batch[0], rest);
    assert !s.started ==> DeltaEvents(s.texts) == [];
  }

  lemma BatchSplit(s: Stream) returns (rest: seq<Job>)
    requires L.Inv(s.loop) && s.loop.pc.Calling? && s.loop.pc.batch != []
    ensures s.loop.pushed + s.todo == s.loop.executed + [s.loop.pc.batch[0]] + rest
  {
    var b := s.loop.pc.batch;
    rest := b[1..] + s.loop.pending + s.todo;
    assert b == [b[0]] + b[1..];
  }

  lemma SomeEvent(a: seq<Job>, job: Job, b: seq<Job>)
    requires job.WriteJob?
    ensures Events(a + [job] + b) != []
  {
    EventsAppend(a + [job], b);
    EventsOne(a, job);
  }

  /** When the end is executed on a connection that is up, the whole script has been accepted. */
  lemma EndFacts(s: Stream)
    requires L.Inv(s.loop) && UpOk(s) && s.loop.pc.Calling? && s.loop.pc.batch != [] && s.loop.pc.batch[0].EndJob?
    ensures Complete(s) && s.started
  {
    var rest := BatchSplit(s);
    var done := s.loop.executed + [EndJob];
    hide L.Inv, Script;
    assert done[|s.loop.executed|] == EndJob;
    NothingAfterEnd(done, rest);
    EndIsPart(done, rest);
    EventsOne(s.loop.executed, EndJob);
  }

  /** Executing the next functor of the batch. */
  lemma RunNextKeeps(g: Page, s: Stream, w: T.WriteResult)
    requires Inv(g, s) && Enabled(g, s, LoopStep(L.RunNext, w))
    ensures Inv(g, RunLoop(g, s, L.RunNext, w))
  {
    hide TextOk, WorkerOk, ConnOk, L.Inv, L.Apply, JobFits, DownOk, UpOk;
    var t := RunLoop(g, s, L.RunNext, w);
    L.StepKeeps(s.loop, L.RunNext);
    QueueFacts(s.loop, L.RunNext);
    RunJobTexts(g, s, s.loop.pc.batch[0], w);
    TextFrame(s, t);
    if Up(s) {
      RunUp(g, s, t, w);
    } else {
      RunJobDown(g, s, s.loop.pc.batch[0], w);
      hide RunJob;
      ConnFrame(g, s, t);
      DownFrame(s, t);
    }
  }

  /** Running a job leaves the texts alone. */
  lemma RunJobTexts(g: Page, s: Stream, job: Job, w: T.WriteResult)
    requires JobFits(g, s, job, w)
    ensures var t := RunJob(g, s, job, w);
      t.texts == s.texts && t.raw == s.raw && t.held == s.held && t.finished == s.finished && t.reason == s.reason
  {
    hide T.Send, T.Shutdown;
  }

  lemma RunJobDown(g: Page, s: Stream, job: Job, w: T.WriteResult)
    requires JobFits(g, s, job, w) && !Up(s)
    ensures RunJob(g, s, job, w) == s
  {
  }

  lemma RunUp(g: Page, s: Stream, t: Stream, w: T.WriteResult)
    requires L.Inv(s.loop) && ConnOk(g, s) && UpOk(s) && Up(s) && Enabled(g, s, LoopStep(L.RunNext, w))
    requires t == RunLoop(g, s, L.RunNext, w)
    requires t.loop.pushed == s.loop.pushed && t.loop.executed == s.loop.executed + [s.loop.pc.batch[0]]
    ensures ConnOk(g, t) && if Up(t) then UpOk(t) else DownOk(t)
  {
    hide ConnOk, L.Inv, L.Apply, Payload, UpOk, DownOk, WriteEvent, T.Send, T.Shutdown, MarkerWritten;
    match s.loop.pc.batch[0]
    case WriteJob(ev) => RunWrite(g, s, t, ev, w);
    case EndJob => RunEnd(g, s, t);
    case OtherWriteJob(data) =>
      OtherWriteKeeps(g, s, data, w);
      ConnFrame(g, WriteOther(s, data, w), t);
      RunOthers(s, t);
    case OtherEndJob =>
      ConnShut(g, s, t);
      GoDown(s, t);
    case Foreign(_) =>
      ConnFrame(g, s, t);
      RunOthers(s, t);
  }

  lemma RunWrite(g: Page, s: Stream, t: Stream, ev: Event, w: T.WriteResult)
    requires L.Inv(s.loop) && ConnOk(g, s) && UpOk(s) && Up(s) && T.Fits(w, Payload(g, s, g.render(ev)))
    requires s.loop.pc.Calling? && s.loop.pc.batch != [] && s.loop.pc.batch[0] == WriteJob(ev)
    requires t == WriteEvent(g, s, ev, w).(loop := t.loop)
    requires t.loop.pushed == s.loop.pushed && t.loop.executed == s.loop.executed + [WriteJob(ev)]
    ensures ConnOk(g, t) && Up(t) && UpOk(t)
  {
    hide ConnOk, L.Inv, Payload, WorkerOk, WriteEvent;
    EventsOne(s.loop.executed, WriteJob(ev));
    WriteFacts(s);
    EventConn(g, s, ev, w);
    ConnFrame(g, WriteEvent(g, s, ev, w), t);
    WorkerSamePushes(s, t);
  }

  lemma RunEnd(g: Page, s: Stream, t: Stream)
    requires L.Inv(s.loop) && ConnOk(g, s) && UpOk(s) && Up(s)
    requires s.loop.pc.Calling? && s.loop.pc.batch != [] && s.loop.pc.batch[0].EndJob?
    requires t == EndOwn(s).(loop := t.loop)
    ensures ConnOk(g, t) && !Up(t) && DownOk(t)
  {
    hide ConnOk, L.Inv, WorkerOk, T.Shutdown, Script;
    EndFacts(s);
    ConnShut(g, s, t);
    SameScript(s, t);
  }

  lemma RunOthers(s: Stream, t: Stream)
    requires UpOk(s) && s.loop.pc.Calling? && s.loop.pc.batch != [] && IsOthers(s.loop.pc.batch[0])
    requires t.loop.pushed == s.loop.pushed && t.loop.executed == s.loop.executed + [s.loop.pc.batch[0]]
    requires t.started == s.started && t.finished == s.finished && t.closed == s.closed && t.todo == s.todo
    requires t.texts == s.texts && t.reason == s.reason && t.wrote == s.wrote && t.headerSent == s.headerSent
    requires t.cut == s.cut
    ensures UpOk(t)
  {
    hide WorkerOk;
    EventsOne(s.loop.executed, s.loop.pc.batch[0]);
    WorkerSamePushes(s, t);
  }

  // ---------------------------------------------------------------- every step

  lemma StepKeeps(g: Page, s: Stream, l: Label)
    requires Inv(g, s) && Enabled(g, s, l)
    ensures Inv(g, Apply(g, s, l))
  {
    hide Inv;
    match l
    case StartStream(w) => StartKeeps(g, s, w);
    case EmitDelta(text) => DeltaKeeps(g, s, text);
    case EmitFinish(r) => FinishKeeps(g, s, r);
    case HandOver => HandKeeps(g, s);
    case Notice => NoticeKeeps(g, s);
    case Reject(r, w, w') => RejectKeeps(g, s, r, w, w');
    case LoopStep(m, w) => LoopKeeps(g, s, m, w);
    case Writable(w) => WritableKeeps(g, s, w);
    case OtherWrites(data, w) => OtherWritesKeeps(g, s, data, w);
    case OtherEnds => OtherEndsKeeps(g, s);
    case Disconnect(notified) => DisconnectKeeps(g, s, notified);
  }
}

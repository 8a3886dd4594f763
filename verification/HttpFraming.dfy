/**
 Cutting the byte stream of a connection into HTTP requests (sections 6.2 and
 6.3 of RFC 9112): every read is appended to the connection's cache, and at
 most one complete request is taken off its front per read.
 */
module HttpFraming {

  import opened Bytes
  import opened Numerals
  import opened HttpHeader

  datatype Request = Request(header: string, body: string)

  /** The cache of one connection; `consumed` and `dispatched` are histories. */
  datatype Cache = Cache(cache: string, consumed: string, dispatched: seq<Request>)

  function Empty(): Cache { Cache("", "", []) }

  /** How many bytes of body the header at the front announces, or all that has arrived if it announces none. */
  function BodyLength(s: string, pos: nat): nat
    requires pos + 4 <= |s|
  {
    var n := ParseLength(s[..pos]);
    if n == 0 then |s| - (pos + 4) else n
  }

  function TotalLength(s: string, pos: nat): nat
    requires pos + 4 <= |s|
  {
    (pos + 4 + BodyLength(s, pos)) % SIZE_MODULUS
  }

  predicate Ready(s: string) {
    var pos := FindFrom(s, 0);
    pos >= 0 && pos + 4 <= |s| && TotalLength(s, pos) <= |s|
  }

  function Front(s: string): Request
    requires Ready(s)
  {
    var pos := FindFrom(s, 0);
    Request(s[..pos], s[pos + 4..Least(|s|, pos + 4 + BodyLength(s, pos))])
  }

  /** NetworkHttpServer::onMessage and the framing part of handleHttpRequest. */
  function OnRead(c: Cache, data: string): Cache {
    var s := c.cache + data;
    if !Ready(s) then c.(cache := s)
    else
      var total := TotalLength(s, FindFrom(s, 0));
      Cache(s[total..], c.consumed + s[..total], c.dispatched + [Front(s)])
  }

  function OnReads(c: Cache, chunks: seq<string>): Cache {
    if chunks == [] then c else OnRead(OnReads(c, chunks[..|chunks| - 1]), chunks[|chunks| - 1])
  }

  /** A request that carries its true Content-Length of at least 1, in a header that ends where its first
      blank line is. */
  predicate WellFormed(r: Request) {
    && FindFrom(r.header + SEPARATOR, 0) == |r.header|
    && ParseLength(r.header) == |r.body| >= 1
    && |Wire(r)| < SIZE_MODULUS
  }

  function Wire(r: Request): string { r.header + SEPARATOR + r.body }

  function WireAll(rs: seq<Request>): string { if rs == [] then "" else Wire(rs[0]) + WireAll(rs[1..]) }

  // ---------------------------------------------------------------- requests as clients write them

  /** A header line: some text without line breaks. */
  predicate CleanLine(line: string) { line != "" && '\r' !in line && '\n' !in line }

  predicate CleanLines(lines: seq<string>) { forall i :: 0 <= i < |lines| ==> CleanLine(lines[i]) }

  /** Lines joined by CR LF. */
  function Joined(lines: seq<string>): string {
    if lines == [] then "" else if |lines| == 1 then lines[0] else lines[0] + "\r\n" + Joined(lines[1..])
  }

  /** Lines without breaks hold no blank line, so the separator is the one that follows them. */
  lemma {:induction false} FirstSeparator(lines: seq<string>, i: nat)
    requires lines != [] && CleanLines(lines) && i < |Joined(lines)|
    ensures !SeparatorAt(Joined(lines) + SEPARATOR, i)
    decreases |lines|
  {
    assert CleanLine(lines[0]);
    var s, line := Joined(lines) + SEPARATOR, lines[0];
    if i < |line| {
      assert s[i] == line[i];
    } else {
      var rest := lines[1..];
      var tail := Joined(rest) + SEPARATOR;
      assert CleanLine(rest[0]) && tail[0] == rest[0][0];
      assert s == line + "\r\n" + tail;
      if i < |line| + 2 {
        assert s[|line| + 2] == tail[0] && s[|line| + 1] == '\n';
      } else {
        FirstSeparator(rest, i - (|line| + 2));
        assert i + 4 <= |s| ==> s[i..i + 4] == tail[i - (|line| + 2)..i - (|line| + 2) + 4];
      }
    }
  }

  lemma HeaderIsJoined(before: seq<string>, line: string, after: seq<string>)
    ensures Joined(before + [line] + after)
         == Lines(before) + (line + if after == [] then "" else "\r\n" + Joined(after))
    decreases |before|
  {
    var lines := before + [line] + after;
    if before == [] {
      assert lines == [line] + after && lines[1..] == after;
    } else {
      HeaderIsJoined(before[1..], line, after);
      assert lines[1..] == before[1..] + [line] + after;
    }
  }

  /** The line that announces a length. */
  function LengthHeader(key: string, blanks: string, n: nat): string { key + blanks + Decimal(n) }

  /** A request whose header is any lines, one of which announces the length of its body in decimal, is well formed. */
  lemma WrittenIsWellFormed(before: seq<string>, key: string, blanks: string, after: seq<string>, body: string)
    requires CleanLines(before) && CleanLines(after) && (forall i :: 0 <= i < |before| ==> !HasKey(before[i]))
    requires |key| == |KEY| && HasKey(key) && Blanks(blanks) && |body| >= 1
    requires |Wire(Request(Joined(before + [LengthHeader(key, blanks, |body|)] + after), body))| < SIZE_MODULUS
    ensures WellFormed(Request(Joined(before + [LengthHeader(key, blanks, |body|)] + after), body))
  {
    hide FindFrom, ParseLength, Joined, HasKey, CleanLine, LengthHeader;
    HeaderReads(before, key, blanks, after, |body|);
    var r := Request(Joined(before + [LengthHeader(key, blanks, |body|)] + after), body);
    assert |Wire(r)| == |r.header| + 4 + |body|;
    assert |body| % SIZE_MODULUS == |body|;
  }

  /** What the server makes of such a header. */
  lemma HeaderReads(before: seq<string>, key: string, blanks: string, after: seq<string>, n: nat)
    requires CleanLines(before) && CleanLines(after) && (forall i :: 0 <= i < |before| ==> !HasKey(before[i]))
    requires |key| == |KEY| && HasKey(key) && Blanks(blanks)
    ensures var lines := before + [LengthHeader(key, blanks, n)] + after;
      && CleanLines(lines) && ParseLength(Joined(lines)) == n % SIZE_MODULUS
      && FindFrom(Joined(lines) + SEPARATOR, 0) == |Joined(lines)|
  {
    var line := LengthHeader(key, blanks, n);
    var lines := before + [line] + after;
    LengthLineIsClean(key, blanks, n);
    assert CleanLines(lines);
    forall i | 0 <= i < |before| ensures PlainLine(before[i]) {
      CleanIsPlain(before[i]);
    }
    HeaderIsJoined(before, line, after);
    LengthIsRead(before, key, blanks, n, after == [], Joined(after));
    SeparatorFound(lines);
  }

  lemma CleanIsPlain(line: string)
    requires CleanLine(line) && !HasKey(line)
    ensures PlainLine(line)
  {
    assert StripCr(line + "\r") == line;
  }

  lemma LengthLineIsClean(key: string, blanks: string, n: nat)
    requires |key| == |KEY| && HasKey(key) && Blanks(blanks)
    ensures CleanLine(LengthHeader(key, blanks, n))
  {
    DecimalStartsWithDigit(n);
    KeyHasNoBreak(key);
  }

  lemma SeparatorFound(lines: seq<string>)
    requires lines != [] && CleanLines(lines)
    ensures FindFrom(Joined(lines) + SEPARATOR, 0) == |Joined(lines)|
  {
    var h := Joined(lines);
    forall i | 0 <= i < |h| ensures !SeparatorAt(h + SEPARATOR, i) {
      FirstSeparator(lines, i);
    }
    assert SeparatorAt(h + SEPARATOR, |h|) by { assert (h + SEPARATOR)[|h|..|h| + 4] == SEPARATOR; }
    FindUnique(h + SEPARATOR, |h|);
  }

  // ---------------------------------------------------------------- one request

  lemma SeparatorStable(s: string, t: string, i: nat)
    requires i + 4 <= |s|
    ensures SeparatorAt(s + t, i) == SeparatorAt(s, i)
  {
    assert (s + t)[i..i + 4] == s[i..i + 4];
  }

  /** With the whole separator received, the header ends where it should. */
  lemma HeaderEnd(r: Request, t: string)
    requires WellFormed(r)
    ensures FindFrom(r.header + SEPARATOR + t, 0) == |r.header|
  {
    var h := r.header + SEPARATOR;
    FindFromIsFirst(h, 0);
    forall j | 0 <= j <= |r.header| ensures SeparatorAt(h + t, j) == SeparatorAt(h, j) {
      SeparatorStable(h, t, j);
    }
    FindUnique(h + t, |r.header|);
  }

  /** With less received, no separator is seen. */
  lemma HeaderCut(r: Request, s: string, t: string)
    requires WellFormed(r) && s + t == r.header + SEPARATOR && t != []
    ensures FindFrom(s, 0) == -1
  {
    var h := r.header + SEPARATOR;
    FindFromIsFirst(h, 0);
    FindFromIsFirst(s, 0);
    if FindFrom(s, 0) >= 0 {
      SeparatorStable(s, t, FindFrom(s, 0));
    }
  }

  /** A cache that starts with a whole request gives up exactly that request. */
  lemma WholeRequest(r: Request, t: string)
    requires WellFormed(r)
    ensures var s := Wire(r) + t; Ready(s) && Front(s) == r && TotalLength(s, FindFrom(s, 0)) == |Wire(r)|
  {
    var s := Wire(r) + t;
    var pos := |r.header|;
    assert s == r.header + SEPARATOR + (r.body + t);
    HeaderEnd(r, r.body + t);
    assert s[..pos] == r.header;
    assert BodyLength(s, pos) == |r.body|;
    assert s[pos + 4..pos + 4 + |r.body|] == r.body;
  }

  /** A cache that holds only part of a request gives up nothing. */
  lemma PartialRequest(r: Request, s: string)
    requires WellFormed(r) && s <= Wire(r) && |s| < |Wire(r)|
    ensures !Ready(s)
  {
    var h := r.header + SEPARATOR;
    if |s| < |h| {
      assert s == h[..|s|];
      HeaderCut(r, s, h[|s|..]);
    } else {
      var t := s[|h|..];
      assert s == h + t;
      HeaderEnd(r, t);
      assert s[..|r.header|] == r.header;
      assert BodyLength(s, |r.header|) == |r.body|;
    }
  }

  /** A header that names no length takes all that has arrived behind it as its body, and leaves the cache empty. */
  lemma NoLengthTakesAll(c: Cache, lines: seq<string>, rest: string)
    requires lines != [] && CleanLines(lines) && (forall i :: 0 <= i < |lines| ==> !HasKey(lines[i]))
    requires |Joined(lines)| + 4 + |rest| < SIZE_MODULUS && c.cache == ""
    ensures var s := Joined(lines) + SEPARATOR + rest;
      OnRead(c, s) == Cache("", c.consumed + s, c.dispatched + [Request(Joined(lines), rest)])
  {
    hide FindFrom, ParseLength, Joined, OnRead;
    SeparatorKept(lines, rest);
    NoLengthIsZero(lines);
    TakesAll(c, Joined(lines), rest);
  }

  lemma TakesAll(c: Cache, h: string, rest: string)
    requires FindFrom(h + SEPARATOR + rest, 0) == |h| && ParseLength(h) == 0
    requires |h| + 4 + |rest| < SIZE_MODULUS && c.cache == ""
    ensures var s := h + SEPARATOR + rest;
      OnRead(c, s) == Cache("", c.consumed + s, c.dispatched + [Request(h, rest)])
  {
    hide FindFrom, ParseLength;
    var s := h + SEPARATOR + rest;
    assert "" + s == s && s[..|h|] == h && s[|h| + 4..] == rest;
    assert BodyLength(s, |h|) == |rest| && TotalLength(s, |h|) == |s|;
    assert Ready(s) && Front(s) == Request(h, rest);
    hide Ready, Front, TotalLength;
    assert s[..|s|] == s && s[|s|..] == "";
  }

  /** A length so large that the total wraps makes the server dispatch at once, with what has arrived as the body, and
      drop fewer bytes than the header takes: part of the header stays in the cache. */
  lemma HugeLengthWraps(c: Cache, lines: seq<string>, rest: string)
    requires lines != [] && CleanLines(lines) && c.cache == "" && |Joined(lines)| + 4 + |rest| < SIZE_MODULUS
    requires ParseLength(Joined(lines)) < SIZE_MODULUS <= |Joined(lines)| + 4 + ParseLength(Joined(lines))
    ensures var h := Joined(lines);
      var s, k := h + SEPARATOR + rest, |h| + 4 + ParseLength(h) - SIZE_MODULUS;
      && k < |h| + 4
      && OnRead(c, s) == Cache(s[k..], c.consumed + s[..k], c.dispatched + [Request(h, rest)])
  {
    hide FindFrom, ParseLength, Joined, OnRead;
    SeparatorKept(lines, rest);
    TakesWrapped(c, Joined(lines), rest);
  }

  lemma TakesWrapped(c: Cache, h: string, rest: string)
    requires FindFrom(h + SEPARATOR + rest, 0) == |h| && |h| + 4 + |rest| < SIZE_MODULUS && c.cache == ""
    requires ParseLength(h) < SIZE_MODULUS <= |h| + 4 + ParseLength(h)
    ensures var s, k := h + SEPARATOR + rest, |h| + 4 + ParseLength(h) - SIZE_MODULUS;
      OnRead(c, s) == Cache(s[k..], c.consumed + s[..k], c.dispatched + [Request(h, rest)])
  {
    hide FindFrom, ParseLength;
    var s := h + SEPARATOR + rest;
    assert "" + s == s && s[..|h|] == h && s[|h| + 4..] == rest;
    assert BodyLength(s, |h|) == ParseLength(h) > |rest|;
    assert TotalLength(s, |h|) == |h| + 4 + ParseLength(h) - SIZE_MODULUS;
    assert Ready(s) && Front(s) == Request(h, rest);
    hide Ready, Front, TotalLength;
  }

  lemma SeparatorKept(lines: seq<string>, rest: string)
    requires lines != [] && CleanLines(lines)
    ensures FindFrom(Joined(lines) + SEPARATOR + rest, 0) == |Joined(lines)|
  {
    var h := Joined(lines);
    var s := h + SEPARATOR;
    forall i | 0 <= i < |h| ensures !SeparatorAt(s + rest, i) {
      FirstSeparator(lines, i);
      SeparatorStable(s, rest, i);
    }
    assert SeparatorAt(s + rest, |h|) by { assert (s + rest)[|h|..|h| + 4] == SEPARATOR; }
    FindUnique(s + rest, |h|);
  }

  lemma NoLengthIsZero(lines: seq<string>)
    requires lines != [] && CleanLines(lines) && (forall i :: 0 <= i < |lines| ==> !HasKey(lines[i]))
    ensures ParseLength(Joined(lines)) == 0
  {
    hide ParseLength, PlainLine, HasKey, CleanLine, Joined, Lines;
    var k := |lines| - 1;
    var before, last := lines[..k], lines[k];
    forall i | 0 <= i < |before| ensures PlainLine(before[i]) {
      CleanIsPlain(before[i]);
    }
    assert lines == before + [last] + [];
    HeaderIsJoined(before, last, []);
    assert last + "" == last;
    SkipLines(before, last);
    LastPlainLine(last);
  }

  lemma LastPlainLine(line: string)
    requires CleanLine(line) && !HasKey(line)
    ensures ParseLength(line) == 0
  {
    NewlineAfter(line, []);
    assert line[..|line|] == line && StripCr(line) == line;
  }

  // ---------------------------------------------------------------- any fragmentation

  /** How many of the sent requests are complete within the first `n` bytes. */
  function Complete(sent: seq<Request>, n: nat): nat {
    if sent == [] || |Wire(sent[0])| > n then 0 else 1 + Complete(sent[1..], n - |Wire(sent[0])|)
  }

  /** The connection is in step with what the peer sends. */
  ghost predicate InStep(c: Cache, sent: seq<Request>, received: string) {
    && c.dispatched <= sent
    && c.consumed == WireAll(c.dispatched)
    && c.consumed + c.cache == received
    && c.cache <= WireAll(sent[|c.dispatched|..])
  }

  lemma {:induction false} WireAllAppend(a: seq<Request>, b: seq<Request>)
    ensures WireAll(a + b) == WireAll(a) + WireAll(b)
  {
    hide Wire;
    if a == [] {
      assert a + b == b;
    } else {
      WireAllAppend(a[1..], b);
      assert (a + b)[0] == a[0] && (a + b)[1..] == a[1..] + b;
      Associative(Wire(a[0]), WireAll(a[1..]), WireAll(b));
    }
  }

  lemma OnReadKeeps(c: Cache, sent: seq<Request>, received: string, data: string)
    requires forall i :: 0 <= i < |sent| ==> WellFormed(sent[i])
    requires InStep(c, sent, received) && c.cache + data <= WireAll(sent[|c.dispatched|..])
    ensures InStep(OnRead(c, data), sent, received + data)
    ensures |OnRead(c, data).dispatched|
         == |c.dispatched| + Least(1, Complete(sent[|c.dispatched|..], |c.cache + data|))
  {
    var s := c.cache + data;
    var d := |c.dispatched|;
    var rest := sent[d..];
    if rest == [] {
      assert s == [] && !Ready(s);
    } else {
      var r := rest[0];
      assert WellFormed(sent[d]);
      assert WireAll(rest) == Wire(r) + WireAll(rest[1..]);
      if |s| < |Wire(r)| {
        assert s <= Wire(r);
        PartialRequest(r, s);
        hide Ready, Front, TotalLength, WellFormed, Wire, WireAll;
      } else {
        CompleteRead(c, sent, received, data, r);
      }
    }
  }

  lemma CompleteRead(c: Cache, sent: seq<Request>, received: string, data: string, r: Request)
    requires InStep(c, sent, received) && |c.dispatched| < |sent| && r == sent[|c.dispatched|] && WellFormed(r)
    requires c.cache + data <= WireAll(sent[|c.dispatched|..]) && |c.cache + data| >= |Wire(r)|
    ensures InStep(OnRead(c, data), sent, received + data)
    ensures |OnRead(c, data).dispatched| == |c.dispatched| + 1
  {
    hide Ready, Front, TotalLength, WellFormed, Wire, OnRead, InStep;
    var s, rest := c.cache + data, sent[|c.dispatched|..];
    assert WireAll(rest) == Wire(r) + WireAll(rest[1..]);
    var t := s[|Wire(r)|..];
    assert s == Wire(r) + t;
    hide WireAll;
    WholeRequest(r, t);
    Dispatched(c, sent, received, data, r, t);
  }

  lemma Dispatched(c: Cache, sent: seq<Request>, received: string, data: string, r: Request, t: string)
    requires InStep(c, sent, received) && |c.dispatched| < |sent| && r == sent[|c.dispatched|]
    requires c.cache + data == Wire(r) + t && c.cache + data <= WireAll(sent[|c.dispatched|..])
    requires Ready(c.cache + data) && Front(c.cache + data) == r
    requires TotalLength(c.cache + data, FindFrom(c.cache + data, 0)) == |Wire(r)|
    ensures InStep(OnRead(c, data), sent, received + data)
    ensures |OnRead(c, data).dispatched| == |c.dispatched| + 1
  {
    hide Ready, Front, TotalLength, Wire;
    var d := |c.dispatched|;
    var n := OnRead(c, data);
    assert n.cache == t && n.dispatched == c.dispatched + [r] && n.consumed == c.consumed + Wire(r);
    hide OnRead;
    WireAllAppend(c.dispatched, [r]);
    assert WireAll([r]) == Wire(r) + "";
    NextOnWire(sent, d, r, t);
  }

  lemma NextOnWire(sent: seq<Request>, d: nat, r: Request, t: string)
    requires d < |sent| && r == sent[d] && Wire(r) + t <= WireAll(sent[d..])
    ensures t <= WireAll(sent[d + 1..])
  {
    hide Wire;
    assert sent[d..][1..] == sent[d + 1..];
    var w := WireAll(sent[d + 1..]);
    assert WireAll(sent[d..]) == Wire(r) + w;
    assert (Wire(r) + w)[|Wire(r)|..] == w;
  }

  lemma {:induction false} CompleteSkips(sent: seq<Request>, d: nat, n: nat)
    requires d <= |sent| && |WireAll(sent[..d])| <= n
    ensures Complete(sent, n) == d + Complete(sent[d..], n - |WireAll(sent[..d])|)
    decreases d
  {
    hide Wire;
    if d == 0 {
      assert sent[d..] == sent && sent[..d] == [];
    } else {
      var w := |Wire(sent[0])|;
      assert sent[..d][0] == sent[0] && sent[..d][1..] == sent[1..][..d - 1];
      assert |WireAll(sent[..d])| == w + |WireAll(sent[1..][..d - 1])|;
      CompleteSkips(sent[1..], d - 1, n - w);
      assert sent[1..][d - 1..] == sent[d..];
    }
  }

  /** What has been received so far after each read. */
  function Received(chunks: seq<string>): string { Concat(chunks) }

  /** Fragmentation invariance: for any requests carrying their true length and any cut of the stream into
      reads, what has been dispatched is a prefix of what was sent, consumed and cached bytes together are
      the bytes received, and each read dispatches one more request exactly when one more is complete. */
  lemma {:induction false} AnyFragmentation(sent: seq<Request>, chunks: seq<string>)
    requires forall i :: 0 <= i < |sent| ==> WellFormed(sent[i])
    requires Received(chunks) <= WireAll(sent)
    ensures InStep(OnReads(Empty(), chunks), sent, Received(chunks))
    ensures chunks != [] ==>
      |OnReads(Empty(), chunks).dispatched|
      == Least(Complete(sent, |Received(chunks)|), |OnReads(Empty(), chunks[..|chunks| - 1]).dispatched| + 1)
    decreases |chunks|
  {
    if chunks == [] {
      assert sent[0..] == sent;
    } else {
      var k := |chunks| - 1;
      var c := OnReads(Empty(), chunks[..k]);
      var data := chunks[k];
      ConcatOne(chunks[..k], data);
      assert chunks == chunks[..k] + [data];
      AnyFragmentation(sent, chunks[..k]);
      hide OnRead, WellFormed, OnReads;
      NextRead(c, sent, Received(chunks[..k]), data);
      assert OnReads(Empty(), chunks) == OnRead(c, data) by { OnReadsStep(chunks); }
    }
  }

  lemma OnReadsStep(chunks: seq<string>)
    requires chunks != []
    ensures OnReads(Empty(), chunks) == OnRead(OnReads(Empty(), chunks[..|chunks| - 1]), chunks[|chunks| - 1])
  {
  }

  lemma NextRead(c: Cache, sent: seq<Request>, received: string, data: string)
    requires forall i :: 0 <= i < |sent| ==> WellFormed(sent[i])
    requires InStep(c, sent, received) && received + data <= WireAll(sent)
    ensures InStep(OnRead(c, data), sent, received + data)
    ensures |OnRead(c, data).dispatched| == Least(Complete(sent, |received + data|), |c.dispatched| + 1)
  {
    hide OnRead, WellFormed, Wire, Complete;
    var d := |c.dispatched|;
    StillAhead(c, sent, received, data);
    OnReadKeeps(c, sent, received, data);
    CompleteSkips(sent, d, |received + data|);
  }

  lemma PrefixCancel<T>(a: seq<T>, x: seq<T>, b: seq<T>)
    requires a + x <= a + b
    ensures x <= b
  {
    assert x == (a + x)[|a|..] && b == (a + b)[|a|..];
  }

  lemma StillAhead(c: Cache, sent: seq<Request>, received: string, data: string)
    requires InStep(c, sent, received) && received + data <= WireAll(sent)
    ensures c.cache + data <= WireAll(sent[|c.dispatched|..])
    ensures sent[..|c.dispatched|] == c.dispatched && |received + data| - |WireAll(c.dispatched)| == |c.cache + data|
  {
    hide Wire, WireAll;
    var d := |c.dispatched|;
    assert sent[..d] == c.dispatched && sent == sent[..d] + sent[d..];
    WireAllAppend(sent[..d], sent[d..]);
    assert received + data == c.consumed + (c.cache + data);
    assert c.consumed + (c.cache + data) <= c.consumed + WireAll(sent[d..]);
    PrefixCancel(c.consumed, c.cache + data, WireAll(sent[d..]));
  }

  // ---------------------------------------------------------------- pipelined requests

  function CompleteAfter(sent: seq<Request>, chunks: seq<string>, k: nat): nat
    requires k <= |chunks|
  {
    Complete(sent, |Received(chunks[..k])|)
  }

  function DispatchedAfter(chunks: seq<string>, k: nat): nat
    requires k <= |chunks|
  {
    |OnReads(Empty(), chunks[..k]).dispatched|
  }

  /** The number of complete requests before the first read and after each. */
  function CompleteCounts(sent: seq<Request>, chunks: seq<string>): seq<nat> {
    seq(|chunks| + 1, k requires 0 <= k <= |chunks| => CompleteAfter(sent, chunks, k))
  }

  /** The number of dispatched requests before the first read and after each. */
  function DispatchCounts(chunks: seq<string>): seq<nat> {
    seq(|chunks| + 1, k requires 0 <= k <= |chunks| => DispatchedAfter(chunks, k))
  }

  /** No step jumps by more than one. */
  predicate Gradual(counts: seq<nat>) {
    forall k :: 0 <= k < |counts| - 1 ==> counts[k + 1] <= counts[k] + 1
  }

  /** After every read every complete request has been dispatched, if and only if no read completes two
      requests at once. */
  lemma KeepsUpIffGradual(sent: seq<Request>, chunks: seq<string>)
    requires forall i :: 0 <= i < |sent| ==> WellFormed(sent[i])
    requires Received(chunks) <= WireAll(sent)
    ensures DispatchCounts(chunks) == CompleteCounts(sent, chunks) <==> Gradual(CompleteCounts(sent, chunks))
  {
    hide DispatchCounts, CompleteCounts, WellFormed, WireAll, Concat, Gradual, Received;
    CountsLaw(sent, chunks);
    OneStepLaw(DispatchCounts(chunks), CompleteCounts(sent, chunks));
  }

  lemma CountsLaw(sent: seq<Request>, chunks: seq<string>)
    requires forall i :: 0 <= i < |sent| ==> WellFormed(sent[i])
    requires Received(chunks) <= WireAll(sent)
    ensures var disp, comp := DispatchCounts(chunks), CompleteCounts(sent, chunks);
      && |disp| == |comp| == |chunks| + 1 && disp[0] == comp[0]
      && forall k :: 0 <= k < |disp| - 1 ==> disp[k + 1] == Least(comp[k + 1], disp[k] + 1)
  {
    NothingAtFirst(sent, chunks);
    hide DispatchedAfter, CompleteAfter, WellFormed, WireAll, Concat;
    var disp, comp := DispatchCounts(chunks), CompleteCounts(sent, chunks);
    forall k | 0 <= k < |disp| - 1 ensures disp[k + 1] == Least(comp[k + 1], disp[k] + 1) {
      DispatchLaw(sent, chunks, k);
    }
  }

  /** Two requests that arrive in one read: the second stays in the cache until another read. */
  lemma SecondOfTwoWaits(a: Request, b: Request)
    requires WellFormed(a) && WellFormed(b)
    ensures OnRead(Empty(), Wire(a) + Wire(b)) == Cache(Wire(b), Wire(a), [a])
  {
    WholeRequest(a, Wire(b));
    hide Wire;
    assert "" + (Wire(a) + Wire(b)) == Wire(a) + Wire(b);
  }

  lemma NothingAtFirst(sent: seq<Request>, chunks: seq<string>)
    requires forall i :: 0 <= i < |sent| ==> WellFormed(sent[i])
    ensures DispatchedAfter(chunks, 0) == 0 && CompleteAfter(sent, chunks, 0) == 0
  {
    assert sent != [] ==> WellFormed(sent[0]);
  }

  /** A counter that follows another by at most one per step is equal to it throughout
      exactly when the other never jumps. */
  lemma OneStepLaw(disp: seq<nat>, comp: seq<nat>)
    requires |disp| == |comp| > 0 && disp[0] == comp[0]
    requires forall k :: 0 <= k < |disp| - 1 ==> disp[k + 1] == Least(comp[k + 1], disp[k] + 1)
    ensures disp == comp <==> Gradual(comp)
  {
    if Gradual(comp) {
      forall k | 0 <= k < |disp| ensures disp[k] == comp[k] {
        Follows(disp, comp, k);
      }
    } else {
      var k :| 0 <= k < |disp| - 1 && comp[k + 1] > comp[k] + 1;
      assert disp[k + 1] == Least(comp[k + 1], disp[k] + 1);
    }
  }

  lemma {:induction false} Follows(disp: seq<nat>, comp: seq<nat>, k: nat)
    requires k < |disp| == |comp| && disp[0] == comp[0]
    requires forall j :: 0 <= j < |disp| - 1 ==>
      disp[j + 1] == Least(comp[j + 1], disp[j] + 1) && comp[j + 1] <= comp[j] + 1
    ensures disp[k] == comp[k]
    decreases k
  {
    if k > 0 {
      Follows(disp, comp, k - 1);
      assert disp[(k - 1) + 1] == Least(comp[(k - 1) + 1], disp[k - 1] + 1);
    }
  }

  lemma DispatchLaw(sent: seq<Request>, chunks: seq<string>, k: nat)
    requires forall i :: 0 <= i < |sent| ==> WellFormed(sent[i])
    requires Received(chunks) <= WireAll(sent) && k < |chunks|
    ensures DispatchedAfter(chunks, k + 1) == Least(CompleteAfter(sent, chunks, k + 1), DispatchedAfter(chunks, k) + 1)
  {
    hide WellFormed, OnReads, Wire, WireAll, Complete, Concat, InStep;
    var head := chunks[..k + 1];
    assert Received(head) <= WireAll(sent) by {
      assert chunks == head + chunks[k + 1..];
      ConcatAppend(head, chunks[k + 1..]);
    }
    AnyFragmentation(sent, head);
    assert head[..k] == chunks[..k];
  }

  // ---------------------------------------------------------------- the server's object

  /** The entry of the server's buffer table for one connection. */
  class ConnectionCache {
    var cache: string
    ghost var consumed: string
    ghost var dispatched: seq<Request>

    ghost function Value(): Cache
      reads this
    {
      Cache(cache, consumed, dispatched)
    }

    constructor ()
      ensures Value() == Empty()
    {
      cache, consumed, dispatched := "", "", [];
    }

    method OnMessage(data: string) returns (got: bool, header: string, body: string)
      modifies this
      ensures Value() == OnRead(old(Value()), data)
      ensures got ==> dispatched == old(dispatched) + [Request(header, body)]
      ensures !got ==> dispatched == old(dispatched)
    {
      hide Ready, Front, TotalLength;
      cache := cache + data;
      var total;
      got, header, body, total := TakeFront(cache);
      if got {
        consumed := consumed + cache[..total];
        dispatched := dispatched + [Request(header, body)];
        cache := cache[total..];
      }
    }
  }

  /** handleHttpRequest up to the point where the request leaves the buffer. */
  method TakeFront(buffer: string) returns (got: bool, header: string, body: string, total: nat)
    ensures got == Ready(buffer)
    ensures got ==>
      Request(header, body) == Front(buffer) && total == TotalLength(buffer, FindFrom(buffer, 0)) <= |buffer|
  {
    hide ParseLength, FindFrom;
    got, header, body, total := false, "", "", 0;
    var pos := FindSeparator(buffer);
    if pos < 0 {
      return;
    }
    header := buffer[..pos];
    var contentLength := ParseContentLength(header);
    if contentLength == 0 && |buffer| >= pos + 4 {
      contentLength := |buffer| - (pos + 4);
    }
    total := (pos + 4 + contentLength) % SIZE_MODULUS;
    if |buffer| < total {
      return;
    }
    got := true;
    body := buffer[pos + 4..Least(|buffer|, pos + 4 + contentLength)];
  }

  method FindSeparator(s: string) returns (pos: int)
    ensures pos == FindFrom(s, 0)
    ensures pos >= 0 ==> pos + 4 <= |s|
  {
    var i := 0;
    while i + 4 <= |s|
      invariant FindFrom(s, 0) == FindFrom(s, i)
      decreases |s| - i
    {
      if s[i..i + 4] == SEPARATOR {
        return i;
      }
      i := i + 1;
    }
    return -1;
  }
}

/** Reassembling a streamed message whose chunks carry their own index, as decode_stream and its caller do. */
module StreamReassembly {

  import opened Bytes

  /** The fields of a chunk; the index is absent when its text is not a number. */
  datatype Chunk = Chunk(index: Index, finish: string, delta: string)

  datatype Index = At(n: int) | Unreadable

  datatype Outcome = Waiting | Complete(text: string) | IndexError

  /** The text of `finish` is not parsed: any text without an f ends the message. */
  predicate Ends(c: Chunk) { 'f' !in c.finish }

  /** The two texts a sender writes, and none at all. */
  lemma TrueEnds(index: Index, delta: string)
    ensures Ends(Chunk(index, "true", delta)) && !Ends(Chunk(index, "false", delta)) && Ends(Chunk(index, "", delta))
  {
    assert "false"[0] == 'f';
  }

  predicate Gapless(buff: map<int, string>) { forall i :: 0 <= i < |buff| ==> i in buff }

  /** The first n deltas in index order. */
  function Joined(buff: map<int, string>, n: nat): string
    requires forall i :: 0 <= i < n ==> i in buff
  {
    if n == 0 then "" else Joined(buff, n - 1) + buff[n - 1]
  }

  /** One chunk: what the caller gets, and the buffer it is left with. */
  function Step(buff: map<int, string>, c: Chunk): (Outcome, map<int, string>) {
    if c.index.Unreadable? then (IndexError, map[])
    else
      var more := buff[c.index.n := c.delta];
      if !Ends(c) then (Waiting, more)
      else if Gapless(more) then (Complete(Joined(more, |more|)), map[])
      else (IndexError, map[])
  }

  /** A chunk whose index cannot be read, like one that ends a message with a gap, drops what was buffered. */
  lemma FailureDrops(buff: map<int, string>, c: Chunk)
    requires c.index.Unreadable? || (Ends(c) && !Gapless(buff[c.index.n := c.delta]))
    ensures Step(buff, c) == (IndexError, map[])
  {
  }

  class Reassembler {
    var buff: map<int, string>

    constructor ()
      ensures buff == map[]
    {
      buff := map[];
    }

    /** decode_stream; `thrown` stands for the exceptions it lets escape. */
    method DecodeStream(c: Chunk, start: string) returns (waiting: bool, out: string, thrown: bool)
      modifies this
      ensures thrown <==> Step(old(buff), c).0 == IndexError
      ensures !thrown ==> (waiting <==> Step(old(buff), c).0 == Waiting) && buff == Step(old(buff), c).1
      ensures !thrown && waiting ==> out == start
      ensures !thrown && !waiting ==> Step(old(buff), c).0.Complete? && out == start + Step(old(buff), c).0.text
    {
      out := start;
      if c.index.Unreadable? {
        return false, out, true;
      }
      buff := buff[c.index.n := c.delta];
      if Ends(c) {
        var i := 0;
        while i < |buff|
          invariant 0 <= i <= |buff| && forall j :: 0 <= j < i ==> j in buff
          invariant out == start + Joined(buff, i)
        {
          if i !in buff {
            return false, out, true;
          }
          out := out + buff[i];
          i := i + 1;
        }
        buff := map[];
        return false, out, false;
      }
      return true, out, false;
    }

    /** The caller, which drops what was buffered when decoding fails. */
    method Receive(c: Chunk) returns (r: Outcome)
      modifies this
      ensures (r, buff) == Step(old(buff), c)
    {
      var waiting, out, thrown := DecodeStream(c, "");
      if thrown {
        buff := map[];
        return IndexError;
      }
      if waiting {
        return Waiting;
      }
      assert "" + Step(old(buff), c).0.text == Step(old(buff), c).0.text;
      return Complete(out);
    }
  }

  // ---------------------------------------------------------------- pigeonhole

  function Range(n: nat): (r: set<int>)
    ensures forall i :: i in r <==> 0 <= i < n
  {
    if n == 0 then {} else Range(n - 1) + {n - 1}
  }

  lemma {:induction false} RangeSize(n: nat)
    ensures |Range(n)| == n
  {
    if n > 0 {
      RangeSize(n - 1);
    }
  }

  /** As many keys as places: finding every place occupied leaves no key for anywhere else. */
  lemma GaplessIff(buff: map<int, string>)
    ensures Gapless(buff) <==> buff.Keys == Range(|buff|)
  {
    RangeSize(|buff|);
    if Gapless(buff) {
      assert Range(|buff|) <= buff.Keys;
      SubsetOfSameSize(Range(|buff|), buff.Keys);
    }
  }

  lemma SubsetOfSameSize(a: set<int>, b: set<int>)
    requires a <= b && |a| == |b|
    ensures a == b
  {
    assert b == a + (b - a);
    assert |b| == |a| + |b - a|;
  }

  // ---------------------------------------------------------------- a whole message

  function Feed(buff: map<int, string>, cs: seq<Chunk>): (r: (seq<Outcome>, map<int, string>))
    ensures |r.0| == |cs|
  {
    if cs == [] then ([], buff)
    else
      var r := Feed(buff, cs[..|cs| - 1]);
      var one := Step(r.1, cs[|cs| - 1]);
      (r.0 + [one.0], one.1)
  }

  /** Chunks of one message: readable, and only the last one ends it. */
  predicate OneMessage(cs: seq<Chunk>) {
    && cs != []
    && (forall i :: 0 <= i < |cs| ==> cs[i].index.At?)
    && (forall i :: 0 <= i < |cs| ==> (Ends(cs[i]) <==> i == |cs| - 1))
  }

  function Indices(cs: seq<Chunk>): set<int> { set i | 0 <= i < |cs| && cs[i].index.At? :: cs[i].index.n }

  /** The delta that arrived last for an index. */
  function Latest(cs: seq<Chunk>, n: int): string {
    if cs == [] then ""
    else if cs[|cs| - 1].index == At(n) then cs[|cs| - 1].delta
    else Latest(cs[..|cs| - 1], n)
  }

  lemma {:induction false} Buffered(cs: seq<Chunk>)
    requires forall i :: 0 <= i < |cs| ==> cs[i].index.At? && !Ends(cs[i])
    ensures Feed(map[], cs).1.Keys == Indices(cs)
    ensures forall n :: n in Indices(cs) ==> Feed(map[], cs).1[n] == Latest(cs, n)
    ensures forall i :: 0 <= i < |cs| ==> Feed(map[], cs).0[i] == Waiting
    decreases |cs|
  {
    if cs != [] {
      var k := |cs| - 1;
      Buffered(cs[..k]);
      IndicesOfLast(cs);
    }
  }

  /** The text of a message: the latest delta of each index, in index order. */
  function Message(cs: seq<Chunk>, n: nat): string {
    if n == 0 then "" else Message(cs, n - 1) + Latest(cs, n - 1)
  }

  lemma {:induction false} JoinedIsMessage(buff: map<int, string>, cs: seq<Chunk>, n: nat)
    requires forall i :: 0 <= i < n ==> i in buff && buff[i] == Latest(cs, i)
    ensures Joined(buff, n) == Message(cs, n)
  {
    if n > 0 {
      JoinedIsMessage(buff, cs, n - 1);
    }
  }

  /** Decoding succeeds exactly when the indices received are 0, 1, ... without a gap; the text is then the deltas
      in index order; and the buffer is empty afterwards either way. */
  lemma MessageDecodes(cs: seq<Chunk>)
    requires OneMessage(cs)
    ensures Feed(map[], cs).1 == map[]
    ensures forall i :: 0 <= i < |cs| - 1 ==> Feed(map[], cs).0[i] == Waiting
    ensures Feed(map[], cs).0[|cs| - 1] == Decoded(cs)
  {
    var k := |cs| - 1;
    Buffered(cs[..k]);
    LastChunk(Feed(map[], cs[..k]).1, cs);
  }

  function Decoded(cs: seq<Chunk>): Outcome {
    if Indices(cs) == Range(|Indices(cs)|) then Complete(Message(cs, |Indices(cs)|)) else IndexError
  }

  lemma LastChunk(before: map<int, string>, cs: seq<Chunk>)
    requires OneMessage(cs) && before.Keys == Indices(cs[..|cs| - 1])
    requires forall n :: n in before ==> before[n] == Latest(cs[..|cs| - 1], n)
    ensures Step(before, cs[|cs| - 1]) == (Decoded(cs), map[])
  {
    var k := |cs| - 1;
    var more := before[cs[k].index.n := cs[k].delta];
    IndicesOfLast(cs);
    assert more.Keys == Indices(cs);
    assert |more| == |more.Keys|;
    assert forall n :: n in more ==> more[n] == Latest(cs, n);
    hide Indices, Latest;
    GaplessIff(more);
    if Gapless(more) {
      JoinedIsMessage(more, cs, |more|);
    }
  }

  lemma IndicesOfLast(cs: seq<Chunk>)
    requires cs != [] && cs[|cs| - 1].index.At?
    ensures Indices(cs) == Indices(cs[..|cs| - 1]) + {cs[|cs| - 1].index.n}
  {
  }

  // ---------------------------------------------------------------- order of arrival

  predicate DistinctIndices(cs: seq<Chunk>) {
    forall i, j :: 0 <= i < j < |cs| ==> cs[i].index != cs[j].index
  }

  /** Every piece of `cs` is also a piece of `ds`. */
  ghost predicate PiecesAmong(cs: seq<Chunk>, ds: seq<Chunk>) {
    forall i :: 0 <= i < |cs| ==> HasPiece(ds, cs[i].index, cs[i].delta)
  }

  ghost predicate HasPiece(ds: seq<Chunk>, index: Index, delta: string) {
    exists j :: 0 <= j < |ds| && ds[j].index == index && ds[j].delta == delta
  }

  lemma {:induction false} LatestOfDistinct(cs: seq<Chunk>, i: nat)
    requires DistinctIndices(cs) && i < |cs| && cs[i].index.At?
    ensures Latest(cs, cs[i].index.n) == cs[i].delta
    decreases |cs|
  {
    if i < |cs| - 1 {
      LatestOfDistinct(cs[..|cs| - 1], i);
    }
  }

  lemma SameLatest(cs: seq<Chunk>, ds: seq<Chunk>, n: int)
    requires DistinctIndices(cs) && DistinctIndices(ds) && PiecesAmong(cs, ds) && n in Indices(cs)
    ensures n in Indices(ds) && Latest(cs, n) == Latest(ds, n)
  {
    var i :| 0 <= i < |cs| && cs[i].index == At(n);
    assert HasPiece(ds, cs[i].index, cs[i].delta);
    var j :| 0 <= j < |ds| && ds[j].index == At(n) && ds[j].delta == cs[i].delta;
    LatestOfDistinct(cs, i);
    LatestOfDistinct(ds, j);
  }

  lemma {:induction false} SameMessage(cs: seq<Chunk>, ds: seq<Chunk>, n: nat)
    requires forall i :: 0 <= i < n ==> Latest(cs, i) == Latest(ds, i)
    ensures Message(cs, n) == Message(ds, n)
  {
    if n > 0 {
      SameMessage(cs, ds, n - 1);
    }
  }

  /** The same pieces with distinct indices decode alike, whatever the order in which they arrive. */
  lemma ArrivalOrderIrrelevant(cs: seq<Chunk>, ds: seq<Chunk>)
    requires OneMessage(cs) && OneMessage(ds) && DistinctIndices(cs) && DistinctIndices(ds)
    requires PiecesAmong(cs, ds) && PiecesAmong(ds, cs)
    ensures Feed(map[], cs).0[|cs| - 1] == Feed(map[], ds).0[|ds| - 1]
  {
    MessageDecodes(cs);
    MessageDecodes(ds);
    forall n | n in Indices(cs) ensures n in Indices(ds) && Latest(cs, n) == Latest(ds, n) { SameLatest(cs, ds, n); }
    forall n | n in Indices(ds) ensures n in Indices(cs) { SameLatest(ds, cs, n); }
    assert Indices(cs) == Indices(ds);
    if Indices(cs) == Range(|Indices(cs)|) {
      SameMessage(cs, ds, |Indices(cs)|);
    }
  }

  /** Deltas sent in index order. */
  function InOrder(deltas: seq<string>): seq<Chunk> {
    seq(|deltas|, i requires 0 <= i < |deltas| =>
      Chunk(At(i), if i == |deltas| - 1 then "true" else "false", deltas[i]))
  }

  lemma {:induction false} IndicesInOrder(cs: seq<Chunk>)
    requires forall i :: 0 <= i < |cs| ==> cs[i].index == At(i)
    ensures Indices(cs) == Range(|cs|)
    decreases |cs|
  {
    if cs != [] {
      IndicesInOrder(cs[..|cs| - 1]);
      IndicesOfLast(cs);
    }
  }

  lemma {:induction false} MessageInOrder(cs: seq<Chunk>, deltas: seq<string>, n: nat)
    requires |cs| == |deltas| && n <= |cs| && DistinctIndices(cs)
    requires forall i :: 0 <= i < |cs| ==> cs[i].index == At(i) && cs[i].delta == deltas[i]
    ensures Message(cs, n) == Concat(deltas[..n])
  {
    if n > 0 {
      MessageInOrder(cs, deltas, n - 1);
      LatestOfDistinct(cs, n - 1);
      assert deltas[..n] == deltas[..n - 1] + [deltas[n - 1]];
      ConcatOne(deltas[..n - 1], deltas[n - 1]);
    }
  }

  /** Deltas sent in order, the last one marked true and the others false, come out as their concatenation; by
      ArrivalOrderIrrelevant so do they in any other order that keeps the last one last. */
  lemma OrderedMessage(deltas: seq<string>)
    requires deltas != []
    ensures Feed(map[], InOrder(deltas)).0[|deltas| - 1] == Complete(Concat(deltas))
  {
    var cs := InOrder(deltas);
    InOrderIsMessage(deltas);
    hide Feed, Indices, Range, OneMessage, InOrder, Message;
    MessageDecodes(cs);
    IndicesInOrder(cs);
    RangeSize(|cs|);
    MessageInOrder(cs, deltas, |deltas|);
    assert deltas[..|deltas|] == deltas;
  }

  lemma InOrderIsMessage(deltas: seq<string>)
    requires deltas != []
    ensures var cs := InOrder(deltas);
      && OneMessage(cs) && DistinctIndices(cs) && |cs| == |deltas|
      && forall i :: 0 <= i < |cs| ==> cs[i].index == At(i) && cs[i].delta == deltas[i]
  {
    var cs := InOrder(deltas);
    forall i | 0 <= i < |cs| ensures Ends(cs[i]) <==> i == |cs| - 1 {
      TrueEnds(At(i), deltas[i]);
    }
  }

  // ---------------------------------------------------------------- messages in succession

  lemma {:induction false} FeedAppend(buff: map<int, string>, xs: seq<Chunk>, ys: seq<Chunk>)
    ensures var first := Feed(buff, xs);
      var second := Feed(first.1, ys);
      Feed(buff, xs + ys) == (first.0 + second.0, second.1)
    decreases |ys|
  {
    if ys == [] {
      assert xs + ys == xs && Feed(buff, xs).0 + [] == Feed(buff, xs).0;
    } else {
      var k := |ys| - 1;
      FeedAppend(buff, xs, ys[..k]);
      assert (xs + ys)[..|xs| + k] == xs + ys[..k];
      var first, second := Feed(buff, xs), Feed(Feed(buff, xs).1, ys[..k]);
      var one := Step(second.1, ys[k]);
      assert first.0 + second.0 + [one.0] == first.0 + (second.0 + [one.0]);
    }
  }

  function Stream(ms: seq<seq<Chunk>>): seq<Chunk> { if ms == [] then [] else Stream(ms[..|ms| - 1]) + ms[|ms| - 1] }

  /** What the caller should see of a message. */
  function Seen(cs: seq<Chunk>): seq<Outcome> { if cs == [] then [] else seq(|cs| - 1, _ => Waiting) + [Decoded(cs)] }

  function SeenAll(ms: seq<seq<Chunk>>): seq<Outcome> {
    if ms == [] then [] else SeenAll(ms[..|ms| - 1]) + Seen(ms[|ms| - 1])
  }

  /** A message that fails spoils none of those after it. */
  lemma {:induction false} MessagesAreIndependent(ms: seq<seq<Chunk>>)
    requires forall i :: 0 <= i < |ms| ==> OneMessage(ms[i])
    ensures Feed(map[], Stream(ms)) == (SeenAll(ms), map[])
    decreases |ms|
  {
    if ms != [] {
      var k := |ms| - 1;
      MessagesAreIndependent(ms[..k]);
      FeedAppend(map[], Stream(ms[..k]), ms[k]);
      MessageSeen(ms[k]);
      hide Feed, Seen, OneMessage;
    }
  }

  lemma MessageSeen(cs: seq<Chunk>)
    requires OneMessage(cs)
    ensures Feed(map[], cs) == (Seen(cs), map[])
  {
    MessageDecodes(cs);
    hide Decoded, OneMessage;
    assert Feed(map[], cs).0 == Seen(cs);
  }
}

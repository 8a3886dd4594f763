/**
 The incremental UTF-8 filter of the stream writer.  Model output arrives in
 arbitrary byte chunks; the filter releases complete characters, replaces bytes
 that cannot start or continue one, and holds back an incomplete tail.
 */
module Utf8Stream {

  import opened Bytes

  /** U+FFFD in UTF-8. */
  const REPLACEMENT: seq<byte> := [0xEF, 0xBF, 0xBD]

  /** How many bytes a character with this lead byte takes; 0 for a byte that starts none. */
  function Need(c: byte): nat {
    if c < 0x80 then 1
    else if 0xC2 <= c <= 0xDF then 2
    else if 0xE0 <= c <= 0xEF then 3
    else if 0xF0 <= c <= 0xF4 then 4
    else 0
  }

  predicate IsContinuation(c: byte) { 0x80 <= c <= 0xBF }

  /** Positions 1 to n-1 hold continuation bytes. */
  predicate Continues(s: seq<byte>, n: nat)
    requires n <= |s|
  {
    forall k :: 1 <= k < n ==> IsContinuation(s[k])
  }

  /** A complete unit stands at the front of `s`. */
  predicate UnitAtFront(s: seq<byte>) {
    s != [] && Need(s[0]) > 0 && Need(s[0]) <= |s| && Continues(s, Need(s[0]))
  }

  /** The front of `s` may still become a unit when more bytes arrive. */
  predicate Incomplete(s: seq<byte>) { s != [] && Need(s[0]) > |s| }

  datatype Parts = Parts(out: seq<byte>, rest: seq<byte>)

  /** The filter as a function of the whole input. */
  function Split(s: seq<byte>, flush: bool): Parts {
    if s == [] then Parts([], [])
    else if Incomplete(s) then (if flush then Parts(REPLACEMENT, []) else Parts([], s))
    else if UnitAtFront(s) then
      var p := Split(s[Need(s[0])..], flush);
      Parts(s[..Need(s[0])] + p.out, p.rest)
    else
      var p := Split(s[1..], flush);
      Parts(REPLACEMENT + p.out, p.rest)
  }

  /** The loop of the program. */
  method SplitPrefix(input: seq<byte>, flush: bool) returns (out: seq<byte>, pending: seq<byte>)
    ensures Parts(out, pending) == Split(input, flush)
  {
    hide Split, Continues;
    out := [];
    var i := 0;
    assert input[0..] == input;
    while i < |input|
      invariant 0 <= i <= |input|
      invariant Split(input, flush) == Onto(out, Split(input[i..], flush))
    {
      var c := input[i];
      ghost var s := input[i..];
      assert s[0] == c;
      var need := Need(c);
      if need > 0 && i + need > |input| {
        SplitIncomplete(s, flush);
        if flush {
          return out + REPLACEMENT, [];
        }
        return out, input[i..];
      }
      var valid := false;
      if need > 0 {
        valid := AllContinuations(input, i, need);
      }
      SplitStep(s, flush);
      ghost var before := out;
      if valid {
        assert UnitAtFront(s) && s[..need] == input[i..i + need] && s[need..] == input[i + need..];
        out := out + input[i..i + need];
        i := i + need;
      } else {
        assert !UnitAtFront(s) && s[1..] == input[i + 1..];
        out := out + REPLACEMENT;
        i := i + 1;
      }
      OntoOnto(before, Released(s), Split(input[i..], flush));
    }
    assert input[i..] == [];
    SplitNothing(flush);
    return out, [];
  }

  /** Released text put in front of a result. */
  function Onto(out: seq<byte>, p: Parts): Parts { Parts(out + p.out, p.rest) }

  lemma OntoOnto(a: seq<byte>, b: seq<byte>, p: Parts)
    ensures Onto(a, Onto(b, p)) == Onto(a + b, p)
  {
  }

  lemma SplitNothing(flush: bool)
    ensures Split([], flush) == Parts([], [])
  {
  }

  lemma SplitIncomplete(s: seq<byte>, flush: bool)
    requires Incomplete(s)
    ensures Split(s, flush) == if flush then Parts(REPLACEMENT, []) else Parts([], s)
  {
  }

  /** A byte that starts no character comes out as U+FFFD, and the filter goes on behind it. */
  lemma StrayByte(b: byte, s: seq<byte>, flush: bool)
    requires 0x80 <= b <= 0xC1 || 0xF5 <= b <= 0xFF
    ensures Split([b] + s, flush) == Parts([0xEF, 0xBF, 0xBD] + Split(s, flush).out, Split(s, flush).rest)
  {
    assert ([b] + s)[1..] == s;
  }

  /** So does a lead byte that is not followed by the continuation bytes it needs. */
  lemma BrokenCharacter(b: byte, s: seq<byte>, k: nat, flush: bool)
    requires
      || (0xC2 <= b <= 0xDF && k < 1 <= |s|)
      || (0xE0 <= b <= 0xEF && k < 2 <= |s|)
      || (0xF0 <= b <= 0xF4 && k < 3 <= |s|)
    requires !(0x80 <= s[k] <= 0xBF)
    ensures Split([b] + s, flush) == Parts([0xEF, 0xBF, 0xBD] + Split(s, flush).out, Split(s, flush).rest)
  {
    assert ([b] + s)[1..] == s && ([b] + s)[k + 1] == s[k];
  }

  /** A character cut off at the end is held back, or flushed as U+FFFD. */
  lemma CutOffCharacter(b: byte, s: seq<byte>, flush: bool)
    requires (0xC2 <= b <= 0xDF && |s| < 1) || (0xE0 <= b <= 0xEF && |s| < 2) || (0xF0 <= b <= 0xF4 && |s| < 3)
    ensures Split([b] + s, flush) == if flush then Parts([0xEF, 0xBF, 0xBD], []) else Parts([], [b] + s)
  {
  }

  /** The inner loop: every byte after the lead is a continuation byte. */
  method AllContinuations(input: seq<byte>, i: nat, need: nat) returns (valid: bool)
    requires i + need <= |input|
    ensures valid == Continues(input[i..], need)
  {
    ghost var s := input[i..];
    var k := 1;
    while k < need
      invariant 1 <= k && forall j :: 1 <= j < k && j < need ==> IsContinuation(s[j])
    {
      assert s[k] == input[i + k];
      if !IsContinuation(input[i + k]) {
        return false;
      }
      k := k + 1;
    }
    return true;
  }

  // ---------------------------------------------------------------- chunking

  /** Splitting a prefix, then its leftover together with the rest, splits the whole. */
  lemma {:induction false} SplitExtends(a: seq<byte>, b: seq<byte>)
    ensures var p := Split(a, false); Split(a + b, false) == Onto(p.out, Split(p.rest + b, false))
    decreases |a|
  {
    hide Split, UnitAtFront, Need, Continues;
    if a == [] {
      SplitNothing(false);
      assert a + b == b;
    } else if Incomplete(a) {
      SplitIncomplete(a, false);
    } else {
      hide Incomplete;
      FrontIsStable(a, b);
      var n := Advance(a);
      SplitStep(a, false);
      SplitStep(a + b, false);
      SplitExtends(a[n..], b);
      var p := Split(a[n..], false);
      OntoOnto(Released(a), p.out, Split(p.rest + b, false));
    }
  }

  /** How far one decision moves, and what it releases. */
  function Advance(s: seq<byte>): nat
    requires s != [] && !Incomplete(s)
  {
    if UnitAtFront(s) then Need(s[0]) else 1
  }

  function Released(s: seq<byte>): seq<byte>
    requires s != [] && !Incomplete(s)
  {
    if UnitAtFront(s) then s[..Need(s[0])] else REPLACEMENT
  }

  lemma SplitStep(s: seq<byte>, flush: bool)
    requires s != [] && !Incomplete(s)
    ensures 0 < Advance(s) <= |s|
    ensures Split(s, flush) == Onto(Released(s), Split(s[Advance(s)..], flush))
  {
  }

  /** Bytes that come later do not change a decision already taken at the front. */
  lemma FrontIsStable(a: seq<byte>, b: seq<byte>)
    requires a != [] && !Incomplete(a)
    ensures !Incomplete(a + b) && UnitAtFront(a + b) == UnitAtFront(a)
    ensures Advance(a + b) == Advance(a) <= |a| && Released(a + b) == Released(a)
    ensures (a + b)[Advance(a)..] == a[Advance(a)..] + b
  {
    assert forall k :: 0 <= k < Need(a[0]) ==> (a + b)[k] == a[k];
    assert Continues(a, Need(a[0])) == Continues(a + b, Need(a[0]));
  }

  /** What is held back is an incomplete unit, so never more than three bytes. */
  lemma {:induction false} PendingIsShort(s: seq<byte>, flush: bool)
    ensures var r := Split(s, flush).rest; (r == [] || Incomplete(r)) && |r| <= 3
    ensures flush ==> Split(s, flush).rest == []
    decreases |s|
  {
    if s == [] || Incomplete(s) {
    } else if UnitAtFront(s) {
      PendingIsShort(s[Need(s[0])..], flush);
    } else {
      PendingIsShort(s[1..], flush);
    }
  }

  /** Feeding chunks one after the other, each together with what the one before left over. */
  function Feed(pending: seq<byte>, chunks: seq<seq<byte>>): (seq<seq<byte>>, seq<byte>)
    decreases |chunks|
  {
    if chunks == [] then ([], pending)
    else
      var p := Split(pending + chunks[0], false);
      var (outs, rest) := Feed(p.rest, chunks[1..]);
      ([p.out] + outs, rest)
  }

  /** However the bytes are cut into chunks, the released text and the leftover are those of one split of all bytes. */
  lemma {:induction false} ChunkingInvariance(pending: seq<byte>, chunks: seq<seq<byte>>)
    requires Split(pending, false) == Parts([], pending)
    ensures var (outs, rest) := Feed(pending, chunks);
      Parts(Concat(outs), rest) == Split(pending + Concat(chunks), false) && |rest| <= 3
    decreases |chunks|
  {
    PendingIsShort(pending, false);
    if chunks == [] {
      assert pending + Concat(chunks) == pending;
    } else {
      var p := Split(pending + chunks[0], false);
      RestIsStable(pending + chunks[0]);
      ChunkingInvariance(p.rest, chunks[1..]);
      SplitExtends(pending + chunks[0], Concat(chunks[1..]));
      assert pending + Concat(chunks) == (pending + chunks[0]) + Concat(chunks[1..]);
      var (outs, rest) := Feed(p.rest, chunks[1..]);
      assert Concat([p.out] + outs) == p.out + Concat(outs);
    }
  }

  lemma RestIsStable(s: seq<byte>)
    ensures var r := Split(s, false).rest; Split(r, false) == Parts([], r)
  {
    PendingIsShort(s, false);
  }

  // ---------------------------------------------------------------- what the output looks like

  /** A concatenation of complete units. */
  predicate Units(s: seq<byte>) {
    s == [] || (UnitAtFront(s) && Units(s[Need(s[0])..]))
  }

  lemma {:induction false} UnitsConcat(a: seq<byte>, b: seq<byte>)
    requires Units(a) && Units(b)
    ensures Units(a + b)
    decreases |a|
  {
    if a == [] {
      assert a + b == b;
    } else {
      hide Continues;
      UnitsConcat(a[Need(a[0])..], b);
      FrontIsStable(a, b);
    }
  }

  lemma UnitIsUnits(s: seq<byte>)
    requires UnitAtFront(s)
    ensures Units(s[..Need(s[0])])
  {
    var u := s[..Need(s[0])];
    assert u[Need(u[0])..] == [];
  }

  /** Whatever comes in, only complete units go out. */
  lemma {:induction false} OutputIsUnits(s: seq<byte>, flush: bool)
    ensures Units(Split(s, flush).out)
    decreases |s|
  {
    assert Units(REPLACEMENT) by { UnitIsUnits(REPLACEMENT); assert REPLACEMENT[..3] == REPLACEMENT; }
    if s == [] || Incomplete(s) {
    } else if UnitAtFront(s) {
      var n := Need(s[0]);
      OutputIsUnits(s[n..], flush);
      UnitIsUnits(s);
      UnitsConcat(s[..n], Split(s[n..], flush).out);
    } else {
      OutputIsUnits(s[1..], flush);
      UnitsConcat(REPLACEMENT, Split(s[1..], flush).out);
    }
  }

  /** The filter passes a string unchanged, with nothing held back, exactly when it is a concatenation of units. */
  lemma {:induction false} UnchangedIffUnits(s: seq<byte>, flush: bool)
    ensures Split(s, flush) == Parts(s, []) <==> Units(s)
    decreases |s|
  {
    if s == [] {
    } else if Incomplete(s) {
    } else if UnitAtFront(s) {
      var n := Need(s[0]);
      UnchangedIffUnits(s[n..], flush);
      assert s == s[..n] + s[n..];
      var p := Split(s[n..], flush);
      if s[..n] + p.out == s {
        assert p.out == (s[..n] + p.out)[n..];
      }
    } else {
      var p := Split(s[1..], flush);
      if Split(s, flush).out == s {
        assert s[0] == REPLACEMENT[0] && s[1] == (REPLACEMENT + p.out)[1] && s[2] == (REPLACEMENT + p.out)[2];
        assert UnitAtFront(s);
      }
    }
  }

  /** Filtering twice is filtering once. */
  lemma OutputIsFixedPoint(s: seq<byte>, flush: bool, again: bool)
    ensures Split(Split(s, flush).out, again) == Parts(Split(s, flush).out, [])
  {
    OutputIsUnits(s, flush);
    UnchangedIffUnits(Split(s, flush).out, again);
  }
}

/** The filter against section 4 of RFC 3629, and against the code point encoder of the node side. */
module Utf8Validity {

  import opened Bytes
  import opened Utf8Stream

  // ---------------------------------------------------------------- section 4 of RFC 3629

  predicate Tail(c: byte) { 0x80 <= c <= 0xBF }

  predicate Utf8One(s: seq<byte>) { |s| >= 1 && s[0] <= 0x7F }

  predicate Utf8Two(s: seq<byte>) { |s| >= 2 && 0xC2 <= s[0] <= 0xDF && Tail(s[1]) }

  predicate Utf8Three(s: seq<byte>) {
    |s| >= 3 && Tail(s[2]) &&
    (|| (s[0] == 0xE0 && 0xA0 <= s[1] <= 0xBF)
     || (0xE1 <= s[0] <= 0xEC && Tail(s[1]))
     || (s[0] == 0xED && 0x80 <= s[1] <= 0x9F)
     || (0xEE <= s[0] <= 0xEF && Tail(s[1])))
  }

  predicate Utf8Four(s: seq<byte>) {
    |s| >= 4 && Tail(s[2]) && Tail(s[3]) &&
    (|| (s[0] == 0xF0 && 0x90 <= s[1] <= 0xBF)
     || (0xF1 <= s[0] <= 0xF3 && Tail(s[1]))
     || (s[0] == 0xF4 && 0x80 <= s[1] <= 0x8F))
  }

  /** The length of the valid character at the front, or 0. */
  function CharLength(s: seq<byte>): (n: nat)
    ensures n <= |s|
  {
    if Utf8One(s) then 1 else if Utf8Two(s) then 2 else if Utf8Three(s) then 3 else if Utf8Four(s) then 4 else 0
  }

  predicate ValidUtf8(s: seq<byte>) {
    s == [] || (CharLength(s) > 0 && ValidUtf8(s[CharLength(s)..]))
  }

  /** The check on the second byte that the filter leaves out: overlong forms, surrogates, values above U+10FFFF. */
  predicate SecondByteOk(s: seq<byte>)
    requires UnitAtFront(s)
  {
    && (s[0] == 0xE0 ==> s[1] >= 0xA0)
    && (s[0] == 0xED ==> s[1] <= 0x9F)
    && (s[0] == 0xF0 ==> s[1] >= 0x90)
    && (s[0] == 0xF4 ==> s[1] <= 0x8F)
  }

  lemma CharIsStrictUnit(s: seq<byte>)
    ensures CharLength(s) > 0 <==> UnitAtFront(s) && SecondByteOk(s)
    ensures CharLength(s) > 0 ==> CharLength(s) == Need(s[0])
  {
    if s != [] && UnitAtFront(s) {
      assert Continues(s, Need(s[0]));
      if Need(s[0]) >= 2 { assert IsContinuation(s[1]); }
      if Need(s[0]) >= 3 { assert IsContinuation(s[2]); }
      if Need(s[0]) == 4 { assert IsContinuation(s[3]); }
    }
  }

  /** Valid UTF-8 passes the filter unchanged, with nothing held back. */
  lemma {:induction false} ValidPassesUnchanged(s: seq<byte>, flush: bool)
    requires ValidUtf8(s)
    ensures Split(s, flush) == Parts(s, [])
  {
    ValidIsUnits(s);
    UnchangedIffUnits(s, flush);
  }

  lemma {:induction false} ValidIsUnits(s: seq<byte>)
    requires ValidUtf8(s)
    ensures Units(s)
    decreases |s|
  {
    if s != [] {
      CharIsStrictUnit(s);
      ValidIsUnits(s[Need(s[0])..]);
    }
  }

  /** No unit that the filter will pass on is one that RFC 3629 forbids. */
  predicate NoForbiddenUnit(s: seq<byte>) {
    if s == [] || Incomplete(s) then true
    else (UnitAtFront(s) ==> SecondByteOk(s)) && NoForbiddenUnit(s[if UnitAtFront(s) then Need(s[0]) else 1..])
  }

  lemma ValidFront(u: seq<byte>, t: seq<byte>)
    requires UnitAtFront(u) && Need(u[0]) == |u|
    ensures ValidUtf8(u + t) <==> SecondByteOk(u) && ValidUtf8(t)
  {
    var s := u + t;
    assert s[..|u|] == u && s[|u|..] == t;
    assert UnitAtFront(s) && (SecondByteOk(s) <==> SecondByteOk(u)) by {
      assert forall k :: 0 <= k < |u| ==> s[k] == u[k];
    }
    CharIsStrictUnit(s);
  }

  /** The output is valid UTF-8 exactly when the input holds no forbidden unit where the filter looks. */
  lemma {:induction false} OutputValidIff(s: seq<byte>, flush: bool)
    ensures ValidUtf8(Split(s, flush).out) <==> NoForbiddenUnit(s)
    decreases |s|
  {
    ReplacementFront([]);
    if s == [] {
    } else if Incomplete(s) {
      assert REPLACEMENT + [] == REPLACEMENT;
    } else {
      SplitStep(s, flush);
      hide Split;
      OutputValidIff(s[Advance(s)..], flush);
      var t := Split(s[Advance(s)..], flush).out;
      if UnitAtFront(s) {
        var u := s[..Need(s[0])];
        assert Continues(u, |u|) by { assert forall k :: 0 <= k < |u| ==> u[k] == s[k]; }
        ValidFront(u, t);
      } else {
        ReplacementFront(t);
      }
    }
  }

  lemma ReplacementFront(t: seq<byte>)
    ensures ValidUtf8(REPLACEMENT + t) <==> ValidUtf8(t)
    ensures ValidUtf8([])
  {
    ValidFront(REPLACEMENT, t);
  }

  /** A surrogate half passes the filter although RFC 3629 forbids it. */
  lemma SurrogatePasses()
    ensures Split([0xED, 0xA0, 0x80], false) == Parts([0xED, 0xA0, 0x80], []) && !ValidUtf8([0xED, 0xA0, 0x80])
  {
    var s: seq<byte> := [0xED, 0xA0, 0x80];
    assert UnitAtFront(s) && s[3..] == [];
    UnchangedIffUnits(s, false);
  }

  // ---------------------------------------------------------------- the code point encoder

  /** The bytes of a code point; none above U+10FFFF. */
  function Encode(cp: nat): seq<byte> {
    if cp <= 0x7F then [cp]
    else if cp <= 0x7FF then [0xC0 + cp / 64, 0x80 + cp % 64]
    else if cp <= 0xFFFF then [0xE0 + cp / 4096, 0x80 + cp / 64 % 64, 0x80 + cp % 64]
    else if cp <= 0x10FFFF then [0xF0 + cp / 262144, 0x80 + cp / 4096 % 64, 0x80 + cp / 64 % 64, 0x80 + cp % 64]
    else []
  }

  /** The encoder fills a caller's buffer and reports how many bytes it wrote. */
  method UnicodeToUtf8(cp: nat, output: array<byte>) returns (length: nat)
    requires output.Length >= 4
    modifies output
    ensures length == |Encode(cp)| && output[..length] == Encode(cp)
    ensures output[length..] == old(output[length..])
  {
    if cp <= 0x7F {
      output[0] := cp;
      length := 1;
    } else if cp <= 0x7FF {
      output[0] := 0xC0 + cp / 64;
      output[1] := 0x80 + cp % 64;
      length := 2;
    } else if cp <= 0xFFFF {
      output[0] := 0xE0 + cp / 4096;
      output[1] := 0x80 + cp / 64 % 64;
      output[2] := 0x80 + cp % 64;
      length := 3;
    } else if cp <= 0x10FFFF {
      output[0] := 0xF0 + cp / 262144;
      output[1] := 0x80 + cp / 4096 % 64;
      output[2] := 0x80 + cp / 64 % 64;
      output[3] := 0x80 + cp % 64;
      length := 4;
    } else {
      length := 0;
    }
  }

  /** The code point that a unit stands for. */
  function Decode(u: seq<byte>): int {
    var v := seq(|u|, i requires 0 <= i < |u| => u[i] as int);
    if |v| == 1 then v[0]
    else if |v| == 2 then (v[0] - 0xC0) * 64 + (v[1] - 0x80)
    else if |v| == 3 then (v[0] - 0xE0) * 4096 + (v[1] - 0x80) * 64 + (v[2] - 0x80)
    else if |v| == 4 then (v[0] - 0xF0) * 262144 + (v[1] - 0x80) * 4096 + (v[2] - 0x80) * 64 + (v[3] - 0x80)
    else -1
  }

  /** A code point from its base-64 digits. */
  lemma Digits(cp: nat)
    ensures cp == cp / 64 * 64 + cp % 64
    ensures cp / 64 == cp / 4096 * 64 + cp / 64 % 64
    ensures cp / 4096 == cp / 262144 * 64 + cp / 4096 % 64
  {
  }

  lemma EncodeIsUnit(cp: nat)
    requires cp <= 0x10FFFF
    ensures var u := Encode(cp); UnitAtFront(u) && Need(u[0]) == |u|
  {
    var u := Encode(cp);
    assert forall k :: 1 <= k < |u| ==> IsContinuation(u[k]);
  }

  lemma DecodeEncode(cp: nat)
    requires cp <= 0x10FFFF
    ensures Decode(Encode(cp)) == cp
  {
    Digits(cp);
    if cp <= 0x7F {
    } else if cp <= 0x7FF {
    } else if cp <= 0xFFFF {
      assert cp / 4096 * 4096 + (cp / 64 % 64) * 64 + cp % 64 == cp;
    } else {
      assert cp / 262144 * 262144 + (cp / 4096 % 64) * 4096 + (cp / 64 % 64) * 64 + cp % 64 == cp;
    }
  }

  /** The encoding of a code point is valid under section 4 of RFC 3629 exactly when it is no surrogate. */
  lemma EncodeValidIff(cp: nat)
    requires cp <= 0x10FFFF
    ensures ValidUtf8(Encode(cp)) <==> !(0xD800 <= cp <= 0xDFFF)
  {
    var u := Encode(cp);
    EncodeIsUnit(cp);
    CharIsStrictUnit(u);
    assert CharLength(u) > 0 ==> u[CharLength(u)..] == [];
    SecondByteIff(cp);
  }

  lemma SecondByteIff(cp: nat)
    requires cp <= 0x10FFFF
    ensures UnitAtFront(Encode(cp)) && (SecondByteOk(Encode(cp)) <==> !(0xD800 <= cp <= 0xDFFF))
  {
    EncodeIsUnit(cp);
    if 0x7FF < cp <= 0xFFFF {
      assert 0xED == 0xE0 + cp / 4096 <==> 0xD000 <= cp <= 0xDFFF;
    }
  }

  function EncodeAll(cps: seq<nat>): seq<byte> {
    if cps == [] then [] else Encode(cps[0]) + EncodeAll(cps[1..])
  }

  function DecodeAll(s: seq<byte>): seq<int>
    requires Units(s)
  {
    if s == [] then [] else [Decode(s[..Need(s[0])])] + DecodeAll(s[Need(s[0])..])
  }

  /** Every text the encoder builds passes the filter unchanged and decodes to its code points. */
  lemma {:induction false} EncodedTextPasses(cps: seq<nat>, flush: bool)
    requires forall i :: 0 <= i < |cps| ==> cps[i] <= 0x10FFFF
    ensures Units(EncodeAll(cps)) && Split(EncodeAll(cps), flush) == Parts(EncodeAll(cps), [])
    ensures DecodeAll(EncodeAll(cps)) == cps
    decreases |cps|
  {
    EncodedIsUnits(cps);
    UnchangedIffUnits(EncodeAll(cps), flush);
  }

  lemma {:induction false} EncodedIsUnits(cps: seq<nat>)
    requires forall i :: 0 <= i < |cps| ==> cps[i] <= 0x10FFFF
    ensures Units(EncodeAll(cps)) && DecodeAll(EncodeAll(cps)) == cps
    decreases |cps|
  {
    if cps != [] {
      EncodeIsUnit(cps[0]);
      DecodeEncode(cps[0]);
      EncodedIsUnits(cps[1..]);
      var u, t := Encode(cps[0]), EncodeAll(cps[1..]);
      hide Encode, EncodeAll, Decode;
      var s := u + t;
      assert EncodeAll(cps) == s by { EncodeAllStep(cps); }
      assert s[..|u|] == u && s[|u|..] == t;
      assert UnitAtFront(s) by { assert forall k :: 0 <= k < |u| ==> s[k] == u[k]; }
    }
  }

  lemma EncodeAllStep(cps: seq<nat>)
    requires cps != []
    ensures EncodeAll(cps) == Encode(cps[0]) + EncodeAll(cps[1..])
  {
  }
}

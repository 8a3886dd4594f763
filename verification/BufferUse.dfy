/** The buffer over every sequence of operations, and the integers stored in it in network byte order. */
module BufferUse {

  import opened Bytes
  import opened ByteBuffer

  // ---------------------------------------------------------------- every sequence of operations

  datatype Op =
    | OpAppend(data: seq<byte>)
    | OpRetrieve(len: nat)
    | OpRetrieveAll
    | OpPrepend(data: seq<byte>)
    | OpUnwrite(len: nat)
    | OpRead(data: seq<byte>)

  /** The plain byte sequence that the buffer stands for. */
  function ApplyOp(s: seq<byte>, op: Op): seq<byte> {
    match op
    case OpAppend(data) => s + data
    case OpRetrieve(len) => if len <= |s| then s[len..] else s
    case OpRetrieveAll => []
    case OpPrepend(data) => data + s
    case OpUnwrite(len) => if len <= |s| then s[..|s| - len] else s
    case OpRead(data) => s + data
  }

  function ApplyOps(s: seq<byte>, ops: seq<Op>): seq<byte> {
    if ops == [] then s else ApplyOp(ApplyOps(s, ops[..|ops| - 1]), ops[|ops| - 1])
  }

  /** The caller's part of the contract of each operation. */
  predicate Allowed(b: Buffer, op: Op)
    reads b
    requires b.Valid()
  {
    match op
    case OpAppend(_) => true
    case OpRetrieve(len) => len <= b.writer - b.reader
    case OpRetrieveAll => true
    case OpPrepend(data) => |data| <= b.reader
    case OpUnwrite(len) => len <= b.writer - b.reader
    case OpRead(data) => |data| <= b.WritableBytes() + if b.WritableBytes() < EXTRA then EXTRA else 0
  }

  method Perform(b: Buffer, op: Op)
    requires b.Valid() && Allowed(b, op)
    modifies b, b.buf
    ensures b.Valid() && (b.buf == old(b.buf) || fresh(b.buf))
    ensures b.Contents() == ApplyOp(old(b.Contents()), op)
  {
    match op
    case OpAppend(data) => b.Append(data);
    case OpRetrieve(len) => b.Retrieve(len);
    case OpRetrieveAll => b.RetrieveAll();
    case OpPrepend(data) => b.Prepend(data);
    case OpUnwrite(len) => b.Unwrite(len);
    case OpRead(data) => var _ := b.ReadFd(false, data);
  }

  /** Whatever operations are performed, in whatever order, the buffer holds what the plain sequence would;
      the replay stops early only where an operation's own precondition fails. */
  method Replay(initialSize: nat, ops: seq<Op>) returns (b: Buffer, done: nat)
    ensures fresh(b) && fresh(b.buf) && b.Valid() && done <= |ops|
    ensures b.Contents() == ApplyOps([], ops[..done])
    ensures done < |ops| ==> !Allowed(b, ops[done])
  {
    b := new Buffer(initialSize);
    done := 0;
    while done < |ops| && Allowed(b, ops[done])
      invariant fresh(b) && fresh(b.buf) && b.Valid() && done <= |ops|
      invariant b.Contents() == ApplyOps([], ops[..done])
      decreases |ops| - done
    {
      Perform(b, ops[done]);
      assert ops[..done + 1][..done] == ops[..done];
      done := done + 1;
    }
  }

  // ---------------------------------------------------------------- integers

  function Pow256(w: nat): (p: nat)
    ensures p >= 1
  {
    if w == 0 then 1 else 256 * Pow256(w - 1)
  }

  /** `w` bytes, most significant first. */
  function Encode(w: nat, u: nat): (s: seq<byte>)
    ensures |s| == w
  {
    if w == 0 then [] else Encode(w - 1, u / 256) + [u % 256]
  }

  function Decode(s: seq<byte>): nat {
    if s == [] then 0 else Decode(s[..|s| - 1]) * 256 + s[|s| - 1]
  }

  lemma {:induction false} DecodeEncode(w: nat, u: nat)
    requires u < Pow256(w)
    ensures Decode(Encode(w, u)) == u
    decreases w
  {
    if w > 0 {
      DecodeEncode(w - 1, u / 256);
      assert Encode(w, u)[..w - 1] == Encode(w - 1, u / 256);
      assert u / 256 * 256 + u % 256 == u;
    }
  }

  /** Most significant first: byte i is the number divided by the i-th highest power of 256, modulo 256. */
  lemma {:induction false} EncodeByte(w: nat, u: nat, i: nat)
    requires i < w
    ensures Encode(w, u)[i] as int == u / Pow256(w - 1 - i) % 256
    decreases w
  {
    if i < w - 1 {
      EncodeByte(w - 1, u / 256, i);
      DivideTwice(u, Pow256(w - 2 - i));
      assert Pow256(w - 1 - i) == 256 * Pow256(w - 2 - i);
    } else {
      assert Pow256(w - 1 - i) == 1;
    }
  }

  lemma DivideTwice(u: nat, p: nat)
    requires p >= 1
    ensures u / 256 / p == u / (256 * p)
  {
    var q, r := u / 256 / p, u / 256 % p;
    assert u / 256 == q * p + r;
    assert u == (256 * p) * q + (256 * r + u % 256);
    QuotientIs(u, 256 * p, q, 256 * r + u % 256);
  }

  lemma QuotientIs(u: int, d: int, q: int, r: int)
    requires u == d * q + r && 0 <= r < d
    ensures u / d == q
  {
    var p, k := u / d, q - u / d;
    assert u == d * p + u % d;
    assert d * k == d * q - d * p;
    NoMultipleBetween(d, k);
  }

  lemma NoMultipleBetween(d: int, k: int)
    requires d > 0 && -d < d * k < d
    ensures k == 0
  {
  }

  /** Two's complement on `w` bytes. */
  predicate Fits(w: nat, v: int) { 2 * v < Pow256(w) && -2 * v <= Pow256(w) }

  function ToUnsigned(w: nat, v: int): nat
    requires Fits(w, v)
  {
    if v < 0 then v + Pow256(w) else v
  }

  function ToSigned(w: nat, u: nat): int { if 2 * u < Pow256(w) then u else u - Pow256(w) }

  /** An integer of one of the buffer's widths. */
  datatype Field = Field(width: nat, value: int)

  predicate Storable(f: Field) { f.width in {1, 2, 4, 8} && Fits(f.width, f.value) }

  function EncodeField(f: Field): (s: seq<byte>)
    requires Storable(f)
    ensures |s| == f.width
  {
    Encode(f.width, ToUnsigned(f.width, f.value))
  }

  lemma {:induction false} PowSplit(a: nat, b: nat)
    ensures Pow256(a + b) == Pow256(a) * Pow256(b)
    decreases a
  {
    if a > 0 {
      PowSplit(a - 1, b);
      assert 256 * (Pow256(a - 1) * Pow256(b)) == (256 * Pow256(a - 1)) * Pow256(b);
    }
  }

  lemma AddMultiple(v: int, p: int, m: int)
    requires p >= 1
    ensures (v + p * m) / p == v / p + m
  {
    assert v == p * (v / p) + v % p;
    assert v + p * m == p * (v / p + m) + v % p;
    QuotientIs(v + p * m, p, v / p + m, v % p);
  }

  /** Network byte order, two's complement: byte i holds the value, shifted right by the bytes behind it, modulo 256. */
  lemma FieldByte(f: Field, i: nat)
    requires Storable(f) && i < f.width
    ensures EncodeField(f)[i] as int == f.value / Pow256(f.width - 1 - i) % 256
  {
    hide Encode;
    EncodeByte(f.width, ToUnsigned(f.width, f.value), i);
    if f.value < 0 {
      WrappedByte(f.width, f.value, i);
    }
  }

  lemma WrappedByte(w: nat, v: int, i: nat)
    requires i < w
    ensures (v + Pow256(w)) / Pow256(w - 1 - i) % 256 == v / Pow256(w - 1 - i) % 256
  {
    var p, q := Pow256(w - 1 - i), Pow256(i + 1);
    PowSplit(w - 1 - i, i + 1);
    assert Pow256(w) == p * q && q == 256 * Pow256(i);
    hide Pow256;
    AddMultiple(v, p, q);
    AddRounds(v / p, Pow256(i));
  }

  lemma AddRounds(a: int, m: int)
    ensures (a + 256 * m) % 256 == a % 256
  {
  }

  function DecodeField(s: seq<byte>): int { ToSigned(|s|, Decode(s)) }

  lemma FieldRoundTrip(f: Field)
    requires Storable(f)
    ensures DecodeField(EncodeField(f)) == f.value
  {
    DecodeEncode(f.width, ToUnsigned(f.width, f.value));
  }

  ghost predicate AllStorable(fs: seq<Field>) { forall i :: 0 <= i < |fs| ==> Storable(fs[i]) }

  /** appendInt8, appendInt16, appendInt32 and appendInt64. */
  method AppendInt(b: Buffer, f: Field)
    requires b.Valid() && Storable(f)
    modifies b, b.buf
    ensures b.Valid() && (b.buf == old(b.buf) || fresh(b.buf))
    ensures b.Contents() == old(b.Contents()) + EncodeField(f)
  {
    b.Append(EncodeField(f));
  }

  /** readInt8, readInt16, readInt32 and readInt64. */
  method ReadInt(b: Buffer, width: nat) returns (value: int)
    requires b.Valid() && width in {1, 2, 4, 8} && width <= |b.Contents()|
    modifies b`reader, b`writer
    ensures b.Valid() && b.Contents() == old(b.Contents())[width..]
    ensures value == DecodeField(old(b.Contents())[..width])
  {
    var bytes := b.RetrieveAsString(width);
    value := DecodeField(bytes);
  }

  ghost function EncodeAll(fs: seq<Field>): seq<byte>
    requires AllStorable(fs)
  {
    if fs == [] then [] else EncodeField(fs[0]) + EncodeAll(fs[1..])
  }

  lemma {:induction false} EncodeAllAppend(fs: seq<Field>, f: Field)
    requires AllStorable(fs) && Storable(f)
    ensures AllStorable(fs + [f]) && EncodeAll(fs + [f]) == EncodeAll(fs) + EncodeField(f)
  {
    if fs == [] {
      assert EncodeAll([f]) == EncodeField(f) + [];
    } else {
      EncodeAllAppend(fs[1..], f);
      assert (fs + [f])[1..] == fs[1..] + [f];
    }
  }

  method StoreAll(b: Buffer, fs: seq<Field>)
    requires b.Valid() && AllStorable(fs) && b.Contents() == []
    modifies b, b.buf
    ensures b.Valid() && (b.buf == old(b.buf) || fresh(b.buf)) && b.Contents() == EncodeAll(fs)
  {
    for i := 0 to |fs|
      invariant b.Valid() && (b.buf == old(b.buf) || fresh(b.buf))
      invariant AllStorable(fs[..i]) && b.Contents() == EncodeAll(fs[..i])
    {
      EncodeAllAppend(fs[..i], fs[i]);
      assert fs[..i + 1] == fs[..i] + [fs[i]];
      AppendInt(b, fs[i]);
    }
    assert fs[..|fs|] == fs;
  }

  /** Integers of any widths, appended to an empty buffer, read back unchanged. */
  method StoreAndLoad(fs: seq<Field>) returns (values: seq<int>)
    requires AllStorable(fs)
    ensures |values| == |fs| && forall i :: 0 <= i < |fs| ==> values[i] == fs[i].value
  {
    hide EncodeField, DecodeField;
    var b := new Buffer(4096);
    StoreAll(b, fs);
    assert fs[0..] == fs;
    values := [];
    for i := 0 to |fs|
      invariant fresh(b) && fresh(b.buf) && b.Valid()
      invariant AllStorable(fs[i..]) && b.Contents() == EncodeAll(fs[i..])
      invariant |values| == i && forall j :: 0 <= j < i ==> values[j] == fs[j].value
    {
      assert fs[i..][0] == fs[i] && fs[i..][1..] == fs[i + 1..];
      assert b.Contents() == EncodeField(fs[i]) + EncodeAll(fs[i + 1..]);
      FieldRoundTrip(fs[i]);
      var v := ReadInt(b, fs[i].width);
      values := values + [v];
    }
  }
}

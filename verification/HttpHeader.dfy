/** Finding the end of an HTTP header and reading its Content-Length. */
module HttpHeader {

  import opened Numerals

  const SEPARATOR := "\r\n\r\n"
  const KEY := "content-length:"

  /** Values of size_t wrap at this modulus. */
  const SIZE_MODULUS := 0x1_0000_0000_0000_0000

  // ---------------------------------------------------------------- the header separator

  predicate SeparatorAt(s: string, i: nat) { i + 4 <= |s| && s[i..i + 4] == SEPARATOR }

  /** The first separator at or after `i`, or -1. */
  function FindFrom(s: string, i: nat): int
    decreases |s| - i
  {
    if i + 4 > |s| then -1 else if SeparatorAt(s, i) then i else FindFrom(s, i + 1)
  }

  lemma {:induction false} FindFromIsFirst(s: string, i: nat)
    ensures var r := FindFrom(s, i);
      if r < 0 then r == -1 && forall j :: i <= j ==> !SeparatorAt(s, j)
      else i <= r && SeparatorAt(s, r) && forall j :: i <= j < r ==> !SeparatorAt(s, j)
    decreases |s| - i
  {
    if i + 4 <= |s| && !SeparatorAt(s, i) {
      FindFromIsFirst(s, i + 1);
    }
  }

  /** The position of the first separator is unique. */
  lemma FindUnique(s: string, p: nat)
    requires SeparatorAt(s, p) && forall j :: 0 <= j < p ==> !SeparatorAt(s, j)
    ensures FindFrom(s, 0) == p
  {
    FindFromIsFirst(s, 0);
  }

  // ---------------------------------------------------------------- Content-Length

  function NewlineAt(s: string): (n: nat)
    ensures n <= |s|
  {
    if s == [] || s[0] == '\n' then 0 else 1 + NewlineAt(s[1..])
  }

  function StripCr(line: string): string {
    if line != [] && line[|line| - 1] == '\r' then line[..|line| - 1] else line
  }

  function Lower(c: char): char { if 'A' <= c <= 'Z' then c + 32 as char else c }

  predicate HasKey(line: string) {
    |line| >= |KEY| && forall i :: 0 <= i < |KEY| ==> Lower(line[i]) == KEY[i]
  }

  predicate IsBlank(c: char) { c == ' ' || c == '\t' }

  predicate IsDigit(c: char) { '0' <= c <= '9' }

  function SkipBlanks(s: string): string {
    if s != [] && IsBlank(s[0]) then SkipBlanks(s[1..]) else s
  }

  function Accumulate(s: string, len: nat): nat {
    if s != [] && IsDigit(s[0]) then Accumulate(s[1..], (len * 10 + (s[0] - '0') as nat) % SIZE_MODULUS) else len
  }

  function Value(line: string): nat
    requires |line| >= |KEY|
  {
    Accumulate(SkipBlanks(line[|KEY|..]), 0)
  }

  /** The value of the first line with the key, or 0. */
  function ParseLength(header: string): nat
    decreases |header|
  {
    if header == [] then 0
    else
      var n := NewlineAt(header);
      var line := StripCr(header[..n]);
      if HasKey(line) then Value(line)
      else if n < |header| then ParseLength(header[n + 1..])
      else 0
  }

  /** The loops of parse_content_length. */
  method ParseContentLength(header: string) returns (len: nat)
    ensures len == ParseLength(header)
  {
    hide ParseLength, HasKey, Value;
    var at := 0;
    assert header[0..] == header;
    while at < |header|
      invariant 0 <= at <= |header|
      invariant ParseLength(header) == ParseLength(header[at..])
    {
      var rest := header[at..];
      ParseStep(rest);
      var n := NewlineAt(rest);
      var line := StripCr(rest[..n]);
      if |line| >= |KEY| {
        var matched := MatchKey(line);
        if matched {
          len := ReadNumber(line);
          return;
        }
      } else {
        ShortLine(line);
      }
      if n == |rest| {
        return 0;
      }
      assert rest[n + 1..] == header[at + n + 1..];
      at := at + n + 1;
    }
    assert header[at..] == [];
    ParseNothing();
    return 0;
  }

  lemma ParseNothing()
    ensures ParseLength([]) == 0
  {
  }

  lemma ShortLine(line: string)
    requires |line| < |KEY|
    ensures !HasKey(line)
  {
  }

  /** One turn of the line loop. */
  lemma ParseStep(header: string)
    requires header != []
    ensures var n := NewlineAt(header); var line := StripCr(header[..n]);
      && (HasKey(line) ==> |line| >= |KEY| && ParseLength(header) == Value(line))
      && (!HasKey(line) && n < |header| ==> ParseLength(header) == ParseLength(header[n + 1..]))
      && (!HasKey(line) && n == |header| ==> ParseLength(header) == 0)
  {
  }

  method MatchKey(line: string) returns (ok: bool)
    requires |line| >= |KEY|
    ensures ok == HasKey(line)
  {
    for i := 0 to |KEY|
      invariant forall j :: 0 <= j < i ==> Lower(line[j]) == KEY[j]
    {
      if Lower(line[i]) != KEY[i] {
        return false;
      }
    }
    return true;
  }

  method ReadNumber(line: string) returns (len: nat)
    requires |line| >= |KEY|
    ensures len == Value(line)
  {
    var p := |KEY|;
    while p < |line| && IsBlank(line[p])
      invariant |KEY| <= p <= |line|
      invariant SkipBlanks(line[|KEY|..]) == SkipBlanks(line[p..])
    {
      assert line[p..][1..] == line[p + 1..];
      p := p + 1;
    }
    assert SkipBlanks(line[p..]) == line[p..];
    len := 0;
    while p < |line| && IsDigit(line[p])
      invariant |KEY| <= p <= |line|
      invariant Value(line) == Accumulate(line[p..], len)
    {
      assert line[p..][1..] == line[p + 1..];
      len := (len * 10 + (line[p] - '0') as nat) % SIZE_MODULUS;
      p := p + 1;
    }
  }

  // ---------------------------------------------------------------- a header states its length

  /** Digits accumulate to their number, modulo the size of size_t. */
  lemma {:induction false} AccumulateDecimal(n: nat, t: string)
    ensures Accumulate(Decimal(n) + t, 0) == Accumulate(t, n % SIZE_MODULUS)
    decreases n
  {
    hide Accumulate, Digit;
    if n < 10 {
      AccumulateDigit(n, t, 0);
    } else {
      DecimalLast(n, t);
      hide Decimal;
      AccumulateDecimal(n / 10, [Digit(n % 10)] + t);
      AccumulateDigit(n % 10, t, n / 10 % SIZE_MODULUS);
      WrapDigit(n);
    }
  }

  lemma WrapDigit(n: nat)
    ensures (n / 10 % SIZE_MODULUS * 10 + n % 10) % SIZE_MODULUS == n % SIZE_MODULUS
  {
    var q := n / 10 / SIZE_MODULUS;
    assert n / 10 == q * SIZE_MODULUS + n / 10 % SIZE_MODULUS;
    assert n == (10 * q) * SIZE_MODULUS + (n / 10 % SIZE_MODULUS * 10 + n % 10);
  }

  lemma DecimalLast(n: nat, t: string)
    requires n >= 10
    ensures Decimal(n) + t == Decimal(n / 10) + ([Digit(n % 10)] + t)
  {
  }

  lemma AccumulateDigit(d: nat, t: string, len: nat)
    requires d < 10
    ensures Accumulate([Digit(d)] + t, len) == Accumulate(t, (len * 10 + d) % SIZE_MODULUS)
  {
    assert ([Digit(d)] + t)[1..] == t;
  }

  lemma DecimalStartsWithDigit(n: nat)
    ensures Decimal(n) != [] && IsDigit(Decimal(n)[0]) && '\n' !in Decimal(n) && '\r' !in Decimal(n)
  {
  }

  /** Each line followed by CR LF. */
  function Lines(lines: seq<string>): string { if lines == [] then [] else lines[0] + "\r\n" + Lines(lines[1..]) }

  predicate PlainLine(line: string) { '\n' !in line && !HasKey(StripCr(line + "\r")) }

  lemma {:induction false} NewlineAfter(line: string, t: string)
    requires '\n' !in line
    ensures NewlineAt(line + ['\n'] + t) == |line|
    ensures NewlineAt(line) == |line|
  {
    if line == [] {
    } else {
      assert line[0] in line;
      NewlineAfter(line[1..], t);
      assert (line + ['\n'] + t)[1..] == line[1..] + ['\n'] + t;
    }
  }

  lemma SkipPlain(line: string, t: string)
    requires PlainLine(line)
    ensures ParseLength(line + "\r\n" + t) == ParseLength(t)
  {
    var s := line + "\r\n" + t;
    var l := line + ['\r'];
    assert s == l + ['\n'] + t;
    NewlineAfter(l, t);
    assert s[..|l|] == l && s[|l| + 1..] == t;
  }

  lemma {:induction false} SkipLines(before: seq<string>, t: string)
    requires forall i :: 0 <= i < |before| ==> PlainLine(before[i])
    ensures ParseLength(Lines(before) + t) == ParseLength(t)
    decreases |before|
  {
    hide ParseLength, PlainLine;
    if before == [] {
      assert Lines(before) + t == t;
    } else {
      SkipLines(before[1..], t);
      SkipPlain(before[0], Lines(before[1..]) + t);
      assert Lines(before) + t == before[0] + "\r\n" + (Lines(before[1..]) + t);
    }
  }

  /** Spaces and tabs. */
  predicate Blanks(s: string) { forall i :: 0 <= i < |s| ==> s[i] == ' ' || s[i] == '\t' }

  /** The spellings of the key in use. */
  lemma KeySpellings()
    ensures HasKey("content-length:") && HasKey("Content-Length:") && HasKey("CONTENT-LENGTH:")
    ensures !HasKey("content-lengths") && !HasKey("Content-Type: a")
  {
    assert Lower('C') == 'c' && Lower('L') == 'l';
    assert "content-lengths"[14] == 's' && "Content-Type: a"[8] == 'T' && KEY[8] == 'l' && KEY[14] == ':';
  }

  /** A header that names its length in a Content-Length line, in any letter case and with any blanks, after any
      lines without that key and either at its end or followed by anything on further lines, is read as that
      length, modulo the size of size_t. */
  lemma LengthIsRead(before: seq<string>, key: string, blanks: string, n: nat, last: bool, t: string)
    requires forall i :: 0 <= i < |before| ==> PlainLine(before[i])
    requires |key| == |KEY| && HasKey(key) && Blanks(blanks)
    ensures ParseLength(Lines(before) + (key + blanks + Decimal(n) + if last then "" else "\r\n" + t))
         == n % SIZE_MODULUS
  {
    hide ParseLength, PlainLine;
    var line := key + blanks + Decimal(n);
    SkipLines(before, line + if last then "" else "\r\n" + t);
    if last {
      assert line + "" == line;
      LengthAtEnd(key, blanks, n);
    } else {
      LengthLine(key, blanks, n, t);
    }
  }

  lemma {:induction false} BlanksSkipped(blanks: string, t: string)
    requires Blanks(blanks) && t != "" && !IsBlank(t[0])
    ensures SkipBlanks(blanks + t) == t
  {
    if blanks == "" {
      assert blanks + t == t;
    } else {
      BlanksSkipped(blanks[1..], t);
      assert (blanks + t)[1..] == blanks[1..] + t;
    }
  }

  /** The value on a line that holds the key, blanks and a number. */
  lemma LineValue(key: string, blanks: string, n: nat)
    requires |key| == |KEY| && HasKey(key) && Blanks(blanks)
    ensures var line := key + blanks + Decimal(n);
      && '\n' !in line && HasKey(line) && Value(line) == n % SIZE_MODULUS
      && StripCr(line) == line && StripCr(line + ['\r']) == line
  {
    var line := key + blanks + Decimal(n);
    DecimalStartsWithDigit(n);
    KeyHasNoBreak(key);
    assert '\n' !in blanks;
    assert HasKey(line) by { assert forall i :: 0 <= i < |KEY| ==> line[i] == key[i]; }
    assert line[|KEY|..] == blanks + Decimal(n);
    BlanksSkipped(blanks, Decimal(n));
    AccumulateDecimal(n, []);
    assert Decimal(n) + [] == Decimal(n);
    assert line[|line| - 1] in Decimal(n);
  }

  lemma LengthLine(key: string, blanks: string, n: nat, t: string)
    requires |key| == |KEY| && HasKey(key) && Blanks(blanks)
    ensures ParseLength((key + blanks + Decimal(n)) + ("\r\n" + t)) == n % SIZE_MODULUS
  {
    hide HasKey, Value;
    var line := key + blanks + Decimal(n);
    LineValue(key, blanks, n);
    var l := line + ['\r'];
    var s := line + ("\r\n" + t);
    assert s == l + ['\n'] + t;
    NewlineAfter(l, t);
    assert s[..|l|] == l;
  }

  lemma LengthAtEnd(key: string, blanks: string, n: nat)
    requires |key| == |KEY| && HasKey(key) && Blanks(blanks)
    ensures ParseLength(key + blanks + Decimal(n)) == n % SIZE_MODULUS
  {
    hide HasKey, Value;
    var line := key + blanks + Decimal(n);
    LineValue(key, blanks, n);
    NewlineAfter(line, []);
    assert line[..|line|] == line;
  }

  lemma KeyHasNoBreak(key: string)
    requires |key| == |KEY| && HasKey(key)
    ensures '\n' !in key && '\r' !in key
  {
    forall i | 0 <= i < |key| ensures key[i] != '\n' && key[i] != '\r' {
      assert Lower(key[i]) == KEY[i];
    }
  }
}

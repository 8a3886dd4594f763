/**
 The unit manager's registry: a bitmap of ports, a counter of work ids, and
 one table of values of mixed type in which units and their output addresses
 are kept under string keys.
 */
module UnitAllocator {

  import opened Numerals

  // ---------------------------------------------------------------- work ids

  const INT_MODULUS := 0x1_0000_0000

  /** The value of a 32-bit int after wrapping. */
  function ToInt32(n: int): (r: int)
    ensures -0x8000_0000 <= r < 0x8000_0000 && (n - r) % 0x1_0000_0000 == 0
  {
    var m := n % INT_MODULUS;
    if m < INT_MODULUS / 2 then m else m - INT_MODULUS
  }

  function IntText(n: int): string { if n < 0 then "-" + Decimal(-n) else Decimal(n) }

  function WorkId(name: string, number: int): string { name + "." + IntText(number) }

  function OutPortKey(id: string): string { id + ".out_port" }

  lemma IntTextChars(n: int)
    ensures IntText(n) != [] && '.' !in IntText(n) && IntText(n)[|IntText(n)| - 1] != 't'
  {
    var m := if n < 0 then -n else n;
    DecimalDigits(m);
    assert IntText(n)[|IntText(n)| - 1] == Decimal(m)[|Decimal(m)| - 1];
  }

  lemma IntTextInjective(a: int, b: int)
    requires IntText(a) == IntText(b)
    ensures a == b
  {
    var m, n := if a < 0 then -a else a, if b < 0 then -b else b;
    DecimalDigits(m);
    DecimalDigits(n);
    assert a < 0 ==> IntText(a)[0] == '-' && IntText(a)[1..] == Decimal(m);
    assert b < 0 ==> IntText(b)[0] == '-' && IntText(b)[1..] == Decimal(n);
    assert a >= 0 ==> IntText(a)[0] in Decimal(m);
    assert b >= 0 ==> IntText(b)[0] in Decimal(n);
    DecimalInjective(m, n);
  }

  /** How ids and keys are written. */
  lemma WrittenIds()
    ensures WorkId("llm", 1000) == "llm.1000" && WorkId("llm", -7) == "llm.-7"
    ensures OutPortKey("llm.1000") == "llm.1000.out_port"
  {
    assert Decimal(1) == "1" && Decimal(7) == "7";
    assert Decimal(10) == "10";
    assert Decimal(100) == "100";
    assert Decimal(1000) == "1000";
  }

  /** What follows the last dot is determined. */
  lemma LastDot(name: string, t: string, name': string, t': string)
    requires '.' !in t && '.' !in t' && name + "." + t == name' + "." + t'
    ensures name == name' && t == t'
  {
    var s, s' := name + "." + t, name' + "." + t';
    assert s[|name|] == '.' && s'[|name'|] == '.';
    assert name == s[..|name|] && name' == s'[..|name'|];
    assert t == s[|name| + 1..] && t' == s'[|name'| + 1..];
  }

  lemma WorkIdInjective(name: string, n: int, name': string, n': int)
    requires WorkId(name, n) == WorkId(name', n')
    ensures name == name' && n == n'
  {
    IntTextChars(n);
    IntTextChars(n');
    LastDot(name, IntText(n), name', IntText(n'));
    IntTextInjective(n, n');
  }

  /** Two allocations are given the same id exactly when the unit names agree and the counter has come round. */
  lemma WorkIdsRepeatIff(name: string, i: nat, name': string, j: nat, first: int)
    ensures WorkId(name, ToInt32(first + i)) == WorkId(name', ToInt32(first + j))
       <==> name == name' && (i - j) % INT_MODULUS == 0
  {
    WrapsTogether(first, i, j);
    hide ToInt32, WorkId;
    if WorkId(name, ToInt32(first + i)) == WorkId(name', ToInt32(first + j)) {
      WorkIdInjective(name, ToInt32(first + i), name', ToInt32(first + j));
    }
  }

  lemma WrapsTogether(first: int, i: int, j: int)
    ensures ToInt32(first + i) == ToInt32(first + j) <==> (i - j) % INT_MODULUS == 0
  {
  }

  /** A work id is never the key of an output address. */
  lemma WorkIdIsNoOutPort(name: string, n: int, id: string)
    ensures WorkId(name, n) != OutPortKey(id)
  {
    IntTextChars(n);
    assert WorkId(name, n)[|WorkId(name, n)| - 1] == IntText(n)[|IntText(n)| - 1];
    assert OutPortKey(id)[|OutPortKey(id)| - 1] == 't';
  }

  lemma OutPortKeyInjective(a: string, b: string)
    requires OutPortKey(a) == OutPortKey(b)
    ensures a == b
  {
    assert a == OutPortKey(a)[..|OutPortKey(a)| - 9] && b == OutPortKey(b)[..|OutPortKey(b)| - 9];
  }

  // ---------------------------------------------------------------- the registry

  datatype Unit = Unit(workId: string, number: int, output: int, inference: int)

  /** A value of the table: a unit, an output address (by its port), or a configuration value. */
  datatype Any = UnitPtr(unit: Unit) | Url(port: int) | Other

  datatype State = State(counter: int, ports: seq<bool>, sql: map<string, Any>)

  function FirstFree(ports: seq<bool>): (i: nat)
    ensures i <= |ports|
    ensures i < |ports| ==> !ports[i]
    ensures forall j :: 0 <= j < i ==> ports[j]
  {
    if ports == [] || !ports[0] then 0 else 1 + FirstFree(ports[1..])
  }

  /** The bitmap with its first free slot taken. */
  function Take(ports: seq<bool>): (r: seq<bool>)
    ensures |r| == |ports|
  {
    var i := FirstFree(ports);
    if i < |ports| then ports[i := true] else ports
  }

  /** Without two free slots the original reads a port it never set. */
  predicate TwoFree(ports: seq<bool>) { FirstFree(Take(ports)) < |ports| }

  function NewUnit(base: int, s: State, name: string): Unit {
    Unit(WorkId(name, s.counter), s.counter, base + FirstFree(s.ports), base + FirstFree(Take(s.ports)))
  }

  function Allocate(base: int, s: State, name: string): State
    requires TwoFree(s.ports)
  {
    var u := NewUnit(base, s, name);
    State(ToInt32(s.counter + 1), Take(Take(s.ports)),
      s.sql[u.workId := UnitPtr(u)][OutPortKey(u.workId) := Url(u.output)])
  }

  function Clear(ports: seq<bool>, i: int): (r: seq<bool>)
    ensures |r| == |ports|
  {
    if 0 <= i < |ports| then ports[i := false] else ports
  }

  /** The key names a unit; any other value under it fails the cast. */
  predicate Live(sql: map<string, Any>, k: string) { k in sql && sql[k].UnitPtr? }

  function Release(base: int, s: State, key: string): State {
    if Live(s.sql, key) then
      var u := s.sql[key].unit;
      State(s.counter, Clear(Clear(s.ports, u.output - base), u.inference - base), s.sql - {key, OutPortKey(key)})
    else s
  }

  // ---------------------------------------------------------------- invariant

  predicate Uses(sql: map<string, Any>, k: string, port: int) {
    Live(sql, k) && (sql[k].unit.output == port || sql[k].unit.inference == port)
  }

  ghost predicate InUse(sql: map<string, Any>, port: int) { exists k :: Uses(sql, k, port) }

  ghost predicate IsWorkId(k: string) { exists name, n :: k == WorkId(name, n) }

  /** Each unit is filed under its own id, has two ports of the range, and its output address is listed. */
  ghost predicate UnitsSound(base: int, size: nat, sql: map<string, Any>) {
    forall k :: Live(sql, k) ==>
      && sql[k].unit.workId == k && IsWorkId(k)
      && base <= sql[k].unit.output < base + size && base <= sql[k].unit.inference < base + size
      && sql[k].unit.output != sql[k].unit.inference
      && OutPortKey(k) in sql && sql[OutPortKey(k)] == Url(sql[k].unit.output)
  }

  /** No port serves two units. */
  ghost predicate Disjoint(sql: map<string, Any>) {
    forall k, k', port :: Uses(sql, k, port) && Uses(sql, k', port) ==> k == k'
  }

  /** A slot is taken exactly when some unit uses its port. */
  ghost predicate BitmapExact(base: int, ports: seq<bool>, sql: map<string, Any>) {
    forall i :: 0 <= i < |ports| ==> (ports[i] <==> InUse(sql, base + i))
  }

  /** Every listed output address belongs to a unit. */
  ghost predicate NoStaleUrl(sql: map<string, Any>) {
    forall k :: k in sql && sql[k].Url? ==> exists id :: Live(sql, id) && k == OutPortKey(id)
  }

  ghost predicate Inv(base: int, s: State) {
    UnitsSound(base, |s.ports|, s.sql) && Disjoint(s.sql) && BitmapExact(base, s.ports, s.sql) && NoStaleUrl(s.sql)
  }

  lemma TakeTwice(ports: seq<bool>)
    requires TwoFree(ports)
    ensures var a, b := FirstFree(ports), FirstFree(Take(ports));
      && a < b < |ports| && !ports[a] && !ports[b]
      && Take(Take(ports)) == ports[a := true][b := true]
  {
    var a := FirstFree(ports);
    assert a < |ports|;
    assert forall j :: 0 <= j <= a ==> Take(ports)[j];
  }

  /** Who uses which port after an allocation. */
  lemma UsesAfterAllocate(base: int, s: State, name: string, k: string, port: int)
    requires Inv(base, s) && TwoFree(s.ports) && !Live(s.sql, WorkId(name, s.counter))
    ensures var u := NewUnit(base, s, name);
      Uses(Allocate(base, s, name).sql, k, port) <==>
        if k == u.workId then port == u.output || port == u.inference else Uses(s.sql, k, port)
  {
    var id := WorkId(name, s.counter);
    WorkIdIsNoOutPort(name, s.counter, id);
    if Live(s.sql, OutPortKey(id)) {
      OutPortIsNotLive(base, s, id);
    }
  }

  lemma OutPortIsNotLive(base: int, s: State, id: string)
    requires Inv(base, s)
    ensures !Live(s.sql, OutPortKey(id))
  {
    if Live(s.sql, OutPortKey(id)) {
      var name, n :| OutPortKey(id) == WorkId(name, n);
      WorkIdIsNoOutPort(name, n, id);
    }
  }

  /** Who is live after an allocation. */
  lemma LiveAfterAllocate(base: int, s: State, name: string, k: string)
    requires Inv(base, s) && TwoFree(s.ports)
    ensures var u := NewUnit(base, s, name);
      var sql' := Allocate(base, s, name).sql;
      && (Live(sql', k) <==> k == u.workId || Live(s.sql, k))
      && (Live(sql', k) ==> sql'[k].unit == if k == u.workId then u else s.sql[k].unit)
  {
    var id := WorkId(name, s.counter);
    WorkIdIsNoOutPort(name, s.counter, id);
    OutPortIsNotLive(base, s, id);
  }

  lemma AllocateSound(base: int, s: State, name: string)
    requires Inv(base, s) && TwoFree(s.ports)
    ensures UnitsSound(base, |s.ports|, Allocate(base, s, name).sql)
  {
    hide FirstFree, Take, TwoFree;
    var u := NewUnit(base, s, name);
    var sql' := Allocate(base, s, name).sql;
    TakeTwice(s.ports);
    forall k | Live(sql', k)
      ensures IsWorkId(k) && sql'[k].unit.workId == k
      ensures OutPortKey(k) in sql' && sql'[OutPortKey(k)] == Url(sql'[k].unit.output)
    {
      LiveAfterAllocate(base, s, name, k);
      WorkIdIsNoOutPort(name, s.counter, k);
      if k != u.workId && OutPortKey(k) == OutPortKey(u.workId) {
        OutPortKeyInjective(k, u.workId);
      }
    }
    forall k | Live(sql', k)
      ensures base <= sql'[k].unit.output < base + |s.ports| && base <= sql'[k].unit.inference < base + |s.ports|
      ensures sql'[k].unit.output != sql'[k].unit.inference
    {
      LiveAfterAllocate(base, s, name, k);
    }
  }

  lemma AllocateDisjoint(base: int, s: State, name: string)
    requires Inv(base, s) && TwoFree(s.ports) && !Live(s.sql, WorkId(name, s.counter))
    ensures Disjoint(Allocate(base, s, name).sql)
  {
    var u := NewUnit(base, s, name);
    var sql' := Allocate(base, s, name).sql;
    NewPortsUnused(base, s, name);
    assert Disjoint(s.sql);
    hide Inv, Allocate, NewUnit, Uses, Live, WorkId, TwoFree;
    forall k, k', port | Uses(sql', k, port) && Uses(sql', k', port) ensures k == k' {
      UsesAfterAllocate(base, s, name, k, port);
      UsesAfterAllocate(base, s, name, k', port);
    }
  }

  lemma NewPortsUnused(base: int, s: State, name: string)
    requires Inv(base, s) && TwoFree(s.ports)
    ensures var u := NewUnit(base, s, name); !InUse(s.sql, u.output) && !InUse(s.sql, u.inference)
  {
    hide Inv, InUse, FirstFree, Take, TwoFree, WorkId;
    TakeTwice(s.ports);
    FreePortUnused(base, s, FirstFree(s.ports));
    FreePortUnused(base, s, FirstFree(Take(s.ports)));
  }

  lemma FreePortUnused(base: int, s: State, i: nat)
    requires Inv(base, s) && i < |s.ports| && !s.ports[i]
    ensures !InUse(s.sql, base + i)
  {
    ExactNow(base, s);
    hide Inv, InUse;
  }

  /** A port in use has its slot taken. */
  lemma FreshPorts(base: int, s: State)
    requires Inv(base, s)
    ensures forall k, port :: Uses(s.sql, k, port) ==> 0 <= port - base < |s.ports| && s.ports[port - base]
  {
    forall k, port | Uses(s.sql, k, port) ensures 0 <= port - base < |s.ports| && s.ports[port - base] {
      assert InUse(s.sql, base + (port - base));
    }
  }

  /** Which ports are in use after an allocation. */
  lemma InUseAfterAllocate(base: int, s: State, name: string, port: int)
    requires Inv(base, s) && TwoFree(s.ports) && !Live(s.sql, WorkId(name, s.counter))
    ensures var u := NewUnit(base, s, name);
      InUse(Allocate(base, s, name).sql, port) <==> InUse(s.sql, port) || port == u.output || port == u.inference
  {
    var u := NewUnit(base, s, name);
    var sql' := Allocate(base, s, name).sql;
    hide Inv, Allocate, Uses;
    UsesAfterAllocate(base, s, name, u.workId, port);
    if InUse(sql', port) {
      var k :| Uses(sql', k, port);
      UsesAfterAllocate(base, s, name, k, port);
    }
    if InUse(s.sql, port) {
      var k :| Uses(s.sql, k, port);
      UsesAfterAllocate(base, s, name, k, port);
    }
  }

  lemma AllocateBitmap(base: int, s: State, name: string)
    requires Inv(base, s) && TwoFree(s.ports) && !Live(s.sql, WorkId(name, s.counter))
    ensures BitmapExact(base, Allocate(base, s, name).ports, Allocate(base, s, name).sql)
  {
    hide InUse, Inv, Live, WorkId;
    var s' := Allocate(base, s, name);
    ExactNow(base, s);
    forall i | 0 <= i < |s'.ports| ensures s'.ports[i] <==> InUse(s'.sql, base + i) {
      InUseAfterAllocate(base, s, name, base + i);
      SlotAfterTakes(s.ports, i);
      hide Take, FirstFree, TwoFree, Allocate;
    }
  }

  lemma ExactNow(base: int, s: State)
    requires Inv(base, s)
    ensures BitmapExact(base, s.ports, s.sql)
  {
  }

  lemma SlotAfterTakes(ports: seq<bool>, i: nat)
    requires TwoFree(ports) && i < |ports|
    ensures Take(Take(ports))[i] <==> ports[i] || i == FirstFree(ports) || i == FirstFree(Take(ports))
  {
    hide FirstFree, Take, TwoFree;
    TakeTwice(ports);
  }

  lemma AllocateUrls(base: int, s: State, name: string)
    requires Inv(base, s) && TwoFree(s.ports)
    ensures NoStaleUrl(Allocate(base, s, name).sql)
  {
    var id := WorkId(name, s.counter);
    var sql' := Allocate(base, s, name).sql;
    LiveAfterAllocate(base, s, name, id);
    forall k | k in sql' && sql'[k].Url? ensures exists id' :: Live(sql', id') && k == OutPortKey(id') {
      if k != OutPortKey(id) {
        assert k in s.sql && s.sql[k].Url?;
        var id' :| Live(s.sql, id') && k == OutPortKey(id');
        LiveAfterAllocate(base, s, name, id');
      }
    }
  }

  /** An allocation keeps the registry exact unless the wrapped counter has come back to an id still in use. */
  lemma AllocateKeepsIff(base: int, s: State, name: string)
    requires Inv(base, s) && TwoFree(s.ports)
    ensures Inv(base, Allocate(base, s, name)) <==> !Live(s.sql, WorkId(name, s.counter))
  {
    if !Live(s.sql, WorkId(name, s.counter)) {
      AllocateSound(base, s, name);
      AllocateDisjoint(base, s, name);
      AllocateBitmap(base, s, name);
      AllocateUrls(base, s, name);
    } else {
      OverwriteLeaks(base, s, name);
    }
  }

  /** Overwriting a unit leaves its ports taken for ever. */
  lemma OverwriteLeaks(base: int, s: State, name: string)
    requires Inv(base, s) && TwoFree(s.ports) && Live(s.sql, WorkId(name, s.counter))
    ensures !BitmapExact(base, Allocate(base, s, name).ports, Allocate(base, s, name).sql)
  {
    hide Inv, InUse, TwoFree, WorkId, BitmapExact;
    var s' := Allocate(base, s, name);
    var slot := s.sql[WorkId(name, s.counter)].unit.output - base;
    OverwrittenSlotTaken(base, s, name);
    OverwrittenPortUnused(base, s, name);
    Inexact(base, s'.ports, s'.sql, slot);
  }

  lemma Inexact(base: int, ports: seq<bool>, sql: map<string, Any>, i: nat)
    requires i < |ports| && ports[i] && !InUse(sql, base + i)
    ensures !BitmapExact(base, ports, sql)
  {
  }

  lemma OverwrittenSlotTaken(base: int, s: State, name: string)
    requires Inv(base, s) && TwoFree(s.ports) && Live(s.sql, WorkId(name, s.counter))
    ensures var slot := s.sql[WorkId(name, s.counter)].unit.output - base;
      0 <= slot < |s.ports| && s.ports[slot] && Allocate(base, s, name).ports[slot]
  {
    hide FirstFree, Take, TwoFree;
    var id := WorkId(name, s.counter);
    TakeTwice(s.ports);
    FreshPorts(base, s);
    assert Uses(s.sql, id, s.sql[id].unit.output);
  }

  lemma OverwrittenPortUnused(base: int, s: State, name: string)
    requires Inv(base, s) && TwoFree(s.ports) && Live(s.sql, WorkId(name, s.counter))
    ensures !InUse(Allocate(base, s, name).sql, s.sql[WorkId(name, s.counter)].unit.output)
  {
    var id := WorkId(name, s.counter);
    var sql' := Allocate(base, s, name).sql;
    var lost := s.sql[id].unit.output;
    forall k ensures !Uses(sql', k, lost) {
      OverwrittenPortFree(base, s, name, k);
    }
  }

  lemma OverwrittenPortFree(base: int, s: State, name: string, k: string)
    requires Inv(base, s) && TwoFree(s.ports) && Live(s.sql, WorkId(name, s.counter))
    ensures !Uses(Allocate(base, s, name).sql, k, s.sql[WorkId(name, s.counter)].unit.output)
  {
    var u, id := NewUnit(base, s, name), WorkId(name, s.counter);
    var lost := s.sql[id].unit.output;
    assert u.workId == id;
    NewPortsDiffer(base, s, name);
    LiveAfterAllocate(base, s, name, k);
    assert Uses(s.sql, id, lost) && Disjoint(s.sql);
    hide Inv, Allocate, WorkId, TwoFree, NewUnit, Take, FirstFree;
    assert k != id ==> !Uses(s.sql, k, lost);
  }

  lemma NewPortsDiffer(base: int, s: State, name: string)
    requires Inv(base, s) && TwoFree(s.ports) && Live(s.sql, WorkId(name, s.counter))
    ensures var lost := s.sql[WorkId(name, s.counter)].unit.output;
      NewUnit(base, s, name).output != lost && NewUnit(base, s, name).inference != lost
  {
    var id := WorkId(name, s.counter);
    hide Inv, Take, FirstFree, TwoFree, WorkId, NewUnit;
    NewPortsUnused(base, s, name);
    assert Uses(s.sql, id, s.sql[id].unit.output);
  }

  // ---------------------------------------------------------------- release

  lemma LiveAfterRelease(base: int, s: State, key: string, k: string)
    requires Inv(base, s) && Live(s.sql, key)
    ensures var sql' := Release(base, s, key).sql;
      && (Live(sql', k) <==> k != key && Live(s.sql, k))
      && (Live(sql', k) ==> sql'[k] == s.sql[k])
  {
    OutPortIsNotLive(base, s, key);
  }

  lemma ReleaseSound(base: int, s: State, key: string)
    requires Inv(base, s) && Live(s.sql, key)
    ensures UnitsSound(base, |s.ports|, Release(base, s, key).sql)
  {
    var sql' := Release(base, s, key).sql;
    forall k | Live(sql', k)
      ensures Live(s.sql, k) && sql'[k] == s.sql[k] && OutPortKey(k) in sql' &&
        sql'[OutPortKey(k)] == s.sql[OutPortKey(k)]
    {
      LiveAfterRelease(base, s, key, k);
      if OutPortKey(k) == OutPortKey(key) {
        OutPortKeyInjective(k, key);
      }
      var name, n :| key == WorkId(name, n);
      WorkIdIsNoOutPort(name, n, k);
    }
  }

  lemma UsesAfterRelease(base: int, s: State, key: string, k: string, port: int)
    requires Inv(base, s) && Live(s.sql, key)
    ensures Uses(Release(base, s, key).sql, k, port) <==> k != key && Uses(s.sql, k, port)
  {
    LiveAfterRelease(base, s, key, k);
  }

  lemma ReleaseDisjoint(base: int, s: State, key: string)
    requires Inv(base, s) && Live(s.sql, key)
    ensures Disjoint(Release(base, s, key).sql)
  {
    var sql' := Release(base, s, key).sql;
    forall k, k', port | Uses(sql', k, port) && Uses(sql', k', port) ensures k == k' {
      UsesAfterRelease(base, s, key, k, port);
      UsesAfterRelease(base, s, key, k', port);
    }
  }

  /** Which ports are in use after a release. */
  lemma InUseAfterRelease(base: int, s: State, key: string, port: int)
    requires Inv(base, s) && Live(s.sql, key)
    ensures InUse(Release(base, s, key).sql, port) <==> InUse(s.sql, port) && !Uses(s.sql, key, port)
  {
    var sql' := Release(base, s, key).sql;
    assert Disjoint(s.sql);
    hide Inv, Release, Uses;
    if InUse(sql', port) {
      var k :| Uses(sql', k, port);
      UsesAfterRelease(base, s, key, k, port);
    }
    if InUse(s.sql, port) && !Uses(s.sql, key, port) {
      var k :| Uses(s.sql, k, port);
      UsesAfterRelease(base, s, key, k, port);
    }
  }

  lemma SlotAfterClears(base: int, ports: seq<bool>, u: Unit, i: nat)
    requires i < |ports|
    ensures Clear(Clear(ports, u.output - base), u.inference - base)[i]
       <==> ports[i] && base + i != u.output && base + i != u.inference
  {
  }

  lemma ReleaseBitmap(base: int, s: State, key: string)
    requires Inv(base, s) && Live(s.sql, key)
    ensures BitmapExact(base, Release(base, s, key).ports, Release(base, s, key).sql)
  {
    hide InUse, Inv;
    var s' := Release(base, s, key);
    ExactNow(base, s);
    forall i | 0 <= i < |s'.ports| ensures s'.ports[i] <==> InUse(s'.sql, base + i) {
      InUseAfterRelease(base, s, key, base + i);
      SlotAfterClears(base, s.ports, s.sql[key].unit, i);
      hide Clear;
    }
  }

  lemma ReleaseUrls(base: int, s: State, key: string)
    requires Inv(base, s) && Live(s.sql, key)
    ensures NoStaleUrl(Release(base, s, key).sql)
  {
    var sql' := Release(base, s, key).sql;
    forall k | k in sql' && sql'[k].Url? ensures exists id :: Live(sql', id) && k == OutPortKey(id) {
      var id :| Live(s.sql, id) && k == OutPortKey(id);
      LiveAfterRelease(base, s, key, id);
    }
  }

  /** Releasing what is not a unit, be it unknown or a value of another type, changes nothing. */
  lemma ReleaseKeeps(base: int, s: State, key: string)
    requires Inv(base, s)
    ensures Inv(base, Release(base, s, key))
    ensures Release(base, s, key) == s <==> !Live(s.sql, key)
  {
    if Live(s.sql, key) {
      ReleaseSound(base, s, key);
      ReleaseDisjoint(base, s, key);
      ReleaseBitmap(base, s, key);
      ReleaseUrls(base, s, key);
      LiveAfterRelease(base, s, key, key);
    }
  }

  /** Releasing a unit just allocated restores the bitmap and the table. */
  lemma ReleaseUndoesAllocate(base: int, s: State, name: string)
    requires Inv(base, s) && TwoFree(s.ports)
    requires WorkId(name, s.counter) !in s.sql && OutPortKey(WorkId(name, s.counter)) !in s.sql
    ensures Release(base, Allocate(base, s, name), WorkId(name, s.counter)) == s.(counter := ToInt32(s.counter + 1))
  {
    hide FirstFree, Take, TwoFree;
    var id := WorkId(name, s.counter);
    var s1 := Allocate(base, s, name);
    TakeTwice(s.ports);
    LiveAfterAllocate(base, s, name, id);
    var s2 := Release(base, s1, id);
    assert s2.ports == s.ports;
    assert s2.sql == s.sql;
  }
}

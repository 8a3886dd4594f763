/** Runs of the unit registry, its capacity, and the registry as an object. */
module UnitRegistry {

  import opened Options
  import opened UnitAllocator

  datatype Op = Register(name: string) | Discard(key: string)

  /** Undefined: a registration without two free slots reads a port the original never set. */
  datatype Outcome = Defined(state: State) | Undefined

  function Apply(base: int, s: State, op: Op): Outcome {
    match op
    case Register(name) => if TwoFree(s.ports) then Defined(Allocate(base, s, name)) else Undefined
    case Discard(key) => Defined(Release(base, s, key))
  }

  function Run(base: int, s: State, ops: seq<Op>): Outcome {
    if ops == [] then Defined(s)
    else
      var r := Run(base, s, ops[..|ops| - 1]);
      if r.Defined? then Apply(base, r.state, ops[|ops| - 1]) else Undefined
  }

  /** At the start no port is taken, and the table holds the configuration only. */
  predicate Initial(s: State) {
    && s.counter == ToInt32(s.counter)
    && (forall i :: 0 <= i < |s.ports| ==> !s.ports[i])
    && (forall k :: k in s.sql ==> s.sql[k].Other?)
  }

  /** The ids issued by a run, in order; they depend on the registrations alone. */
  function Ids(first: int, ops: seq<Op>): seq<string> {
    if ops == [] then []
    else
      var n := |ops| - 1;
      var ids := Ids(first, ops[..n]);
      if ops[n].Register? then ids + [WorkId(ops[n].name, ToInt32(first + |ids|))] else ids
  }

  /** An id is held when it was issued and has not been discarded since. */
  predicate IsHeld(first: int, ops: seq<Op>, k: string) {
    ops != [] &&
    (var n := |ops| - 1;
     match ops[n]
     case Register(name) => k == WorkId(name, ToInt32(first + |Ids(first, ops[..n])|)) || IsHeld(first, ops[..n], k)
     case Discard(key) => key != k && IsHeld(first, ops[..n], k))
  }

  lemma {:induction false} HeldWasIssued(first: int, ops: seq<Op>, k: string)
    requires IsHeld(first, ops, k)
    ensures k in Ids(first, ops)
    decreases |ops|
  {
    var n := |ops| - 1;
    if IsHeld(first, ops[..n], k) {
      HeldWasIssued(first, ops[..n], k);
    }
  }

  ghost predicate HasNumber(id: string, n: int) { exists name :: id == WorkId(name, n) }

  lemma {:induction false} IdsNumbered(first: int, ops: seq<Op>, i: nat)
    requires i < |Ids(first, ops)|
    ensures HasNumber(Ids(first, ops)[i], ToInt32(first + i))
    decreases |ops|
  {
    hide ToInt32, WorkId;
    var n := |ops| - 1;
    if i < |Ids(first, ops[..n])| {
      IdsNumbered(first, ops[..n], i);
    }
  }

  /** Until the 32-bit counter has gone all the way round, no two units ever get the same id, and no id is the
      key of an output address. */
  lemma IdsNeverRepeat(first: int, ops: seq<Op>)
    requires |Ids(first, ops)| <= INT_MODULUS
    ensures forall i, j :: 0 <= i < j < |Ids(first, ops)| ==> Ids(first, ops)[i] != Ids(first, ops)[j]
    ensures forall i, j :: 0 <= i < |Ids(first, ops)| && 0 <= j < |Ids(first, ops)| ==>
      Ids(first, ops)[i] != OutPortKey(Ids(first, ops)[j])
  {
    var ids := Ids(first, ops);
    forall i, j | 0 <= i < |ids| && 0 <= j < |ids|
      ensures ids[i] != OutPortKey(ids[j]) && (i < j ==> ids[i] != ids[j])
    {
      IdsNumbered(first, ops, i);
      IdsNumbered(first, ops, j);
      var a :| ids[i] == WorkId(a, ToInt32(first + i));
      var b :| ids[j] == WorkId(b, ToInt32(first + j));
      WorkIdsRepeatIff(a, i, b, j, first);
      WorkIdIsNoOutPort(a, ToInt32(first + i), ids[j]);
    }
  }

  /** The next id is not held. */
  lemma NextIsFresh(first: int, ops: seq<Op>, name: string)
    requires |Ids(first, ops)| < INT_MODULUS
    ensures !IsHeld(first, ops, WorkId(name, ToInt32(first + |Ids(first, ops)|)))
  {
    var id := WorkId(name, ToInt32(first + |Ids(first, ops)|));
    var more := ops + [Register(name)];
    assert more[..|ops|] == ops;
    assert Ids(first, more) == Ids(first, ops) + [id];
    IdsNeverRepeat(first, more);
    LastIsNew(Ids(first, ops), id);
    if IsHeld(first, ops, id) {
      HeldWasIssued(first, ops, id);
    }
  }

  lemma LastIsNew(ids: seq<string>, id: string)
    requires forall i, j :: 0 <= i < j <= |ids| ==> (ids + [id])[i] != (ids + [id])[j]
    ensures id !in ids
  {
    forall i | 0 <= i < |ids| ensures ids[i] != id {
      assert (ids + [id])[i] != (ids + [id])[|ids|];
    }
  }

  // ---------------------------------------------------------------- every run

  lemma InitialKeeps(base: int, s: State)
    requires Initial(s)
    ensures Inv(base, s)
  {
    assert forall k, port :: !Uses(s.sql, k, port);
    assert forall port :: !InUse(s.sql, port);
  }

  /** Over every run: the bitmap is exactly the disjoint union of two ports per live unit, and the live units are
      those issued and not discarded since. */
  lemma {:induction false} RunKeeps(base: int, s: State, ops: seq<Op>)
    requires Initial(s) && Run(base, s, ops).Defined? && |Ids(s.counter, ops)| <= INT_MODULUS
    ensures Exact(base, s, ops, Run(base, s, ops).state)
    decreases |ops|
  {
    if ops == [] {
      InitialKeeps(base, s);
    } else {
      var n := |ops| - 1;
      hide Exact;
      RunKeeps(base, s, ops[..n]);
      var t := Run(base, s, ops[..n]).state;
      match ops[n]
      case Register(name) => RegisterKeeps(base, s, ops[..n], t, ops);
      case Discard(key) => DiscardKeeps(base, s, ops[..n], t, ops);
    }
  }

  ghost predicate Exact(base: int, s: State, ops: seq<Op>, t: State) {
    && Inv(base, t) && |t.ports| == |s.ports|
    && t.counter == ToInt32(s.counter + |Ids(s.counter, ops)|)
    && forall k :: Live(t.sql, k) <==> IsHeld(s.counter, ops, k)
  }

  lemma CounterSteps(first: int, n: nat)
    ensures ToInt32(ToInt32(first + n) + 1) == ToInt32(first + (n + 1))
  {
  }

  lemma RegisterKeeps(base: int, s: State, before: seq<Op>, t: State, ops: seq<Op>)
    requires ops != [] && before == ops[..|ops| - 1] && ops[|ops| - 1].Register?
    requires Exact(base, s, before, t) && TwoFree(t.ports) && |Ids(s.counter, ops)| <= INT_MODULUS
    ensures Exact(base, s, ops, Allocate(base, t, ops[|ops| - 1].name))
  {
    hide Inv, Live, Allocate, ToInt32, IsHeld, TwoFree, WorkId, Ids;
    var name := ops[|ops| - 1].name;
    var t' := Allocate(base, t, name);
    RegisterCounts(s.counter, before, ops, t, base);
    RegisterFresh(base, s, before, t, ops);
    forall k ensures Live(t'.sql, k) <==> IsHeld(s.counter, ops, k) {
      RegisterHolds(base, s, before, t, ops, k);
    }
  }

  lemma RegisterCounts(first: int, before: seq<Op>, ops: seq<Op>, t: State, base: int)
    requires ops != [] && before == ops[..|ops| - 1] && ops[|ops| - 1].Register? && TwoFree(t.ports)
    requires t.counter == ToInt32(first + |Ids(first, before)|)
    ensures |Ids(first, ops)| == |Ids(first, before)| + 1
    ensures Allocate(base, t, ops[|ops| - 1].name).counter == ToInt32(first + |Ids(first, ops)|)
    ensures |Allocate(base, t, ops[|ops| - 1].name).ports| == |t.ports|
  {
    CounterSteps(first, |Ids(first, before)|);
  }

  lemma RegisterFresh(base: int, s: State, before: seq<Op>, t: State, ops: seq<Op>)
    requires ops != [] && before == ops[..|ops| - 1] && ops[|ops| - 1].Register?
    requires Exact(base, s, before, t) && TwoFree(t.ports) && |Ids(s.counter, before)| < INT_MODULUS
    ensures Inv(base, Allocate(base, t, ops[|ops| - 1].name))
  {
    hide Inv, Live, Allocate, ToInt32, IsHeld, TwoFree, WorkId, Ids;
    NextIsFresh(s.counter, before, ops[|ops| - 1].name);
    AllocateKeepsIff(base, t, ops[|ops| - 1].name);
  }

  lemma RegisterHolds(base: int, s: State, before: seq<Op>, t: State, ops: seq<Op>, k: string)
    requires ops != [] && before == ops[..|ops| - 1] && ops[|ops| - 1].Register?
    requires Exact(base, s, before, t) && TwoFree(t.ports)
    ensures Live(Allocate(base, t, ops[|ops| - 1].name).sql, k) <==> IsHeld(s.counter, ops, k)
  {
    LiveAfterAllocate(base, t, ops[|ops| - 1].name, k);
    HeldAfterRegister(s.counter, before, ops, k);
    hide Inv, Live, Allocate, ToInt32, IsHeld, TwoFree, WorkId, Ids;
  }

  lemma HeldAfterRegister(first: int, before: seq<Op>, ops: seq<Op>, k: string)
    requires ops != [] && before == ops[..|ops| - 1] && ops[|ops| - 1].Register?
    ensures IsHeld(first, ops, k) <==>
      k == WorkId(ops[|ops| - 1].name, ToInt32(first + |Ids(first, before)|)) || IsHeld(first, before, k)
  {
  }

  lemma DiscardKeeps(base: int, s: State, before: seq<Op>, t: State, ops: seq<Op>)
    requires ops != [] && before == ops[..|ops| - 1] && ops[|ops| - 1].Discard?
    requires Exact(base, s, before, t)
    ensures Exact(base, s, ops, Release(base, t, ops[|ops| - 1].key))
  {
    var key := ops[|ops| - 1].key;
    var t' := Release(base, t, key);
    ReleaseKeeps(base, t, key);
    forall k ensures Live(t'.sql, k) <==> IsHeld(s.counter, ops, k) {
      if Live(t.sql, key) {
        LiveAfterRelease(base, t, key, k);
      }
    }
  }

  // ---------------------------------------------------------------- capacity

  function Busy(ports: seq<bool>): nat { if ports == [] then 0 else (if ports[0] then 1 else 0) + Busy(ports[1..]) }

  lemma {:induction false} BusyUpdate(ports: seq<bool>, i: nat, b: bool)
    requires i < |ports|
    ensures Busy(ports[i := b]) == Busy(ports) - (if ports[i] then 1 else 0) + if b then 1 else 0
  {
    if i > 0 {
      BusyUpdate(ports[1..], i - 1, b);
      assert ports[i := b][1..] == ports[1..][i - 1 := b];
    } else {
      assert ports[i := b][1..] == ports[1..];
    }
  }

  lemma {:induction false} BusyFull(ports: seq<bool>)
    ensures Busy(ports) <= |ports|
    ensures Busy(ports) == |ports| <==> FirstFree(ports) == |ports|
  {
    if ports != [] {
      BusyFull(ports[1..]);
    }
  }

  lemma TwoFreeIff(ports: seq<bool>)
    ensures TwoFree(ports) <==> Busy(ports) + 2 <= |ports|
  {
    BusyFull(ports);
    BusyFull(Take(ports));
    if FirstFree(ports) < |ports| {
      BusyUpdate(ports, FirstFree(ports), true);
    }
  }

  function LiveKeys(sql: map<string, Any>): set<string> { set k | k in sql && sql[k].UnitPtr? }

  lemma BusyAfterAllocate(base: int, s: State, name: string)
    requires Inv(base, s) && TwoFree(s.ports) && !Live(s.sql, WorkId(name, s.counter))
    ensures var s' := Allocate(base, s, name);
      Busy(s'.ports) == Busy(s.ports) + 2 && |LiveKeys(s'.sql)| == |LiveKeys(s.sql)| + 1
  {
    hide FirstFree, Take, TwoFree, Busy;
    var id := WorkId(name, s.counter);
    var s' := Allocate(base, s, name);
    TakeTwice(s.ports);
    var a, b := FirstFree(s.ports), FirstFree(Take(s.ports));
    BusyUpdate(s.ports, a, true);
    BusyUpdate(s.ports[a := true], b, true);
    forall k ensures k in LiveKeys(s'.sql) <==> k in LiveKeys(s.sql) + {id} {
      LiveAfterAllocate(base, s, name, k);
    }
    assert LiveKeys(s'.sql) == LiveKeys(s.sql) + {id};
  }

  lemma BusyAfterRelease(base: int, s: State, key: string)
    requires Inv(base, s) && Live(s.sql, key)
    ensures var s' := Release(base, s, key);
      Busy(s.ports) == Busy(s'.ports) + 2 && |LiveKeys(s.sql)| == |LiveKeys(s'.sql)| + 1
  {
    hide Inv, Clear, Busy, LiveKeys;
    var u := s.sql[key].unit;
    SlotsOfUnit(base, s, key);
    BusyCleared(s.ports, u.output - base, u.inference - base);
    KeysAfterRelease(base, s, key);
  }

  lemma SlotsOfUnit(base: int, s: State, key: string)
    requires Inv(base, s) && Live(s.sql, key)
    ensures var a, b := s.sql[key].unit.output - base, s.sql[key].unit.inference - base;
      0 <= a < |s.ports| && 0 <= b < |s.ports| && a != b && s.ports[a] && s.ports[b]
  {
    FreshPorts(base, s);
    assert Uses(s.sql, key, s.sql[key].unit.output) && Uses(s.sql, key, s.sql[key].unit.inference);
  }

  lemma BusyCleared(ports: seq<bool>, a: nat, b: nat)
    requires a < |ports| && b < |ports| && a != b && ports[a] && ports[b]
    ensures Busy(ports) == Busy(Clear(Clear(ports, a), b)) + 2
  {
    BusyUpdate(ports, a, false);
    BusyUpdate(ports[a := false], b, false);
  }

  lemma KeysAfterRelease(base: int, s: State, key: string)
    requires Inv(base, s) && Live(s.sql, key)
    ensures |LiveKeys(s.sql)| == |LiveKeys(Release(base, s, key).sql)| + 1
  {
    var sql' := Release(base, s, key).sql;
    forall k ensures k in LiveKeys(sql') <==> k in LiveKeys(s.sql) - {key} {
      LiveAfterRelease(base, s, key, k);
    }
    assert LiveKeys(sql') == LiveKeys(s.sql) - {key};
  }

  lemma {:induction false} NothingBusy(ports: seq<bool>)
    requires forall i :: 0 <= i < |ports| ==> !ports[i]
    ensures Busy(ports) == 0
  {
    if ports != [] {
      NothingBusy(ports[1..]);
    }
  }

  /** Ports are conserved: in every run two slots are taken per live unit. */
  lemma {:induction false} PortsConserved(base: int, s: State, ops: seq<Op>)
    requires Initial(s) && Run(base, s, ops).Defined? && |Ids(s.counter, ops)| <= INT_MODULUS
    ensures var t := Run(base, s, ops).state; Busy(t.ports) == 2 * |LiveKeys(t.sql)|
    decreases |ops|
  {
    hide Allocate, Release, Inv, TwoFree, ToInt32, WorkId, Ids, IsHeld, Live;
    if ops == [] {
      NothingBusy(s.ports);
      assert LiveKeys(s.sql) == {};
    } else {
      var n := |ops| - 1;
      var t := Run(base, s, ops[..n]).state;
      IdsGrow(s.counter, ops);
      PortsConserved(base, s, ops[..n]);
      RunKeeps(base, s, ops[..n]);
      match ops[n]
      case Register(name) =>
        NextIsFresh(s.counter, ops[..n], name);
        BusyAfterAllocate(base, t, name);
      case Discard(key) =>
        if Live(t.sql, key) {
          BusyAfterRelease(base, t, key);
        } else {
          ReleaseKeeps(base, t, key);
        }
    }
  }

  lemma IdsGrow(first: int, ops: seq<Op>)
    requires ops != []
    ensures |Ids(first, ops)| == |Ids(first, ops[..|ops| - 1])| + if ops[|ops| - 1].Register? then 1 else 0
  {
  }

  /** What a caller can count on: a registration is defined exactly while fewer than half as many units as ports
      are held. */
  lemma RegistrationDefinedIff(base: int, s: State, ops: seq<Op>, name: string)
    requires Initial(s) && Run(base, s, ops).Defined? && |Ids(s.counter, ops)| <= INT_MODULUS
    ensures Run(base, s, ops + [Register(name)]).Defined? <==>
      2 * (|LiveKeys(Run(base, s, ops).state.sql)| + 1) <= |s.ports|
  {
    var more := ops + [Register(name)];
    assert more[..|ops|] == ops;
    hide Allocate, Release, Inv, TwoFree, ToInt32, Ids, Live;
    RunKeeps(base, s, ops);
    PortsConserved(base, s, ops);
    TwoFreeIff(Run(base, s, ops).state.ports);
  }

  lemma AllocateFields(base: int, s: State, name: string)
    ensures var u := NewUnit(base, s, name);
      && u == Unit(WorkId(name, s.counter), s.counter, base + FirstFree(s.ports), base + FirstFree(Take(s.ports)))
      && (TwoFree(s.ports) ==>
            var t := Allocate(base, s, name);
            && t.counter == ToInt32(s.counter + 1) && t.ports == Take(Take(s.ports))
            && t.sql == s.sql[u.workId := UnitPtr(u)][OutPortKey(u.workId) := Url(u.output)])
  {
  }

  /** The two lowest free slots, in order. */
  predicate LowestTwo(ports: seq<bool>, a: int, b: int) {
    && 0 <= a < b < |ports| && !ports[a] && !ports[b]
    && forall i :: 0 <= i < b && i != a ==> ports[i]
  }

  lemma LowestFree(ports: seq<bool>)
    ensures TwoFree(ports) ==> LowestTwo(ports, FirstFree(ports), FirstFree(Take(ports)))
  {
    if TwoFree(ports) {
      TakeTwice(ports);
      var a, b := FirstFree(ports), FirstFree(Take(ports));
      forall i | 0 <= i < b && i != a ensures ports[i] {
        assert Take(ports)[i];
      }
    }
  }

  lemma TakeEither(ports: seq<bool>)
    ensures TwoFree(ports) <==> FirstFree(ports) < |ports| && FirstFree(Take(ports)) < |Take(ports)|
  {
    if TwoFree(ports) {
      TakeTwice(ports);
    }
  }

  // ---------------------------------------------------------------- the object

  class Registry {
    const base: int
    const ports: array<bool>
    var counter: int
    var sql: map<string, Any>

    ghost function Value(): State
      reads this, ports
    {
      State(counter, ports[..], sql)
    }

    constructor (base: int, size: nat, first: int, config: map<string, Any>)
      requires first == ToInt32(first) && forall k :: k in config ==> config[k].Other?
      ensures Initial(Value()) && counter == first && ports.Length == size && sql == config && this.base == base
      ensures fresh(ports)
    {
      this.base := base;
      ports := new bool[size](_ => false);
      counter := first;
      sql := config;
    }

    /** The scan for a free slot; without one the port stays unset. */
    method TakeSlot() returns (port: Option<int>)
      modifies ports
      ensures ports[..] == Take(old(ports[..]))
      ensures port == if FirstFree(old(ports[..])) < ports.Length then Some(base + FirstFree(old(ports[..]))) else None
    {
      for i := 0 to ports.Length
        invariant ports[..] == old(ports[..]) && i <= FirstFree(ports[..])
      {
        if !ports[i] {
          assert i == FirstFree(ports[..]);
          ports[i] := true;
          return Some(base + i);
        }
      }
      return None;
    }

    /** Both scans, one after the other. */
    method TakeTwoSlots() returns (output: Option<int>, inference: Option<int>)
      modifies ports
      ensures var was := old(ports[..]);
        && ports[..] == Take(Take(was))
        && output == (if FirstFree(was) < |was| then Some(base + FirstFree(was)) else None)
        && inference == (if FirstFree(Take(was)) < |was| then Some(base + FirstFree(Take(was))) else None)
    {
      hide Take, FirstFree;
      output := TakeSlot();
      inference := TakeSlot();
    }

    /** sys_allocate_unit.  Without two free slots the original goes on with a port it never set; the model stops
        there, having issued nothing. */
    method AllocateUnit(name: string) returns (u: Option<Unit>)
      modifies this, ports
      ensures u.Some? <==> TwoFree(old(Value()).ports)
      ensures u.Some? ==> Value() == Allocate(base, old(Value()), name) && u.value == NewUnit(base, old(Value()), name)
      ensures u.Some? ==> LowestTwo(old(ports[..]), u.value.output - base, u.value.inference - base)
      ensures u.None? ==> sql == old(sql) && ports[..] == Take(Take(old(ports[..])))
    {
      ghost var was := Value();
      TakeEither(was.ports);
      LowestFree(was.ports);
      AllocateFields(base, was, name);
      hide Take, FirstFree, ToInt32, WorkId, OutPortKey, TwoFree, Allocate, NewUnit, LowestTwo;
      var number := counter;
      counter := ToInt32(counter + 1);
      var output, inference := TakeTwoSlots();
      if output.None? || inference.None? {
        return None;
      }
      var unit := Unit(WorkId(name, number), number, output.value, inference.value);
      Enter(unit);
      return Some(unit);
    }

    /** The two entries of a unit. */
    method Enter(u: Unit)
      modifies this`sql
      ensures sql == old(sql)[u.workId := UnitPtr(u)][OutPortKey(u.workId) := Url(u.output)]
    {
      sql := sql[u.workId := UnitPtr(u)];
      sql := sql[OutPortKey(u.workId) := Url(u.output)];
    }

    /** sys_release_unit: -1 for a key that does not hold a unit. */
    method ReleaseUnit(key: string) returns (code: int)
      requires Inv(base, Value())
      modifies this, ports
      ensures Value() == Release(base, old(Value()), key) && Inv(base, Value())
      ensures code == if Live(old(sql), key) then 0 else -1
    {
      ReleaseKeeps(base, Value(), key);
      if key !in sql || !sql[key].UnitPtr? {
        return -1;
      }
      var u := sql[key].unit;
      assert Live(sql, key);
      ports[u.output - base] := false;
      ports[u.inference - base] := false;
      sql := sql - {key};
      sql := sql - {OutPortKey(key)};
      assert sql == old(sql) - {key, OutPortKey(key)};
      return 0;
    }
  }
}

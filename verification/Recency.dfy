/** Sessions in order of use, most recent first: what the session manager's map and list together stand for. */
module Recency {

  import opened Numerals

  datatype Item = Item(key: string, lastActive: int, closed: bool)

  function Keys(items: seq<Item>): seq<string> { seq(|items|, i requires 0 <= i < |items| => items[i].key) }

  predicate Distinct(items: seq<Item>) {
    forall i, j :: 0 <= i < j < |items| ==> items[i].key != items[j].key
  }

  /** The position of a key, or the length. */
  function IndexOf(items: seq<Item>, key: string): (i: nat)
    ensures i <= |items|
    ensures i < |items| ==> items[i].key == key
    ensures forall j :: 0 <= j < i ==> items[j].key != key
  {
    if items == [] then 0 else if items[0].key == key then 0 else 1 + IndexOf(items[1..], key)
  }

  predicate Has(items: seq<Item>, key: string) { IndexOf(items, key) < |items| }

  function Without(items: seq<Item>, key: string): seq<Item> {
    var i := IndexOf(items, key);
    if i < |items| then items[..i] + items[i + 1..] else items
  }

  /** Refreshes a session and moves it to the front. */
  function Touch(items: seq<Item>, key: string, now: int): seq<Item> {
    var i := IndexOf(items, key);
    if i < |items| then [items[i].(lastActive := now)] + Without(items, key) else items
  }

  function Truncate(items: seq<Item>, max: nat): seq<Item> { if |items| <= max then items else items[..max] }

  function GetOrCreate(items: seq<Item>, key: string, now: int, max: nat): seq<Item> {
    if Has(items, key) then Touch(items, key, now)
    else Truncate([Item(key, now, false)] + items, max)
  }

  /** A refresh that bypasses the manager: the time changes, the position does not. */
  function OutsideTouch(items: seq<Item>, key: string, now: int): seq<Item> {
    var i := IndexOf(items, key);
    if i < |items| then items[i := items[i].(lastActive := now)] else items
  }

  predicate Removable(x: Item, now: int, ttl: int) { now - x.lastActive > ttl || x.closed }

  /** How many sessions gc removes, walking from the least recently used. */
  function GcCount(items: seq<Item>, now: int, ttl: int, batch: nat): (n: nat)
    ensures n <= |items| && n <= batch
  {
    if items == [] || batch == 0 || !Removable(items[|items| - 1], now, ttl) then 0
    else 1 + GcCount(items[..|items| - 1], now, ttl, batch - 1)
  }

  lemma GcStep(items: seq<Item>, now: int, ttl: int, batch: nat)
    requires items != [] && batch > 0
    ensures GcCount(items, now, ttl, batch)
         == if !Removable(items[|items| - 1], now, ttl) then 0
            else 1 + GcCount(items[..|items| - 1], now, ttl, batch - 1)
  {
  }

  lemma GcNothing(items: seq<Item>, now: int, ttl: int, batch: nat)
    requires items == [] || batch == 0
    ensures GcCount(items, now, ttl, batch) == 0
  {
  }

  function Gc(items: seq<Item>, now: int, ttl: int, batch: nat): seq<Item> {
    items[..|items| - GcCount(items, now, ttl, batch)]
  }

  datatype Op =
    | OpGetOrCreate(key: string)
    | OpTouch(key: string)       // get and touch
    | OpClose(key: string)
    | OpGc
    | OpOutside(key: string)

  datatype Limits = Limits(ttl: int, max: nat, batch: nat)

  function Apply(items: seq<Item>, op: Op, now: int, lim: Limits): seq<Item> {
    match op
    case OpGetOrCreate(key) => GetOrCreate(items, key, now, lim.max)
    case OpTouch(key) => Touch(items, key, now)
    case OpClose(key) => Without(items, key)
    case OpGc => Gc(items, now, lim.ttl, lim.batch)
    case OpOutside(key) => OutsideTouch(items, key, now)
  }

  /** A run: operations with the clock value each one read. */
  function Run(items: seq<Item>, ops: seq<(Op, int)>, lim: Limits): seq<Item> {
    if ops == [] then items
    else Apply(Run(items, ops[..|ops| - 1], lim), ops[|ops| - 1].0, ops[|ops| - 1].1, lim)
  }

  // ---------------------------------------------------------------- shape

  lemma WithoutFacts(items: seq<Item>, key: string)
    requires Distinct(items)
    ensures Distinct(Without(items, key)) && |Without(items, key)| <= |items|
    ensures !Has(Without(items, key), key)
    ensures forall i :: 0 <= i < |Without(items, key)| ==> Without(items, key)[i] in items
  {
    var w := Without(items, key);
    var n := IndexOf(items, key);
    if n < |items| {
      forall i | 0 <= i < |w| ensures w[i] == items[if i < n then i else i + 1] && w[i].key != key {
        assert items[n].key == key;
      }
    }
  }

  lemma ApplyShape(items: seq<Item>, op: Op, now: int, lim: Limits)
    requires Distinct(items) && |items| <= lim.max
    ensures Distinct(Apply(items, op, now, lim)) && |Apply(items, op, now, lim)| <= lim.max
  {
    match op
    case OpGetOrCreate(key) =>
      if Has(items, key) { TouchShape(items, key, now); } else { AbsentEverywhere(items, key); }
    case OpTouch(key) => TouchShape(items, key, now);
    case OpClose(key) => WithoutFacts(items, key);
    case OpGc =>
    case OpOutside(key) =>
  }

  lemma TouchShape(items: seq<Item>, key: string, now: int)
    requires Distinct(items)
    ensures Distinct(Touch(items, key, now)) && |Touch(items, key, now)| == |items|
  {
    var i := IndexOf(items, key);
    if i < |items| {
      var w := Without(items, key);
      WithoutFacts(items, key);
      AbsentEverywhere(w, key);
      assert |w| == |items| - 1;
      hide Without, IndexOf;
    }
  }

  lemma AbsentEverywhere(items: seq<Item>, key: string)
    ensures !Has(items, key) ==> forall i :: 0 <= i < |items| ==> items[i].key != key
  {
  }

  /** In every run no session is listed twice and the number of sessions never exceeds the limit. */
  lemma {:induction false} RunShape(ops: seq<(Op, int)>, lim: Limits)
    ensures Distinct(Run([], ops, lim)) && |Run([], ops, lim)| <= lim.max
    decreases |ops|
  {
    if ops != [] {
      RunShape(ops[..|ops| - 1], lim);
      ApplyShape(Run([], ops[..|ops| - 1], lim), ops[|ops| - 1].0, ops[|ops| - 1].1, lim);
    }
  }

  /** A creation at the limit evicts the least recently used session and nothing else. */
  lemma CreationEvictsOldest(items: seq<Item>, key: string, now: int, max: nat)
    requires !Has(items, key) && |items| == max >= 1
    ensures GetOrCreate(items, key, now, max) + [items[max - 1]] == [Item(key, now, false)] + items
  {
    assert ([Item(key, now, false)] + items)[..max] + [items[max - 1]] == [Item(key, now, false)] + items;
  }

  // ---------------------------------------------------------------- most recently used

  function Drop(ks: seq<string>, k: string): seq<string> {
    if ks == [] then [] else if ks[0] == k then ks[1..] else [ks[0]] + Drop(ks[1..], k)
  }

  function Prefix(ks: seq<string>, n: nat): seq<string> { if |ks| <= n then ks else ks[..n] }

  lemma {:induction false} DropInside(ks: seq<string>, k: string, n: nat)
    requires n > 0 && k in Prefix(ks, n)
    ensures Prefix(Drop(ks, k), n - 1) == Drop(Prefix(ks, n), k)
    decreases |ks|
  {
    if ks[0] == k {
      assert Prefix(ks, n)[1..] == Prefix(ks[1..], n - 1);
    } else {
      assert Prefix(ks, n) == [ks[0]] + Prefix(ks[1..], n - 1);
      assert k in Prefix(ks[1..], n - 1);
      DropInside(ks[1..], k, n - 1);
      assert Prefix([ks[0]] + Drop(ks[1..], k), n - 1) == [ks[0]] + Prefix(Drop(ks[1..], k), n - 2);
      assert Drop([ks[0]] + Prefix(ks[1..], n - 1), k) == [ks[0]] + Drop(Prefix(ks[1..], n - 1), k) by {
        assert ([ks[0]] + Prefix(ks[1..], n - 1))[1..] == Prefix(ks[1..], n - 1);
      }
    }
  }

  lemma {:induction false} DropBeyond(ks: seq<string>, k: string, n: nat)
    requires k !in Prefix(ks, n + 1)
    ensures Prefix(Drop(ks, k), n) == Prefix(ks, n)
    decreases |ks|
  {
    if ks != [] {
      assert ks[0] in Prefix(ks, n + 1);
      if n > 0 {
        assert Prefix(ks, n + 1) == [ks[0]] + Prefix(ks[1..], n);
        DropBeyond(ks[1..], k, n - 1);
        assert Prefix([ks[0]] + Drop(ks[1..], k), n) == [ks[0]] + Prefix(Drop(ks[1..], k), n - 1);
        assert Prefix(ks, n) == [ks[0]] + Prefix(ks[1..], n - 1);
      }
    }
  }

  lemma {:induction false} KeysWithout(items: seq<Item>, key: string)
    requires Has(items, key)
    ensures Keys(Without(items, key)) == Drop(Keys(items), key)
    decreases |items|
  {
    assert Keys(items)[1..] == Keys(items[1..]);
    if items[0].key == key {
      assert Without(items, key) == items[1..];
    } else {
      WithoutTail(items, key);
      KeysWithout(items[1..], key);
      KeysCons(items[0], Without(items[1..], key));
    }
  }

  lemma WithoutTail(items: seq<Item>, key: string)
    requires items != [] && items[0].key != key
    ensures Without(items, key) == [items[0]] + Without(items[1..], key)
    ensures Has(items, key) == Has(items[1..], key)
  {
    var i := IndexOf(items[1..], key);
    assert IndexOf(items, key) == i + 1;
    hide IndexOf;
    if i < |items| - 1 {
      assert items[..i + 1] + items[i + 2..] == [items[0]] + (items[1..][..i] + items[1..][i + 1..]);
    }
  }

  lemma KeysCons(x: Item, items: seq<Item>)
    ensures Keys([x] + items) == [x.key] + Keys(items)
  {
  }

  lemma HasIsIn(items: seq<Item>, key: string)
    ensures Has(items, key) <==> key in Keys(items)
  {
    if Has(items, key) {
      assert Keys(items)[IndexOf(items, key)] == key;
    }
  }

  lemma UseKeys(items: seq<Item>, recent: seq<string>, key: string, now: int, max: nat)
    requires Keys(items) == Prefix(recent, max)
    ensures Keys(GetOrCreate(items, key, now, max)) == Prefix([key] + Drop(recent, key), max)
  {
    HasIsIn(items, key);
    if Has(items, key) {
      KeysWithout(items, key);
      DropInside(recent, key, max);
      var i := IndexOf(items, key);
      assert Keys([items[i].(lastActive := now)] + Without(items, key)) == [key] + Keys(Without(items, key));
      assert Prefix([key] + Drop(recent, key), max) == [key] + Prefix(Drop(recent, key), max - 1);
    } else {
      CreateKeys(items, recent, key, now, max);
    }
  }

  lemma CreateKeys(items: seq<Item>, recent: seq<string>, key: string, now: int, max: nat)
    requires Keys(items) == Prefix(recent, max) && key !in Keys(items)
    ensures Keys(Truncate([Item(key, now, false)] + items, max)) == Prefix([key] + Drop(recent, key), max)
  {
    hide Drop;
    KeysCons(Item(key, now, false), items);
    KeysTruncate([Item(key, now, false)] + items, max);
    hide Keys, Truncate;
    if max > 0 {
      DropBeyond(recent, key, max - 1);
      PrefixCons(key, Prefix(recent, max), max);
      PrefixCons(key, Drop(recent, key), max);
      assert Prefix(Prefix(recent, max), max - 1) == Prefix(recent, max - 1);
    }
  }

  lemma KeysTruncate(items: seq<Item>, max: nat)
    ensures Keys(Truncate(items, max)) == Prefix(Keys(items), max)
  {
  }

  lemma PrefixCons(k: string, ks: seq<string>, n: nat)
    requires n > 0
    ensures Prefix([k] + ks, n) == [k] + Prefix(ks, n - 1)
  {
  }

  lemma TouchKeys(items: seq<Item>, recent: seq<string>, key: string, now: int, max: nat)
    requires Keys(items) == Prefix(recent, max)
    ensures Keys(Touch(items, key, now))
         == Prefix(if key in Prefix(recent, max) then [key] + Drop(recent, key) else recent, max)
  {
    HasIsIn(items, key);
    if Has(items, key) {
      UseKeys(items, recent, key, now, max);
    }
  }

  lemma CloseKeys(items: seq<Item>, recent: seq<string>, key: string, max: nat)
    requires Keys(items) == Prefix(recent, max)
    ensures Keys(Without(items, key)) == Drop(Prefix(recent, max), key)
    ensures |Drop(Prefix(recent, max), key)| <= max
  {
    HasIsIn(items, key);
    DropLength(Prefix(recent, max), key);
    if Has(items, key) {
      KeysWithout(items, key);
    } else {
      DropAbsent(Keys(items), key);
    }
  }

  lemma {:induction false} DropAbsent(ks: seq<string>, k: string)
    requires k !in ks
    ensures Drop(ks, k) == ks
  {
    if ks != [] {
      assert ks[0] in ks;
      DropAbsent(ks[1..], k);
    }
  }

  lemma {:induction false} DropLength(ks: seq<string>, k: string)
    ensures |Drop(ks, k)| <= |ks|
  {
    if ks != [] {
      DropLength(ks[1..], k);
    }
  }

  /** The ids remembered after a run, the most recently used first and without any limit.  A touch counts only for an
      id among the first `max`; a close forgets its id, and everything that no longer fits. */
  function Recalled(ops: seq<(Op, int)>, max: nat): seq<string> {
    if ops == [] then []
    else
      var recent := Recalled(ops[..|ops| - 1], max);
      match ops[|ops| - 1].0
      case OpGetOrCreate(k) => [k] + Drop(recent, k)
      case OpTouch(k) => if k in Prefix(recent, max) then [k] + Drop(recent, k) else recent
      case OpClose(k) => Drop(Prefix(recent, max), k)
      case _ => recent
  }

  /** After any requests, touches and closes, and whatever touches the sessions outside, the manager holds the most
      recently used ids it remembers, as many as its limit allows, in order of use. */
  lemma {:induction false} HoldsMostRecent(ops: seq<(Op, int)>, lim: Limits)
    requires forall i :: 0 <= i < |ops| ==> !ops[i].0.OpGc?
    ensures Keys(Run([], ops, lim)) == Prefix(Recalled(ops, lim.max), lim.max)
    decreases |ops|
  {
    if ops != [] {
      var n := |ops| - 1;
      var items, recent := Run([], ops[..n], lim), Recalled(ops[..n], lim.max);
      HoldsMostRecent(ops[..n], lim);
      hide Keys, Prefix, Drop, Touch, Without, GetOrCreate, OutsideTouch;
      match ops[n].0
      case OpGetOrCreate(k) => UseKeys(items, recent, k, ops[n].1, lim.max);
      case OpTouch(k) => TouchKeys(items, recent, k, ops[n].1, lim.max);
      case OpClose(k) => CloseKeys(items, recent, k, lim.max); ShortPrefix(Drop(Prefix(recent, lim.max), k), lim.max);
      case OpOutside(k) => OutsideKeys(items, k, ops[n].1);
    }
  }

  lemma ShortPrefix(ks: seq<string>, n: nat)
    requires |ks| <= n
    ensures Prefix(ks, n) == ks
  {
  }

  lemma OutsideKeys(items: seq<Item>, key: string, now: int)
    ensures Keys(OutsideTouch(items, key, now)) == Keys(items)
  {
  }

  // ---------------------------------------------------------------- garbage collection

  /** Most recently active first. */
  predicate Sorted(items: seq<Item>) {
    forall i, j :: 0 <= i < j < |items| ==> items[i].lastActive >= items[j].lastActive
  }

  predicate NotAfter(items: seq<Item>, now: int) { forall i :: 0 <= i < |items| ==> items[i].lastActive <= now }

  predicate NoneClosed(items: seq<Item>) { forall i :: 0 <= i < |items| ==> !items[i].closed }

  lemma WithoutSorted(items: seq<Item>, key: string)
    requires Sorted(items) && NoneClosed(items)
    ensures Sorted(Without(items, key)) && NoneClosed(Without(items, key))
    ensures forall now :: NotAfter(items, now) ==> NotAfter(Without(items, key), now)
  {
    var w := Without(items, key);
    var n := IndexOf(items, key);
    if n < |items| {
      assert forall i :: 0 <= i < |w| ==> w[i] == items[if i < n then i else i + 1];
    }
  }

  lemma ApplySorted(items: seq<Item>, op: Op, now: int, lim: Limits)
    requires Sorted(items) && NotAfter(items, now) && NoneClosed(items) && !op.OpOutside?
    ensures Sorted(Apply(items, op, now, lim)) && NotAfter(Apply(items, op, now, lim), now) &&
      NoneClosed(Apply(items, op, now, lim))
  {
    match op
    case OpGetOrCreate(key) =>
      if Has(items, key) { TouchSorted(items, key, now); } else { CreateSorted(items, key, now, lim.max); }
    case OpTouch(key) => TouchSorted(items, key, now);
    case OpClose(key) => WithoutSorted(items, key);
    case OpGc =>
  }

  lemma TouchSorted(items: seq<Item>, key: string, now: int)
    requires Sorted(items) && NotAfter(items, now) && NoneClosed(items)
    ensures var t := Touch(items, key, now); Sorted(t) && NotAfter(t, now) && NoneClosed(t)
  {
    WithoutSorted(items, key);
    hide Without;
  }

  lemma CreateSorted(items: seq<Item>, key: string, now: int, max: nat)
    requires Sorted(items) && NotAfter(items, now) && NoneClosed(items)
    ensures var t := Truncate([Item(key, now, false)] + items, max); Sorted(t) && NotAfter(t, now) && NoneClosed(t)
  {
  }

  /** The clock never runs backwards, and sessions are touched through the manager only. */
  predicate Orderly(ops: seq<(Op, int)>) {
    && (forall i, j :: 0 <= i < j < |ops| ==> ops[i].1 <= ops[j].1)
    && (forall i :: 0 <= i < |ops| ==> !ops[i].0.OpOutside?)
  }

  /** In an orderly run the list stays sorted by last activity. */
  lemma {:induction false} RunSorted(ops: seq<(Op, int)>, lim: Limits, now: int)
    requires Orderly(ops) && (ops != [] ==> ops[|ops| - 1].1 <= now)
    ensures var items := Run([], ops, lim); Sorted(items) && NotAfter(items, now) && NoneClosed(items)
    decreases |ops|
  {
    if ops != [] {
      var n := |ops| - 1;
      assert Orderly(ops[..n]);
      RunSorted(ops[..n], lim, ops[n].1);
      ApplySorted(Run([], ops[..n], lim), ops[n].0, ops[n].1, lim);
    }
  }

  function CountRemovable(items: seq<Item>, now: int, ttl: int): nat {
    if items == [] then 0
    else CountRemovable(items[..|items| - 1], now, ttl) + if Removable(items[|items| - 1], now, ttl) then 1 else 0
  }

  /** Whatever touched the sessions, gc removes only expired or closed ones, and it stops only at its batch
      size, at the end of the list or at a session that must stay. */
  lemma {:induction false} GcRemovesOnlyRemovable(items: seq<Item>, now: int, ttl: int, batch: nat)
    ensures var n := GcCount(items, now, ttl, batch);
      && (forall i :: |items| - n <= i < |items| ==> now - items[i].lastActive > ttl || items[i].closed)
      && (n < batch && n < |items| ==>
            var x := items[|items| - n - 1]; now - x.lastActive <= ttl && !x.closed)
    decreases |items|
  {
    if items != [] && batch > 0 && Removable(items[|items| - 1], now, ttl) {
      GcRemovesOnlyRemovable(items[..|items| - 1], now, ttl, batch - 1);
    }
  }

  /** On a sorted list the early stop loses nothing: gc removes exactly the oldest min(batch, expired) sessions. */
  lemma {:induction false} GcIsExact(items: seq<Item>, now: int, ttl: int, batch: nat)
    requires Sorted(items) && NoneClosed(items)
    ensures GcCount(items, now, ttl, batch) == Least(batch, CountRemovable(items, now, ttl))
    decreases |items|
  {
    if items != [] {
      var init := items[..|items| - 1];
      if Removable(items[|items| - 1], now, ttl) {
        if batch > 0 {
          GcIsExact(init, now, ttl, batch - 1);
        }
      } else {
        NoneRemovable(items, now, ttl);
      }
    }
  }

  lemma {:induction false} NoneRemovable(items: seq<Item>, now: int, ttl: int)
    requires Sorted(items) && NoneClosed(items) && items != [] && !Removable(items[|items| - 1], now, ttl)
    ensures CountRemovable(items, now, ttl) == 0
    decreases |items|
  {
    var init := items[..|items| - 1];
    if init != [] {
      assert init[|init| - 1].lastActive >= items[|items| - 1].lastActive;
      NoneRemovable(init, now, ttl);
    }
  }

  /** The count is the number of places that hold a session idle for longer than `ttl`, or a closed one. */
  lemma {:induction false} CountIsSet(items: seq<Item>, now: int, ttl: int)
    ensures CountRemovable(items, now, ttl)
         == |set i | 0 <= i < |items| && (now - items[i].lastActive > ttl || items[i].closed)|
    decreases |items|
  {
    if items != [] {
      var k := |items| - 1;
      var init, last := items[..k], items[k];
      CountIsSet(init, now, ttl);
      var before := set i | 0 <= i < |init| && (now - init[i].lastActive > ttl || init[i].closed);
      var all := set i | 0 <= i < |items| && (now - items[i].lastActive > ttl || items[i].closed);
      assert forall i :: 0 <= i < k ==> init[i] == items[i];
      assert all == if now - last.lastActive > ttl || last.closed then before + {k} else before;
    }
  }

  /** In an orderly run gc removes exactly the oldest sessions, as many as are idle for longer than the limit, up to
      its batch. */
  lemma OrderlyGcIsExact(ops: seq<(Op, int)>, lim: Limits, now: int)
    requires Orderly(ops) && (ops != [] ==> ops[|ops| - 1].1 <= now)
    ensures var items := Run([], ops, lim);
      var expired := |set i | 0 <= i < |items| && now - items[i].lastActive > lim.ttl|;
      var n := Least(lim.batch, expired);
      n <= |items| && Gc(items, now, lim.ttl, lim.batch) == items[..|items| - n]
  {
    var items := Run([], ops, lim);
    RunSorted(ops, lim, now);
    GcIsExact(items, now, lim.ttl, lim.batch);
    CountIsSet(items, now, lim.ttl);
    assert (set i | 0 <= i < |items| && (now - items[i].lastActive > lim.ttl || items[i].closed))
        == set i | 0 <= i < |items| && now - items[i].lastActive > lim.ttl;
  }

  /** The place of a session that is listed. */
  predicate ListedSince(items: seq<Item>, key: string, t: int) {
    forall i :: 0 <= i < |items| && items[i].key == key ==> items[i].lastActive >= t
  }

  predicate Uses(op: Op, key: string) { op == OpGetOrCreate(key) || op == OpTouch(key) }

  lemma UseIsLatest(items: seq<Item>, op: Op, key: string, now: int, lim: Limits)
    requires Distinct(items) && Uses(op, key)
    ensures ListedSince(Apply(items, op, now, lim), key, now)
  {
    AbsentEverywhere(items, key);
    WithoutFacts(items, key);
    AbsentEverywhere(Without(items, key), key);
  }

  lemma UseIsKept(items: seq<Item>, op: Op, key: string, now: int, lim: Limits, t: int)
    requires ListedSince(items, key, t) && t <= now && !op.OpOutside?
    ensures ListedSince(Apply(items, op, now, lim), key, t)
  {
    match op
    case OpGetOrCreate(k) => WithoutIsPart(items, k);
    case OpTouch(k) => WithoutIsPart(items, k);
    case OpClose(k) => WithoutIsPart(items, k);
    case OpGc =>
  }

  lemma WithoutIsPart(items: seq<Item>, key: string)
    ensures forall i :: 0 <= i < |Without(items, key)| ==> Without(items, key)[i] in items
  {
    var w, n := Without(items, key), IndexOf(items, key);
    if n < |items| {
      assert forall i :: 0 <= i < |w| ==> w[i] == items[if i < n then i else i + 1];
    }
  }

  /** In an orderly run, a session that is listed has been active since its latest use, whenever that was. */
  lemma {:induction false} ActiveSinceUse(ops: seq<(Op, int)>, lim: Limits, n: nat, key: string)
    requires Orderly(ops) && n < |ops| && Uses(ops[n].0, key)
    ensures ListedSince(Run([], ops, lim), key, ops[n].1)
    decreases |ops|
  {
    hide Apply, ListedSince, Uses, Distinct;
    var m := |ops| - 1;
    var items := Run([], ops[..m], lim);
    if n == m {
      RunShape(ops[..m], lim);
      UseIsLatest(items, ops[m].0, key, ops[m].1, lim);
    } else {
      ActiveSinceUse(ops[..m], lim, n, key);
      UseIsKept(items, ops[m].0, key, ops[m].1, lim, ops[n].1);
    }
  }

  /** In an orderly run, a session used at some time and still listed survives every gc up to `ttl` later. */
  lemma FreshSurvivesGc(ops: seq<(Op, int)>, lim: Limits, now: int, n: nat, key: string, i: nat)
    requires Orderly(ops) && n < |ops| && Uses(ops[n].0, key) && ops[|ops| - 1].1 <= now
    requires now - ops[n].1 <= lim.ttl
    requires var items := Run([], ops, lim); i < |items| && items[i].key == key
    ensures var items := Run([], ops, lim); items[i] in Gc(items, now, lim.ttl, lim.batch)
  {
    var items := Run([], ops, lim);
    ActiveSinceUse(ops, lim, n, key);
    RunSorted(ops, lim, now);
    GcRemovesOnlyRemovable(items, now, lim.ttl, lim.batch);
    var kept := Gc(items, now, lim.ttl, lim.batch);
    assert items[i].lastActive >= ops[n].1 && !items[i].closed;
    assert i < |kept| && kept[i] == items[i];
  }

  /** The length of the run of removable sessions at the old end. */
  function TrailingRun(items: seq<Item>, now: int, ttl: int): (n: nat)
    ensures n <= |items|
  {
    if items == [] || !Removable(items[|items| - 1], now, ttl) then 0
    else 1 + TrailingRun(items[..|items| - 1], now, ttl)
  }

  lemma {:induction false} TrailingRunCounts(items: seq<Item>, now: int, ttl: int, batch: nat)
    ensures var n := TrailingRun(items, now, ttl);
      && GcCount(items, now, ttl, batch) == Least(batch, n)
      && CountRemovable(items, now, ttl) == n + CountRemovable(items[..|items| - n], now, ttl)
    decreases |items|
  {
    if items != [] && Removable(items[|items| - 1], now, ttl) {
      var init := items[..|items| - 1];
      TrailingRunCounts(init, now, ttl, if batch > 0 then batch - 1 else 0);
      var n := TrailingRun(init, now, ttl);
      assert init[..|init| - n] == items[..|items| - (n + 1)];
    } else {
      assert items[..|items|] == items;
    }
  }

  lemma {:induction false} NoneCounted(items: seq<Item>, now: int, ttl: int)
    ensures CountRemovable(items, now, ttl) == 0 <==> forall i :: 0 <= i < |items| ==> !Removable(items[i], now, ttl)
    decreases |items|
  {
    if items != [] {
      var init := items[..|items| - 1];
      NoneCounted(init, now, ttl);
      if forall i :: 0 <= i < |init| ==> !Removable(init[i], now, ttl) {
        assert forall i :: 0 <= i < |init| ==> items[i] == init[i];
      } else {
        var i :| 0 <= i < |init| && Removable(init[i], now, ttl);
        assert items[i] == init[i];
      }
    }
  }

  /** On any list at all, gc removes all it should exactly when the removable sessions fill the batch from the
      old end or none of them stands in front of one that must stay. */
  lemma GcExactIff(items: seq<Item>, now: int, ttl: int, batch: nat)
    ensures var due := |set i | 0 <= i < |items| && (now - items[i].lastActive > ttl || items[i].closed)|;
      GcCount(items, now, ttl, batch) == Least(batch, due) <==>
      (var n := TrailingRun(items, now, ttl);
       n >= batch || forall i :: 0 <= i < |items| - n ==> now - items[i].lastActive <= ttl && !items[i].closed)
  {
    CountIsSet(items, now, ttl);
    var front := items[..|items| - TrailingRun(items, now, ttl)];
    TrailingRunCounts(items, now, ttl, batch);
    NoneCounted(front, now, ttl);
    assert forall i :: 0 <= i < |front| ==> front[i] == items[i];
  }

  /** An outside touch can hide expired sessions from gc: it stops at the refreshed one. */
  lemma OutsideTouchHidesExpired(a: string, b: string)
    requires a != b
    ensures var lim := Limits(10, 2, 2);
      var items := Run([], [(OpGetOrCreate(b), 0), (OpGetOrCreate(a), 0), (OpOutside(b), 100)], lim);
      Gc(items, 100, lim.ttl, lim.batch) == items && CountRemovable(items, 100, lim.ttl) == 1
  {
    var lim := Limits(10, 2, 2);
    var ops: seq<(Op, int)> := [(OpGetOrCreate(b), 0), (OpGetOrCreate(a), 0), (OpOutside(b), 100)];
    var none: seq<(Op, int)> := [];
    assert ops[..2] == [(OpGetOrCreate(b), 0), (OpGetOrCreate(a), 0)];
    assert ops[..2][..1] == [(OpGetOrCreate(b), 0)] && ops[..2][..1][..0] == none;
    var one := Run([], ops[..2][..1], lim);
    assert Run([], none, lim) == [];
    assert one == Apply([], OpGetOrCreate(b), 0, lim);
    assert one == [Item(b, 0, false)];
    var two := Run([], ops[..2], lim);
    assert two == [Item(a, 0, false), Item(b, 0, false)];
    var three := Run([], ops, lim);
    assert IndexOf(two, b) == 1;
    assert three == [Item(a, 0, false), Item(b, 100, false)];
    assert three[..1] == [Item(a, 0, false)];
    assert CountRemovable(three[..1], 100, 10) == 1;
  }
}

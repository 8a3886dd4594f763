/**
 The session manager: a hash map from session ids to entries, and a linked
 list of ids in order of use.  Each entry stores an iterator into the list.
 List nodes carry an identity of their own so that a stored iterator can be
 said to stand at its own key.
 */
module SessionManager {

  import opened Recency

  datatype Node = Node(id: nat, key: string)

  datatype Entry = Entry(lastActive: int, closed: bool, place: nat)

  // ---------------------------------------------------------------- map and list together

  /** Every node belongs to the entry of its key, whose iterator stands at it; every entry has a node. */
  ghost predicate Agree(entries: map<string, Entry>, lru: seq<Node>, nextId: nat) {
    && (forall i :: 0 <= i < |lru| ==> lru[i].id < nextId)
    && (forall i, j :: 0 <= i < j < |lru| ==> lru[i].id != lru[j].id)
    && (forall i :: 0 <= i < |lru| ==> lru[i].key in entries && entries[lru[i].key].place == lru[i].id)
    && (forall k :: k in entries ==> Listed(lru, k))
  }

  ghost predicate Listed(lru: seq<Node>, k: string) { exists i :: 0 <= i < |lru| && lru[i].key == k }

  /** The abstract recency sequence. */
  ghost function Rows(entries: map<string, Entry>, lru: seq<Node>): (rows: seq<Item>)
    requires forall i :: 0 <= i < |lru| ==> lru[i].key in entries
    ensures |rows| == |lru|
    ensures forall i :: 0 <= i < |lru| ==>
      rows[i] == Item(lru[i].key, entries[lru[i].key].lastActive, entries[lru[i].key].closed)
  {
    seq(|lru|, i requires 0 <= i < |lru| =>
      Item(lru[i].key, entries[lru[i].key].lastActive, entries[lru[i].key].closed))
  }

  lemma RowsDistinct(entries: map<string, Entry>, lru: seq<Node>, nextId: nat)
    requires Agree(entries, lru, nextId)
    ensures forall i, j :: 0 <= i < j < |lru| ==> lru[i].key != lru[j].key
    ensures Distinct(Rows(entries, lru))
  {
    forall i, j | 0 <= i < j < |lru| ensures lru[i].key != lru[j].key {
      assert lru[i].id != lru[j].id;
    }
  }

  /** Each key of the map is listed once, so the list is as long as the map is large. */
  lemma SizeIsLength(entries: map<string, Entry>, lru: seq<Node>, nextId: nat)
    requires Agree(entries, lru, nextId)
    ensures |entries| == |lru|
  {
    RowsDistinct(entries, lru, nextId);
    var keys := set i | 0 <= i < |lru| :: lru[i].key;
    forall k | k in entries.Keys ensures k in keys {
      assert Listed(lru, k);
    }
    assert keys == entries.Keys;
    DistinctCount(lru, |lru|);
  }

  lemma {:induction false} DistinctCount(nodes: seq<Node>, n: nat)
    requires n <= |nodes| && forall i, j :: 0 <= i < j < |nodes| ==> nodes[i].key != nodes[j].key
    ensures |set i | 0 <= i < n :: nodes[i].key| == n
  {
    if n > 0 {
      DistinctCount(nodes, n - 1);
      var before := set i | 0 <= i < n - 1 :: nodes[i].key;
      assert (set i | 0 <= i < n :: nodes[i].key) == before + {nodes[n - 1].key};
    }
  }

  /** A stored iterator finds the row of its own key. */
  lemma PlaceIsIndex(entries: map<string, Entry>, lru: seq<Node>, nextId: nat, key: string, i: nat)
    requires Agree(entries, lru, nextId) && key in entries && i < |lru| && lru[i].id == entries[key].place
    ensures lru[i].key == key && IndexOf(Rows(entries, lru), key) == i
  {
    assert Listed(lru, key);
    var j :| 0 <= j < |lru| && lru[j].key == key;
    assert i == j;
    RowsDistinct(entries, lru, nextId);
    assert Rows(entries, lru)[i].key == key;
  }

  /** A key has a row exactly when it has an entry. */
  lemma RowIffEntry(entries: map<string, Entry>, lru: seq<Node>, nextId: nat, key: string)
    requires Agree(entries, lru, nextId)
    ensures Has(Rows(entries, lru), key) <==> key in entries
  {
    var rows := Rows(entries, lru);
    if Has(rows, key) {
      assert lru[IndexOf(rows, key)].key == key;
    }
    if key in entries {
      assert Listed(lru, key);
      var j :| 0 <= j < |lru| && lru[j].key == key;
      KeyHasRow(rows, j, key);
    }
  }

  lemma KeyHasRow(rows: seq<Item>, j: nat, key: string)
    requires j < |rows| && rows[j].key == key
    ensures Has(rows, key)
  {
  }

  function CutNode(lru: seq<Node>, i: nat): seq<Node>
    requires i < |lru|
  {
    lru[..i] + lru[i + 1..]
  }

  lemma CutNodeAt(lru: seq<Node>, i: nat)
    requires i < |lru|
    ensures var cut := CutNode(lru, i);
      && |cut| == |lru| - 1
      && (forall j :: 0 <= j < |cut| ==> cut[j] == lru[if j < i then j else j + 1])
  {
  }

  lemma CutKeepsListed(lru: seq<Node>, i: nat, k: string)
    requires i < |lru| && Listed(lru, k) && lru[i].key != k
    ensures Listed(CutNode(lru, i), k)
  {
    var j :| 0 <= j < |lru| && lru[j].key == k;
    assert CutNode(lru, i)[if j < i then j else j - 1].key == k;
  }

  lemma EraseAgrees(entries: map<string, Entry>, lru: seq<Node>, nextId: nat, i: nat)
    requires Agree(entries, lru, nextId) && i < |lru|
    ensures Agree(entries - {lru[i].key}, CutNode(lru, i), nextId)
  {
    var cut, key := CutNode(lru, i), lru[i].key;
    hide CutNode, Distinct;
    RowsDistinct(entries, lru, nextId);
    CutNodeAt(lru, i);
    forall k | k in entries - {key} ensures Listed(cut, k) {
      CutKeepsListed(lru, i, k);
    }
  }

  lemma EraseRows(entries: map<string, Entry>, lru: seq<Node>, key: string, i: nat)
    requires forall j :: 0 <= j < |lru| ==> lru[j].key in entries
    requires i < |lru| && IndexOf(Rows(entries, lru), key) == i
    requires forall j :: 0 <= j < |CutNode(lru, i)| ==> CutNode(lru, i)[j].key in entries - {key}
    ensures Rows(entries - {key}, CutNode(lru, i)) == Without(Rows(entries, lru), key)
  {
    CutNodeAt(lru, i);
  }

  lemma PushAgrees(entries: map<string, Entry>, lru: seq<Node>, nextId: nat, key: string, e: Entry)
    requires Agree(entries, lru, nextId) && key !in entries && e.place == nextId
    ensures Agree(entries[key := e], [Node(nextId, key)] + lru, nextId + 1)
    ensures Rows(entries[key := e], [Node(nextId, key)] + lru)
      == [Item(key, e.lastActive, e.closed)] + Rows(entries, lru)
  {
    var more := [Node(nextId, key)] + lru;
    forall k | k in entries[key := e] ensures Listed(more, k) {
      if k == key {
        assert more[0].key == k;
      } else {
        assert Listed(lru, k);
        var j :| 0 <= j < |lru| && lru[j].key == k;
        assert more[j + 1].key == k;
      }
    }
  }

  /** An entry touched and moved to the front, its iterator at the new node. */
  function Refreshed(e: Entry, now: int, place: nat): Entry { e.(lastActive := now, place := place) }

  lemma RefreshAgrees(entries: map<string, Entry>, lru: seq<Node>, nextId: nat, key: string, i: nat, now: int)
    requires Agree(entries, lru, nextId) && key in entries
    requires i < |lru| && lru[i].key == key && IndexOf(Rows(entries, lru), key) == i
    ensures var entries' := entries[key := Refreshed(entries[key], now, nextId)];
      var lru' := [Node(nextId, key)] + CutNode(lru, i);
      && Agree(entries', lru', nextId + 1)
      && Rows(entries', lru') == Touch(Rows(entries, lru), key, now)
  {
    var e := Refreshed(entries[key], now, nextId);
    EraseAgrees(entries, lru, nextId, i);
    EraseRows(entries, lru, key, i);
    PushAgrees(entries - {key}, CutNode(lru, i), nextId, key, e);
    assert (entries - {key})[key := e] == entries[key := e];
  }

  // ---------------------------------------------------------------- the object

  class Manager {
    const limits: Limits
    var entries: map<string, Entry>
    var lru: seq<Node>
    var nextId: nat

    ghost predicate Valid()
      reads this
    {
      Agree(entries, lru, nextId)
    }

    ghost function Value(): seq<Item>
      reads this
      requires Valid()
    {
      Rows(entries, lru)
    }

    constructor (limits: Limits)
      ensures Valid() && Value() == [] && this.limits == limits
    {
      this.limits := limits;
      entries, lru, nextId := map[], [], 0;
    }

    /** The node a stored iterator stands at. */
    method Locate(key: string) returns (i: nat)
      requires Valid() && key in entries
      ensures i < |lru| && lru[i].key == key && IndexOf(Value(), key) == i
    {
      assert Listed(lru, key);
      i :| 0 <= i < |lru| && lru[i].id == entries[key].place;
      PlaceIsIndex(entries, lru, nextId, key, i);
    }

    /** eraseUnlocked_, and close. */
    method Erase(key: string) returns (erased: bool)
      requires Valid()
      modifies this
      ensures Valid() && erased == (key in old(entries)) && Value() == Without(old(Value()), key)
    {
      RowIffEntry(entries, lru, nextId, key);
      if key !in entries {
        return false;
      }
      var i := Locate(key);
      EraseAgrees(entries, lru, nextId, i);
      EraseRows(entries, lru, key, i);
      lru := CutNode(lru, i);
      entries := entries - {key};
      return true;
    }

    /** Session::touch and moveToFront_ on a session that exists; get and touch. */
    method Refresh(key: string, now: int) returns (found: bool)
      requires Valid()
      modifies this
      ensures Valid() && found == (key in old(entries)) && Value() == Touch(old(Value()), key, now)
    {
      RowIffEntry(entries, lru, nextId, key);
      if key !in entries {
        return false;
      }
      var i := Locate(key);
      RefreshAgrees(entries, lru, nextId, key, i, now);
      lru := [Node(nextId, key)] + CutNode(lru, i);
      entries := entries[key := Refreshed(entries[key], now, nextId)];
      nextId := nextId + 1;
      return true;
    }

    method GetOrCreateSession(key: string, now: int)
      requires Valid()
      modifies this
      ensures Valid() && Value() == GetOrCreate(old(Value()), key, now, limits.max)
    {
      RowIffEntry(entries, lru, nextId, key);
      if key in entries {
        var _ := Refresh(key, now);
        return;
      }
      var e := Entry(now, false, nextId);
      PushAgrees(entries, lru, nextId, key, e);
      lru := [Node(nextId, key)] + lru;
      entries := entries[key := e];
      nextId := nextId + 1;
      EvictIfNeeded();
    }

    /** evictIfNeeded_ */
    method EvictIfNeeded()
      requires Valid()
      modifies this
      ensures Valid() && Value() == Truncate(old(Value()), limits.max)
    {
      hide Agree;
      SizeIsLength(entries, lru, nextId);
      ghost var was := Value();
      while |entries| > limits.max && |lru| > 0
        invariant Valid() && |entries| == |lru| == |Value()| <= |was| && Value() == was[..|lru|]
        invariant |was| > limits.max ==> |lru| >= limits.max
        invariant |was| <= limits.max ==> |lru| == |was|
        decreases |lru|
      {
        DropLast();
      }
    }

    /** Erasing the session at the old end of the list. */
    method DropLast()
      requires Valid() && |lru| > 0
      modifies this
      ensures Valid() && |entries| == |lru| == old(|lru|) - 1
      ensures Value() == old(Value())[..|lru|]
    {
      var last := |lru| - 1;
      var key := lru[last].key;
      RowsDistinct(entries, lru, nextId);
      assert Value()[last].key == key;
      assert IndexOf(Value(), key) == last;
      assert Without(Value(), key) == Value()[..last];
      RowIffEntry(entries, lru, nextId, key);
      var _ := Erase(key);
      SizeIsLength(entries, lru, nextId);
    }

    /** Whether the session at the old end is expired or closed. */
    method OldestIsStale(now: int) returns (stale: bool)
      requires Valid() && |lru| > 0
      ensures |Value()| == |lru| && stale == Removable(Value()[|lru| - 1], now, limits.ttl)
      ensures stale == (now - Value()[|lru| - 1].lastActive > limits.ttl || Value()[|lru| - 1].closed)
    {
      var e := entries[lru[|lru| - 1].key];
      stale := now - e.lastActive > limits.ttl || e.closed;
    }

    /** gc, walking from the old end and stopping at the first session that must stay. */
    method CollectGarbage(now: int) returns (removed: nat)
      requires Valid()
      modifies this
      ensures Valid() && Value() == Gc(old(Value()), now, limits.ttl, limits.batch)
      ensures removed == GcCount(old(Value()), now, limits.ttl, limits.batch) == |old(Value())| - |Value()|
      ensures forall i :: |Value()| <= i < |old(Value())| ==>
        now - old(Value())[i].lastActive > limits.ttl || old(Value())[i].closed
    {
      hide Agree, Removable, GcCount;
      removed := 0;
      ghost var was := Value();
      GcRemovesOnlyRemovable(was, now, limits.ttl, limits.batch);
      assert was[..|lru|] == was;
      while |lru| > 0 && removed < limits.batch
        invariant Valid() && removed <= limits.batch && |Value()| == |lru| && |lru| + removed == |was|
        invariant Value() == was[..|lru|]
        invariant GcCount(was, now, limits.ttl, limits.batch)
               == removed + GcCount(Value(), now, limits.ttl, limits.batch - removed)
        decreases |lru|
      {
        GcStep(Value(), now, limits.ttl, limits.batch - removed);
        var stale := OldestIsStale(now);
        if !stale {
          return;
        }
        DropLast();
        removed := removed + 1;
      }
      GcNothing(Value(), now, limits.ttl, limits.batch - removed);
    }

    /** The gateway's finish callback refreshes a session it holds without telling the manager. */
    method TouchOutside(key: string, now: int)
      requires Valid()
      modifies this`entries
      ensures Valid() && Value() == OutsideTouch(old(Value()), key, now)
    {
      RowIffEntry(entries, lru, nextId, key);
      if key in entries {
        var i := Locate(key);
        RowsDistinct(entries, lru, nextId);
        entries := entries[key := entries[key].(lastActive := now)];
        assert forall k :: Listed(lru, k) == old(Listed(lru, k));
      }
    }

    method Perform(op: Op, now: int)
      requires Valid()
      modifies this
      ensures Valid() && Value() == Apply(old(Value()), op, now, limits)
    {
      hide Agree;
      match op
      case OpGetOrCreate(key) => GetOrCreateSession(key, now);
      case OpTouch(key) => var _ := Refresh(key, now);
      case OpClose(key) => var _ := Erase(key);
      case OpGc => var _ := CollectGarbage(now);
      case OpOutside(key) => TouchOutside(key, now);
    }

    /** Any run of operations behaves as the abstract sequence; the limit holds in every state of it. */
    method PerformAll(ops: seq<(Op, int)>)
      requires Valid() && Value() == []
      modifies this
      ensures Valid() && Value() == Run([], ops, limits)
      ensures |entries| == |lru| <= limits.max
    {
      hide Agree;
      for n := 0 to |ops|
        invariant Valid() && Value() == Run([], ops[..n], limits)
      {
        assert ops[..n + 1][..n] == ops[..n];
        Perform(ops[n].0, ops[n].1);
      }
      assert ops[..|ops|] == ops;
      RunShape(ops, limits);
      SizeIsLength(entries, lru, nextId);
    }
  }
}

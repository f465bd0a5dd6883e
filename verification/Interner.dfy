/** The parts of the profile store: interning tables and the stack under construction
    (src/cli_stackmap_helper/cli_stackmap.c).
  */
module Interners {
  import opened Options
  import opened Markers
  import opened Stores

  const DEFAULT_IDS_LEN: nat := 16

  /** A hash table and a by-id array that both index the same list. */
  ghost predicate Linked<T>(list: seq<T>, nextId: nat, hash: map<T, nat>, byId: seq<Option<T>>) {
    && nextId == |list| + 1 <= |byId|
    && byId[0] == None
    && (forall i :: 1 <= i < nextId ==> byId[i] == Some(list[i - 1]))
    && (forall x :: x in hash ==> x in list)
    && (forall i :: 0 <= i < |list| ==> list[i] in hash && hash[list[i]] == i + 1)
  }

  lemma {:induction false} LinkedFinds<T>(list: seq<T>, nextId: nat, hash: map<T, nat>, byId: seq<Option<T>>, x: T)
    requires Linked(list, nextId, hash, byId)
    ensures x in hash <==> x in list
    ensures x in hash ==> Position(list, x) + 1 == hash[x] && Interned(list, x) == list
    ensures x !in hash ==> Position(list, x) == |list| && Interned(list, x) == list + [x]
  {
    var p := Position(list, x);
    PositionFinds(list, x);
    if p < |list| {
      assert list[p] in hash && hash[list[p]] == p + 1;
    }
  }

  lemma {:induction false} LinkedGrows<T>(list: seq<T>, nextId: nat, hash: map<T, nat>, byId: seq<Option<T>>, x: T)
    requires Linked(list, nextId, hash, byId) && x !in hash && nextId < |byId|
    ensures Linked(list + [x], nextId + 1, hash[x := nextId], byId[nextId := Some(x)])
  {
    forall i | 0 <= i < |list|
      ensures list[i] != x
    {
      assert list[i] in hash;
    }
  }

  /** The by-id slots of a table that has given out `n` ids. */
  function IdCap(n: nat): (cap: nat)
    ensures cap > n
  {
    if n == 0 then DEFAULT_IDS_LEN else if n < IdCap(n - 1) then IdCap(n - 1) else 2 * IdCap(n - 1)
  }

  /** The next id needs more slots than there are. */
  predicate TableFull(n: nat) {
    n + 1 >= IdCap(n)
  }

  /** How interning ends. `Stranded` is what the source calls fatal: the by-id array could not be enlarged although its recorded length
      was, so that the next access by id goes past the array. */
  datatype InternOutcome = Given(id: nat) | Refused | Stranded

  /** One interning table: ids are given out from one upwards and never change. */
  class Interner<T(==)> {
    ghost var List: seq<T>
    var nextId: nat
    var hash: map<T, nat>
    var byId: seq<Option<T>>
    var maxlen: nat

    ghost predicate Valid()
      reads this
    {
      forall k {:trigger OpenTable(k)} :: OpenTable(k) ==> Linked(List, nextId, hash, byId) && maxlen == |byId| == IdCap(|List|)
    }

    constructor ()
      ensures Valid() && List == []
    {
      nextId, hash, byId, maxlen := 1, map[], seq(DEFAULT_IDS_LEN, _ => None), DEFAULT_IDS_LEN;
      List := [];
    }

    /** The new key gets its slot. */
    method Enter(x: T)
      requires Linked(List, nextId, hash, byId) && x !in hash && nextId < |byId| == maxlen == IdCap(|List| + 1)
      modifies this
      ensures Valid() && List == old(List) + [x] && hash == old(hash)[x := old(nextId)] && nextId == old(nextId) + 1
    {
      LinkedGrows(List, nextId, hash, byId, x);
      byId := byId[nextId := Some(x)];
      hash := hash[x := nextId];
      nextId := nextId + 1;
      List := List + [x];
    }

    /** `cli_stackmap_intern_current_ids`: room is made before the stack gets its id. */
    method Intern(x: T, allocOk: bool, reallocOk: bool) returns (o: InternOutcome)
      requires Valid()
      modifies this
      ensures o.Refused? <==> Position(old(List), x) == |old(List)| && !allocOk
      ensures o.Stranded? <==> Position(old(List), x) == |old(List)| && allocOk && TableFull(|old(List)|) && !reallocOk
      ensures o.Given? ==> Valid() && List == Interned(old(List), x) && o.id == Position(old(List), x) + 1
      ensures o.Refused? ==> Valid() && List == old(List)
      ensures o.Stranded? ==> List == old(List) && hash == old(hash) && nextId == old(nextId) && |byId| <= nextId < maxlen
    {
      assert OpenTable(0);
      LinkedFinds(List, nextId, hash, byId, x);
      if x in hash {
        return Given(hash[x]);
      }
      if !allocOk {
        return Refused;
      }
      var grown := Grow(nextId, reallocOk, hash);
      if !grown {
        return Stranded;
      }
      var id := nextId;
      Enter(x);
      return Given(id);
    }

    /** The frame table of `cli_stackmap_append`: the frame has its id and stands in the hash table before room is made. */
    method InternFirst(x: T, allocOk: bool, reallocOk: bool) returns (o: InternOutcome)
      requires Valid()
      modifies this
      ensures o.Refused? <==> Position(old(List), x) == |old(List)| && !allocOk
      ensures o.Stranded? <==> Position(old(List), x) == |old(List)| && allocOk && TableFull(|old(List)|) && !reallocOk
      ensures o.Given? ==> Valid() && List == Interned(old(List), x) && o.id == Position(old(List), x) + 1
      ensures o.Refused? ==> Valid() && List == old(List)
      ensures o.Stranded? ==> hash == old(hash)[x := old(nextId)] && nextId == old(nextId) + 1 && |byId| <= old(nextId) < maxlen
    {
      assert OpenTable(0);
      LinkedFinds(List, nextId, hash, byId, x);
      if x in hash {
        return Given(hash[x]);
      }
      if !allocOk {
        return Refused;
      }
      var id := nextId;
      nextId := nextId + 1;
      ghost var before := hash;
      hash := hash[x := id];
      var grown := Grow(id, reallocOk, before);
      if !grown {
        return Stranded;
      }
      LinkedGrows(List, id, before, byId, x);
      byId := byId[id := Some(x)];
      List := List + [x];
      return Given(id);
    }

    /** Doubles the recorded length until `id` fits, then enlarges the by-id array; the new slots are empty. When that fails the recorded
        length stays doubled. `before` is the hash table without the key that `id` is for. */
    method Grow(id: nat, reallocOk: bool, ghost before: map<T, nat>) returns (ok: bool)
      requires Linked(List, id, before, byId) && maxlen == |byId|
      modifies this`byId, this`maxlen
      ensures ok <==> reallocOk || id < old(maxlen)
      ensures ok ==> Linked(List, id, before, byId) && id < |byId| == maxlen == if id < old(maxlen) then old(maxlen) else 2 * old(maxlen)
      ensures !ok ==> byId == old(byId) && |byId| <= id < maxlen
    {
      if id < maxlen {
        return true;
      }
      while id >= maxlen
        invariant byId == old(byId) && |byId| == old(maxlen) > 0 && (maxlen == old(maxlen) || maxlen == 2 * old(maxlen))
        decreases id - maxlen
      {
        maxlen := maxlen * 2;
      }
      if !reallocOk {
        return false;
      }
      byId := byId + seq(maxlen - |byId|, _ => None);
      ok := true;
    }
  }

  /** The stack under construction. `present` tells whether the array is there. */
  class Current {
    var ids: seq<nat>
    var lastReverse: nat
    var maxlen: nat
    var present: bool

    ghost predicate Valid()
      reads this
    {
      present && |ids| <= maxlen && maxlen > 0
    }

    constructor ()
      ensures Valid() && ids == [] && lastReverse == 0 && maxlen == DEFAULT_IDS_LEN
    {
      ids, lastReverse, maxlen, present := [], 0, DEFAULT_IDS_LEN, true;
    }

    ghost predicate Full()
      reads this
    {
      |ids| >= maxlen
    }

    /** `cli_stackmap_entry_append_id`: when a full array cannot be enlarged, it is gone. */
    method AppendId(id: nat, reallocOk: bool) returns (ok: bool)
      requires Valid()
      modifies this
      ensures ok <==> reallocOk || !old(Full())
      ensures ok ==> Valid() && ids == old(ids) + [id] && lastReverse == old(lastReverse)
      ensures maxlen == if old(Full()) then 2 * old(maxlen) else old(maxlen)
      ensures !ok ==> !present && ids == old(ids) && lastReverse == old(lastReverse) && |ids| < maxlen
    {
      if |ids| >= maxlen {
        maxlen := maxlen * 2;
        present := reallocOk;
        if !present {
          return false;
        }
      }
      ids := ids + [id];
      ok := true;
    }

    /** `cli_stackmap_entry_reverse_ids`: swaps in place what was appended since the last reversal. */
    method ReverseIds()
      requires Valid()
      modifies this`ids, this`lastReverse
      ensures Valid() && ids == ReverseTail(old(ids), old(lastReverse))
      ensures lastReverse == if old(lastReverse) >= |old(ids)| then old(lastReverse) else |old(ids)|
    {
      if |ids| == 0 || lastReverse >= |ids| {
        return;
      }
      var start, end := lastReverse, |ids| - 1;
      ghost var n, m := |ids|, lastReverse;
      while start < end
        invariant m <= start && end < n == |ids| && start + end == m + n - 1 && start <= end + 1
        invariant lastReverse == old(lastReverse)
        invariant forall k :: 0 <= k < m ==> ids[k] == old(ids)[k]
        invariant forall k :: m <= k < start ==> ids[k] == old(ids)[m + n - 1 - k]
        invariant forall k :: end < k < n ==> ids[k] == old(ids)[m + n - 1 - k]
        invariant forall k :: start <= k <= end ==> ids[k] == old(ids)[k]
      {
        ids := ids[start := ids[end]][end := ids[start]];
        start := start + 1;
        end := end - 1;
      }
      lastReverse := |ids|;
      ghost var r := ReverseTail(old(ids), m);
      forall k | 0 <= k < n
        ensures ids[k] == r[k]
      {
        if m <= k {
          assert r[k] == Reversed(old(ids)[m..])[k - m];
        }
      }
      assert ids == r;
    }

    /** `cli_stackmap_current_reset`. */
    method Reset(index: nat)
      requires Valid() && index <= |ids|
      modifies this`ids, this`lastReverse
      ensures Valid() && ids == old(ids)[..index] && lastReverse == index
    {
      lastReverse := index;
      ids := ids[..index];
    }
  }
}

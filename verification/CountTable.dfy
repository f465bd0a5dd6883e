/** The open-addressing count table of src/cli_stackmap_helper/stackmap_count_table.c.

    Four parallel arrays are updated in place. `Contents` is the abstract value: the ordered
    association list that the arrays represent.
  */
module CountTables {
  import opened Bits
  import opened Items
  import opened Markers

  const INITIAL_CAP: nat := 16
  const UINT32_MAX: nat := U32 - 1

  /** The integer mixer applied to a stack id. */
  function HashU32(value: nat): nat {
    var v1 := Xor(value, value / 0x1_0000);
    var v2 := (v1 * 0x7feb352d) % U32;
    var v3 := Xor(v2, v2 / 0x8000);
    var v4 := (v3 * 0x846ca68b) % U32;
    Xor(v4, v4 / 0x1_0000)
  }

  /** The slot at which probing for `id` starts. */
  function Home(id: nat, cap: nat): (s: nat)
    requires cap > 0
    ensures s < cap
  {
    HashU32(id) % cap
  }

  /** Slot `t` lies on the cyclic way from `from` up to but excluding `to`. */
  predicate Between(from: nat, t: nat, to: nat) {
    if from <= to then from <= t < to else t >= from || t < to
  }

  /** A snapshot of the arrays with the list they stand for. `rank` gives the position of each
      used slot in the touched list. */
  datatype Slots = Slots(keys: seq<nat>, counts: seq<nat>, used: seq<bool>, touched: seq<nat>,
                         rank: seq<nat>, items: seq<Item>)
  {
    ghost predicate Shape(cap: nat) {
      && 0 < cap == |keys| == |counts| == |used| == |touched| == |rank|
      && |items| <= cap
    }

    /** The touched list names each used slot once, and `items` reads the slots in that order. */
    ghost predicate TouchedOk(cap: nat)
      requires Shape(cap)
    {
      && (forall i :: 0 <= i < |items| ==>
            && touched[i] < cap
            && used[touched[i]]
            && rank[touched[i]] == i
            && items[i] == Item(keys[touched[i]], counts[touched[i]]))
      && (forall s :: 0 <= s < cap && used[s] ==> rank[s] < |items| && touched[rank[s]] == s)
      && (forall s :: 0 <= s < cap && !used[s] ==> keys[s] == 0 && counts[s] == 0)
    }

    /** Probing from the home slot of a stored key meets no hole before the key's slot. */
    ghost predicate ProbesOk(cap: nat)
      requires Shape(cap)
    {
      && (forall s, t {:trigger Between(Home(keys[s], cap), t, s)} :: 0 <= s < cap && 0 <= t < cap && used[s] && Between(Home(keys[s], cap), t, s) ==> used[t])
      && (forall s, t {:trigger keys[s], keys[t]} :: 0 <= s < t < cap && used[s] && used[t] ==> keys[s] != keys[t])
    }

    ghost predicate Ok(cap: nat) {
      Shape(cap) && forall k {:trigger OpenSlots(k)} :: OpenSlots(k) ==> TouchedOk(cap) && ProbesOk(cap)
    }

    ghost function Insert(slot: nat, id: nat, count: nat): Slots
      requires slot < |keys| == |counts| == |used| == |touched| == |rank| && |items| < |touched|
    {
      Slots(keys[slot := id], counts[slot := count], used[slot := true], touched[|items| := slot],
            rank[slot := |items|], items + [Item(id, count)])
    }

    ghost function SetCount(slot: nat, count: nat): Slots
      requires slot < |keys| == |counts| == |rank| && rank[slot] < |items|
    {
      this.(counts := counts[slot := count], items := items[rank[slot] := Item(keys[slot], count)])
    }
  }

  /** Free slots exist as long as the list is shorter than the arrays. */
  lemma {:induction false} FreeSlot(t: Slots, cap: nat) returns (f: nat)
    requires t.Ok(cap) && |t.items| < cap
    ensures f < cap && !t.used[f]
  {
    assert OpenSlots(0);
    if forall s :: 0 <= s < cap ==> t.used[s] {
      forall s, u | s in Range(cap) && u in Range(cap) && t.rank[s] == t.rank[u]
        ensures s == u
      {
        assert t.touched[t.rank[s]] == s && t.touched[t.rank[u]] == u;
      }
      InjectiveSize(Range(cap), Range(|t.items|), t.rank);
      assert false;
    }
    f :| 0 <= f < cap && !t.used[f];
  }

  lemma {:induction false} FoundIndex(t: Slots, cap: nat, slot: nat)
    requires t.Ok(cap) && slot < cap && t.used[slot]
    ensures t.rank[slot] == IndexOf(t.items, t.keys[slot]) < |t.items| && t.items[t.rank[slot]].count == t.counts[slot]
    ensures HasId(t.items, t.keys[slot])
  {
    assert OpenSlots(0);
    var r := t.rank[slot];
    assert t.touched[r] == slot && t.items[r].id == t.keys[slot];
    var i := IndexOf(t.items, t.keys[slot]);
    assert t.rank[t.touched[i]] == i && t.keys[t.touched[i]] == t.keys[slot];
  }

  /** Position `i` of the touched list leads to entry `i`. */
  lemma {:induction false} TouchedAt(t: Slots, cap: nat, i: nat)
    requires t.Ok(cap) && i < |t.items|
    ensures t.touched[i] < cap && t.used[t.touched[i]] && t.items[i] == Item(t.keys[t.touched[i]], t.counts[t.touched[i]])
  {
    assert OpenSlots(0);
  }

  /** All slots are clear except those of the entries from `i` on. */
  ghost predicate ClearedTo(t: Slots, cap: nat, i: nat, used: seq<bool>, keys: seq<nat>, counts: seq<nat>)
    requires t.Shape(cap)
  {
    && |used| == |keys| == |counts| == cap
    && forall s :: 0 <= s < cap && (t.used[s] ==> t.rank[s] < i) ==> !used[s] && keys[s] == 0 && counts[s] == 0
  }

  lemma {:induction false} ClearBegins(t: Slots, cap: nat)
    requires t.Ok(cap)
    ensures ClearedTo(t, cap, 0, t.used, t.keys, t.counts)
  {
    assert OpenSlots(0);
  }

  lemma {:induction false} ClearStep(t: Slots, cap: nat, i: nat, used: seq<bool>, keys: seq<nat>, counts: seq<nat>)
    requires t.Ok(cap) && i < |t.items| && ClearedTo(t, cap, i, used, keys, counts)
    ensures var slot := t.touched[i];
            slot < cap && ClearedTo(t, cap, i + 1, used[slot := false], keys[slot := 0], counts[slot := 0])
  {
    assert OpenSlots(0);
  }

  lemma {:induction false} ClearEnds(t: Slots, cap: nat, used: seq<bool>, keys: seq<nat>, counts: seq<nat>)
    requires t.Ok(cap) && ClearedTo(t, cap, |t.items|, used, keys, counts)
    ensures forall s :: 0 <= s < cap ==> !used[s] && keys[s] == 0 && counts[s] == 0
  {
    assert OpenSlots(0);
  }

  /** A hole reached from the home slot over other keys proves the key absent. */
  lemma {:induction false} NotFoundIndex(t: Slots, cap: nat, id: nat, slot: nat)
    requires t.Ok(cap) && slot < cap && !t.used[slot]
    requires forall u :: 0 <= u < cap && Between(Home(id, cap), u, slot) ==> t.used[u] && t.keys[u] != id
    ensures !HasId(t.items, id) && IndexOf(t.items, id) == |t.items|
  {
    assert OpenSlots(0);
    var home := Home(id, cap);
    forall i | 0 <= i < |t.items|
      ensures t.items[i].id != id
    {
      var s := t.touched[i];
      assert t.used[s] && t.keys[s] == t.items[i].id;
      assert Between(home, s, slot) || Between(home, slot, s);
    }
  }

  lemma {:induction false} ItemsDistinct(t: Slots, cap: nat)
    requires t.Ok(cap)
    ensures Distinct(t.items)
  {
    assert OpenSlots(0);
    forall i, j | 0 <= i < j < |t.items|
      ensures t.items[i].id != t.items[j].id
    {
      assert t.rank[t.touched[i]] != t.rank[t.touched[j]];
    }
  }

  lemma {:induction false} InsertTouches(t: Slots, cap: nat, slot: nat, id: nat, count: nat)
    requires t.Ok(cap) && |t.items| < cap && slot < cap && !t.used[slot]
    ensures var r := t.Insert(slot, id, count); r.Shape(cap) && r.TouchedOk(cap)
  {
    assert OpenSlots(0);
    var r := t.Insert(slot, id, count);
    forall i | 0 <= i < |r.items|
      ensures r.touched[i] < cap && r.used[r.touched[i]] && r.rank[r.touched[i]] == i
      ensures r.items[i] == Item(r.keys[r.touched[i]], r.counts[r.touched[i]])
    {
      if i < |t.items| {
        assert r.touched[i] == t.touched[i] != slot;
      }
    }
  }

  lemma {:induction false} InsertProbes(t: Slots, cap: nat, slot: nat, id: nat, count: nat)
    requires t.Ok(cap) && |t.items| < cap && slot < cap && !t.used[slot] && !HasId(t.items, id)
    requires forall u :: 0 <= u < cap && Between(Home(id, cap), u, slot) ==> t.used[u]
    ensures var r := t.Insert(slot, id, count); r.Shape(cap) && r.ProbesOk(cap)
  {
    assert OpenSlots(0);
    forall s | 0 <= s < cap && t.used[s]
      ensures t.keys[s] != id
    {
      assert t.items[t.rank[s]].id == t.keys[s];
    }
  }

  /** Filling the hole that ends the probe for a new key keeps the table well formed. */
  lemma {:induction false} InsertKeepsOk(t: Slots, cap: nat, slot: nat, id: nat, count: nat)
    requires t.Ok(cap) && |t.items| < cap && slot < cap && !t.used[slot] && !HasId(t.items, id)
    requires forall u :: 0 <= u < cap && Between(Home(id, cap), u, slot) ==> t.used[u]
    ensures t.Insert(slot, id, count).Ok(cap)
  {
    InsertTouches(t, cap, slot, id, count);
    InsertProbes(t, cap, slot, id, count);
  }

  lemma {:induction false} EmptyOk(t: Slots, cap: nat)
    requires t.Shape(cap) && t.items == []
    requires forall s :: 0 <= s < cap ==> !t.used[s] && t.keys[s] == 0 && t.counts[s] == 0
    ensures t.Ok(cap)
  {
    assert OpenSlots(0);
  }

  lemma {:induction false} SetCountKeepsOk(t: Slots, cap: nat, slot: nat, count: nat)
    requires t.Ok(cap) && slot < cap && t.used[slot]
    ensures t.rank[slot] < |t.items| && t.SetCount(slot, count).Ok(cap)
  {
    assert OpenSlots(0);
    var r := t.SetCount(slot, count);
    forall i | 0 <= i < |r.items|
      ensures r.items[i] == Item(r.keys[r.touched[i]], r.counts[r.touched[i]])
    {
      assert i != t.rank[slot] ==> t.touched[i] != slot;
    }
  }

  /** One probe step adds exactly the slot just left to the probed stretch: the stretch cannot
      close the circle because the free slot is not on it. */
  lemma {:induction false} ProbeStep(home: nat, slot: nat, free: nat, cap: nat)
    requires home < cap && slot < cap && free < cap && !Between(home, free, slot) && free != slot
    ensures var next := if slot + 1 == cap then 0 else slot + 1;
            forall t :: 0 <= t < cap ==> (Between(home, t, next) <==> Between(home, t, slot) || t == slot)
  {
  }

  class CountTable {
    ghost var Contents: seq<Item>
    ghost var Repr: set<object>
    ghost var rank: seq<nat>

    var keys: array<nat>
    var counts: array<nat>
    var used: array<bool>
    var touched: array<nat>
    var cap: nat
    var len: nat
    var touchedLen: nat

    ghost function View(): Slots
      reads this, keys, counts, used, touched
    {
      Slots(keys[..], counts[..], used[..], touched[..], rank, Contents)
    }

    ghost predicate Valid()
      reads this, Repr
    {
      this in Repr && forall k {:trigger OpenCounts(k)} :: OpenCounts(k) ==> Whole()
    }

    ghost predicate Whole()
      reads this, Repr
    {
      && this in Repr && keys in Repr && counts in Repr && used in Repr && touched in Repr
      && Repr == {this, keys, counts, used, touched}
      && keys != counts && keys != touched && counts != touched
      && IsPowerOfTwo(cap)
      && cap <= UINT32_MAX
      && len == touchedLen == |Contents|
      && 4 * len < 3 * cap
      && View().Ok(cap)
    }

    constructor WithCapacity(capacity: nat)
      requires IsPowerOfTwo(capacity) && capacity <= UINT32_MAX
      ensures Whole() && fresh(Repr)
      ensures Contents == [] && cap == capacity && len == 0
    {
      keys := new nat[capacity](_ => 0);
      counts := new nat[capacity](_ => 0);
      used := new bool[capacity](_ => false);
      touched := new nat[capacity](_ => 0);
      cap := capacity;
      len := 0;
      touchedLen := 0;
      Contents := [];
      rank := seq(capacity, _ => 0);
      new;
      Repr := {this, keys, counts, used, touched};
    }

    constructor ()
      ensures Valid() && fresh(Repr)
      ensures Contents == [] && Snug()
    {
      keys := new nat[INITIAL_CAP](_ => 0);
      counts := new nat[INITIAL_CAP](_ => 0);
      used := new bool[INITIAL_CAP](_ => false);
      touched := new nat[INITIAL_CAP](_ => 0);
      cap := INITIAL_CAP;
      len := 0;
      touchedLen := 0;
      Contents := [];
      rank := seq(INITIAL_CAP, _ => 0);
      new;
      Repr := {this, keys, counts, used, touched};
      InitialCap();
    }

    /** `find_slot`: the slot of `id`, or the hole at which it belongs. */
    method FindSlot(id: nat) returns (slot: nat, found: bool)
      requires Whole()
      ensures slot < cap
      ensures found ==> used[slot] && keys[slot] == id
      ensures !found ==> !used[slot]
      ensures found <==> HasId(Contents, id)
      ensures !found ==> forall t :: 0 <= t < cap && Between(Home(id, cap), t, slot) ==> used[..][t]
    {
      var mask := cap - 1;
      MaskIsMod(HashU32(id), cap);
      slot := And(HashU32(id), mask);
      ghost var home := Home(id, cap);
      ghost var free := FreeSlot(View(), cap);
      while used[slot]
        invariant slot < cap
        invariant forall t :: 0 <= t < cap && Between(home, t, slot) ==> used[..][t] && keys[..][t] != id
        decreases if slot <= free then free - slot else free + cap - slot
      {
        if keys[slot] == id {
          found := true;
          FoundIndex(View(), cap, slot);
          return;
        }
        MaskIsMod(slot + 1, cap);
        SuccMod(slot, cap);
        ProbeStep(home, slot, free, cap);
        slot := And(slot + 1, mask);
      }
      found := false;
      NotFoundIndex(View(), cap, id, slot);
    }

    method InsertKnownNewAtSlot(slot: nat, id: nat, count: nat) returns (ok: bool)
      requires Whole()
      requires slot < cap && !used[slot] && 4 * (len + 1) < 3 * cap && !HasId(Contents, id)
      requires forall t :: 0 <= t < cap && Between(Home(id, cap), t, slot) ==> used[..][t]
      modifies Repr
      ensures Whole() && ok && Repr == old(Repr) && cap == old(cap)
      ensures Contents == old(Contents) + [Item(id, count)]
    {
      if slot >= cap || used[slot] || touchedLen >= touched.Length {
        return false;
      }
      InsertKeepsOk(View(), cap, slot, id, count);
      used[slot] := true;
      keys[slot] := id;
      counts[slot] := count;
      touched[touchedLen] := slot;
      rank := rank[slot := touchedLen];
      touchedLen := touchedLen + 1;
      len := len + 1;
      Contents := Contents + [Item(id, count)];
      ok := true;
      assert View() == old(View().Insert(slot, id, count));
    }

    method InsertKnownNew(id: nat, count: nat) returns (ok: bool)
      requires Whole()
      requires 4 * (len + 1) < 3 * cap && !HasId(Contents, id)
      modifies Repr
      ensures Whole() && ok && Repr == old(Repr) && cap == old(cap)
      ensures Contents == old(Contents) + [Item(id, count)]
    {
      var slot, found := FindSlot(id);
      if found {
        return false;
      }
      ok := InsertKnownNewAtSlot(slot, id, count);
    }

    /** The re-insertion loop of the rehash. */
    method CopyInto(next: CountTable) returns (ok: bool)
      requires Whole() && next.Whole() && Repr !! next.Repr
      requires next.Contents == [] && cap <= next.cap
      modifies next.Repr
      ensures next.Whole() && ok && next.Repr == old(next.Repr) && next.cap == old(next.cap)
      ensures next.Contents == Contents
    {
      ItemsDistinct(View(), cap);
      for i := 0 to touchedLen
        invariant next.Whole() && next.Repr == old(next.Repr) && next.cap == old(next.cap)
        invariant next.Contents == Contents[..i]
      {
        var slot := touched[i];
        TouchedAt(View(), cap, i);
        if !used[slot] {
          continue;
        }
        PrefixLacks(Contents, i);
        ok := next.InsertKnownNew(keys[slot], counts[slot]);
        if !ok {
          return;
        }
      }
      assert Contents[..touchedLen] == Contents;
      ok := true;
    }

    /** Takes over the arrays of a larger table with the same meaning. */
    method Adopt(next: CountTable)
      requires next.Whole() && next != this && Contents == next.Contents
      modifies this
      ensures Whole() && Contents == old(Contents)
      ensures Repr == {this} + (next.Repr - {next}) && cap == next.cap
    {
      ghost var v := next.View();
      keys, counts, used, touched := next.keys, next.counts, next.used, next.touched;
      cap, len, touchedLen := next.cap, next.len, next.touchedLen;
      rank := next.rank;
      Repr := {this, keys, counts, used, touched};
      assert View() == v && v.Ok(cap);
    }

    /** Moves every entry to arrays of `newCap` slots; the meaning, order included, stays. */
    method Rehash(newCap: nat, allocOk: bool) returns (ok: bool)
      requires Whole() && IsPowerOfTwo(newCap)
      modifies Repr
      ensures Whole() && fresh(Repr - old(Repr))
      ensures Contents == old(Contents)
      ensures ok <==> allocOk && old(cap) < newCap <= UINT32_MAX
      ensures cap == if ok then newCap else old(cap)
      ensures !ok ==> unchanged(old(Repr))
    {
      if newCap <= cap || newCap > UINT32_MAX || !allocOk {
        return false;
      }
      var next := new CountTable.WithCapacity(newCap);
      var moved := CopyInto(next);
      if !moved {
        return false;
      }
      Adopt(next);
      ok := true;
    }

    method EnsureInsertCapacity(allocOk: bool) returns (ok: bool)
      requires Whole()
      modifies Repr
      ensures Whole() && fresh(Repr - old(Repr))
      ensures Contents == old(Contents)
      ensures ok ==> 4 * (len + 1) < 3 * cap
      ensures ok <==> 4 * (|old(Contents)| + 1) < 3 * old(cap) || (allocOk && old(cap) <= UINT32_MAX / 2)
      ensures cap == if ok && 4 * (|old(Contents)| + 1) >= 3 * old(cap) then 2 * old(cap) else old(cap)
      ensures cap == old(cap) ==> unchanged(old(Repr))
    {
      var nextLen := len + 1;
      if nextLen * 4 < cap * 3 {
        return true;
      }
      if cap > UINT32_MAX / 2 {
        return false;
      }
      PowerOfTwoHalves(cap * 2);
      ok := Rehash(cap * 2, allocOk);
    }

    /** A new id needs a larger table and none can be had. */
    ghost predicate Refuses(id: nat, allocOk: bool)
      reads this
    {
      NoRoom(Contents, cap, id, allocOk)
    }

    /** The table has grown only as far as its entries needed, as it has until it is emptied. */
    ghost predicate Snug()
      reads this
    {
      cap == CapFor(|Contents|)
    }

    /** `stackmap_count_table_add`: bumps the entry of `id`, or leaves the meaning unchanged on failure.
        It fails exactly when a new id needs a larger table and none can be had. */
    method Add(id: nat, count: nat, allocOk: bool) returns (ok: bool)
      requires Valid()
      modifies Repr
      ensures Valid() && fresh(Repr - old(Repr))
      ensures Contents == if ok then Bump(old(Contents), id, count) else old(Contents)
      ensures !ok <==> old(Refuses(id, allocOk))
      ensures cap == if ok then GrownCap(old(Contents), old(cap), id) else old(cap)
    {
      assert OpenCounts(0);
      var slot, found := FindSlot(id);
      if found {
        AddAt(slot, count);
        return true;
      }
      var oldCap := cap;
      var room := EnsureInsertCapacity(allocOk);
      if !room {
        return false;
      }
      if cap != oldCap {
        slot, found := FindSlot(id);
        if found {
          // growing the table adds no key
          assert false;
        }
      }
      ok := InsertKnownNewAtSlot(slot, id, count);
    }

    method AddAt(slot: nat, count: nat)
      requires Whole() && slot < cap && used[slot]
      modifies Repr
      ensures Whole() && Repr == old(Repr) && cap == old(cap)
      ensures Contents == Bump(old(Contents), old(keys[slot]), count)
    {
      FoundIndex(View(), cap, slot);
      SetCountKeepsOk(View(), cap, slot, AddU64(counts[slot], count));
      counts[slot] := AddU64(counts[slot], count);
      Contents := Contents[rank[slot] := Item(keys[slot], counts[slot])];
      assert View() == old(View().SetCount(slot, AddU64(counts[slot], count)));
    }

    /** `stackmap_count_table_get`. */
    method Get(id: nat) returns (found: bool, count: nat)
      requires Valid()
      ensures found <==> HasId(Contents, id)
      ensures count == CountOf(Contents, id)
    {
      assert OpenCounts(0);
      var slot;
      slot, found := FindSlot(id);
      count := 0;
      ItemsDistinct(View(), cap);
      if found {
        count := counts[slot];
        FoundIndex(View(), cap, slot);
        CountAt(Contents, rank[slot]);
      } else {
        CountAbsent(Contents, id);
      }
    }

    /** `stackmap_count_table_reset`: clears the touched slots, which empties the whole table. */
    method Reset()
      requires Whole()
      modifies Repr
      ensures Whole() && Repr == old(Repr) && cap == old(cap)
      ensures Contents == []
      ensures forall s :: 0 <= s < cap ==> !used[s] && keys[s] == 0 && counts[s] == 0
    {
      ghost var before := View();
      ClearBegins(before, cap);
      for i := 0 to touchedLen
        invariant unchanged(this) && unchanged(touched)
        invariant ClearedTo(before, cap, i, used[..], keys[..], counts[..])
      {
        ClearStep(before, cap, i, used[..], keys[..], counts[..]);
        var slot := touched[i];
        used[slot] := false;
        keys[slot] := 0;
        counts[slot] := 0;
      }
      ClearEnds(before, cap, used[..], keys[..], counts[..]);
      len := 0;
      touchedLen := 0;
      Contents := [];
      EmptyOk(View(), cap);
    }

    /** First pass of the hand-out: how many entries will be taken. */
    method CountSelected(nonzeroOnly: bool) returns (outLen: nat)
      requires Whole()
      ensures outLen == |Selected(nonzeroOnly, Contents)|
    {
      outLen := 0;
      for i := 0 to touchedLen
        invariant outLen == |Selected(nonzeroOnly, Contents[..i])|
      {
        SelectedStep(nonzeroOnly, Contents, i);
        var slot := touched[i];
        TouchedAt(View(), cap, i);
        if !used[slot] || (nonzeroOnly && counts[slot] == 0) {
          continue;
        }
        outLen := outLen + 1;
      }
      assert Contents[..touchedLen] == Contents;
    }

    /** Second pass of the hand-out: the entries in first-touch order. */
    method CopySelected(nonzeroOnly: bool) returns (items: seq<Item>)
      requires Whole()
      ensures items == Selected(nonzeroOnly, Contents)
    {
      items := [];
      for i := 0 to touchedLen
        invariant items == Selected(nonzeroOnly, Contents[..i])
      {
        SelectedStep(nonzeroOnly, Contents, i);
        var slot := touched[i];
        TouchedAt(View(), cap, i);
        if !used[slot] || (nonzeroOnly && counts[slot] == 0) {
          continue;
        }
        items := items + [Item(keys[slot], counts[slot])];
      }
      assert Contents[..touchedLen] == Contents;
    }

    /** `stackmap_count_table_take_items`: hands out the entries in first-touch order and empties the table. */
    method TakeItems(nonzeroOnly: bool, allocOk: bool) returns (ok: bool, items: seq<Item>)
      requires Valid()
      modifies Repr
      ensures Valid() && Repr == old(Repr)
      ensures ok ==> Contents == [] && items == Selected(nonzeroOnly, old(Contents))
      ensures !ok ==> Contents == old(Contents) && items == []
      ensures !ok <==> !allocOk && Selected(nonzeroOnly, old(Contents)) != []
    {
      assert OpenCounts(0);
      var outLen := CountSelected(nonzeroOnly);
      if outLen != 0 && !allocOk {
        return false, [];
      }
      items := CopySelected(nonzeroOnly);
      Reset();
      ok := true;
    }
  }

  /** An id that `items` lacks needs more than `cap` slots, and they cannot be had. */
  ghost predicate NoRoom(items: seq<Item>, cap: nat, id: nat, allocOk: bool) {
    !HasId(items, id) && 4 * (|items| + 1) >= 3 * cap && !(allocOk && cap <= UINT32_MAX / 2)
  }

  /** The slots after an addition to a table of `cap` slots. */
  ghost function GrownCap(items: seq<Item>, cap: nat, id: nat): nat {
    if !HasId(items, id) && 4 * (|items| + 1) >= 3 * cap then 2 * cap else cap
  }

  lemma {:induction false} SnugGrows(items: seq<Item>, id: nat, count: nat)
    ensures GrownCap(items, CapFor(|items|), id) == CapFor(|Bump(items, id, count)|)
  {
    var i := IndexOf(items, id);
    assert i < |items| ==> items[i].id == id;
  }

  /** The slots of a table that has grown to `n` entries. */
  function CapFor(n: nat): nat {
    if n == 0 then INITIAL_CAP
    else if 4 * n < 3 * CapFor(n - 1) then CapFor(n - 1) else 2 * CapFor(n - 1)
  }

  lemma {:induction false} InitialCap()
    ensures IsPowerOfTwo(INITIAL_CAP)
  {
    Pow2Recognised(4);
    assert Pow2(4) == 16;
  }

  ghost function Selected(nonzeroOnly: bool, items: seq<Item>): seq<Item> {
    if nonzeroOnly then NonZero(items) else items
  }

  lemma {:induction false} SelectedStep(nonzeroOnly: bool, items: seq<Item>, i: nat)
    requires i < |items|
    ensures Selected(nonzeroOnly, items[..i + 1]) == Selected(nonzeroOnly, items[..i])
              + (if nonzeroOnly && items[i].count == 0 then [] else [items[i]])
  {
    assert items[..i + 1] == items[..i] + [items[i]];
    NonZeroAppend(items[..i], [items[i]]);
    assert [items[i]][1..] == [];
  }

  lemma {:induction false} SuccMod(x: nat, n: nat)
    requires x < n
    ensures (x + 1) % n == if x + 1 == n then 0 else x + 1
  {
    if x + 1 == n {
      ModUnique(n, n, 1, 0);
    } else {
      ModUnique(x + 1, n, 0, x + 1);
    }
  }

  ghost function Range(n: nat): (r: set<nat>)
    ensures forall i :: i in r <==> 0 <= i < n
    ensures |r| == n
  {
    if n == 0 then {} else Range(n - 1) + {n - 1}
  }

  /** Pigeonhole: an injection cannot lead into a smaller set. */
  lemma {:induction false} InjectiveSize(a: set<nat>, b: set<nat>, f: seq<nat>)
    requires forall x :: x in a ==> 0 <= x < |f| && f[x] in b
    requires forall x, y :: x in a && y in a && f[x] == f[y] ==> x == y
    ensures |a| <= |b|
    decreases |a|
  {
    if a != {} {
      var x :| x in a;
      InjectiveSize(a - {x}, b - {f[x]}, f);
    }
  }
}

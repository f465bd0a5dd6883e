/** Heap order on plain sequences of values. */
module HeapOrder {
  function Parent(i: nat): nat
    requires i > 0
  {
    (i - 1) / 2
  }

  /** Every value is at least its parent. */
  ghost predicate IsHeap(v: seq<nat>) {
    forall j :: 0 < j < |v| ==> v[Parent(j)] <= v[j]
  }

  /** The children of `i` are at least the parent of `i`. */
  ghost predicate Bridged(v: seq<nat>, i: nat)
    requires i < |v|
  {
    forall j :: 0 < j < |v| && i > 0 && Parent(j) == i ==> v[Parent(i)] <= v[j]
  }

  /** Only the value at `i` may be out of order, and only by being too small. */
  ghost predicate SmallAt(v: seq<nat>, i: nat)
    requires i < |v|
  {
    Bridged(v, i) && forall j :: 0 < j < |v| && j != i ==> v[Parent(j)] <= v[j]
  }

  /** Only the value at `i` may be out of order, and only by being too large. */
  ghost predicate LargeAt(v: seq<nat>, i: nat)
    requires i < |v|
  {
    Bridged(v, i) && forall j :: 0 < j < |v| && Parent(j) != i ==> v[Parent(j)] <= v[j]
  }

  function Swapped(v: seq<nat>, i: nat, j: nat): seq<nat>
    requires i < |v| && j < |v|
  {
    v[i := v[j]][j := v[i]]
  }

  lemma {:induction false} UpStep(v: seq<nat>, i: nat)
    requires 0 < i < |v| && SmallAt(v, i) && v[i] < v[Parent(i)]
    ensures SmallAt(Swapped(v, i, Parent(i)), Parent(i))
  {
  }

  lemma {:induction false} UpEnds(v: seq<nat>, i: nat)
    requires i < |v| && SmallAt(v, i) && (i > 0 ==> v[i] >= v[Parent(i)])
    ensures IsHeap(v)
  {
  }

  /** `c` is a child of `i` and no other child is smaller. */
  ghost predicate LeastChild(v: seq<nat>, i: nat, c: nat) {
    0 < c < |v| && Parent(c) == i && forall j :: 0 < j < |v| && Parent(j) == i ==> v[c] <= v[j]
  }

  ghost predicate Childless(v: seq<nat>, i: nat) {
    forall j :: 0 < j < |v| ==> Parent(j) != i
  }

  lemma {:induction false} DownStep(v: seq<nat>, i: nat, c: nat)
    requires i < |v| && LeastChild(v, i, c) && LargeAt(v, i) && v[c] < v[i]
    ensures LargeAt(Swapped(v, i, c), c)
  {
  }

  lemma {:induction false} DownEnds(v: seq<nat>, i: nat, c: nat)
    requires i < |v| && LargeAt(v, i)
    requires Childless(v, i) || (LeastChild(v, i, c) && v[i] <= v[c])
    ensures IsHeap(v)
  {
  }

  /** Nothing is less than the root. */
  lemma {:induction false} RootIsLeast(v: seq<nat>, i: nat)
    requires IsHeap(v) && i < |v|
    ensures v[0] <= v[i]
  {
    if i > 0 {
      RootIsLeast(v, Parent(i));
    }
  }

  /** Raising one value. */
  lemma {:induction false} Raised(v: seq<nat>, i: nat, x: nat)
    requires IsHeap(v) && i < |v| && v[i] <= x
    ensures LargeAt(v[i := x], i)
  {
  }

  /** The value at `i` is at most its children. */
  ghost predicate NoLarger(v: seq<nat>, i: nat)
    requires i < |v|
  {
    forall j :: 0 < j < |v| && Parent(j) == i ==> v[i] <= v[j]
  }

  /** A value at position `i` would be no less than its parent. */
  predicate AtLeastParent(v: seq<nat>, i: nat, x: nat) {
    i == 0 || (Parent(i) < |v| && v[Parent(i)] <= x)
  }

  lemma {:induction false} DownMoves(v: seq<nat>, i: nat, c: nat)
    requires i < |v| && LeastChild(v, i, c) && v[c] < v[i]
    ensures i < c && !NoLarger(v, i)
    ensures LargeAt(v, i) ==> LargeAt(Swapped(v, i, c), c)
  {
    if LargeAt(v, i) {
      DownStep(v, i, c);
    }
  }

  /** Lowering one value in place keeps the order exactly when it stays at least its parent. */
  lemma {:induction false} LoweredIff(v: seq<nat>, i: nat, x: nat)
    requires IsHeap(v) && i < |v| && x <= v[i]
    ensures NoLarger(v[i := x], i)
    ensures IsHeap(v[i := x]) <==> AtLeastParent(v, i, x)
  {
    var w := v[i := x];
    if i > 0 && w[Parent(i)] > w[i] {
      assert !IsHeap(w);
    }
  }

  /** Lowering one value. */
  lemma {:induction false} Lowered(v: seq<nat>, i: nat, x: nat)
    requires IsHeap(v) && i < |v| && x <= v[i]
    ensures SmallAt(v[i := x], i)
  {
  }

  /** Appending one value. */
  lemma {:induction false} Appended(v: seq<nat>, x: nat)
    requires IsHeap(v)
    ensures SmallAt(v + [x], |v|)
  {
  }

  /** Moving the last value to the root. */
  lemma {:induction false} Refilled(v: seq<nat>)
    requires IsHeap(v) && |v| > 1
    ensures LargeAt(v[..|v| - 1][0 := v[|v| - 1]], 0)
  {
  }
}

/** The indexed min-heap of src/cli_struct_helper/cli_counter_heap_helper.c: entries know their own position, and a hash table
    finds them by key.
  */
module CounterHeaps {
  import opened Bits
  import opened Options
  import opened Markers
  import opened HeapOrder

  class Entry {
    const key: nat
    var value: nat
    var index: nat

    constructor (key: nat, value: nat, index: nat)
      ensures this.key == key && this.value == value && this.index == index
    {
      this.key, this.value, this.index := key, value, index;
    }
  }

  /** The position `i` places after `from` in a ring of `n`. */
  function Around(n: nat, from: nat, i: nat): nat
    requires from < n && i <= n
  {
    if from + i < n then from + i else from + i - n
  }

  /** How many of `n` entries one chunk visits. */
  function ChunkLength(n: nat, limit: nat, callocOk: bool): (r: nat)
    ensures r <= n && r <= limit
  {
    if !callocOk then 0 else if limit < n then limit else n
  }

  /** Where the next chunk starts: behind this one, around the end; without memory where this one would have started. */
  function CursorAfter(n: nat, cursor: nat, limit: nat, callocOk: bool): nat {
    if limit == 0 || n == 0 then cursor else Around(n, if cursor < n then cursor else 0, ChunkLength(n, limit, callocOk))
  }

  /** One more entry gets in: the array is not full, or it can be doubled. */
  predicate HasRoom(size: nat, capacity: nat, reallocOk: bool) {
    size < capacity || reallocOk
  }

  function GrownCapacity(size: nat, capacity: nat, reallocOk: bool): nat {
    if size < capacity || !reallocOk then capacity else if capacity > 0 then capacity * 2 else 16
  }

  class CounterHeap {
    var heap: seq<Entry>
    var capacity: nat
    var byKey: map<nat, Entry>

    constructor (initialCapacity: nat)
      ensures Valid() && byKey == map[] && heap == [] && capacity == if initialCapacity == 0 then 16 else initialCapacity
    {
      heap, byKey := [], map[];
      capacity := if initialCapacity == 0 then 16 else initialCapacity;
    }

    /** Array, back indices and hash table agree; so no entry and no key is in the array twice. */
    ghost predicate Linked()
      reads this, heap, byKey.Values
    {
      forall k {:trigger OpenLinks(k)} :: OpenLinks(k) ==>
        && (forall i :: 0 <= i < |heap| ==> heap[i].index == i)
        && (forall i :: 0 <= i < |heap| ==> heap[i].key in byKey && byKey[heap[i].key] == heap[i])
        && (forall k :: k in byKey ==> byKey[k].key == k && byKey[k].index < |heap| && heap[byKey[k].index] == byKey[k])
    }

    ghost function Vals(): (v: seq<nat>)
      reads this, heap
      ensures |v| == |heap|
    {
      seq(|heap|, i requires 0 <= i < |heap| reads this, heap => heap[i].value)
    }

    ghost predicate Valid()
      reads this, heap, byKey.Values
    {
      forall k {:trigger OpenHeap(k)} :: OpenHeap(k) ==> Linked() && IsHeap(Vals()) && |heap| <= capacity
    }

    /** What the heap holds: the value of every key. */
    ghost function Content(): map<nat, nat>
      reads this, byKey.Values
    {
      map k | k in byKey :: byKey[k].value
    }

    method Swap(i: nat, j: nat)
      requires Linked() && i < |heap| && j < |heap| && i != j
      modifies this`heap, byKey.Values`index
      ensures Linked()
      ensures Vals() == Swapped(old(Vals()), i, j)
    {
      assert OpenLinks(0);
      var a, b := heap[i], heap[j];
      heap := heap[i := b][j := a];
      b.index := i;
      a.index := j;
    }

    method HeapifyUp(start: nat)
      requires Linked() && start < |heap| && SmallAt(Vals(), start)
      modifies this`heap, byKey.Values`index
      ensures Linked() && IsHeap(Vals()) && |heap| == |old(heap)|
    {
      var index: nat := start;
      while index > 0
        invariant Linked() && index < |heap| == |old(heap)| && SmallAt(Vals(), index)
      {
        var parent := Parent(index);
        if heap[index].value >= heap[parent].value {
          break;
        }
        UpStep(Vals(), index);
        Swap(index, parent);
        index := parent;
      }
      UpEnds(Vals(), index);
    }

    /** The smaller child, if there is one. */
    method SmallerChild(index: nat) returns (child: Option<nat>)
      requires index < |heap|
      ensures child.None? ==> Childless(Vals(), index)
      ensures child.Some? ==> LeastChild(Vals(), index, child.value)
    {
      var left := 2 * index + 1;
      if left >= |heap| {
        return None;
      }
      var smallest := left;
      var right := left + 1;
      if right < |heap| && heap[right].value < heap[left].value {
        smallest := right;
      }
      return Some(smallest);
    }

    lemma {:induction false} DownStops(v: seq<nat>, i: nat, child: Option<nat>)
      requires i < |v|
      requires child.None? ==> Childless(v, i)
      requires child.Some? ==> LeastChild(v, i, child.value) && v[i] <= v[child.value]
      ensures LargeAt(v, i) ==> IsHeap(v)
    {
      if LargeAt(v, i) {
        DownEnds(v, i, if child.Some? then child.value else 0);
      }
    }

    /** One round of the sift: stops, or swaps with the smaller child and moves on to it. */
    method DownOnce(index: nat) returns (next: Option<nat>)
      requires Linked() && index < |heap|
      modifies this`heap, byKey.Values`index
      ensures Linked() && |heap| == |old(heap)|
      ensures next.None? ==> Vals() == old(Vals()) && (LargeAt(old(Vals()), index) ==> IsHeap(Vals()))
      ensures next.Some? ==> index < next.value < |heap| && !NoLarger(old(Vals()), index)
      ensures next.Some? && LargeAt(old(Vals()), index) ==> LargeAt(Vals(), next.value)
    {
      ghost var v := Vals();
      var child := SmallerChild(index);
      if child.None? || heap[index].value <= heap[child.value].value {
        DownStops(v, index, child);
        return None;
      }
      DownMoves(v, index, child.value);
      Swap(index, child.value);
      return child;
    }

    /** Puts a value that is too large in its place, and leaves one alone that is at most its children. */
    method HeapifyDown(start: nat)
      requires Linked() && start < |heap|
      modifies this`heap, byKey.Values`index
      ensures Linked() && |heap| == |old(heap)|
      ensures LargeAt(old(Vals()), start) ==> IsHeap(Vals())
      ensures NoLarger(old(Vals()), start) ==> Vals() == old(Vals())
    {
      ghost var v := Vals();
      var at := DownOnce(start);
      if at.None? {
        return;
      }
      while at.Some?
        invariant Linked() && |heap| == |old(heap)| && !NoLarger(v, start)
        invariant at.Some? ==> at.value < |heap|
        invariant LargeAt(v, start) ==> if at.Some? then LargeAt(Vals(), at.value) else IsHeap(Vals())
        decreases if at.Some? then |heap| - at.value else 0
      {
        at := DownOnce(at.value);
      }
    }

    // -------------------------------------------------------------------------------------------
    // Operations

    ghost predicate Holds(e: Entry)
      reads this
    {
      e.key in byKey && byKey[e.key] == e
    }

    lemma {:induction false} HeldAt(e: Entry)
      requires Linked() && Holds(e)
      ensures e.index < |heap| && heap[e.index] == e && Vals()[e.index] == e.value
    {
      assert OpenLinks(0);
    }

    /** A key leads to its place in the array. */
    lemma {:induction false} KeyAt(k: nat)
      requires Valid() && k in byKey
      ensures byKey[k].index < |heap| && heap[byKey[k].index] == byKey[k] && byKey[k].key == k
    {
      assert OpenHeap(0) && OpenLinks(0);
    }

    method EnsureCapacity(reallocOk: bool) returns (ok: bool)
      requires Valid()
      modifies this`capacity
      ensures Valid() && Content() == old(Content())
      ensures ok <==> HasRoom(|heap|, old(capacity), reallocOk)
      ensures capacity == GrownCapacity(|heap|, old(capacity), reallocOk) && (ok ==> |heap| < capacity)
    {
      assert OpenHeap(0);
      if |heap| < capacity {
        return true;
      }
      if !reallocOk {
        return false;
      }
      capacity := if capacity > 0 then capacity * 2 else 16;
      ok := true;
    }

    /** Puts an entry that is not in the heap at the end. */
    method Attach(e: Entry)
      requires Linked() && e.key !in byKey && e !in byKey.Values
      modifies this`heap, this`byKey, e`index
      ensures Linked() && byKey == old(byKey)[e.key := e]
      ensures e.index == |old(heap)| < |heap| == |old(heap)| + 1
      ensures Vals() == old(Vals()) + [e.value]
      ensures Content() == old(Content())[e.key := e.value]
    {
      assert e !in heap by {
        assert OpenLinks(0);
      }
      e.index := |heap|;
      heap := heap + [e];
      byKey := byKey[e.key := e];
      assert Linked() by {
        assert OpenLinks(0);
      }
    }

    method Place(e: Entry)
      requires Valid() && |heap| < capacity && e.key !in byKey && e !in byKey.Values
      modifies this`heap, this`byKey, byKey.Values`index, e`index
      ensures Valid() && byKey == old(byKey)[e.key := e] && |heap| == |old(heap)| + 1
      ensures Content() == old(Content())[e.key := e.value]
    {
      assert OpenHeap(0);
      Appended(Vals(), e.value);
      Attach(e);
      HeapifyUp(e.index);
    }

    method InsertNew(key: nat, initial: nat) returns (e: Entry)
      requires Valid() && |heap| < capacity && key !in byKey
      modifies this`heap, this`byKey, byKey.Values`index
      ensures Valid() && fresh(e) && byKey == old(byKey)[key := e] && |heap| == |old(heap)| + 1
      ensures Content() == old(Content())[key := initial]
    {
      e := new Entry(key, initial, |heap|);
      Place(e);
    }

    /** `cli_counter_heap_insert`: fails exactly when a new entry gets no memory or a full array cannot grow; then it holds what it held. */
    method Insert(key: nat, initial: nat, reallocOk: bool, callocOk: bool) returns (entry: Entry?)
      requires Valid()
      modifies this, byKey.Values`index
      ensures Valid()
      ensures key in old(byKey) ==> entry == old(byKey)[key]
      ensures entry == null <==> key !in old(byKey) && !(callocOk && HasRoom(|old(heap)|, old(capacity), reallocOk))
      ensures capacity == if key in old(byKey) then old(capacity) else GrownCapacity(|old(heap)|, old(capacity), reallocOk)
      ensures |heap| == |old(heap)| + if key !in old(byKey) && entry != null then 1 else 0
      ensures key in old(byKey) || entry == null ==> byKey == old(byKey) && Content() == old(Content())
      ensures key !in old(byKey) && entry != null ==>
                fresh(entry) && byKey == old(byKey)[key := entry] && Content() == old(Content())[key := initial]
    {
      if key in byKey {
        return byKey[key];
      }
      var ok := EnsureCapacity(reallocOk);
      if !ok || !callocOk {
        return null;
      }
      entry := InsertNew(key, initial);
    }

    /** `cli_counter_heap_push_entry`: fails exactly when the array is full and cannot grow. */
    method PushEntry(e: Entry, reallocOk: bool) returns (ok: bool)
      requires Valid() && e.key !in byKey && e !in byKey.Values
      modifies this, byKey.Values`index, e`index
      ensures Valid()
      ensures ok <==> HasRoom(|old(heap)|, old(capacity), reallocOk)
      ensures capacity == GrownCapacity(|old(heap)|, old(capacity), reallocOk) && |heap| == |old(heap)| + if ok then 1 else 0
      ensures ok ==> byKey == old(byKey)[e.key := e] && Content() == old(Content())[e.key := e.value]
      ensures !ok ==> byKey == old(byKey) && Content() == old(Content())
    {
      ok := EnsureCapacity(reallocOk);
      if !ok {
        return;
      }
      Place(e);
    }

    method SetValue(e: Entry, value: nat)
      requires Linked() && Holds(e)
      modifies e`value
      ensures Linked() && e.value == value && e.index < |heap| && Vals() == old(Vals())[e.index := value]
      ensures Content() == old(Content())[e.key := value]
    {
      assert OpenLinks(0);
      e.value := value;
    }

    /** `cli_counter_heap_update_value`. */
    method UpdateValue(e: Entry, value: nat)
      requires Valid() && Holds(e)
      modifies this`heap, byKey.Values`index, e`value
      ensures Valid() && byKey == old(byKey)
      ensures Content() == old(Content())[e.key := value]
    {
      assert OpenHeap(0);
      if value == e.value {
        return;
      }
      ghost var v := Vals();
      var before := e.value;
      HeldAt(e);
      SetValue(e, value);
      if value < before {
        Lowered(v, e.index, value);
        HeapifyUp(e.index);
      } else {
        Raised(v, e.index, value);
        HeapifyDown(e.index);
      }
    }

    /** `cli_counter_heap_increment`, with the wrap-around of the 64-bit value. Without wrap-around the heap stays in order. With
        it the entry does not move, and the heap stays in order exactly when the entry is the root or still at least its
        parent. */
    method Increment(e: Entry, delta: nat)
      requires Valid() && Holds(e) && e.value < U64 && delta < U64
      modifies this`heap, byKey.Values`index, e`value
      ensures Linked() && byKey == old(byKey) && |heap| == |old(heap)| <= capacity
      ensures Content() == old(Content())[e.key := AddU64(old(e.value), delta)]
      ensures old(e.value) + delta < U64 ==> Valid()
      ensures old(e.value) + delta >= U64 ==>
                (IsHeap(Vals()) <==> AtLeastParent(old(Vals()), old(e.index), AddU64(old(e.value), delta)))
    {
      assert OpenHeap(0);
      if delta == 0 {
        return;
      }
      ghost var v := Vals();
      HeldAt(e);
      var value := AddU64(e.value, delta);
      SetValue(e, value);
      Incremented(v, e.index, delta);
      HeapifyDown(e.index);
    }

    /** What an increment does to the order, before the sift. */
    lemma {:induction false} Incremented(v: seq<nat>, i: nat, delta: nat)
      requires IsHeap(v) && i < |v| && v[i] < U64 && delta < U64
      ensures var w := v[i := AddU64(v[i], delta)];
              && (v[i] + delta < U64 ==> LargeAt(w, i))
              && (v[i] + delta >= U64 ==> NoLarger(w, i) && (IsHeap(w) <==> AtLeastParent(v, i, w[i])))
    {
      var value := AddU64(v[i], delta);
      if v[i] + delta < U64 {
        Raised(v, i, value);
      } else {
        assert value == Wrap(v[i] + delta - U64);
        LoweredIff(v, i, value);
      }
    }

    lemma {:induction false} LeastFirst()
      requires Linked() && IsHeap(Vals())
      ensures heap == [] <==> byKey == map[]
      ensures heap != [] ==> heap[0].key in byKey && byKey[heap[0].key] == heap[0]
      ensures heap != [] ==> forall k :: k in byKey ==> heap[0].value <= byKey[k].value
    {
      assert OpenLinks(0);
      assert heap != [] ==> heap[0].key in byKey;
      forall k | k in byKey
        ensures heap != [] && heap[0].value <= byKey[k].value
      {
        RootIsLeast(Vals(), byKey[k].index);
      }
    }

    /** The last entry takes the place of the first. */
    method RemoveRoot() returns (min: Entry)
      requires Valid() && heap != []
      modifies this`heap, this`byKey, byKey.Values`index
      ensures min == old(heap)[0] && Linked() && byKey == old(byKey) - {min.key}
      ensures |heap| == |old(heap)| - 1 && (heap != [] ==> LargeAt(Vals(), 0))
    {
      assert OpenHeap(0);
      min := heap[0];
      ghost var v := Vals();
      var n := |heap| - 1;
      if n > 0 {
        Refilled(v);
      }
      MoveLast(n);
    }

    method MoveLast(n: nat)
      requires Linked() && n + 1 == |heap|
      modifies this`heap, this`byKey, byKey.Values`index
      ensures Linked() && byKey == old(byKey) - {old(heap)[0].key}
      ensures |heap| == n && (n > 0 ==> Vals() == old(Vals())[..n][0 := old(Vals())[n]])
    {
      ghost var v := Vals();
      var min, last := heap[0], heap[n];
      assert last in byKey.Values by {
        assert OpenLinks(0) && last.key in byKey && byKey[last.key] == last;
      }
      byKey := byKey - {min.key};
      if n == 0 {
        heap := [];
      } else {
        heap := heap[..n][0 := last];
        last.index := 0;
        assert Vals() == v[..n][0 := v[n]];
      }
      assert Linked() by {
        assert OpenLinks(0);
      }
    }

    /** `cli_counter_heap_pop_min`: a least entry leaves and the rest stays as it is. */
    method PopMin() returns (min: Entry?)
      requires Valid()
      modifies this`heap, this`byKey, byKey.Values`index
      ensures Valid()
      ensures min == null <==> old(byKey) == map[]
      ensures min == null ==> byKey == old(byKey) && Content() == old(Content())
      ensures min != null ==> min.key in old(byKey) && old(byKey)[min.key] == min && byKey == old(byKey) - {min.key} && Content() == old(Content()) - {min.key}
      ensures min != null ==> forall k :: k in old(Content()) ==> min.value <= old(Content())[k]
    {
      assert OpenHeap(0);
      LeastFirst();
      if heap == [] {
        return null;
      }
      min := RemoveRoot();
      if heap != [] {
        HeapifyDown(0);
      }
    }

    /** `cli_counter_heap_find`. */
    method Find(key: nat) returns (entry: Entry?)
      requires Valid()
      ensures entry == null <==> key !in Content()
      ensures entry != null ==> Holds(entry) && entry.key == key && entry.value == Content()[key]
    {
      assert OpenHeap(0) && OpenLinks(0);
      if key in byKey {
        entry := byKey[key];
      } else {
        entry := null;
      }
    }

    /** The selection of `cli_counter_heap_for_each_chunk`: consecutive entries from the cursor on, around the end, none twice. */
    method Chunk(cursor: nat, limit: nat, callocOk: bool) returns (items: seq<Entry>, next: nat)
      requires Valid()
      ensures |items| == ChunkLength(|heap|, limit, callocOk) && next == CursorAfter(|heap|, cursor, limit, callocOk)
      ensures forall i :: 0 <= i < |items| ==> items[i] == heap[Around(|heap|, if cursor < |heap| then cursor else 0, i)]
      ensures forall i :: 0 <= i < |items| ==> Holds(items[i])
      ensures forall i, j :: 0 <= i < j < |items| ==> items[i] != items[j]
    {
      assert OpenHeap(0) && OpenLinks(0);
      items, next := [], cursor;
      if limit == 0 || heap == [] {
        return;
      }
      if next >= |heap| {
        next := 0;
      }
      var chunk := if limit > |heap| then |heap| else limit;
      if !callocOk {
        return;
      }
      ghost var from := next;
      for i := 0 to chunk
        invariant |items| == i && next == Around(|heap|, from, i) && next < |heap|
        invariant forall j :: 0 <= j < i ==> items[j] == heap[Around(|heap|, from, j)]
      {
        items := items + [heap[next]];
        next := next + 1;
        if next == |heap| {
          next := 0;
        }
      }
      forall i, j | 0 <= i < j < |items|
        ensures items[i] != items[j]
      {
        assert items[i].index == Around(|heap|, from, i) && items[j].index == Around(|heap|, from, j);
      }
    }
  }

  /** The least of two values is at the root. */
  lemma {:induction false} RootOfTwo(h: CounterHeap, e: Entry)
    requires h.Valid() && h.byKey.Keys == {1, 2} && h.byKey[1].value == 5 && h.byKey[2] == e && e.value > 5
    ensures !AtLeastParent(h.Vals(), e.index, 2)
  {
    assert OpenHeap(0) && OpenLinks(0);
    h.LeastFirst();
    assert h.heap[0].key in h.byKey && h.byKey[1].value >= h.heap[0].value;
    var v := h.Vals();
    assert v[0] == 5 && e.index != 0;
    RootIsLeast(v, Parent(e.index));
  }

  /** An increment that wraps around puts a heap out of order: 5 at the root, and 2 below it. */
  method WrapDisorders() returns (h: CounterHeap)
    ensures h.Linked() && h.Content() == map[1 := 5, 2 := 2] && !IsHeap(h.Vals())
  {
    h := new CounterHeap(0);
    var a := h.Insert(1, 5, true, true);
    var b := h.Insert(2, U64 - 1, true, true);
    assert h.Content()[1] == 5 && h.Content()[2] == U64 - 1;
    RootOfTwo(h, b);
    h.KeyAt(2);
    assert Wrap(2) == 2;
    assert AddU64(U64 - 1, 3) == 2;
    h.Increment(b, 3);
  }
}

/** The mutable time wheel: an array of buckets, each with a count table of its own. Every operation is proved to do to the
    wheel what the corresponding function of `Wheels` says.
  */
module TimeWheels {
  import opened Bits
  import opened Options
  import opened Markers
  import opened Items
  import opened CountTables
  import opened Wheels

  const INITIAL_BUCKETS: nat := 16

  /** One interval handed to the flush callback. */
  datatype Interval = Interval(startMs: nat, endMs: nat, items: seq<Item>)

  function IntervalOf(b: Bucket): Interval {
    Interval(b.sec * BUCKET_MS, b.sec * BUCKET_MS + BUCKET_MS, NonZero(b.items))
  }

  function IntervalsOf(bs: seq<Bucket>): (r: seq<Interval>)
    ensures |r| == |bs|
    ensures forall i :: 0 <= i < |bs| ==> r[i] == IntervalOf(bs[i])
  {
    seq(|bs|, i requires 0 <= i < |bs| => IntervalOf(bs[i]))
  }

  /** What the flush callback gets out of a bucket: no entries when there was no memory to hand them out. */
  datatype Handed = Handed(startMs: nat, endMs: nat, taken: Option<seq<Item>>)

  function Handing(r: Interval, takeOk: bool): Handed {
    Handed(r.startMs, r.endMs, if !takeOk && r.items != [] then None else Some(r.items))
  }

  /** Whether there is memory for the entries of interval `i` of a flush. */
  predicate TakeOk(takeOk: seq<bool>, i: nat) {
    i >= |takeOk| || takeOk[i]
  }

  /** The intervals of a flush as they are handed out; `takeOk` says for each of them whether memory can be had. */
  function HandedOut(out: seq<Interval>, takeOk: seq<bool>): (r: seq<Handed>)
    ensures |r| == |out|
    ensures forall i :: 0 <= i < |out| ==> r[i] == Handing(out[i], TakeOk(takeOk, i))
  {
    seq(|out|, i requires 0 <= i < |out| => Handing(out[i], TakeOk(takeOk, i)))
  }

  lemma {:induction false} HandedMore(done: seq<Bucket>, b: Bucket, takeOk: seq<bool>)
    ensures HandedOut(IntervalsOf(done + [b]), takeOk)
            == HandedOut(IntervalsOf(done), takeOk) + [Handing(IntervalOf(b), TakeOk(takeOk, |done|))]
  {
  }

  /** Taking the oldest ready bucket first is how a drain begins. */
  lemma {:induction false} DrainStep(bs: seq<Bucket>, l: Limit, done: seq<Bucket>)
    requires Oldest(bs, l, |bs|) < |bs|
    ensures var i := Oldest(bs, l, |bs|);
            && Drain(bs, l).0 == Drain(Without(bs, i), l).0
            && done + Drain(bs, l).1 == (done + [bs[i]]) + Drain(Without(bs, i), l).1
  {
    var i := Oldest(bs, l, |bs|);
    var tail := Drain(Without(bs, i), l).1;
    assert Drain(bs, l).1 == [bs[i]] + tail;
    assert done + ([bs[i]] + tail) == (done + [bs[i]]) + tail;
  }

  /** A flush of `w0` that has so far taken out `done` and left `w`. */
  ghost predicate Draining(w0: Wheel, l: Limit, takeOk: seq<bool>, w: Wheel, done: seq<Bucket>, out: seq<Handed>) {
    forall k {:trigger OpenWheel(k)} :: OpenWheel(k) ==>
      && w == w0.(buckets := w.buckets, flushedBuckets := w0.flushedBuckets + |done|)
      && out == HandedOut(IntervalsOf(done), takeOk)
      && Drain(w0.buckets, l).0 == Drain(w.buckets, l).0
      && Drain(w0.buckets, l).1 == done + Drain(w.buckets, l).1
  }

  lemma {:induction false} DrainBegins(w: Wheel, l: Limit, takeOk: seq<bool>)
    ensures Draining(w, l, takeOk, w, [], [])
  {
    assert [] + Drain(w.buckets, l).1 == Drain(w.buckets, l).1;
  }

  lemma {:induction false} DrainGoes(w0: Wheel, l: Limit, takeOk: seq<bool>, w: Wheel, done: seq<Bucket>, out: seq<Handed>)
    requires Draining(w0, l, takeOk, w, done, out) && Oldest(w.buckets, l, |w.buckets|) < |w.buckets|
    ensures var i := Oldest(w.buckets, l, |w.buckets|);
            Draining(w0, l, takeOk, w.(buckets := Without(w.buckets, i), flushedBuckets := w.flushedBuckets + 1),
                     done + [w.buckets[i]], out + [Handing(IntervalOf(w.buckets[i]), TakeOk(takeOk, |out|))])
  {
    assert OpenWheel(0);
    var i := Oldest(w.buckets, l, |w.buckets|);
    DrainStep(w.buckets, l, done);
    HandedMore(done, w.buckets[i], takeOk);
  }

  lemma {:induction false} DrainEnds(w0: Wheel, l: Limit, takeOk: seq<bool>, w: Wheel, done: seq<Bucket>, out: seq<Handed>)
    requires Draining(w0, l, takeOk, w, done, out) && Oldest(w.buckets, l, |w.buckets|) == |w.buckets|
    ensures w == Flush(w0, l).0 && out == HandedOut(IntervalsOf(Flush(w0, l).1), takeOk)
  {
    assert OpenWheel(0);
    assert done + [] == done;
  }

  datatype Stats = Stats(pendingBuckets: nat, pendingTotal: nat, clampedLate: nat, flushedBuckets: nat)

  /** One bucket of the wheel's array. */
  datatype Slot = Slot(sec: nat, counts: CountTable, total: nat)

  /** What the environment decides about an addition: whether the bucket array can be enlarged, whether a count table can be
      created, and whether one can be enlarged. */
  datatype AddLuck = AddLuck(growOk: bool, tableOk: bool, roomOk: bool)

  function Doubled(cap: nat): nat {
    if cap != 0 then cap * 2 else INITIAL_BUCKETS
  }

  /** No bucket for the second, and none can be made in an array of `cap` slots. */
  ghost predicate Lacks(bs: seq<Bucket>, cap: nat, sec: nat, l: AddLuck) {
    FindBucket(bs, sec) == |bs| && ((|bs| >= cap && !l.growOk) || !l.tableOk)
  }

  /** The count table of the second cannot take the id. */
  ghost predicate Crowded(bs: seq<Bucket>, sec: nat, id: nat, l: AddLuck) {
    var i := FindBucket(bs, sec);
    i < |bs| && CountTables.NoRoom(bs[i].items, CapFor(|bs[i].items|), id, l.roomOk)
  }

  /** How an addition ends, exactly. */
  ghost function AddFate(w: Wheel, cap: nat, ms: nat, id: nat, l: AddLuck): Outcome {
    var sec := PlacedSec(w, ms);
    if Lacks(w.buckets, cap, sec, l) then Outcome.NoBucket else if Crowded(w.buckets, sec, id, l) then Outcome.NoRoom else Added
  }

  /** The slots of the bucket array after an addition: a growth that succeeds is kept even if the table cannot be created. */
  ghost function CapAfter(bs: seq<Bucket>, cap: nat, sec: nat, l: AddLuck): nat {
    if FindBucket(bs, sec) == |bs| && |bs| >= cap && l.growOk then Doubled(cap) else cap
  }

  class TimeWheel {
    /** What the slots hold. */
    ghost var Buckets: seq<Bucket>
    ghost var Repr: set<object>

    var slots: seq<Slot>
    var bucketCap: nat
    var holdSec: nat
    var maxSeenMs: nat
    var oldestOpenSec: nat
    var hasOldestOpen: bool
    var clampedLate: nat
    var flushedBuckets: nat

    /** The abstract value. */
    ghost function Value(): Wheel
      reads this
    {
      Wheel(Buckets, holdSec, maxSeenMs, oldestOpenSec, hasOldestOpen, clampedLate, flushedBuckets)
    }

    ghost predicate Valid()
      reads this, Repr
    {
      this in Repr && forall k {:trigger OpenWheel(k)} :: OpenWheel(k) ==> SlotsOk()
    }

    /** Every slot owns a table of its own. */
    ghost predicate Owned()
      reads this, Repr
    {
      && |Buckets| == |slots| <= bucketCap
      && (forall i :: 0 <= i < |slots| ==> slots[i].counts in Repr && slots[i].counts.Repr <= Repr && this !in slots[i].counts.Repr)
      && (forall i :: 0 <= i < |slots| ==> slots[i].counts.Valid())
      && (forall i, j :: 0 <= i < |slots| && 0 <= j < |slots| && i != j ==> slots[i].counts.Repr !! slots[j].counts.Repr)
    }

    /** The tables hold the buckets' entries. */
    ghost predicate SlotsOk()
      reads this, Repr
    {
      Owned() && forall i :: 0 <= i < |slots| ==>
                   Buckets[i] == Bucket(slots[i].sec, slots[i].counts.Contents, slots[i].total) && slots[i].counts.Snug()
    }

    /** The same except for slot `i`. */
    ghost predicate OthersOk(i: nat)
      reads this, Repr
    {
      Owned() && forall j :: 0 <= j < |slots| && j != i ==>
                   Buckets[j] == Bucket(slots[j].sec, slots[j].counts.Contents, slots[j].total) && slots[j].counts.Snug()
    }

    constructor (holdMs: nat)
      ensures Valid() && fresh(Repr)
      ensures Value() == NewWheel(holdMs) && bucketCap == INITIAL_BUCKETS
    {
      slots, Buckets, bucketCap := [], [], INITIAL_BUCKETS;
      holdSec := HoldSec(holdMs);
      maxSeenMs, oldestOpenSec, hasOldestOpen, clampedLate, flushedBuckets := 0, 0, false, 0, 0;
      Repr := {this};
    }

    ghost predicate Owns(i: nat)
      requires i < |slots|
      reads this, slots[i].counts
    {
      slots[i].counts.Repr <= Repr && this !in slots[i].counts.Repr
    }

    /** `find_bucket`; the length of the array when there is none. */
    method Find(sec: nat) returns (i: nat)
      requires Valid()
      ensures i == FindBucket(Buckets, sec) && |slots| == |Buckets|
    {
      assert OpenWheel(0);
      i := 0;
      while i < |slots|
        invariant i <= |slots|
        invariant forall j :: 0 <= j < i ==> Buckets[j].sec != sec
      {
        if slots[i].sec == sec {
          return;
        }
        i := i + 1;
      }
    }

    /** `ensure_bucket_capacity`. */
    method EnsureBucketCapacity(growOk: bool) returns (ok: bool)
      requires Valid()
      modifies this`bucketCap
      ensures Valid() && bucketCap == if |slots| >= old(bucketCap) && growOk then Doubled(old(bucketCap)) else old(bucketCap)
      ensures !ok <==> |slots| >= old(bucketCap) && !growOk
      ensures ok ==> |slots| < bucketCap
    {
      assert OpenWheel(0);
      if |slots| < bucketCap {
        return true;
      }
      if !growOk {
        return false;
      }
      bucketCap := Doubled(bucketCap);
      ok := true;
    }

    /** Appends a slot with an empty table. */
    method NewSlot(sec: nat)
      requires Valid() && |slots| < bucketCap
      modifies this`slots, this`Buckets, this`Repr
      ensures Valid() && fresh(Repr - old(Repr))
      ensures Buckets == old(Buckets) + [Bucket(sec, [], 0)]
      ensures |old(slots)| < |slots| && slots[|old(slots)|].counts.Contents == []
    {
      assert OpenWheel(0);
      var t := new CountTable();
      slots := slots + [Slot(sec, t, 0)];
      Buckets := Buckets + [Bucket(sec, [], 0)];
      Repr := Repr + t.Repr;
    }

    /** `get_or_create_bucket`; a new bucket has room for any id. */
    method GetOrCreate(sec: nat, l: AddLuck, ghost id: nat) returns (found: bool, i: nat)
      requires Valid()
      modifies this`slots, this`Buckets, this`Repr, this`bucketCap
      ensures Valid() && fresh(Repr - old(Repr))
      ensures !found <==> Lacks(old(Buckets), old(bucketCap), sec, l)
      ensures bucketCap == CapAfter(old(Buckets), old(bucketCap), sec, l)
      ensures !found ==> Buckets == old(Buckets)
      ensures found ==> Buckets == WithBucket(old(Buckets), sec)
      ensures found ==> i < |slots| == |Buckets| && i == FindBucket(Buckets, sec)
      ensures found ==> Owns(i) && (slots[i].counts.Refuses(id, l.roomOk) <==> Crowded(old(Buckets), sec, id, l))
    {
      assert OpenWheel(0);
      i := Find(sec);
      if i < |slots| {
        return true, i;
      }
      found := EnsureBucketCapacity(l.growOk);
      if !found || !l.tableOk {
        return false, i;
      }
      NewSlot(sec);
      assert Buckets[i].sec == sec;
    }

    /** Adds to the table of slot `i`. */
    method AddToTable(i: nat, id: nat, count: nat, roomOk: bool) returns (ok: bool)
      requires this in Repr && SlotsOk() && i < |slots|
      modifies this`Repr, slots[i].counts.Repr
      ensures this in Repr && OthersOk(i) && fresh(Repr - old(Repr))
      ensures !ok <==> old(slots[i].counts.Refuses(id, roomOk))
      ensures slots[i].counts.Contents == if ok then Bump(old(Buckets)[i].items, id, count) else old(Buckets)[i].items
      ensures slots[i].counts.Snug()
    {
      var t := slots[i].counts;
      SnugGrows(t.Contents, id, count);
      ok := t.Add(id, count, roomOk);
      Repr := Repr + t.Repr;
      forall j | 0 <= j < |slots| && j != i
        ensures slots[j].counts.Repr == old(slots[j].counts.Repr) && slots[j].counts.Repr !! t.Repr
        ensures slots[j].counts.Valid() && slots[j].counts.Contents == old(slots[j].counts.Contents)
      {
        assert old(slots[j].counts.Repr !! slots[i].counts.Repr);
      }
    }

    method AddAt(i: nat, id: nat, count: nat, roomOk: bool) returns (ok: bool)
      requires Valid() && i < |slots| == |Buckets|
      modifies this`slots, this`Buckets, this`Repr, slots[i].counts.Repr
      ensures Valid() && fresh(Repr - old(Repr))
      ensures !ok <==> old(slots[i].counts.Refuses(id, roomOk))
      ensures !ok ==> Buckets == old(Buckets)
      ensures ok ==> var b := old(Buckets)[i];
                     Buckets == old(Buckets)[i := Bucket(b.sec, Bump(b.items, id, count), AddU64(b.total, count))]
    {
      assert OpenWheel(0);
      ok := AddToTable(i, id, count, roomOk);
      if ok {
        SetTotal(i, AddU64(slots[i].total, count));
      }
    }

    /** Sets the total of slot `i`; its bucket follows the slot. */
    method SetTotal(i: nat, total: nat)
      requires OthersOk(i) && i < |slots| && slots[i].counts.Snug()
      modifies this`slots, this`Buckets
      ensures SlotsOk()
      ensures Buckets == old(Buckets)[i := old(Bucket(slots[i].sec, slots[i].counts.Contents, total))]
    {
      var t := slots[i];
      slots := slots[i := Slot(t.sec, t.counts, total)];
      Buckets := Buckets[i := Bucket(t.sec, t.counts.Contents, total)];
    }

    /** `stackmap_timewheel_add`. */
    method Add(ms: nat, id: nat, count: nat, l: AddLuck) returns (o: Outcome)
      requires Valid()
      modifies Repr
      ensures Valid() && fresh(Repr - old(Repr))
      ensures Value() == AddSample(old(Value()), ms, id, count, o)
      ensures o == AddFate(old(Value()), old(bucketCap), ms, id, l)
      ensures bucketCap == CapAfter(old(Buckets), old(bucketCap), PlacedSec(old(Value()), ms), l)
    {
      var sec := Note(ms, count);
      var found, i := GetOrCreate(sec, l, id);
      if !found {
        return Outcome.NoBucket;
      }
      var ok := AddAt(i, id, count, l.roomOk);
      o := if ok then Added else Outcome.NoRoom;
    }

    /** The bookkeeping before a bucket is looked for. */
    method Note(ms: nat, count: nat) returns (sec: nat)
      requires Valid()
      modifies this`maxSeenMs, this`clampedLate
      ensures Valid() && sec == PlacedSec(old(Value()), ms) && Value() == Noted(old(Value()), ms, count)
    {
      assert OpenWheel(0);
      if ms > maxSeenMs {
        maxSeenMs := ms;
      }
      sec := SecOf(ms);
      if hasOldestOpen && sec < oldestOpenSec {
        sec := oldestOpenSec;
        clampedLate := AddU64(clampedLate, count);
      }
    }

    /** `find_oldest_bucket`. */
    method FindOldest(l: Limit) returns (index: nat)
      requires Valid()
      ensures index == Oldest(Buckets, l, |Buckets|) && |slots| == |Buckets|
    {
      assert OpenWheel(0);
      index := |slots|;
      for i := 0 to |slots|
        invariant index == Oldest(Buckets, l, i)
      {
        assert Buckets[i].sec == slots[i].sec;
        if !(l.Everything? || slots[i].sec < l.sec) {
          continue;
        }
        if index == |slots| || slots[i].sec < slots[index].sec {
          index := i;
        }
      }
    }

    /** Hands out the nonzero entries of slot `i`. */
    method TakeFrom(i: nat, takeOk: bool) returns (taken: Option<seq<Item>>)
      requires SlotsOk() && i < |slots|
      modifies slots[i].counts.Repr
      ensures OthersOk(i)
      ensures taken == Handing(IntervalOf(Buckets[i]), takeOk).taken
    {
      var t := slots[i].counts;
      var ok, items := t.TakeItems(true, takeOk);
      taken := if ok then Some(items) else None;
      forall j | 0 <= j < |slots| && j != i
        ensures slots[j].counts.Repr == old(slots[j].counts.Repr) && slots[j].counts.Repr !! t.Repr
        ensures slots[j].counts.Valid() && slots[j].counts.Contents == old(slots[j].counts.Contents)
      {
        assert old(slots[j].counts.Repr !! slots[i].counts.Repr);
      }
    }

    /** `remove_bucket_at`. */
    method RemoveAt(i: nat)
      requires OthersOk(i) && i < |slots|
      modifies this`slots, this`Buckets
      ensures SlotsOk() && Buckets == Without(old(Buckets), i)
    {
      slots := slots[..i] + slots[i + 1..];
      Buckets := Without(Buckets, i);
    }

    /** `flush_bucket_at`: hands out the bucket's nonzero entries, if there is memory for them, and removes the bucket. */
    method FlushBucketAt(i: nat, takeOk: bool) returns (h: Handed)
      requires Valid() && i < |slots| == |Buckets|
      modifies this`slots, this`Buckets, this`flushedBuckets, slots[i].counts.Repr
      ensures Valid()
      ensures h == Handing(IntervalOf(old(Buckets)[i]), takeOk)
      ensures Value() == old(Value()).(buckets := Without(old(Buckets), i), flushedBuckets := old(flushedBuckets) + 1)
    {
      assert OpenWheel(0);
      var startMs := slots[i].sec * BUCKET_MS;
      var endMs := startMs + BUCKET_MS;
      var taken := TakeFrom(i, takeOk);
      h := Handed(startMs, endMs, taken);
      flushedBuckets := flushedBuckets + 1;
      RemoveAt(i);
    }

    /** One round of a flush. */
    method FlushOldest(l: Limit, takeOk: seq<bool>, index: nat, n: nat, ghost w: Wheel, ghost done: seq<Bucket>, ghost out: seq<Handed>)
      returns (first: Handed, next: nat)
      requires Valid() && |slots| == |Buckets| && index == Oldest(Buckets, l, |Buckets|) < |slots| && n == |out|
      requires Draining(w, l, takeOk, Value(), done, out)
      modifies Repr
      ensures Valid() && Repr == old(Repr) && |slots| == |Buckets| < |old(slots)| && bucketCap == old(bucketCap)
      ensures next == Oldest(Buckets, l, |Buckets|)
      ensures Draining(w, l, takeOk, Value(), done + [old(Buckets)[index]], out + [first])
    {
      DrainGoes(w, l, takeOk, Value(), done, out);
      assert Owns(index) by {
        assert OpenWheel(0);
      }
      first := FlushBucketAt(index, TakeOk(takeOk, n));
      next := FindOldest(l);
    }

    /** The loop shared by both flushes. */
    method FlushWhile(l: Limit, takeOk: seq<bool>) returns (out: seq<Handed>)
      requires Valid()
      modifies Repr
      ensures Valid() && Repr == old(Repr) && bucketCap == old(bucketCap)
      ensures Value() == Flush(old(Value()), l).0
      ensures out == HandedOut(IntervalsOf(Flush(old(Value()), l).1), takeOk)
    {
      out := [];
      ghost var w, done: seq<Bucket> := Value(), [];
      DrainBegins(w, l, takeOk);
      var index := FindOldest(l);
      while index < |slots|
        invariant Valid() && Repr == old(Repr) && bucketCap == old(bucketCap) && |slots| == |Buckets| && index == Oldest(Buckets, l, |Buckets|)
        invariant Draining(w, l, takeOk, Value(), done, out)
        decreases |slots|
      {
        ghost var b := Buckets[index];
        var first, next := FlushOldest(l, takeOk, index, |out|, w, done, out);
        done, out, index := done + [b], out + [first], next;
      }
      DrainEnds(w, l, takeOk, Value(), done, out);
    }

    /** `stackmap_timewheel_flush_ready`. */
    method FlushReady(nowMs: nat, takeOk: seq<bool>) returns (out: seq<Handed>)
      requires Valid()
      modifies Repr
      ensures Valid() && Repr == old(Repr) && bucketCap == old(bucketCap)
      ensures Value() == Wheels.FlushReady(old(Value()), nowMs).0
      ensures out == HandedOut(IntervalsOf(Wheels.FlushReady(old(Value()), nowMs).1), takeOk)
    {
      var mark := SetMark(nowMs);
      out := FlushWhile(Below(mark), takeOk);
    }

    /** Where the hold window ends; later samples are clamped to it. */
    method SetMark(nowMs: nat) returns (mark: nat)
      requires Valid()
      modifies this`oldestOpenSec, this`hasOldestOpen
      ensures Valid() && mark == Watermark(old(Value()), nowMs)
      ensures Value() == old(Value()).(oldestOpenSec := mark, hasOldestOpen := true)
    {
      assert OpenWheel(0);
      var effectiveMs := if maxSeenMs > nowMs then maxSeenMs else nowMs;
      var effectiveSec := SecOf(effectiveMs);
      mark := if effectiveSec > holdSec then effectiveSec - holdSec else 0;
      oldestOpenSec := mark;
      hasOldestOpen := true;
    }

    /** `stackmap_timewheel_flush_all`. */
    method FlushAll(takeOk: seq<bool>) returns (out: seq<Handed>)
      requires Valid()
      modifies Repr
      ensures Valid() && Repr == old(Repr) && bucketCap == old(bucketCap)
      ensures Value() == Wheels.FlushAll(old(Value())).0
      ensures out == HandedOut(IntervalsOf(Wheels.FlushAll(old(Value())).1), takeOk)
    {
      out := FlushWhile(Everything, takeOk);
    }

    /** `stackmap_timewheel_reset`: the statistics and the hold window survive. */
    method Reset()
      requires Valid()
      modifies this
      ensures Valid() && Repr == old(Repr)
      ensures Value() == old(Value()).(buckets := [], maxSeenMs := 0, oldestOpenSec := 0, hasOldestOpen := false)
    {
      assert OpenWheel(0);
      slots, Buckets, maxSeenMs, oldestOpenSec, hasOldestOpen := [], [], 0, 0, false;
    }

    /** `stackmap_timewheel_get_stats`. */
    method GetStats() returns (s: Stats)
      requires Valid()
      ensures s == Stats(|Buckets|, PendingTotal(Buckets), clampedLate, flushedBuckets)
    {
      assert OpenWheel(0);
      var total := 0;
      for i := 0 to |slots|
        invariant total == PendingTotal(Buckets[..i])
      {
        assert Buckets[..i + 1][..i] == Buckets[..i];
        total := AddU64(total, slots[i].total);
      }
      assert Buckets[..|Buckets|] == Buckets;
      s := Stats(|slots|, total, clampedLate, flushedBuckets);
    }
  }

  /** The wrapped sum of the bucket totals. */
  function PendingTotal(bs: seq<Bucket>): nat {
    if bs == [] then 0 else AddU64(PendingTotal(bs[..|bs| - 1]), bs[|bs| - 1].total)
  }

  /** What the buckets hold, over all stack ids. */
  function Held(bs: seq<Bucket>): nat {
    if bs == [] then 0 else Held(bs[..|bs| - 1]) + Total(bs[|bs| - 1].items)
  }

  ghost predicate TotalsOk(bs: seq<Bucket>) {
    forall i :: 0 <= i < |bs| ==> Cong(bs[i].total, Total(bs[i].items))
  }

  lemma {:induction false} TotalUpdate(items: seq<Item>, i: nat, e: Item)
    requires i < |items|
    ensures items[i].count <= Total(items)
    ensures Total(items[i := e]) == Total(items) - items[i].count + e.count
  {
    if i == 0 {
      assert items[i := e][1..] == items[1..];
    } else {
      assert items[i := e][1..] == items[1..][i - 1 := e];
      TotalUpdate(items[1..], i - 1, e);
    }
  }

  lemma {:induction false} BumpTotal(items: seq<Item>, id: nat, count: nat)
    ensures Cong(Total(Bump(items, id, count)), Total(items) + count)
  {
    var i := IndexOf(items, id);
    if i < |items| {
      var c := AddU64(items[i].count, count);
      TotalUpdate(items, i, Item(id, c));
      CongWrap(items[i].count + count);
      var others := Total(items) - items[i].count;
      CongSame(others);
      CongSum(others, others, c, items[i].count + count);
    } else {
      TotalAppend(items, [Item(id, count)]);
      CongSame(Total(items) + count);
    }
  }

  lemma {:induction false} AddKeepsTotals(bs: seq<Bucket>, sec: nat, id: nat, count: nat)
    requires TotalsOk(bs)
    ensures TotalsOk(WithBucket(bs, sec)) && TotalsOk(AddToBucket(bs, sec, id, count))
  {
    CongSame(0);
    var bs' := WithBucket(bs, sec);
    assert TotalsOk(bs');
    var i := FindBucket(bs', sec);
    if i < |bs'| {
      var b := bs'[i];
      BumpTotal(b.items, id, count);
      CongSame(count);
      CongSum(b.total, Total(b.items), count, count);
      CongWrap(b.total + count);
      var t := AddU64(b.total, count);
      CongTrans(t, b.total + count, Total(b.items) + count);
      CongSwap(Total(Bump(b.items, id, count)), Total(b.items) + count);
      CongTrans(t, Total(b.items) + count, Total(Bump(b.items, id, count)));
    }
  }

  /** In every run each bucket's running total agrees with the entries it holds. */
  lemma {:induction false} RunTotals(holdMs: nat, ops: seq<Op>)
    ensures TotalsOk(Exec(holdMs, ops).wheel.buckets)
  {
    if ops != [] {
      var before := ops[..|ops| - 1];
      var op := ops[|ops| - 1];
      RunTotals(holdMs, before);
      var w := Exec(holdMs, before).wheel;
      match op
      case Add(ms, id, count, o) => AddKeepsTotals(w.buckets, PlacedSec(w, ms), id, count);
      case Ready_(now) => DrainKeepsTotals(w.buckets, Below(Watermark(w, now)));
      case All => DrainKeepsTotals(w.buckets, Everything);
    }
  }

  lemma {:induction false} DrainKeepsTotals(bs: seq<Bucket>, l: Limit)
    requires TotalsOk(bs)
    ensures TotalsOk(Drain(bs, l).0)
  {
    DrainPartition(bs, l);
    var rest := Drain(bs, l).0;
    forall i | 0 <= i < |rest|
      ensures Cong(rest[i].total, Total(rest[i].items))
    {
      assert rest[i] in bs;
    }
  }

  /** The pending total that the statistics report is, as a 64-bit word, what the pending entries sum to. */
  lemma {:induction false} PendingTotalIsHeld(bs: seq<Bucket>)
    requires TotalsOk(bs)
    ensures Cong(PendingTotal(bs), Held(bs))
  {
    if bs == [] {
      CongSame(0);
    } else {
      var n := |bs| - 1;
      PendingTotalIsHeld(bs[..n]);
      CongSum(PendingTotal(bs[..n]), Held(bs[..n]), bs[n].total, Total(bs[n].items));
      CongWrap(PendingTotal(bs[..n]) + bs[n].total);
      CongTrans(PendingTotal(bs), PendingTotal(bs[..n]) + bs[n].total, Held(bs));
    }
  }
}

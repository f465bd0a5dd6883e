/** The meaning of the one-second time wheel of src/cli_stackmap_helper/stackmap_timewheel.c,
    as values, and what holds over every run of it. The mutable wheel is in TimeWheel.dfy.
  */
module Wheels {
  import opened Bits
  import opened Items
  import opened Markers

  const BUCKET_MS: nat := 1000
  const DEFAULT_HOLD_MS: nat := 10000

  function HoldSec(holdMs: nat): nat {
    var ms := if holdMs == 0 then DEFAULT_HOLD_MS else holdMs;
    (ms + BUCKET_MS - 1) / BUCKET_MS
  }

  function SecOf(ms: nat): nat {
    ms / BUCKET_MS
  }

  datatype Bucket = Bucket(sec: nat, items: seq<Item>, total: nat)

  /** Which buckets a flush takes: those below a second, or all. */
  datatype Limit = Below(sec: nat) | Everything

  predicate Ready(b: Bucket, l: Limit) {
    l.Everything? || b.sec < l.sec
  }

  /** How an addition ends: recorded, no bucket to be had, or a bucket but no room in its table. */
  datatype Outcome = Added | NoBucket | NoRoom

  datatype Wheel = Wheel(buckets: seq<Bucket>, holdSec: nat, maxSeenMs: nat,
                         oldestOpenSec: nat, hasOldestOpen: bool,
                         clampedLate: nat, flushedBuckets: nat)

  function NewWheel(holdMs: nat): Wheel {
    Wheel([], HoldSec(holdMs), 0, 0, false, 0, 0)
  }

  ghost predicate DistinctSecs(bs: seq<Bucket>) {
    forall i, j :: 0 <= i < j < |bs| ==> bs[i].sec != bs[j].sec
  }

  function FindBucket(bs: seq<Bucket>, sec: nat): (i: nat)
    ensures i <= |bs|
    ensures i < |bs| ==> bs[i].sec == sec
    ensures forall j :: 0 <= j < i ==> bs[j].sec != sec
  {
    if bs == [] then 0 else if bs[0].sec == sec then 0 else 1 + FindBucket(bs[1..], sec)
  }

  predicate IsLate(w: Wheel, ms: nat) {
    w.hasOldestOpen && SecOf(ms) < w.oldestOpenSec
  }

  /** The second into which a sample is placed: its own, or the oldest open one when it is late. */
  function PlacedSec(w: Wheel, ms: nat): nat {
    if IsLate(w, ms) then w.oldestOpenSec else SecOf(ms)
  }

  function WithBucket(bs: seq<Bucket>, sec: nat): seq<Bucket> {
    if FindBucket(bs, sec) < |bs| then bs else bs + [Bucket(sec, [], 0)]
  }

  function AddToBucket(bs: seq<Bucket>, sec: nat, id: nat, count: nat): seq<Bucket> {
    var bs' := WithBucket(bs, sec);
    var i := FindBucket(bs', sec);
    if i < |bs'| then
      bs'[i := Bucket(sec, Bump(bs'[i].items, id, count), AddU64(bs'[i].total, count))]
    else bs'
  }

  /** The bookkeeping that an addition does before it looks for a bucket. */
  function Noted(w: Wheel, ms: nat, count: nat): Wheel {
    w.(maxSeenMs := if ms > w.maxSeenMs then ms else w.maxSeenMs,
       clampedLate := if IsLate(w, ms) then AddU64(w.clampedLate, count) else w.clampedLate)
  }

  function AddSample(w: Wheel, ms: nat, id: nat, count: nat, o: Outcome): Wheel {
    var sec := PlacedSec(w, ms);
    var w' := Noted(w, ms, count);
    match o
    case NoBucket => w'
    case NoRoom => w'.(buckets := WithBucket(w.buckets, sec))
    case Added => w'.(buckets := AddToBucket(w.buckets, sec, id, count))
  }

  function Watermark(w: Wheel, nowMs: nat): nat {
    var effective := SecOf(if w.maxSeenMs > nowMs then w.maxSeenMs else nowMs);
    if effective > w.holdSec then effective - w.holdSec else 0
  }

  /** The scan for the oldest ready bucket among the first `n`; `|bs|` when there is none. */
  function Oldest(bs: seq<Bucket>, l: Limit, n: nat): (r: nat)
    requires n <= |bs|
    ensures r == |bs| || r < n
  {
    if n == 0 then |bs| else
      var r := Oldest(bs, l, n - 1);
      if Ready(bs[n - 1], l) && (r == |bs| || bs[n - 1].sec < bs[r].sec) then n - 1 else r
  }

  lemma {:induction false} OldestIsReady(bs: seq<Bucket>, l: Limit, n: nat)
    requires n <= |bs|
    ensures var r := Oldest(bs, l, n);
            && (r < |bs| ==> Ready(bs[r], l))
            && (forall j :: 0 <= j < n && Ready(bs[j], l) ==> r < |bs| && bs[r].sec <= bs[j].sec)
  {
    if n > 0 {
      OldestIsReady(bs, l, n - 1);
    }
  }

  function Without<T>(s: seq<T>, i: nat): seq<T>
    requires i < |s|
  {
    s[..i] + s[i + 1..]
  }

  /** What is left and what is emitted when ready buckets are taken oldest first. */
  function Drain(bs: seq<Bucket>, l: Limit): (seq<Bucket>, seq<Bucket>)
    decreases |bs|
  {
    var i := Oldest(bs, l, |bs|);
    if i == |bs| then (bs, [])
    else
      var (rest, out) := Drain(Without(bs, i), l);
      (rest, [bs[i]] + out)
  }

  function Flush(w: Wheel, l: Limit): (Wheel, seq<Bucket>) {
    var (rest, out) := Drain(w.buckets, l);
    (w.(buckets := rest, flushedBuckets := w.flushedBuckets + |out|), out)
  }

  function FlushReady(w: Wheel, nowMs: nat): (Wheel, seq<Bucket>) {
    var mark := Watermark(w, nowMs);
    Flush(w.(oldestOpenSec := mark, hasOldestOpen := true), Below(mark))
  }

  function FlushAll(w: Wheel): (Wheel, seq<Bucket>) {
    Flush(w, Everything)
  }

  // ---------------------------------------------------------------------------------------------
  // Counts held per second and stack id

  /** The unwrapped sum of what the buckets hold for a stack id in a second. */
  function At(bs: seq<Bucket>, sec: nat, id: nat): nat {
    if bs == [] then 0
    else (if bs[0].sec == sec then CountOf(bs[0].items, id) else 0) + At(bs[1..], sec, id)
  }

  ghost predicate WheelOk(w: Wheel) {
    && DistinctSecs(w.buckets)
    && forall i :: 0 <= i < |w.buckets| ==> Distinct(w.buckets[i].items)
  }

  lemma {:induction false} AtAppend(a: seq<Bucket>, b: seq<Bucket>, sec: nat, id: nat)
    ensures At(a + b, sec, id) == At(a, sec, id) + At(b, sec, id)
  {
    if a == [] {
      assert a + b == b;
    } else {
      assert (a + b)[1..] == a[1..] + b;
      AtAppend(a[1..], b, sec, id);
    }
  }

  lemma {:induction false} AtSplit(bs: seq<Bucket>, i: nat, sec: nat, id: nat)
    requires i < |bs|
    ensures At(bs, sec, id) == At(Without(bs, i), sec, id) + At([bs[i]], sec, id)
  {
    assert bs == bs[..i] + ([bs[i]] + bs[i + 1..]);
    AtAppend(bs[..i], [bs[i]] + bs[i + 1..], sec, id);
    AtAppend([bs[i]], bs[i + 1..], sec, id);
    AtAppend(bs[..i], bs[i + 1..], sec, id);
  }

  lemma {:induction false} AtUpdate(bs: seq<Bucket>, i: nat, b: Bucket, sec: nat, id: nat)
    requires i < |bs|
    ensures At(bs[i := b], sec, id) + At([bs[i]], sec, id) == At(bs, sec, id) + At([b], sec, id)
  {
    AtSplit(bs, i, sec, id);
    AtSplit(bs[i := b], i, sec, id);
    assert Without(bs[i := b], i) == Without(bs, i);
  }

  lemma {:induction false} WithBucketKeeps(bs: seq<Bucket>, sec: nat, s: nat, id: nat)
    requires DistinctSecs(bs) && forall i :: 0 <= i < |bs| ==> Distinct(bs[i].items)
    ensures var r := WithBucket(bs, sec);
            && DistinctSecs(r) && (forall i :: 0 <= i < |r| ==> Distinct(r[i].items))
            && FindBucket(r, sec) < |r|
            && At(r, s, id) == At(bs, s, id)
  {
    if FindBucket(bs, sec) == |bs| {
      var r := bs + [Bucket(sec, [], 0)];
      AtAppend(bs, [Bucket(sec, [], 0)], s, id);
      assert r[|bs|].sec == sec;
    }
  }

  lemma {:induction false} AddToBucketOk(bs: seq<Bucket>, sec: nat, id: nat, count: nat)
    requires DistinctSecs(bs) && forall i :: 0 <= i < |bs| ==> Distinct(bs[i].items)
    ensures var r := AddToBucket(bs, sec, id, count);
            DistinctSecs(r) && forall i :: 0 <= i < |r| ==> Distinct(r[i].items)
  {
    WithBucketKeeps(bs, sec, 0, 0);
    var bs' := WithBucket(bs, sec);
    BumpCounts(bs'[FindBucket(bs', sec)].items, id, count, 0);
  }

  /** The bucket that an addition leaves at position `i` of `bs`. */
  function AddedBucket(bs: seq<Bucket>, i: nat, id: nat, count: nat): Bucket
    requires i < |bs|
  {
    Bucket(bs[i].sec, Bump(bs[i].items, id, count), AddU64(bs[i].total, count))
  }

  lemma {:induction false} AddElsewhere(bs: seq<Bucket>, i: nat, id: nat, count: nat, s: nat, k: nat)
    requires i < |bs| && Distinct(bs[i].items) && (s != bs[i].sec || k != id)
    ensures At(bs[i := AddedBucket(bs, i, id, count)], s, k) == At(bs, s, k)
  {
    var b := AddedBucket(bs, i, id, count);
    AtUpdate(bs, i, b, s, k);
    BumpCounts(bs[i].items, id, count, k);
    assert [b][1..] == [] && [bs[i]][1..] == [];
  }

  lemma {:induction false} AddHere(bs: seq<Bucket>, i: nat, id: nat, count: nat)
    requires i < |bs| && Distinct(bs[i].items)
    ensures Cong(At(bs[i := AddedBucket(bs, i, id, count)], bs[i].sec, id), At(bs, bs[i].sec, id) + count)
  {
    var b, s := AddedBucket(bs, i, id, count), bs[i].sec;
    AtUpdate(bs, i, b, s, id);
    BumpCounts(bs[i].items, id, count, id);
    assert [b][1..] == [] && [bs[i]][1..] == [];
    AtSplit(bs, i, s, id);
    var others := At(Without(bs, i), s, id);
    CongSame(others);
    CongSum(others, others, CountOf(b.items, id), CountOf(bs[i].items, id) + count);
  }

  /** A recorded sample adds its count, modulo 2^64, to its own second and id, and to nothing else. */
  lemma {:induction false} AddToBucketAt(bs: seq<Bucket>, sec: nat, id: nat, count: nat, s: nat, k: nat)
    requires DistinctSecs(bs) && forall i :: 0 <= i < |bs| ==> Distinct(bs[i].items)
    ensures Cong(At(AddToBucket(bs, sec, id, count), s, k), At(bs, s, k) + (if s == sec && k == id then count else 0))
    ensures s != sec || k != id ==> At(AddToBucket(bs, sec, id, count), s, k) == At(bs, s, k)
  {
    WithBucketKeeps(bs, sec, s, k);
    var bs' := WithBucket(bs, sec);
    var i := FindBucket(bs', sec);
    if s == sec && k == id {
      AddHere(bs', i, id, count);
    } else {
      AddElsewhere(bs', i, id, count, s, k);
      CongSame(At(bs, s, k));
    }
  }

  // ---------------------------------------------------------------------------------------------
  // One flush

  ghost predicate StrictlyIncreasing(bs: seq<Bucket>) {
    forall i, j :: 0 <= i < j < |bs| ==> bs[i].sec < bs[j].sec
  }

  lemma {:induction false} WithoutMembers<T>(s: seq<T>, i: nat)
    requires i < |s|
    ensures forall b :: b in s <==> b in Without(s, i) || b == s[i]
  {
    assert s == s[..i] + [s[i]] + s[i + 1..];
  }

  lemma {:induction false} DrainPartition(bs: seq<Bucket>, l: Limit)
    ensures forall b :: b in Drain(bs, l).1 ==> Ready(b, l)
    ensures forall b :: b in Drain(bs, l).0 ==> !Ready(b, l)
    ensures forall b :: b in bs <==> b in Drain(bs, l).0 || b in Drain(bs, l).1
    decreases |bs|
  {
    var i := Oldest(bs, l, |bs|);
    if i == |bs| {
    } else {
      DrainPartition(Without(bs, i), l);
      WithoutMembers(bs, i);
    }
    OldestIsReady(bs, l, |bs|);
  }

  /** The oldest ready bucket is strictly older than every other ready bucket. */
  lemma {:induction false} OldestIsLeast(bs: seq<Bucket>, l: Limit, b: Bucket)
    requires DistinctSecs(bs) && Oldest(bs, l, |bs|) < |bs|
    requires b in Without(bs, Oldest(bs, l, |bs|)) && Ready(b, l)
    ensures bs[Oldest(bs, l, |bs|)].sec < b.sec
  {
    var i := Oldest(bs, l, |bs|);
    OldestIsReady(bs, l, |bs|);
    var j :| 0 <= j < |Without(bs, i)| && Without(bs, i)[j] == b;
    assert bs[if j < i then j else j + 1] == b;
  }

  lemma {:induction false} DrainSorted(bs: seq<Bucket>, l: Limit)
    requires DistinctSecs(bs)
    ensures StrictlyIncreasing(Drain(bs, l).1)
    ensures DistinctSecs(Drain(bs, l).0)
    decreases |bs|
  {
    var i := Oldest(bs, l, |bs|);
    if i == |bs| {
    } else {
      var smaller := Without(bs, i);
      DrainSorted(smaller, l);
      DrainPartition(smaller, l);
      var out := Drain(smaller, l).1;
      forall k | 0 <= k < |out|
        ensures bs[i].sec < out[k].sec
      {
        OldestIsLeast(bs, l, out[k]);
      }
    }
  }

  /** A flush emits exactly the ready buckets, oldest first, and leaves exactly the others. */
  lemma {:induction false} DrainExact(bs: seq<Bucket>, l: Limit)
    requires DistinctSecs(bs)
    ensures var (rest, out) := Drain(bs, l);
            && StrictlyIncreasing(out)
            && DistinctSecs(rest)
            && (forall b :: b in out <==> b in bs && Ready(b, l))
            && (forall b :: b in rest <==> b in bs && !Ready(b, l))
  {
    DrainSorted(bs, l);
    DrainPartition(bs, l);
  }

  lemma {:induction false} DrainEverything(bs: seq<Bucket>)
    ensures Drain(bs, Everything).0 == []
    decreases |bs|
  {
    if bs != [] {
      assert Ready(bs[0], Everything);
      OldestIsReady(bs, Everything, |bs|);
      DrainEverything(Without(bs, Oldest(bs, Everything, |bs|)));
    }
  }

  lemma {:induction false} DrainCounts(bs: seq<Bucket>, l: Limit, sec: nat, id: nat)
    ensures var (rest, out) := Drain(bs, l);
            At(rest, sec, id) + At(out, sec, id) == At(bs, sec, id)
    decreases |bs|
  {
    var i := Oldest(bs, l, |bs|);
    if i == |bs| {
    } else {
      DrainCounts(Without(bs, i), l, sec, id);
      AtSplit(bs, i, sec, id);
      AtAppend([bs[i]], Drain(Without(bs, i), l).1, sec, id);
    }
  }

  lemma {:induction false} DrainKeepsOk(bs: seq<Bucket>, l: Limit)
    requires DistinctSecs(bs) && forall i :: 0 <= i < |bs| ==> Distinct(bs[i].items)
    ensures var (rest, out) := Drain(bs, l);
            DistinctSecs(rest) && forall i :: 0 <= i < |rest| ==> Distinct(rest[i].items)
  {
    DrainExact(bs, l);
    var (rest, out) := Drain(bs, l);
    forall i | 0 <= i < |rest|
      ensures Distinct(rest[i].items)
    {
      assert rest[i] in bs;
    }
  }

  // ---------------------------------------------------------------------------------------------
  // Runs

  datatype Op =
    | Add(ms: nat, id: nat, count: nat, outcome: Outcome)
    | Ready_(nowMs: nat)
    | All

  datatype Entry = Entry(sec: nat, id: nat, count: nat)

  /** A wheel with its history: everything emitted, everything recorded, and the counts of all late samples. */
  datatype Run = Run(wheel: Wheel, emitted: seq<Bucket>, log: seq<Entry>, lateTotal: nat)

  function Step(r: Run, op: Op): Run {
    match op
    case Add(ms, id, count, o) =>
      Run(AddSample(r.wheel, ms, id, count, o), r.emitted,
          if o.Added? then r.log + [Entry(PlacedSec(r.wheel, ms), id, count)] else r.log,
          r.lateTotal + if IsLate(r.wheel, ms) then count else 0)
    case Ready_(now) =>
      var (w, out) := FlushReady(r.wheel, now);
      r.(wheel := w, emitted := r.emitted + out)
    case All =>
      var (w, out) := FlushAll(r.wheel);
      r.(wheel := w, emitted := r.emitted + out)
  }

  function Exec(holdMs: nat, ops: seq<Op>): Run {
    if ops == [] then Run(NewWheel(holdMs), [], [], 0)
    else Step(Exec(holdMs, ops[..|ops| - 1]), ops[|ops| - 1])
  }

  /** What was recorded for a stack id in a second. */
  function LogAt(log: seq<Entry>, sec: nat, id: nat): nat {
    if log == [] then 0
    else LogAt(log[..|log| - 1], sec, id)
         + (if log[|log| - 1].sec == sec && log[|log| - 1].id == id then log[|log| - 1].count else 0)
  }

  ghost predicate Conserved(r: Run, sec: nat, id: nat) {
    Cong(At(r.wheel.buckets, sec, id) + At(r.emitted, sec, id), LogAt(r.log, sec, id))
  }

  /** `bs'` is `bs` with one entry recorded. */
  ghost predicate Recorded(bs: seq<Bucket>, e: Entry, bs': seq<Bucket>) {
    forall q {:trigger OpenWheel(q)} :: OpenWheel(q) ==> bs' == AddToBucket(bs, e.sec, e.id, e.count)
  }

  ghost predicate BucketsOk(bs: seq<Bucket>) {
    DistinctSecs(bs) && forall k :: 0 <= k < |bs| ==> Distinct(bs[k].items)
  }

  lemma {:induction false} RecordedOk(bs: seq<Bucket>, e: Entry, bs': seq<Bucket>)
    requires BucketsOk(bs) && Recorded(bs, e, bs')
    ensures BucketsOk(bs')
  {
    assert OpenWheel(0);
    AddToBucketOk(bs, e.sec, e.id, e.count);
  }

  /** What an entry adds to a second and an id. */
  function Extra(e: Entry, sec: nat, id: nat): nat {
    if e.sec == sec && e.id == id then e.count else 0
  }

  lemma {:induction false} RecordedAt(bs: seq<Bucket>, e: Entry, bs': seq<Bucket>, sec: nat, id: nat)
    requires BucketsOk(bs) && Recorded(bs, e, bs')
    ensures Cong(At(bs', sec, id), At(bs, sec, id) + Extra(e, sec, id))
  {
    assert OpenWheel(0);
    AddToBucketAt(bs, e.sec, e.id, e.count, sec, id);
  }

  lemma {:induction false} LogMore(log: seq<Entry>, e: Entry, sec: nat, id: nat)
    ensures LogAt(log + [e], sec, id) == LogAt(log, sec, id) + Extra(e, sec, id)
  {
    assert (log + [e])[..|log|] == log;
  }

  lemma {:induction false} RecordedConserves(bs: seq<Bucket>, e: Entry, bs': seq<Bucket>, emitted: seq<Bucket>, log: seq<Entry>, sec: nat, id: nat)
    requires BucketsOk(bs) && Recorded(bs, e, bs') && Cong(At(bs, sec, id) + At(emitted, sec, id), LogAt(log, sec, id))
    ensures Cong(At(bs', sec, id) + At(emitted, sec, id), LogAt(log + [e], sec, id))
  {
    RecordedAt(bs, e, bs', sec, id);
    LogMore(log, e, sec, id);
    CongruentStep(At(bs, sec, id), At(bs', sec, id), At(emitted, sec, id), Extra(e, sec, id), LogAt(log, sec, id));
  }

  /** What a recorded addition does to a run. */
  lemma {:induction false} AddRecords(r: Run, op: Op, e: Entry)
    requires op.Add? && op.outcome.Added? && e == Entry(PlacedSec(r.wheel, op.ms), op.id, op.count)
    ensures var r' := Step(r, op);
            Recorded(r.wheel.buckets, e, r'.wheel.buckets) && r'.emitted == r.emitted && r'.log == r.log + [e]
  {
  }

  lemma {:induction false} CongruentStep(before: nat, now: nat, out: nat, extra: nat, log: nat)
    requires Cong(now, before + extra) && Cong(before + out, log)
    ensures Cong(now + out, log + extra)
  {
    CongSame(out);
    CongSame(extra);
    CongSum(now, before + extra, out, out);
    CongSum(before + out, log, extra, extra);
    assert before + extra + out == before + out + extra;
    CongTrans(now + out, before + out + extra, log + extra);
  }

  lemma {:induction false} ConservedAfter(r: Run, e: Entry, r': Run, sec: nat, id: nat)
    requires WheelOk(r.wheel) && Conserved(r, sec, id)
    requires Recorded(r.wheel.buckets, e, r'.wheel.buckets) && r'.emitted == r.emitted && r'.log == r.log + [e]
    ensures WheelOk(r'.wheel) && Conserved(r', sec, id)
  {
    RecordedOk(r.wheel.buckets, e, r'.wheel.buckets);
    RecordedConserves(r.wheel.buckets, e, r'.wheel.buckets, r.emitted, r.log, sec, id);
  }

  /** A failed addition creates at most an empty bucket. */
  lemma {:induction false} FailedAddConserves(r: Run, op: Op, sec: nat, id: nat)
    requires WheelOk(r.wheel) && op.Add? && !op.outcome.Added?
    ensures WheelOk(Step(r, op).wheel)
    ensures Step(r, op).log == r.log && Step(r, op).emitted == r.emitted
    ensures At(Step(r, op).wheel.buckets, sec, id) == At(r.wheel.buckets, sec, id)
  {
    WithBucketKeeps(r.wheel.buckets, PlacedSec(r.wheel, op.ms), sec, id);
  }

  lemma {:induction false} AddConserves(r: Run, op: Op, sec: nat, id: nat)
    requires WheelOk(r.wheel) && Conserved(r, sec, id) && op.Add?
    ensures WheelOk(Step(r, op).wheel) && Conserved(Step(r, op), sec, id)
  {
    if op.outcome.Added? {
      var e, r' := Entry(PlacedSec(r.wheel, op.ms), op.id, op.count), Step(r, op);
      AddRecords(r, op, e);
      ConservedAfter(r, e, r', sec, id);
    } else {
      FailedAddConserves(r, op, sec, id);
    }
  }

  lemma {:induction false} StepConserves(r: Run, op: Op, sec: nat, id: nat)
    requires WheelOk(r.wheel) && Conserved(r, sec, id)
    ensures WheelOk(Step(r, op).wheel) && Conserved(Step(r, op), sec, id)
  {
    match op
    case Add(_, _, _, _) => AddConserves(r, op, sec, id);
    case Ready_(now) => FlushStep(r, Step(r, op), Below(Watermark(r.wheel, now)), sec, id);
    case All => FlushStep(r, Step(r, op), Everything, sec, id);
  }

  lemma {:induction false} FlushStep(r: Run, r': Run, l: Limit, sec: nat, id: nat)
    requires WheelOk(r.wheel) && Conserved(r, sec, id) && r'.log == r.log
    requires r'.wheel.buckets == Drain(r.wheel.buckets, l).0 && r'.emitted == r.emitted + Drain(r.wheel.buckets, l).1
    ensures WheelOk(r'.wheel) && Conserved(r', sec, id)
  {
    FlushConserves(r, l, sec, id);
  }

  lemma {:induction false} FlushConserves(r: Run, l: Limit, sec: nat, id: nat)
    requires WheelOk(r.wheel)
    ensures var (rest, out) := Drain(r.wheel.buckets, l);
            && DistinctSecs(rest) && (forall i :: 0 <= i < |rest| ==> Distinct(rest[i].items))
            && At(rest, sec, id) + At(r.emitted + out, sec, id)
               == At(r.wheel.buckets, sec, id) + At(r.emitted, sec, id)
  {
    DrainKeepsOk(r.wheel.buckets, l);
    DrainCounts(r.wheel.buckets, l, sec, id);
    AtAppend(r.emitted, Drain(r.wheel.buckets, l).1, sec, id);
  }

  /** Conservation over every run: for each second and stack id, what is pending plus what was
      emitted is what was recorded, modulo 2^64. */
  lemma {:induction false} RunConserves(holdMs: nat, ops: seq<Op>, sec: nat, id: nat)
    ensures WheelOk(Exec(holdMs, ops).wheel)
    ensures Conserved(Exec(holdMs, ops), sec, id)
  {
    if ops == [] {
      CongSame(0);
    } else {
      RunConserves(holdMs, ops[..|ops| - 1], sec, id);
      StepConserves(Exec(holdMs, ops[..|ops| - 1]), ops[|ops| - 1], sec, id);
    }
  }

  /** After a final flush of everything the emitted buckets hold exactly what was recorded. */
  lemma {:induction false} FinalFlushEmitsAll(holdMs: nat, ops: seq<Op>, sec: nat, id: nat)
    ensures var r := Exec(holdMs, ops + [All]);
            r.wheel.buckets == [] && Cong(At(r.emitted, sec, id), LogAt(r.log, sec, id))
  {
    var ops' := ops + [All];
    assert ops'[..|ops'| - 1] == ops;
    RunConserves(holdMs, ops, sec, id);
    RunConserves(holdMs, ops', sec, id);
    DrainEverything(Exec(holdMs, ops).wheel.buckets);
  }

  lemma {:induction false} StepCountsLate(r: Run, op: Op)
    requires r.wheel.clampedLate == Wrap(r.lateTotal)
    ensures Step(r, op).wheel.clampedLate == Wrap(Step(r, op).lateTotal)
  {
    if op.Add? {
      AddWraps(r.lateTotal, op.count);
      var w := AddSample(r.wheel, op.ms, op.id, op.count, op.outcome);
      assert w.clampedLate == Noted(r.wheel, op.ms, op.count).clampedLate;
    }
  }

  /** The late counter is the wrapped sum of the counts of all samples placed by clamping,
      those included whose recording failed afterwards. */
  lemma {:induction false} RunCountsLate(holdMs: nat, ops: seq<Op>)
    ensures Exec(holdMs, ops).wheel.clampedLate == Wrap(Exec(holdMs, ops).lateTotal)
  {
    if ops != [] {
      RunCountsLate(holdMs, ops[..|ops| - 1]);
      StepCountsLate(Exec(holdMs, ops[..|ops| - 1]), ops[|ops| - 1]);
    }
  }

  // ---------------------------------------------------------------------------------------------
  // When no second is emitted twice

  ghost predicate AllBelow(bs: seq<Bucket>, sec: nat) {
    forall i :: 0 <= i < |bs| ==> bs[i].sec < sec
  }

  /** An addition that gets a bucket is placed above everything emitted so far. */
  ghost predicate FreshOp(r: Run, op: Op) {
    op.Add? && !op.outcome.NoBucket? ==> AllBelow(r.emitted, PlacedSec(r.wheel, op.ms))
  }

  /** Everything pending is above everything emitted. */
  ghost predicate Separated(r: Run) {
    && StrictlyIncreasing(r.emitted)
    && forall i :: 0 <= i < |r.wheel.buckets| ==> AllBelow(r.emitted, r.wheel.buckets[i].sec)
  }

  lemma {:induction false} AddedSecs(bs: seq<Bucket>, sec: nat, id: nat, count: nat, i: nat)
    ensures i < |WithBucket(bs, sec)| ==> WithBucket(bs, sec)[i].sec == if i < |bs| then bs[i].sec else sec
    ensures |AddToBucket(bs, sec, id, count)| == |WithBucket(bs, sec)|
    ensures i < |WithBucket(bs, sec)| ==> AddToBucket(bs, sec, id, count)[i].sec == WithBucket(bs, sec)[i].sec
  {
  }

  lemma {:induction false} FreshAddSeparates(r: Run, op: Op)
    requires Separated(r) && FreshOp(r, op) && op.Add?
    ensures Separated(Step(r, op))
  {
    var r', sec := Step(r, op), PlacedSec(r.wheel, op.ms);
    forall i | 0 <= i < |r'.wheel.buckets|
      ensures AllBelow(r.emitted, r'.wheel.buckets[i].sec)
    {
      AddedSecs(r.wheel.buckets, sec, op.id, op.count, i);
    }
  }

  lemma {:induction false} FlushSeparates(r: Run, l: Limit, rest: seq<Bucket>, out: seq<Bucket>)
    requires Separated(r) && DistinctSecs(r.wheel.buckets) && (rest, out) == Drain(r.wheel.buckets, l)
    ensures StrictlyIncreasing(r.emitted + out)
    ensures forall i :: 0 <= i < |rest| ==> AllBelow(r.emitted + out, rest[i].sec)
  {
    DrainExact(r.wheel.buckets, l);
    forall i | 0 <= i < |out|
      ensures Ready(out[i], l) && AllBelow(r.emitted, out[i].sec)
    {
      assert out[i] in out && out[i] in r.wheel.buckets;
    }
    forall i | 0 <= i < |rest|
      ensures AllBelow(r.emitted + out, rest[i].sec)
    {
      assert rest[i] in rest && rest[i] in r.wheel.buckets;
    }
  }

  lemma {:induction false} StepSeparates(r: Run, op: Op)
    requires WheelOk(r.wheel) && Separated(r) && FreshOp(r, op)
    ensures Separated(Step(r, op))
  {
    if op.Add? {
      FreshAddSeparates(r, op);
    } else {
      var l := if op.All? then Everything else Below(Watermark(r.wheel, op.nowMs));
      var (rest, out) := Drain(r.wheel.buckets, l);
      FlushSeparates(r, l, rest, out);
    }
  }

  ghost predicate AllFresh(holdMs: nat, ops: seq<Op>) {
    forall i :: 0 <= i < |ops| ==> FreshOp(Exec(holdMs, ops[..i]), ops[i])
  }

  lemma {:induction false} FreshRunSeparates(holdMs: nat, ops: seq<Op>)
    requires AllFresh(holdMs, ops)
    ensures Separated(Exec(holdMs, ops))
  {
    if ops != [] {
      var n := |ops| - 1;
      forall i | 0 <= i < n
        ensures FreshOp(Exec(holdMs, ops[..n][..i]), ops[..n][i])
      {
        assert ops[..n][..i] == ops[..i];
      }
      FreshRunSeparates(holdMs, ops[..n]);
      RunConserves(holdMs, ops[..n], 0, 0);
      StepSeparates(Exec(holdMs, ops[..n]), ops[n]);
    }
  }

  ghost predicate HasSec(bs: seq<Bucket>, sec: nat) {
    exists i :: 0 <= i < |bs| && bs[i].sec == sec
  }

  /** A second that is pending, or was emitted after the first `n` buckets. */
  ghost predicate Owes(r: Run, n: nat, sec: nat) {
    n <= |r.emitted| && (HasSec(r.wheel.buckets, sec) || HasSec(r.emitted[n..], sec))
  }

  lemma {:induction false} FlushOwes(r: Run, n: nat, sec: nat, l: Limit, rest: seq<Bucket>, out: seq<Bucket>)
    requires Owes(r, n, sec) && (rest, out) == Drain(r.wheel.buckets, l)
    ensures HasSec(rest, sec) || HasSec((r.emitted + out)[n..], sec)
  {
    if HasSec(r.wheel.buckets, sec) {
      var i :| 0 <= i < |r.wheel.buckets| && r.wheel.buckets[i].sec == sec;
      DrainPartition(r.wheel.buckets, l);
      var b := r.wheel.buckets[i];
      assert b in r.wheel.buckets;
      if b in out {
        var k :| 0 <= k < |out| && out[k] == b;
        assert (r.emitted + out)[n..][|r.emitted| - n + k] == b;
      }
    } else {
      var i :| 0 <= i < |r.emitted[n..]| && r.emitted[n..][i].sec == sec;
      assert (r.emitted + out)[n..][i] == r.emitted[n..][i];
    }
  }

  lemma {:induction false} StepOwes(r: Run, op: Op, n: nat, sec: nat)
    requires Owes(r, n, sec)
    ensures Owes(Step(r, op), n, sec) && r.emitted <= Step(r, op).emitted
  {
    if op.Add? {
      if HasSec(r.wheel.buckets, sec) {
        var i :| 0 <= i < |r.wheel.buckets| && r.wheel.buckets[i].sec == sec;
        AddedSecs(r.wheel.buckets, PlacedSec(r.wheel, op.ms), op.id, op.count, i);
        assert Step(r, op).wheel.buckets[i].sec == sec;
      }
    } else {
      var l := if op.All? then Everything else Below(Watermark(r.wheel, op.nowMs));
      var (rest, out) := Drain(r.wheel.buckets, l);
      FlushOwes(r, n, sec, l, rest, out);
    }
  }

  lemma {:induction false} EmittedGrows(r: Run, op: Op)
    ensures r.emitted <= Step(r, op).emitted
  {
  }

  /** What is owed after the first `i` operations is owed after all of them. */
  lemma {:induction false} RunOwes(holdMs: nat, ops: seq<Op>, i: nat, n: nat, sec: nat)
    requires i <= |ops| && Owes(Exec(holdMs, ops[..i]), n, sec)
    ensures Owes(Exec(holdMs, ops), n, sec) && Exec(holdMs, ops[..i]).emitted <= Exec(holdMs, ops).emitted
  {
    if i == |ops| {
      assert ops[..i] == ops;
    } else {
      var m := |ops| - 1;
      assert ops[..m][..i] == ops[..i];
      RunOwes(holdMs, ops[..m], i, n, sec);
      var r, r' := Exec(holdMs, ops[..m]), Exec(holdMs, ops);
      assert r' == Step(r, ops[m]);
      StepOwes(r, ops[m], n, sec);
      EmittedGrows(r, ops[m]);
    }
  }

  lemma {:induction false} StaleAddOwes(r: Run, op: Op)
    requires WheelOk(r.wheel) && !FreshOp(r, op)
    ensures Owes(Step(r, op), |r.emitted|, PlacedSec(r.wheel, op.ms)) && Step(r, op).emitted == r.emitted
  {
    var bs, sec := r.wheel.buckets, PlacedSec(r.wheel, op.ms);
    WithBucketKeeps(bs, sec, 0, 0);
    var i := FindBucket(WithBucket(bs, sec), sec);
    AddedSecs(bs, sec, op.id, op.count, i);
    assert Step(r, op).wheel.buckets[i].sec == sec;
  }

  lemma {:induction false} RepeatBreaks(before: seq<Bucket>, out: seq<Bucket>, sec: nat)
    requires before <= out
    requires exists k :: 0 <= k < |before| && before[k].sec >= sec
    requires exists j :: 0 <= j < |out[|before|..]| && out[|before|..][j].sec == sec
    ensures !StrictlyIncreasing(out)
  {
    var k :| 0 <= k < |before| && before[k].sec >= sec;
    var j :| 0 <= j < |out[|before|..]| && out[|before|..][j].sec == sec;
    assert out[k] == before[k] && out[|before| + j].sec == sec;
  }

  /** An addition placed at or below an emitted second brings the order to an end. */
  lemma {:induction false} StaleAddRepeats(holdMs: nat, ops: seq<Op>, i: nat)
    requires i < |ops| && !FreshOp(Exec(holdMs, ops[..i]), ops[i])
    ensures !StrictlyIncreasing(Exec(holdMs, ops + [All]).emitted)
  {
    var r := Exec(holdMs, ops[..i]);
    var n, sec := |r.emitted|, PlacedSec(r.wheel, ops[i].ms);
    RunConserves(holdMs, ops[..i], 0, 0);
    StaleAddOwes(r, ops[i]);
    var all := ops + [All];
    assert all[..i + 1] == ops[..i] + [ops[i]];
    ExecStep(holdMs, ops[..i], ops[i]);
    RunOwes(holdMs, all, i + 1, n, sec);
    FinalFlushEmitsAll(holdMs, ops, 0, 0);
    var out := Exec(holdMs, all).emitted;
    RepeatBreaks(r.emitted, out, sec);
  }

  /** Exactly when no second is emitted twice: the seconds emitted over a run closed by a flush of everything are strictly
      increasing if and only if every addition that got a bucket was placed above all seconds emitted before it. */
  lemma {:induction false} EmitsOnceIff(holdMs: nat, ops: seq<Op>)
    ensures StrictlyIncreasing(Exec(holdMs, ops + [All]).emitted) <==> AllFresh(holdMs, ops)
  {
    if AllFresh(holdMs, ops) {
      FreshRunSeparates(holdMs, ops);
      RunConserves(holdMs, ops, 0, 0);
      StepSeparates(Exec(holdMs, ops), All);
      ExecStep(holdMs, ops, All);
    } else {
      var i :| 0 <= i < |ops| && !FreshOp(Exec(holdMs, ops[..i]), ops[i]);
      StaleAddRepeats(holdMs, ops, i);
    }
  }

  /** The clock handed to successive timed flushes never goes back and nothing is flushed early. */
  ghost predicate SteadyClock(ops: seq<Op>) {
    && (forall i :: 0 <= i < |ops| ==> !ops[i].All?)
    && (forall i, j :: 0 <= i < j < |ops| && ops[i].Ready_? && ops[j].Ready_? ==> ops[i].nowMs <= ops[j].nowMs)
  }

  /** The last clock reading that a timed flush was given. */
  function LastNow(ops: seq<Op>): nat {
    if ops == [] then 0
    else match ops[|ops| - 1]
      case Ready_(now) => now
      case Add(_, _, _, _) => LastNow(ops[..|ops| - 1])
      case All => LastNow(ops[..|ops| - 1])
  }

  /** Between the emitted and the pending seconds lies the watermark, and the watermark is not
      ahead of the clock that will set the next one. */
  ghost predicate Ordered(r: Run, lastNow: nat) {
    && StrictlyIncreasing(r.emitted)
    && (!r.wheel.hasOldestOpen ==> r.emitted == [])
    && (r.wheel.hasOldestOpen ==>
          && (forall i :: 0 <= i < |r.emitted| ==> r.emitted[i].sec < r.wheel.oldestOpenSec)
          && (forall i :: 0 <= i < |r.wheel.buckets| ==> r.wheel.oldestOpenSec <= r.wheel.buckets[i].sec)
          && r.wheel.oldestOpenSec <= Watermark(r.wheel, lastNow))
  }

  lemma {:induction false} WatermarkMonotone(w: Wheel, w': Wheel, now: nat, now': nat)
    requires w.holdSec == w'.holdSec && w.maxSeenMs <= w'.maxSeenMs && now <= now'
    ensures Watermark(w, now) <= Watermark(w', now')
  {
    var e := if w.maxSeenMs > now then w.maxSeenMs else now;
    var e' := if w'.maxSeenMs > now' then w'.maxSeenMs else now';
    assert e <= e' && SecOf(e) <= SecOf(e');
  }

  lemma {:induction false} ReadyKeepsOrder(r: Run, lastNow: nat, now: nat)
    requires WheelOk(r.wheel) && Ordered(r, lastNow) && lastNow <= now
    ensures Ordered(Step(r, Ready_(now)), now)
  {
    var w := r.wheel;
    var mark := Watermark(w, now);
    WatermarkMonotone(w, w, lastNow, now);
    DrainExact(w.buckets, Below(mark));
    var (rest, out) := Drain(w.buckets, Below(mark));
    var r' := Step(r, Ready_(now));
    assert r'.wheel.buckets == rest && r'.emitted == r.emitted + out;
    forall i | 0 <= i < |rest|
      ensures mark <= rest[i].sec
    {
      assert rest[i] in rest;
    }
    forall i | 0 <= i < |out|
      ensures out[i].sec < mark && (w.hasOldestOpen ==> w.oldestOpenSec <= out[i].sec)
    {
      assert out[i] in out && out[i] in w.buckets;
    }
  }

  lemma {:induction false} AddKeepsOrder(r: Run, lastNow: nat, op: Op)
    requires WheelOk(r.wheel) && Ordered(r, lastNow) && op.Add?
    ensures Ordered(Step(r, op), lastNow)
  {
    var r' := Step(r, op);
    WatermarkMonotone(r.wheel, r'.wheel, lastNow, lastNow);
    var sec := PlacedSec(r.wheel, op.ms);
    forall i | 0 <= i < |r'.wheel.buckets|
      ensures r'.wheel.buckets[i].sec == sec || (i < |r.wheel.buckets| && r'.wheel.buckets[i].sec == r.wheel.buckets[i].sec)
    {
    }
  }

  lemma {:induction false} RunOrdered(holdMs: nat, ops: seq<Op>)
    requires SteadyClock(ops)
    ensures Ordered(Exec(holdMs, ops), LastNow(ops))
  {
    if ops != [] {
      var n := |ops| - 1;
      var op, before := ops[n], ops[..n];
      assert SteadyClock(before);
      RunOrdered(holdMs, before);
      RunConserves(holdMs, before, 0, 0);
      if op.Add? {
        AddKeepsOrder(Exec(holdMs, before), LastNow(before), op);
      } else {
        NowsBelow(ops, n);
        ReadyKeepsOrder(Exec(holdMs, before), LastNow(before), op.nowMs);
      }
    }
  }

  lemma {:induction false} NowsBelow(ops: seq<Op>, n: nat)
    requires SteadyClock(ops) && n < |ops| && ops[n].Ready_?
    ensures LastNow(ops[..n]) <= ops[n].nowMs
  {
    LastNowIsOne(ops[..n]);
  }

  lemma {:induction false} LastNowIsOne(ops: seq<Op>)
    ensures LastNow(ops) == 0 || exists i :: 0 <= i < |ops| && ops[i].Ready_? && ops[i].nowMs == LastNow(ops)
  {
    if ops != [] {
      var n := |ops| - 1;
      LastNowIsOne(ops[..n]);
      if !ops[n].Ready_? && LastNow(ops) != 0 {
        var i :| 0 <= i < |ops[..n]| && ops[..n][i].Ready_? && ops[..n][i].nowMs == LastNow(ops);
        assert ops[i].Ready_?;
      }
    }
  }

  lemma {:induction false} SteadyIsFresh(holdMs: nat, ops: seq<Op>, i: nat)
    requires SteadyClock(ops) && i < |ops|
    ensures FreshOp(Exec(holdMs, ops[..i]), ops[i])
  {
    assert SteadyClock(ops[..i]);
    RunOrdered(holdMs, ops[..i]);
  }

  /** With a clock that never goes back, the seconds emitted over a whole run and its closing flush of everything are
      strictly increasing, so that no second is emitted twice. */
  lemma {:induction false} RunEmitsOnce(holdMs: nat, ops: seq<Op>)
    requires SteadyClock(ops)
    ensures StrictlyIncreasing(Exec(holdMs, ops + [All]).emitted)
  {
    forall i | 0 <= i < |ops|
      ensures FreshOp(Exec(holdMs, ops[..i]), ops[i])
    {
      SteadyIsFresh(holdMs, ops, i);
    }
    EmitsOnceIff(holdMs, ops);
  }

  lemma {:induction false} ExecStep(holdMs: nat, ops: seq<Op>, op: Op)
    ensures Exec(holdMs, ops + [op]) == Step(Exec(holdMs, ops), op)
  {
    assert (ops + [op])[..|ops|] == ops;
  }

  /** One sample is added and flushed. */
  lemma {:induction false} AddedAndFlushed(a: Op, b: Bucket, ops: seq<Op>)
    requires a == Add(0, 1, 1, Added) && b == Bucket(0, [Item(1, 1)], 1) && ops == [a, Ready_(5000)]
    ensures Exec(1, ops).wheel == Wheel([], 1, 0, 4, true, 0, 1) && Exec(1, ops).emitted == [b]
  {
    FirstAdd(b);
    DrainOne(b, Below(4));
    var o1 := [a];
    assert [] + [a] == o1 && o1 + [Ready_(5000)] == ops;
    ExecStep(1, [], a);
    assert Exec(1, o1).wheel == Wheel([b], 1, 0, 0, false, 0, 0);
    ExecStep(1, o1, Ready_(5000));
  }

  /** The clock goes back, and the same sample is added again. */
  lemma {:induction false} AddedAgain(a: Op, b: Bucket, ops: seq<Op>)
    requires a == Add(0, 1, 1, Added) && b == Bucket(0, [Item(1, 1)], 1) && ops == [a, Ready_(5000), Ready_(0), a]
    ensures Exec(1, ops).wheel == Wheel([b], 1, 0, 0, true, 0, 1) && Exec(1, ops).emitted == [b]
  {
    var o2, o3 := ops[..2], ops[..3];
    AddedAndFlushed(a, b, o2);
    assert o2 + [Ready_(0)] == o3 && o3 + [a] == ops;
    ExecStep(1, o2, Ready_(0));
    GoesBack(Exec(1, o2));
    ExecStep(1, o3, a);
    AddsAgain(Exec(1, o3), b);
  }

  /** A timed flush with an earlier clock moves the watermark back. */
  lemma {:induction false} GoesBack(r: Run)
    requires r.wheel == Wheel([], 1, 0, 4, true, 0, 1)
    ensures Step(r, Ready_(0)).wheel == Wheel([], 1, 0, 0, true, 0, 1) && Step(r, Ready_(0)).emitted == r.emitted
  {
    DrainOne(Bucket(0, [], 0), Everything);
    assert r.emitted + [] == r.emitted;
  }

  lemma {:induction false} AddsAgain(r: Run, b: Bucket)
    requires r.wheel == Wheel([], 1, 0, 0, true, 0, 1) && b == Bucket(0, [Item(1, 1)], 1)
    ensures Step(r, Add(0, 1, 1, Added)).wheel == Wheel([b], 1, 0, 0, true, 0, 1) && Step(r, Add(0, 1, 1, Added)).emitted == r.emitted
  {
    FirstAdd(b);
  }

  /** A clock that goes back lets a second be emitted twice ... */
  lemma {:induction false} BackwardClockRepeats()
    ensures var ops := [Add(0, 1, 1, Added), Ready_(5000), Ready_(0), Add(0, 1, 1, Added), Ready_(5000)];
            var out := Exec(1, ops).emitted;
            |out| == 2 && out[0].sec == out[1].sec == 0
  {
    var a, b := Add(0, 1, 1, Added), Bucket(0, [Item(1, 1)], 1);
    var o4 := [a, Ready_(5000), Ready_(0), a];
    AddedAgain(a, b, o4);
    DrainOne(b, Below(4));
    assert o4 + [Ready_(5000)] == [a, Ready_(5000), Ready_(0), a, Ready_(5000)];
    ExecStep(1, o4, Ready_(5000));
    assert Exec(1, o4 + [Ready_(5000)]).emitted == [b] + [b];
  }

  /** ... and so does a flush of everything, because it leaves the watermark where it was. */
  lemma {:induction false} FullFlushRepeats()
    ensures var ops := [Add(0, 1, 1, Added), All, Add(0, 1, 1, Added), All];
            var out := Exec(1, ops).emitted;
            |out| == 2 && out[0].sec == out[1].sec == 0
  {
    var a := Add(0, 1, 1, Added);
    assert [a, All, a, All] == (([] + [a]) + [All]) + [a] + [All];
    ExecStep(1, [], a);
    ExecStep(1, [] + [a], All);
    ExecStep(1, [] + [a] + [All], a);
    ExecStep(1, [] + [a] + [All] + [a], All);
    var b := Bucket(0, [Item(1, 1)], 1);
    FirstAdd(b);
    DrainOne(b, Everything);
  }

  lemma {:induction false} FirstAdd(b: Bucket)
    requires b == Bucket(b.sec, [Item(1, 1)], 1)
    ensures AddToBucket([], b.sec, 1, 1) == [b]
    ensures Exec(1, []).wheel == Wheel([], 1, 0, 0, false, 0, 0)
  {
    assert WithBucket([], b.sec) == [Bucket(b.sec, [], 0)];
    assert FindBucket([Bucket(b.sec, [], 0)], b.sec) == 0;
    assert Bump([], 1, 1) == [Item(1, 1)];
  }

  lemma {:induction false} DrainOne(b: Bucket, l: Limit)
    requires Ready(b, l)
    ensures Drain([b], l) == ([], [b])
    ensures Drain([], l) == ([], [])
    ensures Drain([], Below(0)) == ([], [])
  {
    var bs := [b];
    assert Oldest([], l, 0) == 0;
    assert Drain([], l) == ([], []);
    assert Oldest([], Below(0), 0) == 0;
    assert Oldest(bs, l, 0) == 1;
    assert Oldest(bs, l, |bs|) == 0;
    assert Without(bs, 0) == [];
    assert bs + [] == bs;
    assert Drain(bs, l) == ([], [bs[0]] + []);
  }
}

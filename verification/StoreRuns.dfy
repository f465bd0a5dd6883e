/** Whole runs of the profile store, and the end-to-end theorem: what a reader decodes from the three
    files is what the samples put in.
  */
module StoreRuns {
  import opened Bits
  import opened Items
  import opened Wheels
  import opened TimeWheels
  import opened Dictionary
  import opened RecordCodec
  import opened TornFiles
  import opened Stores

  datatype StoreOp =
    | Append(frame: Frame, ok: bool)
    | Reverse
    | Reset(index: nat)
    | Done(count: nat, ms: nat, outcome: DoneOutcome)
    | Timed(nowMs: nat, takeOk: seq<bool>)
    | Final(takeOk: seq<bool>)

  /** A store with the history of its wheel. */
  datatype Sys = Sys(store: Store, log: seq<Entry>, emitted: seq<Bucket>)

  function StoreStep(y: Sys, op: StoreOp): Sys {
    var s := y.store;
    match op
    case Append(frame, ok) => if ok then y.(store := AppendFrame(s, frame)) else y
    case Reverse => y.(store := ReverseCurrent(s))
    case Reset(index) => if index <= |s.current| then y.(store := ResetCurrent(s, index)) else y
    case Done(count, ms, o) =>
      y.(store := DoneAt(s, count, ms, o),
         log := if o == Counted(Added) then y.log + [Entry(PlacedSec(s.wheel, ms), CurrentId(s), count)] else y.log)
    case Timed(now, takeOk) => y.(store := DumpReady(s, now, takeOk), emitted := y.emitted + FlushReady(s.wheel, now).1)
    case Final(takeOk) => y.(store := DumpAll(s, takeOk), emitted := y.emitted + FlushAll(s.wheel).1)
  }

  /** The store alone after an operation. */
  function StoreAfter(s: Store, op: StoreOp): Store {
    StoreStep(Sys(s, [], []), op).store
  }

  lemma {:induction false} StoreAfterIs(y: Sys, op: StoreOp)
    ensures StoreStep(y, op).store == StoreAfter(y.store, op)
  {
  }

  function StoreExec(holdMs: nat, ops: seq<StoreOp>): Sys {
    if ops == [] then Sys(NewStore(holdMs), [], [])
    else StoreStep(StoreExec(holdMs, ops[..|ops| - 1]), ops[|ops| - 1])
  }

  // ---------------------------------------------------------------------------------------------
  // The reference: samples as frame lists in seconds; no ids, no tables, no files

  datatype Clock = Clock(holdSec: nat, maxSeenMs: nat, oldestOpenSec: nat, hasOldestOpen: bool)

  datatype Sample = Sample(sec: nat, frames: seq<Frame>, count: nat)

  datatype Ref = Ref(cur: seq<Frame>, mark: nat, clock: Clock, samples: seq<Sample>)

  function RefDone(r: Ref, count: nat, ms: nat, o: DoneOutcome): Ref {
    if o.NotInterned? then r
    else
      var c := r.clock;
      var sec := if c.hasOldestOpen && SecOf(ms) < c.oldestOpenSec then c.oldestOpenSec else SecOf(ms);
      var r' := r.(clock := c.(maxSeenMs := if ms > c.maxSeenMs then ms else c.maxSeenMs));
      if o.o.Added? then r'.(cur := [], mark := 0, samples := r.samples + [Sample(sec, r.cur, count)]) else r'
  }

  function RefStep(r: Ref, op: StoreOp): Ref {
    match op
    case Append(frame, ok) => if ok then r.(cur := r.cur + [Bounded(frame)]) else r
    case Reverse => if r.mark >= |r.cur| then r else r.(cur := ReverseTail(r.cur, r.mark), mark := |r.cur|)
    case Reset(index) => if index <= |r.cur| then r.(cur := r.cur[..index], mark := index) else r
    case Done(count, ms, o) => RefDone(r, count, ms, o)
    case Timed(now, _) =>
      var sec := SecOf(if r.clock.maxSeenMs > now then r.clock.maxSeenMs else now);
      r.(clock := r.clock.(oldestOpenSec := if sec > r.clock.holdSec then sec - r.clock.holdSec else 0, hasOldestOpen := true))
    case Final(_) => r
  }

  function RefExec(holdMs: nat, ops: seq<StoreOp>): Ref {
    if ops == [] then Ref([], 0, Clock(HoldSec(holdMs), 0, 0, false), [])
    else RefStep(RefExec(holdMs, ops[..|ops| - 1]), ops[|ops| - 1])
  }

  /** What the samples put into a second for a frame list. */
  function SampleAt(samples: seq<Sample>, sec: nat, frames: seq<Frame>): nat {
    if samples == [] then 0
    else SampleAt(samples[..|samples| - 1], sec, frames)
         + (if samples[|samples| - 1].sec == sec && samples[|samples| - 1].frames == frames then samples[|samples| - 1].count else 0)
  }

  // ---------------------------------------------------------------------------------------------
  // Store and reference go together

  function ClockOf(w: Wheel): Clock {
    Clock(w.holdSec, w.maxSeenMs, w.oldestOpenSec, w.hasOldestOpen)
  }

  /** A log entry is a sample: same second, same count, and the id stands for the sample's frames. */
  ghost predicate Matches(s: Store, e: Entry, x: Sample)
    requires DictOk(s)
  {
    && e.sec == x.sec && e.count == x.count
    && 1 <= e.id <= |s.stacks|
    && FramesOfIds(s.strs, s.stacks[e.id - 1]) == x.frames
  }

  ghost predicate LogMatches(s: Store, log: seq<Entry>, samples: seq<Sample>)
    requires DictOk(s)
  {
    |log| == |samples| && forall i :: 0 <= i < |log| ==> Matches(s, log[i], samples[i])
  }

  ghost predicate Sync(y: Sys, r: Ref) {
    && StoreOk(y.store)
    && WheelOk(y.store.wheel)
    && FramesOfIds(y.store.strs, y.store.current) == r.cur
    && y.store.lastReverse == r.mark
    && ClockOf(y.store.wheel) == r.clock
    && LogMatches(y.store, y.log, r.samples)
  }

  /** Growing the dictionaries changes no entry that matched. */
  lemma {:induction false} MatchGrows(s: Store, s': Store, log: seq<Entry>, samples: seq<Sample>)
    requires DictOk(s) && DictOk(s') && s.strs <= s'.strs && s.stacks <= s'.stacks
    requires LogMatches(s, log, samples)
    ensures LogMatches(s', log, samples)
  {
    forall i | 0 <= i < |log|
      ensures Matches(s', log[i], samples[i])
    {
      assert Matches(s, log[i], samples[i]);
      var ids := s.stacks[log[i].id - 1];
      assert s'.stacks[log[i].id - 1] == ids;
      FramesGrow(s.strs, s'.strs, ids);
    }
  }

  lemma {:induction false} WheelStaysOk(w: Wheel, ms: nat, id: nat, count: nat, o: Outcome)
    requires WheelOk(w)
    ensures WheelOk(AddSample(w, ms, id, count, o))
  {
    WithBucketKeeps(w.buckets, PlacedSec(w, ms), 0, 0);
    AddToBucketOk(w.buckets, PlacedSec(w, ms), id, count);
  }

  /** The log of a recorded sample. */
  lemma {:induction false} DoneKeepsLog(y: Sys, r: Ref, op: StoreOp, s': Store)
    requires Sync(y, r) && op.Done? && s' == DoneAt(y.store, op.count, op.ms, op.outcome)
    ensures DictOk(s') && LogMatches(s', StoreStep(y, op).log, RefStep(r, op).samples)
  {
    var s, o := y.store, op.outcome;
    DoneKeepsOk(s, op.count, op.ms, o);
    MatchGrows(s, s', y.log, r.samples);
    if o == Counted(Added) {
      var e := Entry(PlacedSec(s.wheel, op.ms), CurrentId(s), op.count);
      assert Matches(s', e, Sample(e.sec, r.cur, op.count));
    }
  }

  lemma {:induction false} DoneKeepsSync(y: Sys, r: Ref, op: StoreOp)
    requires Sync(y, r) && op.Done?
    ensures Sync(StoreStep(y, op), RefStep(r, op))
  {
    var s, o := y.store, op.outcome;
    DoneKeepsOk(s, op.count, op.ms, o);
    DoneKeepsLog(y, r, op, DoneAt(s, op.count, op.ms, o));
    if o.Counted? {
      WheelStaysOk(s.wheel, op.ms, CurrentId(s), op.count, o.o);
    }
  }

  lemma {:induction false} DumpKeepsSync(y: Sys, r: Ref, op: StoreOp)
    requires Sync(y, r) && (op.Timed? || op.Final?)
    ensures Sync(StoreStep(y, op), RefStep(r, op))
  {
    var s := y.store;
    if op.Timed? {
      var l := Below(Watermark(s.wheel, op.nowMs));
      DumpKeepsOk(s, l, FlushReady(s.wheel, op.nowMs).0, op.takeOk);
      DrainKeepsOk(s.wheel.buckets, l);
    } else {
      DumpKeepsOk(s, Everything, FlushAll(s.wheel).0, op.takeOk);
      DrainKeepsOk(s.wheel.buckets, Everything);
    }
    MatchGrows(s, StoreStep(y, op).store, y.log, r.samples);
  }

  lemma {:induction false} StepKeepsSync(y: Sys, r: Ref, op: StoreOp)
    requires Sync(y, r)
    ensures Sync(StoreStep(y, op), RefStep(r, op))
  {
    var s := y.store;
    match op
    case Append(frame, ok) =>
      if ok {
        AppendKeepsOk(s, frame);
        MatchGrows(s, AppendFrame(s, frame), y.log, r.samples);
      }
    case Reverse => ReverseKeepsOk(s);
    case Reset(index) =>
      if index <= |s.current| {
        ResetKeepsOk(s, index);
      }
    case Done(_, _, _) => DoneKeepsSync(y, r, op);
    case Timed(_, _) => DumpKeepsSync(y, r, op);
    case Final(_) => DumpKeepsSync(y, r, op);
  }

  lemma {:induction false} RunSync(holdMs: nat, ops: seq<StoreOp>)
    ensures Sync(StoreExec(holdMs, ops), RefExec(holdMs, ops))
  {
    if ops != [] {
      RunSync(holdMs, ops[..|ops| - 1]);
      StepKeepsSync(StoreExec(holdMs, ops[..|ops| - 1]), RefExec(holdMs, ops[..|ops| - 1]), ops[|ops| - 1]);
    }
  }

  /** Closure under reference over every run: at every point each stack id in stack.bin has an idsmap
      line and each frame id of such a line has a strmap line. */
  lemma {:induction false} RunClosed(holdMs: nat, ops: seq<StoreOp>)
    ensures Closed(StoreExec(holdMs, ops).store) && DictOk(StoreExec(holdMs, ops).store)
  {
    RunSync(holdMs, ops);
  }

  // ---------------------------------------------------------------------------------------------
  // What was written is what was emitted

  /** What the records hold for a stack id in a second. */
  function RecAt(rs: seq<Interval>, sec: nat, id: nat): nat {
    if rs == [] then 0
    else (if rs[0].startMs == sec * BUCKET_MS then CountOf(rs[0].items, id) else 0) + RecAt(rs[1..], sec, id)
  }

  lemma {:induction false} RecAppend(a: seq<Interval>, b: seq<Interval>, sec: nat, id: nat)
    ensures RecAt(a + b, sec, id) == RecAt(a, sec, id) + RecAt(b, sec, id)
  {
    if a == [] {
      assert a + b == b;
    } else {
      assert (a + b)[1..] == a[1..] + b;
      RecAppend(a[1..], b, sec, id);
    }
  }

  lemma {:induction false} RecOfEmitted(bs: seq<Bucket>, sec: nat, id: nat)
    ensures RecAt(IntervalsOf(bs), sec, id) == At(bs, sec, id)
  {
    if bs != [] {
      assert IntervalsOf(bs)[1..] == IntervalsOf(bs[1..]);
      RecOfEmitted(bs[1..], sec, id);
      NonZeroKeepsCounts(bs[0].items, id);
    }
  }

  lemma {:induction false} RecOfDump(s: Store, flushed: (Wheel, seq<Bucket>), takeOk: seq<bool>, sec: nat, id: nat)
    ensures RecAt(DumpAs(s, flushed, takeOk).records, sec, id) == RecAt(s.records, sec, id) + At(flushed.1, sec, id)
  {
    var out := IntervalsOf(flushed.1);
    RecAppend(s.records + out, Guards(out), sec, id);
    RecAppend(s.records, out, sec, id);
    RecOfEmitted(flushed.1, sec, id);
    assert Guards(out) != [] ==> Guards(out)[1..] == [];
  }

  ghost predicate Kept(y: Sys, sec: nat, id: nat) {
    && RecAt(y.store.records, sec, id) == At(y.emitted, sec, id)
    && Conserved(Run(y.store.wheel, y.emitted, y.log, 0), sec, id)
  }

  /** A counted sample is an addition to the wheel and changes no record. */
  lemma {:induction false} DoneIsAdd(y: Sys, op: StoreOp)
    requires op.Done? && op.outcome.Counted?
    ensures var y', r := StoreStep(y, op), Step(Run(y.store.wheel, y.emitted, y.log, 0), CountedAs(y.store, op));
            y'.store.wheel == r.wheel && y'.emitted == r.emitted && y'.log == r.log && y'.store.records == y.store.records && r.emitted == y.emitted
  {
  }

  function CountedAs(s: Store, op: StoreOp): Op
    requires op.Done? && op.outcome.Counted?
  {
    Wheels.Add(op.ms, CurrentId(s), op.count, op.outcome.o)
  }

  lemma {:induction false} KeptBy(y: Sys, y': Sys, r: Run, sec: nat, id: nat)
    requires Kept(y, sec, id) && Conserved(r, sec, id)
    requires y'.store.wheel == r.wheel && y'.emitted == r.emitted == y.emitted && y'.log == r.log && y'.store.records == y.store.records
    ensures Kept(y', sec, id)
  {
  }

  lemma {:induction false} DoneKeepsCounts(y: Sys, op: StoreOp, sec: nat, id: nat)
    requires WheelOk(y.store.wheel) && Kept(y, sec, id) && op.Done?
    ensures Kept(StoreStep(y, op), sec, id)
  {
    if op.outcome.Counted? {
      var r := Run(y.store.wheel, y.emitted, y.log, 0);
      AddConserves(r, CountedAs(y.store, op), sec, id);
      DoneIsAdd(y, op);
      KeptBy(y, StoreStep(y, op), Step(r, CountedAs(y.store, op)), sec, id);
    }
  }

  lemma {:induction false} KeptAfter(y: Sys, s: Store, out: seq<Bucket>, sec: nat, id: nat)
    requires Kept(y, sec, id)
    requires RecAt(s.records, sec, id) == At(y.emitted + out, sec, id)
    requires At(s.wheel.buckets, sec, id) + At(y.emitted + out, sec, id) == At(y.store.wheel.buckets, sec, id) + At(y.emitted, sec, id)
    ensures Kept(Sys(s, y.log, y.emitted + out), sec, id)
  {
  }

  lemma {:induction false} DumpKeepsCounts(y: Sys, l: Limit, w: Wheel, takeOk: seq<bool>, sec: nat, id: nat)
    requires WheelOk(y.store.wheel) && Kept(y, sec, id)
    requires w.buckets == Drain(y.store.wheel.buckets, l).0
    ensures var out := Drain(y.store.wheel.buckets, l).1;
            Kept(Sys(DumpAs(y.store, (w, out), takeOk), y.log, y.emitted + out), sec, id)
  {
    var out := Drain(y.store.wheel.buckets, l).1;
    FlushConserves(Run(y.store.wheel, y.emitted, y.log, 0), l, sec, id);
    RecOfDump(y.store, (w, out), takeOk, sec, id);
    AtAppend(y.emitted, out, sec, id);
    KeptAfter(y, DumpAs(y.store, (w, out), takeOk), out, sec, id);
  }

  lemma {:induction false} StepKeepsCounts(y: Sys, op: StoreOp, sec: nat, id: nat)
    requires WheelOk(y.store.wheel) && Kept(y, sec, id)
    ensures Kept(StoreStep(y, op), sec, id)
  {
    var w := y.store.wheel;
    match op
    case Append(_, _) =>
    case Reverse =>
    case Reset(_) =>
    case Done(_, _, _) => DoneKeepsCounts(y, op, sec, id);
    case Timed(now, takeOk) => DumpKeepsCounts(y, Below(Watermark(w, now)), FlushReady(w, now).0, takeOk, sec, id);
    case Final(takeOk) => DumpKeepsCounts(y, Everything, FlushAll(w).0, takeOk, sec, id);
  }

  lemma {:induction false} RunKeepsCounts(holdMs: nat, ops: seq<StoreOp>, sec: nat, id: nat)
    ensures Kept(StoreExec(holdMs, ops), sec, id)
  {
    if ops == [] {
      CongSame(0);
    } else {
      var before := ops[..|ops| - 1];
      RunKeepsCounts(holdMs, before, sec, id);
      RunSync(holdMs, before);
      StepKeepsCounts(StoreExec(holdMs, before), ops[|ops| - 1], sec, id);
    }
  }

  /** After a final dump the records hold, for every second and stack id, what was recorded. */
  lemma {:induction false} FinalRecords(holdMs: nat, ops: seq<StoreOp>, takeOk: seq<bool>, sec: nat, id: nat)
    ensures var y := StoreExec(holdMs, ops + [Final(takeOk)]);
            Cong(RecAt(y.store.records, sec, id), LogAt(y.log, sec, id))
  {
    var ops' := ops + [Final(takeOk)];
    assert ops'[..|ops'| - 1] == ops;
    RunKeepsCounts(holdMs, ops', sec, id);
    DrainEverything(StoreExec(holdMs, ops).store.wheel.buckets);
  }

  // ---------------------------------------------------------------------------------------------
  // Hand-outs

  ghost predicate AllTaken(takeOk: seq<bool>) {
    forall i :: 0 <= i < |takeOk| ==> takeOk[i]
  }

  /** Memory for the entries of a table can be had at every dump. */
  ghost predicate HandsOut(op: StoreOp) {
    op.Timed? || op.Final? ==> AllTaken(op.takeOk)
  }

  ghost predicate AllHandedOut(ops: seq<StoreOp>) {
    forall i :: 0 <= i < |ops| ==> HandsOut(ops[i])
  }

  lemma {:induction false} DumpKeepsWhole(s: Store, flushed: (Wheel, seq<Bucket>), takeOk: seq<bool>)
    requires NoneTorn(s.torn) && AllTaken(takeOk)
    ensures NoneTorn(DumpAs(s, flushed, takeOk).torn)
  {
    var out := IntervalsOf(flushed.1);
    assert NoneTorn(TornBy(out, takeOk));
  }

  lemma {:induction false} StepKeepsWhole(y: Sys, op: StoreOp)
    requires NoneTorn(y.store.torn) && HandsOut(op)
    ensures NoneTorn(StoreStep(y, op).store.torn)
  {
    var s := y.store;
    if op.Timed? {
      DumpKeepsWhole(s, FlushReady(s.wheel, op.nowMs), op.takeOk);
    } else if op.Final? {
      DumpKeepsWhole(s, FlushAll(s.wheel), op.takeOk);
    }
  }

  /** With memory at every dump no record is torn. */
  lemma {:induction false} RunWhole(holdMs: nat, ops: seq<StoreOp>)
    requires AllHandedOut(ops)
    ensures NoneTorn(StoreExec(holdMs, ops).store.torn)
  {
    if ops != [] {
      var before, op := ops[..|ops| - 1], ops[|ops| - 1];
      RunWhole(holdMs, before);
      StepKeepsWhole(StoreExec(holdMs, before), op);
    }
  }

  lemma {:induction false} TornLengthStep(y: Sys, op: StoreOp)
    requires |y.store.torn| == |y.store.records|
    ensures var s := StoreStep(y, op).store; |s.torn| == |s.records|
  {
  }

  lemma {:induction false} RunTornLength(holdMs: nat, ops: seq<StoreOp>)
    ensures var s := StoreExec(holdMs, ops).store; |s.torn| == |s.records|
  {
    if ops != [] {
      var n := |ops| - 1;
      RunTornLength(holdMs, ops[..n]);
      TornLengthStep(StoreExec(holdMs, ops[..n]), ops[n]);
    }
  }
}

/** Reading a store back from its three files, and the end-to-end theorem. */
module ReadBack {
  import opened Bits
  import opened Bytes
  import opened Items
  import opened Wheels
  import opened TimeWheels
  import opened Dictionary
  import opened RecordCodec
  import opened TornFiles
  import opened Stores
  import opened StoreRuns

  // ---------------------------------------------------------------------------------------------
  // Everything fits its field

  /** Clock readings stay below 2^44 milliseconds, some 557 years. */
  const MS_LIMIT: nat := 0x1000_0000_0000

  /** The inputs that the theorem speaks about. */
  ghost predicate OpOk(op: StoreOp) {
    match op
    case Append(frame, _) => NoNewline(frame)
    case Done(count, ms, _) => count < U64 && ms < MS_LIMIT
    case Timed(now, _) => now < MS_LIMIT
    case Reverse => true
    case Reset(_) => true
    case Final(_) => true
  }

  ghost predicate CountsFit(items: seq<Item>, n: nat) {
    |items| <= n && forall i :: 0 <= i < |items| ==> items[i].count < U64
  }

  ghost predicate BucketFits(b: Bucket, n: nat) {
    CountsFit(b.items, n) && b.sec * BUCKET_MS < MS_LIMIT
  }

  ghost predicate IntervalFits(r: Interval, n: nat) {
    CountsFit(r.items, n) && r.startMs < U64 && r.endMs < U64
  }

  ghost predicate BucketsFit(bs: seq<Bucket>, n: nat) {
    forall i :: 0 <= i < |bs| ==> BucketFits(bs[i], n)
  }

  ghost predicate IntervalsFit(rs: seq<Interval>, n: nat) {
    forall i :: 0 <= i < |rs| ==> IntervalFits(rs[i], n)
  }

  ghost predicate Sized(s: Store, n: nat) {
    && |s.strs| <= n && |s.stacks| <= n
    && (forall i :: 0 <= i < |s.strs| ==> NoNewline(s.strs[i]))
    && BucketsFit(s.wheel.buckets, n)
    && IntervalsFit(s.records, n)
    && s.wheel.maxSeenMs < MS_LIMIT && s.wheel.oldestOpenSec * BUCKET_MS < MS_LIMIT
  }

  lemma {:induction false} SecBelow(ms: nat)
    requires ms < MS_LIMIT
    ensures SecOf(ms) * BUCKET_MS < MS_LIMIT
  {
  }

  lemma {:induction false} AddFits(bs: seq<Bucket>, sec: nat, id: nat, count: nat, n: nat)
    requires BucketsFit(bs, n) && sec * BUCKET_MS < MS_LIMIT && count < U64
    ensures BucketsFit(WithBucket(bs, sec), n + 1) && BucketsFit(AddToBucket(bs, sec, id, count), n + 1)
  {
    var bs' := WithBucket(bs, sec);
    forall i | 0 <= i < |bs'|
      ensures BucketFits(bs'[i], n)
    {
    }
    var i := FindBucket(bs', sec);
    if i < |bs'| {
      assert CountsFit(Bump(bs'[i].items, id, count), n + 1);
    }
  }

  lemma {:induction false} NonZeroFits(items: seq<Item>, n: nat)
    requires CountsFit(items, n)
    ensures CountsFit(NonZero(items), n)
  {
    if items != [] {
      NonZeroFits(items[1..], n - 1);
    }
  }

  lemma {:induction false} DrainFits(bs: seq<Bucket>, l: Limit, n: nat)
    requires BucketsFit(bs, n)
    ensures BucketsFit(Drain(bs, l).0, n) && IntervalsFit(IntervalsOf(Drain(bs, l).1), n)
  {
    DrainPartition(bs, l);
    var rest, out := Drain(bs, l).0, Drain(bs, l).1;
    forall i | 0 <= i < |rest|
      ensures BucketFits(rest[i], n)
    {
      assert rest[i] in bs;
    }
    forall i | 0 <= i < |out|
      ensures IntervalFits(IntervalsOf(out)[i], n)
    {
      assert out[i] in bs;
      NonZeroFits(out[i].items, n);
    }
  }

  lemma {:induction false} DumpFits(s: Store, l: Limit, w: Wheel, takeOk: seq<bool>, n: nat)
    requires Sized(s, n) && w.buckets == Drain(s.wheel.buckets, l).0
    requires w.maxSeenMs < MS_LIMIT && w.oldestOpenSec * BUCKET_MS < MS_LIMIT
    ensures Sized(DumpAs(s, (w, Drain(s.wheel.buckets, l).1), takeOk), n)
  {
    DrainFits(s.wheel.buckets, l, n);
    var out := IntervalsOf(Drain(s.wheel.buckets, l).1);
    assert IntervalsFit(Guards(out), n);
  }

  lemma {:induction false} DoneFits(s: Store, op: StoreOp, n: nat)
    requires Sized(s, n) && OpOk(op) && op.Done?
    ensures Sized(DoneAt(s, op.count, op.ms, op.outcome), n + 1)
  {
    SecBelow(op.ms);
    AddFits(s.wheel.buckets, PlacedSec(s.wheel, op.ms), CurrentId(s), op.count, n);
    var s' := DoneAt(s, op.count, op.ms, op.outcome);
    assert BucketsFit(s.wheel.buckets, n + 1);
    assert BucketsFit(s'.wheel.buckets, n + 1);
    assert IntervalsFit(s'.records, n + 1);
  }

  lemma {:induction false} SizedMore(s: Store, n: nat)
    requires Sized(s, n)
    ensures Sized(s, n + 1)
  {
  }

  lemma {:induction false} StepFits(y: Sys, op: StoreOp, n: nat)
    requires Sized(y.store, n) && OpOk(op)
    ensures Sized(StoreStep(y, op).store, n + 1)
  {
    var s := y.store;
    SizedMore(s, n);
    match op
    case Append(frame, ok) =>
      assert NoNewline(Bounded(frame));
    case Reverse =>
    case Reset(_) =>
    case Done(_, _, _) => DoneFits(s, op, n);
    case Timed(now, takeOk) =>
      SecBelow(if s.wheel.maxSeenMs > now then s.wheel.maxSeenMs else now);
      DumpFits(s, Below(Watermark(s.wheel, now)), FlushReady(s.wheel, now).0, takeOk, n);
      SizedMore(StoreStep(y, op).store, n);
    case Final(takeOk) =>
      DumpFits(s, Everything, FlushAll(s.wheel).0, takeOk, n);
      SizedMore(StoreStep(y, op).store, n);
  }

  ghost predicate OpsOk(ops: seq<StoreOp>) {
    |ops| < 0x8000_0000 && forall i :: 0 <= i < |ops| ==> OpOk(ops[i])
  }

  lemma {:induction false} RunFits(holdMs: nat, ops: seq<StoreOp>)
    requires OpsOk(ops)
    ensures Sized(StoreExec(holdMs, ops).store, |ops|)
  {
    if ops != [] {
      RunFits(holdMs, ops[..|ops| - 1]);
      StepFits(StoreExec(holdMs, ops[..|ops| - 1]), ops[|ops| - 1], |ops| - 1);
    }
  }

  // ---------------------------------------------------------------------------------------------
  // The reader

  datatype Files = Files(strmap: seq<byte>, idsmap: seq<byte>, stackBin: seq<byte>)

  /** The files of a store as a reader finds them, decompressed: every id once, in increasing order, and every record in order, as far as its
      bytes have left the staging buffer. */
  function FilesOf(s: Store): Files
    requires s.dumpedStrs <= |s.strs| && s.dumpedStacks <= |s.stacks|
  {
    Files(StrFile(s.strs, s.dumpedStrs), IdsFile(s.stacks, s.dumpedStacks), Reached(s.records, s.torn))
  }

  datatype Dict = Dict(strs: map<nat, Frame>, ids: map<nat, seq<nat>>)

  /** The dictionaries of a reader that has the memory for them. */
  function Reload(f: Files): Dict {
    Dict(LoadStrs(f.strmap, []), LoadIds(f.idsmap, []))
  }

  /** The text shown for a frame id without a line: `<# STRMAP LOST ID #>`. */
  const LOST: Frame := [60, 35, 32, 83, 84, 82, 77, 65, 80, 32, 76, 79, 83, 84, 32, 73, 68, 32, 35, 62]

  function Resolve(d: Dict, id: nat): seq<Frame>
    requires id in d.ids
  {
    seq(|d.ids[id]|, i requires 0 <= i < |d.ids[id]| =>
      if d.ids[id][i] in d.strs then d.strs[d.ids[id][i]] else LOST)
  }

  /** The counts of the entries that resolve to a frame list. */
  function FrameCount(items: seq<Item>, d: Dict, frames: seq<Frame>): nat {
    if items == [] then 0
    else (if items[0].id in d.ids && Resolve(d, items[0].id) == frames then items[0].count else 0)
         + FrameCount(items[1..], d, frames)
  }

  function EntriesCount(e: Entries, d: Dict, frames: seq<Frame>): nat {
    match e case Found(items) => FrameCount(items, d, frames) case Missing => 0
  }

  /** Sums, over the first `n` records found, what they hold in a second for a frame list. */
  function DecodedAt(file: seq<byte>, recs: seq<Rec>, n: nat, d: Dict, sec: nat, frames: seq<Frame>): nat
    requires n <= |recs|
  {
    if n == 0 then 0
    else DecodedAt(file, recs, n - 1, d, sec, frames)
         + (if recs[n - 1].startMs == sec * BUCKET_MS then EntriesCount(EntriesOf(file, recs[n - 1]), d, frames) else 0)
  }

  /** What a reader finds in the files for a second and a frame list. */
  function Decoded(f: Files, sec: nat, frames: seq<Frame>): nat {
    match Scan(f.stackBin, 0, NO_INFO)
    case Corrupt => 0
    case Scanned(info) => DecodedAt(f.stackBin, info.records, |info.records|, Reload(f), sec, frames)
  }

  // ---------------------------------------------------------------------------------------------
  // The dictionaries come back

  ghost predicate Complete(s: Store) {
    StoreOk(s) && s.dumpedStrs == |s.strs| && s.dumpedStacks == |s.stacks|
  }

  lemma {:induction false} ReloadIsTables(s: Store, n: nat)
    requires Complete(s) && Sized(s, n) && n < U32
    ensures Reload(FilesOf(s)) == Dict(Table(s.strs, |s.strs|), Table(s.stacks, |s.stacks|))
  {
    forall i | 0 <= i < |s.stacks|
      ensures IdsFit(s.stacks[i])
    {
      assert IdsBelow(s.stacks[i], |s.strs|);
    }
    StrmapRoundTrip(s.strs, []);
    IdsmapRoundTrip(s.stacks, []);
  }

  ghost predicate IsTables(d: Dict, s: Store) {
    d == Dict(Table(s.strs, |s.strs|), Table(s.stacks, |s.stacks|))
  }

  /** Every id resolves to the frames it stands for. */
  lemma {:induction false} ResolveIsFrames(s: Store, d: Dict, id: nat)
    requires StoreOk(s) && IsTables(d, s)
    ensures id in d.ids <==> 1 <= id <= |s.stacks|
    ensures 1 <= id <= |s.stacks| ==> Resolve(d, id) == FramesOfIds(s.strs, s.stacks[id - 1])
  {
    TableLookup(s.stacks, |s.stacks|, id);
    if 1 <= id <= |s.stacks| {
      var ids := s.stacks[id - 1];
      forall i | 0 <= i < |ids|
        ensures Resolve(d, id)[i] == FramesOfIds(s.strs, ids)[i]
      {
        TableLookup(s.strs, |s.strs|, ids[i]);
      }
    }
  }

  /** The id of a frame list is unique. */
  lemma {:induction false} ResolveInjective(s: Store, d: Dict, a: nat, b: nat)
    requires StoreOk(s) && IsTables(d, s) && 1 <= a <= |s.stacks| && 1 <= b <= |s.stacks|
    requires FramesOfIds(s.strs, s.stacks[a - 1]) == FramesOfIds(s.strs, s.stacks[b - 1])
    ensures a == b
  {
    FramesInjective(s.strs, s.stacks[a - 1], s.stacks[b - 1]);
  }

  ghost predicate StandsFor(s: Store, id: nat, frames: seq<Frame>)
    requires DictOk(s)
  {
    1 <= id <= |s.stacks| && FramesOfIds(s.strs, s.stacks[id - 1]) == frames
  }

  ghost predicate Unknown(s: Store, frames: seq<Frame>)
    requires DictOk(s)
  {
    forall id: nat :: !StandsFor(s, id, frames)
  }

  /** Counting by frame list is counting by id. */
  lemma {:induction false} FrameCountIsCount(s: Store, d: Dict, items: seq<Item>, id: nat, frames: seq<Frame>)
    requires StoreOk(s) && IsTables(d, s) && ItemIdsBelow(items, |s.stacks|)
    ensures StandsFor(s, id, frames) ==> FrameCount(items, d, frames) == CountOf(items, id)
    ensures Unknown(s, frames) ==> FrameCount(items, d, frames) == 0
  {
    if items != [] {
      var k := items[0].id;
      FrameCountIsCount(s, d, items[1..], id, frames);
      ResolveIsFrames(s, d, k);
      assert Resolve(d, k) == frames ==> StandsFor(s, k, frames);
      if StandsFor(s, id, frames) && Resolve(d, k) == frames {
        ResolveInjective(s, d, k, id);
      }
    }
  }

  // ---------------------------------------------------------------------------------------------
  // The records come back

  /** What the first `n` intervals hold in a second for a frame list. */
  function RecordsCount(rs: seq<Interval>, n: nat, d: Dict, sec: nat, frames: seq<Frame>): nat
    requires n <= |rs|
  {
    if n == 0 then 0
    else RecordsCount(rs, n - 1, d, sec, frames)
         + (if rs[n - 1].startMs == sec * BUCKET_MS then FrameCount(rs[n - 1].items, d, frames) else 0)
  }

  ghost predicate Reads(file: seq<byte>, rec: Rec, r: Interval) {
    rec.startMs == r.startMs && EntriesOf(file, rec) == Found(r.items)
  }

  lemma {:induction false} RealPrefix(rs: seq<Interval>, n: nat, m: nat)
    requires n <= m <= |rs|
    ensures RealOnes(rs, n) <= RealOnes(rs, m)
  {
    if n < m {
      RealPrefix(rs, n, m - 1);
    }
  }

  /** The next interval that is not a guard is the next record found. */
  lemma {:induction false} RealNext(rs: seq<Interval>, n: nat)
    requires 0 < n <= |rs| && !IsGuardInterval(rs[n - 1])
    ensures var k, all := |RealOnes(rs, n - 1)|, RealOnes(rs, |rs|);
            k < |all| && all[k] == n - 1 && |RealOnes(rs, n)| == k + 1
  {
    RealPrefix(rs, n, |rs|);
    assert RealOnes(rs, n)[|RealOnes(rs, n - 1)|] == n - 1;
  }

  ghost predicate ReadsAll(file: seq<byte>, recs: seq<Rec>, rs: seq<Interval>) {
    && |recs| == |RealOnes(rs, |rs|)|
    && forall k :: 0 <= k < |recs| ==> Reads(file, recs[k], rs[RealOnes(rs, |rs|)[k]])
  }

  /** Guards hold nothing, so that summing over the records found is summing over all intervals. */
  lemma {:induction false} DecodedIsWritten(file: seq<byte>, recs: seq<Rec>, rs: seq<Interval>, n: nat, d: Dict, sec: nat, frames: seq<Frame>)
    requires n <= |rs| && ReadsAll(file, recs, rs)
    ensures |RealOnes(rs, n)| <= |recs|
    ensures DecodedAt(file, recs, |RealOnes(rs, n)|, d, sec, frames) == RecordsCount(rs, n, d, sec, frames)
  {
    if n > 0 {
      DecodedIsWritten(file, recs, rs, n - 1, d, sec, frames);
      if !IsGuardInterval(rs[n - 1]) {
        RealNext(rs, n);
        assert Reads(file, recs[|RealOnes(rs, n - 1)|], rs[n - 1]);
      }
    }
  }

  lemma {:induction false} RecordsCountIsRecAt(s: Store, d: Dict, rs: seq<Interval>, n: nat, sec: nat, id: nat, frames: seq<Frame>)
    requires StoreOk(s) && IsTables(d, s) && RecordsBelow(rs, |s.stacks|) && n <= |rs|
    ensures StandsFor(s, id, frames) ==> RecordsCount(rs, n, d, sec, frames) == RecAt(rs[..n], sec, id)
    ensures Unknown(s, frames) ==> RecordsCount(rs, n, d, sec, frames) == 0
  {
    if n > 0 {
      RecordsCountIsRecAt(s, d, rs, n - 1, sec, id, frames);
      FrameCountIsCount(s, d, rs[n - 1].items, id, frames);
      assert rs[..n] == rs[..n - 1] + [rs[n - 1]];
      RecAppend(rs[..n - 1], [rs[n - 1]], sec, id);
      assert [rs[n - 1]][1..] == [];
    }
  }

  lemma {:induction false} AllRecordsFit(s: Store, n: nat)
    requires StoreOk(s) && Sized(s, n) && n < U32
    ensures AllFit(s.records)
  {
    forall i | 0 <= i < |s.records|
      ensures Fits(s.records[i])
    {
      assert IntervalFits(s.records[i], n);
      assert ItemIdsBelow(s.records[i].items, s.dumpedStacks);
    }
  }

  /** A file of whole records decodes to what they hold. */
  lemma {:induction false} DecodedWhole(f: Files, rs: seq<Interval>, sec: nat, frames: seq<Frame>)
    requires AllFit(rs) && f.stackBin == EncodeAll(rs)
    ensures Scan(f.stackBin, 0, NO_INFO).Scanned? && Decoded(f, sec, frames) == RecordsCount(rs, |rs|, Reload(f), sec, frames)
  {
    FileRoundTrip(rs);
    var info := Scan(f.stackBin, 0, NO_INFO).info;
    DecodedIsWritten(f.stackBin, info.records, rs, |rs|, Reload(f), sec, frames);
  }

  /** What a reader decodes is what the records hold. */
  lemma {:induction false} DecodedIsRecords(s: Store, n: nat, sec: nat, id: nat, frames: seq<Frame>)
    requires Complete(s) && Sized(s, n) && n < U32 && NoneTorn(s.torn)
    ensures Scan(FilesOf(s).stackBin, 0, NO_INFO).Scanned?
    ensures StandsFor(s, id, frames) ==> Decoded(FilesOf(s), sec, frames) == RecAt(s.records, sec, id)
    ensures Unknown(s, frames) ==> Decoded(FilesOf(s), sec, frames) == 0
  {
    var rs := s.records;
    AllRecordsFit(s, n);
    WholeFile(rs, s.torn);
    DecodedWhole(FilesOf(s), rs, sec, frames);
    ReloadIsTables(s, n);
    RecordsCountIsRecAt(s, Reload(FilesOf(s)), rs, |rs|, sec, id, frames);
    assert rs[..|rs|] == rs;
  }

  // ---------------------------------------------------------------------------------------------
  // The samples come back

  lemma {:induction false} SamplesAreLog(s: Store, log: seq<Entry>, samples: seq<Sample>, sec: nat, id: nat, frames: seq<Frame>)
    requires StoreOk(s) && LogMatches(s, log, samples)
    ensures StandsFor(s, id, frames) ==> SampleAt(samples, sec, frames) == LogAt(log, sec, id)
    ensures Unknown(s, frames) ==> SampleAt(samples, sec, frames) == 0
  {
    if log != [] {
      var n := |log| - 1;
      var log', samples' := log[..n], samples[..n];
      assert LogMatches(s, log', samples') by {
        forall i | 0 <= i < n
          ensures Matches(s, log'[i], samples'[i])
        {
          assert Matches(s, log[i], samples[i]);
        }
      }
      SamplesAreLog(s, log', samples', sec, id, frames);
      assert Matches(s, log[n], samples[n]);
      assert samples[n].frames == frames ==> StandsFor(s, log[n].id, frames);
      if StandsFor(s, id, frames) && samples[n].frames == frames {
        FramesInjective(s.strs, s.stacks[log[n].id - 1], s.stacks[id - 1]);
      }
    }
  }

  lemma {:induction false} FinalComplete(holdMs: nat, ops: seq<StoreOp>, takeOk: seq<bool>)
    ensures Complete(StoreExec(holdMs, ops + [Final(takeOk)]).store)
  {
    var ops' := ops + [Final(takeOk)];
    assert ops'[..|ops'| - 1] == ops;
    RunSync(holdMs, ops');
  }

  /** End to end: for every run ended by a full flush in which memory for the entries could be had at every dump, and for every second
      and every list of frames, what a reader decodes from the three files is, as a 64-bit count, what the samples put into that
      second. */
  lemma {:induction false} EndToEnd(holdMs: nat, ops: seq<StoreOp>, takeOk: seq<bool>, sec: nat, frames: seq<Frame>)
    requires OpsOk(ops + [Final(takeOk)]) && AllHandedOut(ops + [Final(takeOk)])
    ensures var s := StoreExec(holdMs, ops + [Final(takeOk)]).store;
            && s.dumpedStrs <= |s.strs| && s.dumpedStacks <= |s.stacks|
            && Scan(FilesOf(s).stackBin, 0, NO_INFO).Scanned?
            && Cong(Decoded(FilesOf(s), sec, frames), SampleAt(RefExec(holdMs, ops + [Final(takeOk)]).samples, sec, frames))
  {
    var ops' := ops + [Final(takeOk)];
    var y, r := StoreExec(holdMs, ops'), RefExec(holdMs, ops');
    var s := y.store;
    RunSync(holdMs, ops');
    RunFits(holdMs, ops');
    RunWhole(holdMs, ops');
    FinalComplete(holdMs, ops, takeOk);
    var id := if id: nat :| StandsFor(s, id, frames) then id else 0;
    DecodedIsRecords(s, |ops'|, sec, id, frames);
    SamplesAreLog(s, y.log, r.samples, sec, id, frames);
    if StandsFor(s, id, frames) {
      FinalRecords(holdMs, ops, takeOk, sec, id);
    } else {
      CongSame(0);
    }
  }
}

/** What a failed hand-out does to a run of the profile store, as the reader finds its files. */
module LostHandOuts {
  import opened Items
  import opened Wheels
  import opened TimeWheels
  import opened Dictionary
  import opened RecordCodec
  import opened TornFiles
  import opened Stores
  import opened StoreRuns
  import opened ReadBack

  /** In every run with a failed hand-out, of which the first left the torn record `k`: if only torn records follow it, up to 910 in all, the
      reader lists exactly the records before it; otherwise it rejects the whole of stack.bin, and everything decodes to nothing, as long as
      fewer than 774082 bytes follow the torn record. */
  lemma {:induction false} FailedHandOut(holdMs: nat, ops: seq<StoreOp>, k: nat, sec: nat, frames: seq<Frame>)
    requires OpsOk(ops) && FirstTorn(StoreExec(holdMs, ops).store.torn, k)
    ensures var s := StoreExec(holdMs, ops).store;
            && k < |s.records| && s.dumpedStrs <= |s.strs| && s.dumpedStacks <= |s.stacks|
            && (Unsent(s.torn, k, |s.records|) ==> Scan(FilesOf(s).stackBin, 0, NO_INFO) == Scanned(IndexN(s.records, k)))
            && (!Unsent(s.torn, k, |s.records|) && ShortAfter(s.records, s.torn, k) ==>
                  Scan(FilesOf(s).stackBin, 0, NO_INFO) == Corrupt && Decoded(FilesOf(s), sec, frames) == 0)
  {
    var s := StoreExec(holdMs, ops).store;
    RunSync(holdMs, ops);
    RunFits(holdMs, ops);
    RunTornLength(holdMs, ops);
    AllRecordsFit(s, |ops|);
    TornOutcome(s.records, s.torn, k);
  }

  /** Guards stand alone, and only records with entries are torn. */
  ghost predicate RecordsOk(rs: seq<Interval>, torn: seq<bool>) {
    |torn| == |rs| && SparseGuards(rs) && forall i :: 0 <= i < |rs| && torn[i] ==> rs[i].items != []
  }

  lemma {:induction false} RecordsJoin(a: seq<Interval>, torn: seq<bool>, b: seq<Interval>, more: seq<bool>)
    requires RecordsOk(a, torn) && RecordsOk(b, more) && (b != [] ==> !IsGuardInterval(b[0]))
    ensures RecordsOk(a + b, torn + more)
  {
    var rs := a + b;
    forall i | 0 < i < |rs|
      ensures !IsGuardInterval(rs[i - 1]) || !IsGuardInterval(rs[i])
    {
      if i < |a| {
        assert rs[i - 1] == a[i - 1] && rs[i] == a[i];
      } else if i > |a| {
        assert rs[i - 1] == b[i - |a| - 1] && rs[i] == b[i - |a|];
      }
    }
  }

  lemma {:induction false} FlushedOk(bs: seq<Bucket>, takeOk: seq<bool>)
    ensures var out := IntervalsOf(bs);
            RecordsOk(out + Guards(out), TornBy(out, takeOk) + GuardsWhole(out)) && (out != [] ==> !IsGuardInterval(out[0]))
  {
    var out := IntervalsOf(bs);
    assert forall i :: 0 <= i < |out| ==> !IsGuardInterval(out[i]);
  }

  lemma {:induction false} DumpKeepsRecords(s: Store, flushed: (Wheel, seq<Bucket>), takeOk: seq<bool>)
    requires RecordsOk(s.records, s.torn)
    ensures var s' := DumpAs(s, flushed, takeOk); RecordsOk(s'.records, s'.torn)
  {
    var out := IntervalsOf(flushed.1);
    FlushedOk(flushed.1, takeOk);
    RecordsJoin(s.records, s.torn, out + Guards(out), TornBy(out, takeOk) + GuardsWhole(out));
    assert s.records + out + Guards(out) == s.records + (out + Guards(out));
    assert s.torn + TornBy(out, takeOk) + GuardsWhole(out) == s.torn + (TornBy(out, takeOk) + GuardsWhole(out));
  }

  lemma {:induction false} RunKeepsRecords(holdMs: nat, ops: seq<StoreOp>)
    ensures var s := StoreExec(holdMs, ops).store; RecordsOk(s.records, s.torn)
  {
    if ops != [] {
      var n := |ops| - 1;
      RunKeepsRecords(holdMs, ops[..n]);
      var s, op := StoreExec(holdMs, ops[..n]).store, ops[n];
      if op.Timed? {
        DumpKeepsRecords(s, FlushReady(s.wheel, op.nowMs), op.takeOk);
      } else if op.Final? {
        DumpKeepsRecords(s, FlushAll(s.wheel), op.takeOk);
      }
    }
  }

  /** In every run the reader lists exactly the records of the store if and only if every hand-out that needed memory got it. */
  lemma {:induction false} ReadableIff(holdMs: nat, ops: seq<StoreOp>)
    requires OpsOk(ops)
    ensures var s := StoreExec(holdMs, ops).store;
            && s.dumpedStrs <= |s.strs| && s.dumpedStacks <= |s.stacks|
            && (Scan(FilesOf(s).stackBin, 0, NO_INFO) == Scanned(IndexN(s.records, |s.records|)) <==> NoneTorn(s.torn))
  {
    var s := StoreExec(holdMs, ops).store;
    RunSync(holdMs, ops);
    RunFits(holdMs, ops);
    RunKeepsRecords(holdMs, ops);
    AllRecordsFit(s, |ops|);
    ReadIff(s.records, s.torn);
  }

  // ---------------------------------------------------------------------------------------------
  // One sample, and no memory for its entry at the closing flush

  function LosingOps(ms: nat): seq<StoreOp> {
    [Append([65], true), Done(1, ms, Counted(Added)), Final([false])]
  }

  function LostInterval(ms: nat): Interval {
    Interval(SecOf(ms) * BUCKET_MS, SecOf(ms) * BUCKET_MS + BUCKET_MS, [Item(1, 1)])
  }

  lemma {:induction false} LosingStore(ms: nat, s: Store)
    requires s == StoreExec(1000, LosingOps(ms)[..2]).store
    ensures s.wheel.buckets == [Bucket(SecOf(ms), [Item(1, 1)], 1)] && s.records == [] && s.torn == []
  {
    var a, b := Append([65], true), Done(1, ms, Counted(Added));
    var y0 := Sys(NewStore(1000), [], []);
    var y1 := StoreStep(y0, a);
    assert StoreExec(1000, []) == y0;
    assert [a][..0] == [];
    assert StoreExec(1000, [a]) == y1;
    assert y1.store.current == [1] && y1.store.stacks == [] && CurrentId(y1.store) == 1;
    FirstAdd(Bucket(SecOf(ms), [Item(1, 1)], 1));
    assert LosingOps(ms)[..2][..1] == [a];
    assert s == StoreStep(y1, b).store;
  }

  lemma {:induction false} LosingSamples(ms: nat)
    ensures RefExec(1000, LosingOps(ms)[..2]).samples == [Sample(SecOf(ms), [[65]], 1)]
  {
    var a, b := Append([65], true), Done(1, ms, Counted(Added));
    var r0 := RefExec(1000, []);
    var r1 := RefStep(r0, a);
    assert [a][..0] == [];
    assert RefExec(1000, [a]) == r1;
    assert Bounded([65]) == [65];
    assert r1.cur == [[65]];
    assert LosingOps(ms)[..2][..1] == [a];
    assert RefExec(1000, LosingOps(ms)[..2]) == RefStep(r1, b);
  }

  lemma {:induction false} LosingDump(ms: nat, t: Store, s: Store)
    requires t.wheel.buckets == [Bucket(SecOf(ms), [Item(1, 1)], 1)] && t.records == [] && t.torn == [] && s == DumpAll(t, [false])
    ensures s.records == [LostInterval(ms)] + Guards([LostInterval(ms)]) && s.torn == [true] + GuardsWhole([LostInterval(ms)])
  {
    var b := Bucket(SecOf(ms), [Item(1, 1)], 1);
    DrainOne(b, Everything);
    assert NonZero(b.items) == b.items;
    var out := IntervalsOf([b]);
    assert out == [LostInterval(ms)];
    assert TornBy(out, [false]) == [true];
  }

  lemma {:induction false} LosingRun(ms: nat, ops: seq<StoreOp>, s: Store)
    requires ops == LosingOps(ms) && s == StoreExec(1000, ops).store
    ensures s.records == [LostInterval(ms)] + Guards([LostInterval(ms)]) && s.torn == [true] + GuardsWhole([LostInterval(ms)])
    ensures RefExec(1000, ops).samples == [Sample(SecOf(ms), [[65]], 1)]
  {
    var t := StoreExec(1000, ops[..2]).store;
    LosingStore(ms, t);
    assert s == DumpAll(t, [false]);
    LosingDump(ms, t, s);
    LosingSamples(ms);
  }

  lemma {:induction false} LostLength(rs: seq<Interval>, torn: seq<bool>)
    requires |rs| == |torn| == 2 && torn[0] && !torn[1] && rs[1].items == []
    ensures |FileBytes(rs, torn)| == 46
  {
    var parts := Pieces(rs, torn);
    assert parts[0] == Piece(rs[0], true) && parts[1] == Piece(rs[1], false);
    assert |Joined(parts, 1)| == 18;
    assert |Joined(parts, 2)| == 46;
  }

  lemma {:induction false} OneSample(sec: nat, samples: seq<Sample>)
    requires samples == [Sample(sec, [[65]], 1)]
    ensures SampleAt(samples, sec, [[65]]) == 1
  {
    assert samples[..0] == [];
  }

  /** The failing input, at any time: the samples hold one count that the reader does not find. A sample of the last second of the day
      vanishes, since no guard pushes the torn record out of the buffer; at any other time the file cannot be read. */
  lemma {:induction false} OneLostHandOut(ms: nat, ops: seq<StoreOp>, s: Store)
    requires ms < MS_LIMIT && ops == LosingOps(ms) && s == StoreExec(1000, ops).store
    ensures SampleAt(RefExec(1000, ops).samples, SecOf(ms), [[65]]) == 1
    ensures s.dumpedStrs <= |s.strs| && s.dumpedStacks <= |s.stacks|
    ensures SecOf(ms) * BUCKET_MS + BUCKET_MS < DAY_MS ==>
              Scan(FilesOf(s).stackBin, 0, NO_INFO) == Corrupt && Decoded(FilesOf(s), SecOf(ms), [[65]]) == 0
    ensures SecOf(ms) * BUCKET_MS + BUCKET_MS >= DAY_MS ==> Scan(FilesOf(s).stackBin, 0, NO_INFO) == Scanned(NO_INFO)
  {
    LosingRun(ms, ops, s);
    OneSample(SecOf(ms), RefExec(1000, ops).samples);
    if SecOf(ms) * BUCKET_MS + BUCKET_MS < DAY_MS {
      LostLength(s.records, s.torn);
      assert !IsTorn(s.torn, 1);
    }
    FailedHandOut(1000, ops, 0, SecOf(ms), [[65]]);
  }
}

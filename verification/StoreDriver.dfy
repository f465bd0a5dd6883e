/** The mutable store driven through a whole run, down to the bytes that have left its staging buffers. */
module StoreDriver {
  import opened Options
  import opened Bits
  import opened Bytes
  import opened TimeWheels
  import opened Dictionary
  import opened Markers
  import opened Stores
  import opened StoreRuns
  import opened ReadBack
  import opened StoreFiles
  import opened StorePlans
  import opened StackMapState
  import Ops = StackMaps

  // ---------------------------------------------------------------------------------------------
  // The files of the mutable store

  lemma {:induction false} PrefixFile(done: seq<seq<byte>>, all: seq<seq<byte>>)
    requires done <= all
    ensures FileOf(done, |done|) == FileOf(all, |done|)
  {
    FilePrefixSame(done, all, |done|);
  }

  lemma {:induction false} PrefixIdsFile(done: seq<seq<nat>>, all: seq<seq<nat>>)
    requires done <= all
    ensures IdsFile(done, |done|) == IdsFile(all, |done|)
  {
    FilePrefixSame(IdTexts(done), IdTexts(all), |done|);
  }

  /** What has left the staging buffers. */
  ghost function Persisted(m: StackMap): Files
    reads m.files, m.files.strmap, m.files.idsmap, m.files.stackmap
  {
    Files(m.files.strmap.sink, m.files.idsmap.sink, m.files.stackmap.sink)
  }

  /** The bytes written are the files of the abstract store as a reader finds them. */
  lemma {:induction false} PersistedIsFiles(m: StackMap)
    requires m.Valid() && m.files.strmap.inputSize == 0
    ensures var s := m.Value();
            s.dumpedStrs <= |s.strs| && s.dumpedStacks <= |s.stacks| && Persisted(m) == FilesOf(s)
  {
    assert OpenStore(0) && OpenFiles(0) && OpenFiles(1) && OpenFiles(2);
    PrefixFile(m.files.StrDone, m.strTable.List);
    PrefixIdsFile(m.files.IdsDone, m.idsTable.List);
    var bin := m.files.stackmap;
    assert bin.sink == bin.Content[..|bin.sink|];
  }

  // ---------------------------------------------------------------------------------------------
  // Runs

  ghost predicate InputOk(i: Input) {
    match i
    case PutFrame(frame, _) => NoNewline(frame)
    case Finish(count, ms, _, _, _) => count < U64 && ms < MS_LIMIT
    case DumpNow(nowMs, _) => nowMs < MS_LIMIT
    case _ => true
  }

  ghost predicate InputsOk(inputs: seq<Input>) {
    |inputs| < 0x8000_0000 && forall i :: 0 <= i < |inputs| ==> InputOk(inputs[i])
  }

  lemma {:induction false} RealisedOk(i: Input, op: StoreOp)
    requires Realises(i, op) && InputOk(i)
    ensures OpOk(op)
  {
  }

  /** A run of allowed operations keeps all ids small. */
  lemma {:induction false} RunSmall(holdMs: nat, ops: seq<StoreOp>)
    requires OpsOk(ops)
    ensures Ops.SmallIds(StoreExec(holdMs, ops).store)
  {
    var s := StoreExec(holdMs, ops).store;
    RunFits(holdMs, ops);
    RunSync(holdMs, ops);
    forall i | 0 <= i < |s.stacks|
      ensures IdsBelow(s.stacks[i], ID_LIMIT)
    {
      assert IdsBelow(s.stacks[i], |s.strs|);
    }
  }

  ghost predicate SmallStore(m: StackMap)
    reads m, m.current, m.strTable, m.idsTable, m.wheel, m.files
  {
    Ops.SmallIds(m.Value())
  }

  /** A call has done what the verdict says. */
  ghost predicate Follows(v: Verdict, s: Store, s': Store, c': Caps) {
    v.Goes? && s' == StoreAfter(s, v.op) && c' == v.caps
  }

  method Put(m: StackMap, frame: Frame, luck: Luck) returns (fatal: bool)
    requires m.Valid()
    modifies m.strTable, m.current
    ensures var v := Judge(old(m.Value()), old(m.ArrayCaps()), PutFrame(frame, luck));
            (fatal <==> v.Breaks?) && (!fatal ==> m.Valid() && Follows(v, old(m.Value()), m.Value(), m.ArrayCaps()))
  {
    var o := Ops.Append(m, frame, luck);
    fatal := o.FrameStranded? || o.StackGone?;
  }

  method Cut(m: StackMap, index: nat)
    requires m.Valid()
    modifies m.current
    ensures m.Valid() && m.Value() == StoreAfter(old(m.Value()), Reset(index)) && m.ArrayCaps() == old(m.ArrayCaps())
  {
    if index <= |m.current.ids| {
      Ops.CurrentReset(m, index);
    }
  }

  method End(m: StackMap, count: nat, ms: nat, internOk: bool, growOk: bool, l: AddLuck) returns (fatal: bool)
    requires m.Valid()
    modifies m.idsTable, m.wheel.Repr, m.current
    ensures m.files.strmap.inputSize == old(m.files.strmap.inputSize)
    ensures !fatal ==> fresh(m.wheel.Repr - old(m.wheel.Repr)) && m.Valid()
    ensures var v := Judge(old(m.Value()), old(m.ArrayCaps()), Finish(count, ms, internOk, growOk, l));
            (fatal <==> v.Breaks?) && (!fatal ==> Follows(v, old(m.Value()), m.Value(), m.ArrayCaps()))
  {
    assert m.files.strmap !in m.wheel.Repr by {
      assert OpenStore(0);
    }
    var o;
    o, fatal := Ops.DoneAt(m, count, ms, internOk, growOk, l);
  }

  method Dump(m: StackMap, nowMs: nat, flushAll: bool, takeOk: seq<bool>)
    requires m.Valid() && SmallStore(m)
    modifies m, m.wheel.Repr, m.files.Repr()
    ensures m.Valid() && m.files.strmap.inputSize == 0 && m.wheel.Repr == old(m.wheel.Repr) && m.ArrayCaps() == old(m.ArrayCaps())
    ensures m.Value() == StoreAfter(old(m.Value()), if flushAll then Final(takeOk) else Timed(nowMs, takeOk))
  {
    Ops.DumpDelta(m, nowMs, flushAll, takeOk);
  }

  /** One call. `fatal` tells that the source would go on with arrays that are gone. */
  method Call(m: StackMap, input: Input) returns (fatal: bool)
    requires m.Valid() && SmallStore(m) && m.files.strmap.inputSize == 0
    modifies m, m.strTable, m.idsTable, m.current, m.wheel.Repr, m.files.Repr()
    ensures !fatal ==> fresh(m.wheel.Repr - old(m.wheel.Repr)) && m.Valid() && m.files.strmap.inputSize == 0
    ensures var v := Judge(old(m.Value()), old(m.ArrayCaps()), input);
            (fatal <==> v.Breaks?) && (!fatal ==> Follows(v, old(m.Value()), m.Value(), m.ArrayCaps()))
  {
    fatal := false;
    match input
    case PutFrame(frame, luck) =>
      fatal := Put(m, frame, luck);
    case Turn =>
      Ops.ReverseIds(m);
    case CutTo(index) =>
      Cut(m, index);
    case Finish(count, ms, internOk, growOk, l) =>
      fatal := End(m, count, ms, internOk, growOk, l);
    case DumpNow(nowMs, takeOk) =>
      Dump(m, nowMs, false, takeOk);
    case DumpRest(takeOk) =>
      Dump(m, 0, true, takeOk);
  }

  lemma {:induction false} RealisedAllOk(inputs: seq<Input>, ops: seq<StoreOp>)
    requires AllRealised(inputs, ops) && InputsOk(inputs)
    ensures OpsOk(ops)
  {
    forall i | 0 <= i < |ops|
      ensures OpOk(ops[i])
    {
      RealisedOk(inputs[i], ops[i]);
    }
  }

  lemma {:induction false} PlannedOk(holdMs: nat, inputs: seq<Input>, i: nat, p: Course)
    requires InputsOk(inputs) && i <= |inputs| && Plan(holdMs, inputs[..i]) == Some(p)
    ensures OpsOk(p.ops) && Ops.SmallIds(StoreExec(holdMs, p.ops).store)
  {
    PlanRealises(holdMs, inputs[..i]);
    RealisedAllOk(inputs[..i], p.ops);
    RunSmall(holdMs, p.ops);
  }

  lemma {:induction false} OneMore(holdMs: nat, ops: seq<StoreOp>, op: StoreOp)
    ensures StoreExec(holdMs, ops + [op]).store == StoreAfter(StoreExec(holdMs, ops).store, op)
  {
    assert (ops + [op])[..|ops|] == ops;
    StoreAfterIs(StoreExec(holdMs, ops), op);
  }

  /** The run of the abstract store that the first `i` calls come to has led to the state `s` with the capacities `c`. */
  ghost predicate Planned(holdMs: nat, inputs: seq<Input>, i: nat, p: Course, s: Store, c: Caps) {
    i <= |inputs| && Plan(holdMs, inputs[..i]) == Some(p) && s == StoreExec(holdMs, p.ops).store && c == p.caps
  }

  lemma {:induction false} PlannedMore(holdMs: nat, inputs: seq<Input>, i: nat, p: Course, s: Store, c: Caps, s': Store, c': Caps)
    requires i < |inputs| && Planned(holdMs, inputs, i, p, s, c) && Follows(Judge(s, c, inputs[i]), s, s', c')
    ensures Planned(holdMs, inputs, i + 1, Course(p.ops + [Judge(s, c, inputs[i]).op], c'), s', c')
  {
    PlanStep(holdMs, inputs, i, p);
    OneMore(holdMs, p.ops, Judge(s, c, inputs[i]).op);
  }

  /** A run of calls does to the mutable store what `Plan` says, and at its end a reader finds the files of the abstract store. */
  method Drive(holdMs: nat, inputs: seq<Input>) returns (m: StackMap, fatal: bool)
    requires InputsOk(inputs)
    ensures fresh(m)
    ensures fatal <==> Plan(holdMs, inputs).None?
    ensures !fatal ==>
              var p := Plan(holdMs, inputs).value;
              var s := StoreExec(holdMs, p.ops).store;
              && m.Valid() && m.Value() == s && m.ArrayCaps() == p.caps
              && s.dumpedStrs <= |s.strs| && s.dumpedStacks <= |s.stacks| && Persisted(m) == FilesOf(s)
  {
    m := Ops.Create(holdMs);
    fatal := false;
    ghost var p := Course([], FIRST_CAPS);
    for i := 0 to |inputs|
      invariant fresh(m) && fresh(m.strTable) && fresh(m.idsTable) && fresh(m.current) && fresh(m.wheel.Repr) && fresh(m.files.Repr())
      invariant Planned(holdMs, inputs, i, p, m.Value(), m.ArrayCaps()) && m.Valid() && m.files.strmap.inputSize == 0
    {
      PlannedOk(holdMs, inputs, i, p);
      ghost var s, c := m.Value(), m.ArrayCaps();
      fatal := Call(m, inputs[i]);
      if fatal {
        PlanStep(holdMs, inputs, i, p);
        LostStays(holdMs, inputs, i + 1);
        return;
      }
      PlannedMore(holdMs, inputs, i, p, s, c, m.Value(), m.ArrayCaps());
      p := Course(p.ops + [Judge(s, c, inputs[i]).op], m.ArrayCaps());
    }
    assert inputs[..|inputs|] == inputs;
    PersistedIsFiles(m);
  }

  /** Memory for the entries can be had at every dump. */
  ghost predicate Takes(i: Input) {
    i.DumpNow? || i.DumpRest? ==> AllTaken(i.takeOk)
  }

  ghost predicate AllTake(inputs: seq<Input>) {
    forall i :: 0 <= i < |inputs| ==> Takes(inputs[i])
  }

  lemma {:induction false} RealisedHandOut(inputs: seq<Input>, ops: seq<StoreOp>)
    requires AllRealised(inputs, ops) && AllTake(inputs)
    ensures AllHandedOut(ops)
  {
    forall i | 0 <= i < |ops|
      ensures HandsOut(ops[i])
    {
      assert Realises(inputs[i], ops[i]) && Takes(inputs[i]);
    }
  }

  /** What the run comes to, as the reference sees it: samples as frame lists in seconds. */
  ghost function Samples(holdMs: nat, inputs: seq<Input>): seq<Sample>
    requires Plan(holdMs, inputs).Some?
  {
    RefExec(holdMs, Plan(holdMs, inputs).value.ops).samples
  }

  lemma {:induction false} PlanDecodes(holdMs: nat, inputs: seq<Input>, takeOk: seq<bool>, sec: nat, frames: seq<Frame>)
    requires var all := inputs + [DumpRest(takeOk)]; InputsOk(all) && AllTake(all) && Plan(holdMs, all).Some?
    ensures var all := inputs + [DumpRest(takeOk)];
            var s := StoreExec(holdMs, Plan(holdMs, all).value.ops).store;
            && s.dumpedStrs <= |s.strs| && s.dumpedStacks <= |s.stacks|
            && Cong(Decoded(FilesOf(s), sec, frames), SampleAt(Samples(holdMs, all), sec, frames))
  {
    var all := inputs + [DumpRest(takeOk)];
    var ops := Plan(holdMs, all).value.ops;
    PlanRealises(holdMs, all);
    RealisedHandOut(all, ops);
    RealisedAllOk(all, ops);
    var n := |inputs|;
    assert Realises(all[n], ops[n]);
    assert ops == ops[..n] + [Final(takeOk)];
    EndToEnd(holdMs, ops[..n], takeOk, sec, frames);
  }

  lemma {:induction false} SmallSoFar(holdMs: nat, inputs: seq<Input>, n: nat, p: Course)
    requires InputsOk(inputs) && n < |inputs| < TABLE_LIMIT && Plan(holdMs, inputs[..n]) == Some(p) && |p.ops| == n
    ensures SmallTables(StoreExec(holdMs, p.ops).store)
  {
    PlannedOk(holdMs, inputs, n, p);
    RunFits(holdMs, p.ops);
    var s := StoreExec(holdMs, p.ops).store;
    assert forall i :: 0 <= i < |s.wheel.buckets| ==> BucketFits(s.wheel.buckets[i], n);
  }

  lemma {:induction false} IntendedMore(inputs: seq<Input>, n: nat)
    requires n < |inputs|
    ensures AllIntended(inputs[..n + 1]) == AllIntended(inputs[..n]) + [Intended(inputs[n])]
  {
  }

  lemma {:induction false} LuckyTo(holdMs: nat, inputs: seq<Input>, n: nat)
    requires InputsOk(inputs) && n <= |inputs| < TABLE_LIMIT && forall i :: 0 <= i < |inputs| ==> Lucky(inputs[i])
    ensures Plan(holdMs, inputs[..n]).Some? && Plan(holdMs, inputs[..n]).value.ops == AllIntended(inputs[..n])
  {
    if n > 0 {
      LuckyTo(holdMs, inputs, n - 1);
      var p := Plan(holdMs, inputs[..n - 1]).value;
      SmallSoFar(holdMs, inputs, n - 1, p);
      LuckyJudged(StoreExec(holdMs, p.ops).store, p.caps, inputs[n - 1]);
      PlanStep(holdMs, inputs, n - 1, p);
      IntendedMore(inputs, n - 1);
    }
  }

  /** With all the memory it asks for a run of fewer than 3 * 2^29 calls comes to exactly what its callers want: every frame appended,
      every finished stack counted. */
  lemma {:induction false} LuckyRun(holdMs: nat, inputs: seq<Input>)
    requires InputsOk(inputs) && |inputs| < TABLE_LIMIT && forall i :: 0 <= i < |inputs| ==> Lucky(inputs[i])
    ensures Plan(holdMs, inputs).Some? && Plan(holdMs, inputs).value.ops == AllIntended(inputs)
  {
    LuckyTo(holdMs, inputs, |inputs|);
    assert inputs[..|inputs|] == inputs;
  }

  /** End to end on the mutable store: calls in any order, closed by a dump of everything. The run breaks off exactly when `Plan` says so.
      Otherwise, if the entries could be handed out at every dump, then for every second and every list of frames the reader decodes from
      the bytes that have left the buffers what the samples put in. */
  method Profile(holdMs: nat, inputs: seq<Input>, takeOk: seq<bool>) returns (m: StackMap, fatal: bool)
    requires InputsOk(inputs + [DumpRest(takeOk)])
    ensures fatal <==> Plan(holdMs, inputs + [DumpRest(takeOk)]).None?
    ensures !fatal && AllTake(inputs + [DumpRest(takeOk)]) ==>
              forall sec, frames ::
                Cong(Decoded(Persisted(m), sec, frames), SampleAt(Samples(holdMs, inputs + [DumpRest(takeOk)]), sec, frames))
  {
    var all := inputs + [DumpRest(takeOk)];
    m, fatal := Drive(holdMs, all);
    if !fatal && AllTake(all) {
      forall sec, frames
        ensures Cong(Decoded(Persisted(m), sec, frames), SampleAt(Samples(holdMs, all), sec, frames))
      {
        PlanDecodes(holdMs, inputs, takeOk, sec, frames);
      }
    }
  }
}

/** How one sample becomes a stack: `cpa_unwind` in src/cpa_monitor/cpa_unwinder.c with the register snapshot of
    src/cpa_monitor/cpa_unwind_state.h. The unwinder library is any function from its input to frames and an output.
  */
module StackShape {
  import opened Options
  import opened Bytes
  import opened Dictionary
  import opened Stores

  const REGS_SNAPSHOT_SIZE: nat := 512

  datatype Reason = ProcessExit | LangSkip | OtherReason

  datatype Flags = Flags(hintFp: bool, reason: Reason, rest: nat)

  /** What the unwinder library reads and writes; `regs` is a null pointer or the registers. */
  datatype Info = Info(flags: Flags, regs: Option<seq<byte>>, regsSize: nat)

  /** What a pass of the unwinder yields: of the frames it reports, those that there was memory to append. */
  datatype Pass = Pass(frames: seq<Frame>, info: Info)

  /** The texts of the markers. */
  datatype Texts = Texts(base: Frame, fullDrop: Frame, highDrop: Frame, irqOff: Frame, coreDump: Frame, offCpu: Frame,
                         kernelDrop: Frame, processExit: Frame, langSkip: Frame)

  datatype Sample = Sample(texts: Texts, kthread: bool, dropByPressure: bool, irqOff: bool, coreDump: bool, offCpu: bool,
                           userMode: bool, fpLevel: nat, info: Info, kernel: seq<Frame>)

  /** Which appends there is memory for; the code goes on without the others. */
  datatype Memory = Memory(base: bool, drop: bool, irqOff: bool, coreDump: bool, offCpu: bool, stop: bool, kernelDrop: bool, kernel: seq<bool>)

  /** What the environment decides: whether the drop policy says full drop, asked twice, whether the process environment is to
      be parsed, what the unwinder does in its first and second pass, and which appends succeed. */
  datatype World = World(fullDropFirst: bool, fullDropThen: bool, parseEnv: bool, first: Info -> Pass, second: Info -> Pass, ok: Memory)

  // ---------------------------------------------------------------------------------------------
  // Saving and restoring registers

  datatype Saved = Saved(flags: Flags, regsSize: nat, regs: seq<byte>)

  function Save(info: Info): Option<Saved> {
    if info.regsSize == 0 then Some(Saved(info.flags, 0, []))
    else if info.regs.None? || REGS_SNAPSHOT_SIZE < info.regsSize then None
    else Some(Saved(info.flags, info.regsSize, info.regs.value))
  }

  function Restore(info: Info, saved: Saved): Option<Info> {
    if saved.regsSize == 0 then Some(info.(flags := saved.flags))
    else if info.regs.None? || info.regsSize != saved.regsSize then None
    else Some(info.(flags := saved.flags, regs := Some(saved.regs)))
  }

  /** Restoring after a pass succeeds unless the pass dropped the registers or resized them, and gives back exactly what was saved, whatever
      the pass wrote; a sample without registers gets its flags back and keeps what registers the pass left. */
  lemma {:induction false} RestoreUndoes(info: Info, after: Info)
    requires Save(info).Some?
    ensures var r := Restore(after, Save(info).value);
            && (r.Some? <==> info.regsSize == 0 || (after.regs.Some? && after.regsSize == info.regsSize))
            && (r.Some? ==> (r.value == info <==> info.regsSize > 0 || (after.regs == info.regs && after.regsSize == 0)))
            && (r.Some? ==> r.value.flags == info.flags)
  {
  }

  // ---------------------------------------------------------------------------------------------
  // The shape of a stack

  predicate BacktracesUser(x: Sample, w: World) {
    !x.kthread && !x.dropByPressure && !w.fullDropFirst && w.parseEnv
  }

  function Opt(c: bool, f: Frame): seq<Frame> {
    if c then [f] else []
  }

  function DropMarker(x: Sample, w: World): seq<Frame> {
    if BacktracesUser(x, w) then []
    else if w.fullDropThen then Opt(w.ok.drop, x.texts.fullDrop)
    else Opt(x.dropByPressure && w.ok.drop, x.texts.highDrop)
  }

  function Markers(x: Sample, w: World): seq<Frame> {
    Opt(w.ok.base, x.texts.base) + DropMarker(x, w) + Opt(x.irqOff && w.ok.irqOff, x.texts.irqOff)
    + Opt(x.coreDump && w.ok.coreDump, x.texts.coreDump) + Opt(x.offCpu && w.ok.offCpu, x.texts.offCpu)
  }

  function WithHint(info: Info, fp: bool): Info {
    info.(flags := info.flags.(hintFp := fp))
  }

  /** The pass whose frames are kept: the second one, run on the saved registers with the frame-pointer hint that the first one
      decided; the first one when the registers could not be restored after it. */
  function KeptPass(x: Sample, w: World): Pass {
    var info := WithHint(x.info, false);
    var saved := Save(info);
    if saved.None? then w.second(WithHint(info, false))
    else
      var trial := w.first(info);
      var restored := Restore(trial.info, saved.value);
      if restored.None? then trial else w.second(WithHint(restored.value, x.fpLevel > |trial.frames|))
  }

  function StopText(x: Sample, w: World, r: Reason): seq<Frame> {
    match r
    case ProcessExit => Opt(w.ok.stop, x.texts.processExit)
    case LangSkip => Opt(w.ok.stop, x.texts.langSkip)
    case OtherReason => []
  }

  function UserPart(x: Sample, w: World): seq<Frame> {
    if !BacktracesUser(x, w) then []
    else var p := KeptPass(x, w); p.frames + StopText(x, w, p.info.flags.reason)
  }

  /** The first `n` frames without those that there was no memory for. */
  function Stored(fs: seq<Frame>, ok: seq<bool>, n: nat): seq<Frame>
    requires n <= |fs|
  {
    if n == 0 then [] else Stored(fs, ok, n - 1) + Opt(n - 1 >= |ok| || ok[n - 1], fs[n - 1])
  }

  function KernelPart(x: Sample, w: World): seq<Frame> {
    Opt(!x.userMode && x.kernel == [] && w.ok.kernelDrop, x.texts.kernelDrop) + Stored(x.kernel, w.ok.kernel, |x.kernel|)
  }

  function BoundAll(fs: seq<Frame>): (r: seq<Frame>)
    ensures |r| == |fs| && forall i :: 0 <= i < |fs| ==> r[i] == Bounded(fs[i])
  {
    seq(|fs|, i requires 0 <= i < |fs| => Bounded(fs[i]))
  }

  /** The stack that a sample stands for: markers, then user frames outermost first, then kernel frames outermost first. */
  function Shape(x: Sample, w: World): seq<Frame> {
    BoundAll(Markers(x, w)) + Reversed(BoundAll(UserPart(x, w))) + Reversed(BoundAll(KernelPart(x, w)))
  }

  // ---------------------------------------------------------------------------------------------
  // The code

  /** The frames of the stack under construction. */
  ghost function Frames(s: Store): seq<Frame>
    requires StoreOk(s)
  {
    FramesOfIds(s.strs, s.current)
  }

  /** Everything appended so far is in its final order. */
  ghost predicate Settled(s: Store) {
    StoreOk(s) && s.lastReverse == |s.current|
  }

  /** `s` with `tail` appended and not yet reversed. */
  ghost predicate Growing(s: Store, base: seq<Frame>, tail: seq<Frame>) {
    StoreOk(s) && s.lastReverse == |base| && Frames(s) == base + tail
  }

  method AppendAll(s: Store, fs: seq<Frame>, ghost base: seq<Frame>, ghost tail: seq<Frame>) returns (r: Store)
    requires Growing(s, base, tail)
    ensures Growing(r, base, tail + BoundAll(fs)) && |r.current| == |s.current| + |fs|
  {
    r := s;
    assert tail + [] == tail;
    for i := 0 to |fs|
      invariant Growing(r, base, tail + BoundAll(fs)[..i]) && |r.current| == |s.current| + i
    {
      AppendKeepsOk(r, fs[i]);
      r := AppendFrame(r, fs[i]);
      assert BoundAll(fs)[..i + 1] == BoundAll(fs)[..i] + [Bounded(fs[i])];
      assert base + (tail + BoundAll(fs)[..i]) + [Bounded(fs[i])] == base + (tail + BoundAll(fs)[..i + 1]);
    }
    assert BoundAll(fs)[..|fs|] == BoundAll(fs);
  }

  /** Appends the frames that there is memory for. */
  method AppendStored(s: Store, fs: seq<Frame>, ok: seq<bool>, ghost base: seq<Frame>, ghost tail: seq<Frame>) returns (r: Store)
    requires Growing(s, base, tail)
    ensures Growing(r, base, tail + BoundAll(Stored(fs, ok, |fs|)))
  {
    r := s;
    assert tail + BoundAll([]) == tail;
    for i := 0 to |fs|
      invariant Growing(r, base, tail + BoundAll(Stored(fs, ok, i)))
    {
      ghost var done := Stored(fs, ok, i);
      if i >= |ok| || ok[i] {
        r := AppendAll(r, [fs[i]], base, tail + BoundAll(done));
        BoundAppend(done, [fs[i]]);
        assert tail + BoundAll(done) + BoundAll([fs[i]]) == tail + BoundAll(done + [fs[i]]);
      } else {
        assert done + [] == done;
      }
    }
  }

  method Flip(s: Store, ghost base: seq<Frame>, ghost tail: seq<Frame>) returns (r: Store)
    requires Growing(s, base, tail)
    ensures Settled(r) && Frames(r) == base + Reversed(tail)
  {
    ReverseKeepsOk(s);
    r := ReverseCurrent(s);
    assert |s.current| == |base + tail|;
    if tail == [] {
      assert Reversed(tail) == [] && base + [] == base;
    } else {
      assert (base + tail)[..|base|] == base && (base + tail)[|base|..] == tail;
    }
  }

  lemma {:induction false} BoundAppend(a: seq<Frame>, b: seq<Frame>)
    ensures BoundAll(a + b) == BoundAll(a) + BoundAll(b)
  {
  }

  /** One marker is appended and settled at once, on top of the markers already `done`. */
  method Mark(s: Store, c: bool, f: Frame, ghost base: seq<Frame>, ghost done: seq<Frame>) returns (r: Store)
    requires Settled(s) && Frames(s) == base + BoundAll(done)
    ensures Settled(r) && Frames(r) == base + BoundAll(done + Opt(c, f))
  {
    ghost var here := base + BoundAll(done);
    assert here + [] == here && done + [] == done;
    if !c {
      return s;
    }
    r := AppendAll(s, [f], here, []);
    r := Flip(r, here, [] + BoundAll([f]));
    assert Reversed([] + BoundAll([f])) == BoundAll([f]);
    BoundAppend(done, [f]);
    assert here + BoundAll([f]) == base + (BoundAll(done) + BoundAll([f]));
  }

  /** The marker for a sample whose user stack is not walked. */
  method MarkDrop(s: Store, x: Sample, w: World, ghost base: seq<Frame>, ghost done: seq<Frame>) returns (r: Store)
    requires Settled(s) && Frames(s) == base + BoundAll(done)
    ensures Settled(r) && Frames(r) == base + BoundAll(done + DropMarker(x, w))
  {
    if x.kthread || x.dropByPressure || w.fullDropFirst || !w.parseEnv {
      if w.fullDropThen {
        r := Mark(s, w.ok.drop, x.texts.fullDrop, base, done);
      } else {
        r := Mark(s, x.dropByPressure && w.ok.drop, x.texts.highDrop, base, done);
      }
    } else {
      assert done + [] == done;
      r := s;
    }
  }

  method MarkAll(s: Store, x: Sample, w: World) returns (r: Store)
    requires Settled(s)
    ensures Settled(r) && Frames(r) == Frames(s) + BoundAll(Markers(x, w))
  {
    ghost var base, done := Frames(s), [];
    assert base + BoundAll(done) == base && done + Opt(w.ok.base, x.texts.base) == Opt(w.ok.base, x.texts.base);
    r := Mark(s, w.ok.base, x.texts.base, base, done);
    done := Opt(w.ok.base, x.texts.base);
    r := MarkDrop(r, x, w, base, done);
    done := done + DropMarker(x, w);
    r := Mark(r, x.irqOff && w.ok.irqOff, x.texts.irqOff, base, done);
    done := done + Opt(x.irqOff && w.ok.irqOff, x.texts.irqOff);
    r := Mark(r, x.coreDump && w.ok.coreDump, x.texts.coreDump, base, done);
    done := done + Opt(x.coreDump && w.ok.coreDump, x.texts.coreDump);
    r := Mark(r, x.offCpu && w.ok.offCpu, x.texts.offCpu, base, done);
  }

  /** The two passes; the trial pass leaves nothing behind in the stack unless the registers cannot be restored. */
  method UnwindUser(s: Store, x: Sample, w: World) returns (r: Store)
    requires Settled(s)
    ensures var p := KeptPass(x, w);
            Settled(r) && Frames(r) == Frames(s) + Reversed(BoundAll(p.frames + StopText(x, w, p.info.flags.reason)))
  {
    ghost var base := Frames(s);
    assert base + [] == base;
    var info := WithHint(x.info, false);
    var saved := Save(info);
    var noStackIndex := |s.current|;
    var runFinal, useFp := true, false;
    var pass := Pass([], info);
    r := s;
    if saved.Some? {
      pass := w.first(info);
      r := AppendAll(r, pass.frames, base, []);
      var level := |r.current| - noStackIndex;
      useFp := x.fpLevel > level;
      var restored := Restore(pass.info, saved.value);
      if restored.Some? {
        ResetKeepsOk(r, noStackIndex);
        assert (base + ([] + BoundAll(pass.frames)))[..noStackIndex] == base;
        r := ResetCurrent(r, noStackIndex);
        info := restored.value;
      } else {
        runFinal, useFp := false, false;
      }
    }
    if runFinal {
      pass := w.second(WithHint(info, useFp));
      r := AppendAll(r, pass.frames, base, []);
    }
    assert [] + BoundAll(pass.frames) == BoundAll(pass.frames);
    var stop := StopText(x, w, pass.info.flags.reason);
    r := AppendAll(r, stop, base, BoundAll(pass.frames));
    BoundAppend(pass.frames, stop);
    r := Flip(r, base, BoundAll(pass.frames + stop));
  }

  method UnwindKernel(s: Store, x: Sample, w: World) returns (r: Store)
    requires Settled(s)
    ensures Settled(r) && Frames(r) == Frames(s) + Reversed(BoundAll(KernelPart(x, w)))
  {
    ghost var base := Frames(s);
    assert base + [] == base;
    var drop := Opt(!x.userMode && |x.kernel| == 0 && w.ok.kernelDrop, x.texts.kernelDrop);
    r := AppendAll(s, drop, base, []);
    assert [] + BoundAll(drop) == BoundAll(drop);
    r := AppendStored(r, x.kernel, w.ok.kernel, base, BoundAll(drop));
    BoundAppend(drop, Stored(x.kernel, w.ok.kernel, |x.kernel|));
    r := Flip(r, base, BoundAll(KernelPart(x, w)));
  }

  /** `cpa_unwind` up to `cli_stackmap_done_at`: on top of whatever a failed earlier sample left behind, the stack of a sample is
      its markers, the reversed frames of the kept pass and the reversed kernel frames. */
  method Unwind(s: Store, x: Sample, w: World) returns (r: Store)
    requires Settled(s)
    ensures Settled(r) && Frames(r) == Frames(s) + Shape(x, w)
  {
    ghost var base := Frames(s);
    r := MarkAll(s, x, w);
    r := UnwindUserPart(r, x, w);
    r := UnwindKernel(r, x, w);
    ShapeIs(base, BoundAll(Markers(x, w)), Reversed(BoundAll(UserPart(x, w))), Reversed(BoundAll(KernelPart(x, w))));
  }

  method UnwindUserPart(s: Store, x: Sample, w: World) returns (r: Store)
    requires Settled(s)
    ensures Settled(r) && Frames(r) == Frames(s) + Reversed(BoundAll(UserPart(x, w)))
  {
    if BacktracesUser(x, w) {
      r := UnwindUser(s, x, w);
    } else {
      assert Reversed(BoundAll(UserPart(x, w))) == [] && Frames(s) + [] == Frames(s);
      r := s;
    }
  }

  lemma {:induction false} ShapeIs(base: seq<Frame>, markers: seq<Frame>, user: seq<Frame>, kernel: seq<Frame>)
    ensures base + markers + user + kernel == base + (markers + user + kernel)
  {
  }

  /** A trial pass whose frames are discarded matters only through the choice of frame pointers, and, for a sample without registers, through
      the registers it leaves: two worlds whose trials agree on these give the same stack. Without a snapshot there is no trial. */
  lemma {:induction false} TrialOnlyPicksHint(x: Sample, w: World, w': World)
    requires w' == w.(first := w'.first)
    requires var info := WithHint(x.info, false);
             Save(info).Some? ==>
               && Restore(w.first(info).info, Save(info).value).Some? && Restore(w'.first(info).info, Save(info).value).Some?
               && (x.fpLevel > |w.first(info).frames| <==> x.fpLevel > |w'.first(info).frames|)
               && (info.regsSize == 0 ==>
                     w.first(info).info.regs == w'.first(info).info.regs && w.first(info).info.regsSize == w'.first(info).info.regsSize)
    ensures Shape(x, w) == Shape(x, w')
  {
    var info := WithHint(x.info, false);
    if Save(info).Some? {
      RestoreUndoes(info, w.first(info).info);
      RestoreUndoes(info, w'.first(info).info);
      assert Restore(w.first(info).info, Save(info).value) == Restore(w'.first(info).info, Save(info).value);
    }
  }
}

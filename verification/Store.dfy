/** The meaning of the profile store of src/cli_stackmap_helper/cli_stackmap.c as values: frames and
    stacks interned to ids, counts kept in the time wheel, records already written.
    The mutable store is in StackMap.dfy; what holds over whole runs is in StoreRuns.dfy.
  */
module Stores {
  import opened Items
  import opened Wheels
  import opened TimeWheels
  import opened Dictionary
  import opened RecordCodec

  const FRAME_MAX_LEN: nat := 8192

  /** Ids are positions plus one: frame `i` of `strs` has id `i + 1`, stack `i` of `stacks` has id `i + 1`. `records` lists every interval
      that was dumped, `torn` marks those whose entries could not be handed out. */
  datatype Store = Store(strs: seq<Frame>, stacks: seq<seq<nat>>,
                         current: seq<nat>, lastReverse: nat,
                         dumpedStrs: nat, dumpedStacks: nat,
                         wheel: Wheel, records: seq<Interval>, torn: seq<bool>)

  function NewStore(holdMs: nat): Store {
    Store([], [], [], 0, 0, 0, NewWheel(holdMs), [], [])
  }

  /** A frame is kept up to its first 8192 bytes. */
  function Bounded(frame: Frame): Frame {
    if |frame| >= FRAME_MAX_LEN then frame[..FRAME_MAX_LEN] else frame
  }

  /** Position of the first occurrence, or the length. */
  function Position<T(==)>(s: seq<T>, x: T): (i: nat)
    ensures i <= |s|
  {
    if s == [] then 0 else if s[0] == x then 0 else 1 + Position(s[1..], x)
  }

  lemma {:induction false} PositionFinds<T>(s: seq<T>, x: T)
    ensures var i := Position(s, x);
            if i < |s| then s[i] == x else x !in s
  {
    if s != [] && s[0] != x {
      PositionFinds(s[1..], x);
    }
  }

  /** The list with `x` in it, appended when it is new. */
  function Interned<T(==)>(s: seq<T>, x: T): seq<T> {
    if Position(s, x) < |s| then s else s + [x]
  }

  function InternFrame(s: Store, key: Frame): Store {
    s.(strs := Interned(s.strs, key))
  }

  function PushId(s: Store, id: nat): Store {
    s.(current := s.current + [id])
  }

  function AppendFrame(s: Store, frame: Frame): Store {
    PushId(InternFrame(s, Bounded(frame)), Position(s.strs, Bounded(frame)) + 1)
  }

  function Reversed<T>(s: seq<T>): (r: seq<T>)
    ensures |r| == |s|
    ensures forall i :: 0 <= i < |s| ==> r[i] == s[|s| - 1 - i]
  {
    seq(|s|, i requires 0 <= i < |s| => s[|s| - 1 - i])
  }

  /** Reverses what was appended since the last reversal. */
  function ReverseTail<T>(s: seq<T>, mark: nat): seq<T> {
    if mark >= |s| then s else s[..mark] + Reversed(s[mark..])
  }

  function ReverseCurrent(s: Store): Store {
    if s.lastReverse >= |s.current| then s
    else s.(current := ReverseTail(s.current, s.lastReverse), lastReverse := |s.current|)
  }

  function ResetCurrent(s: Store, index: nat): Store
    requires index <= |s.current|
  {
    s.(current := s.current[..index], lastReverse := index)
  }

  function InternCurrent(s: Store): Store {
    s.(stacks := Interned(s.stacks, s.current))
  }

  function CurrentId(s: Store): nat {
    Position(s.stacks, s.current) + 1
  }

  /** How finishing a stack ends: the stack could not be interned, or the wheel's outcome. */
  datatype DoneOutcome = NotInterned | Counted(o: Outcome)

  /** `cli_stackmap_done_at`: only a recorded sample clears the current stack. */
  function DoneAt(s: Store, count: nat, ms: nat, o: DoneOutcome): Store {
    match o
    case NotInterned => s
    case Counted(wo) => CountAs(InternCurrent(s), CurrentId(s), count, ms, wo)
  }

  function CountAs(s: Store, id: nat, count: nat, ms: nat, wo: Outcome): Store {
    var s' := s.(wheel := AddSample(s.wheel, ms, id, count, wo));
    if wo.Added? then ResetCurrent(s', 0) else s'
  }

  /** The guard record after a flush that emitted something, unless the day is over. */
  function Guards(out: seq<Interval>): seq<Interval> {
    if out == [] || out[|out| - 1].endMs >= DAY_MS then []
    else [Interval(out[|out| - 1].endMs, out[|out| - 1].endMs, [])]
  }

  /** Handing out the entries of interval `i` of a flush needs memory, unless there are none, and can fail. */
  predicate HandOutFails(out: seq<Interval>, takeOk: seq<bool>, i: nat)
    requires i < |out|
  {
    i < |takeOk| && !takeOk[i] && out[i].items != []
  }

  function TornBy(out: seq<Interval>, takeOk: seq<bool>): (r: seq<bool>)
    ensures |r| == |out| && forall i :: 0 <= i < |out| ==> r[i] == HandOutFails(out, takeOk, i)
  {
    seq(|out|, i requires 0 <= i < |out| => HandOutFails(out, takeOk, i))
  }

  /** The guard has no entries to hand out, so it is never torn. */
  function GuardsWhole(out: seq<Interval>): seq<bool> {
    if Guards(out) == [] then [] else [false]
  }

  /** `cli_stackmap_dump_delta_stack_common`: both dictionaries first, then the flushed intervals. */
  function DumpAs(s: Store, flushed: (Wheel, seq<Bucket>), takeOk: seq<bool>): Store {
    var out := IntervalsOf(flushed.1);
    s.(dumpedStrs := |s.strs|, dumpedStacks := |s.stacks|, wheel := flushed.0,
       records := s.records + out + Guards(out), torn := s.torn + TornBy(out, takeOk) + GuardsWhole(out))
  }

  function DumpReady(s: Store, nowMs: nat, takeOk: seq<bool>): Store {
    DumpAs(s, FlushReady(s.wheel, nowMs), takeOk)
  }

  function DumpAll(s: Store, takeOk: seq<bool>): Store {
    DumpAs(s, FlushAll(s.wheel), takeOk)
  }

  // ---------------------------------------------------------------------------------------------
  // The frames an id stands for

  ghost predicate IdsBelow(ids: seq<nat>, n: nat) {
    forall i :: 0 <= i < |ids| ==> 1 <= ids[i] <= n
  }

  function FramesOfIds(strs: seq<Frame>, ids: seq<nat>): (r: seq<Frame>)
    requires IdsBelow(ids, |strs|)
    ensures |r| == |ids|
    ensures forall i :: 0 <= i < |ids| ==> r[i] == strs[ids[i] - 1]
  {
    seq(|ids|, i requires 0 <= i < |ids| => strs[ids[i] - 1])
  }

  ghost predicate NoRepeats<T>(s: seq<T>) {
    forall i, j :: 0 <= i < j < |s| ==> s[i] != s[j]
  }

  lemma {:induction false} InternedKeeps<T>(s: seq<T>, x: T)
    requires NoRepeats(s)
    ensures NoRepeats(Interned(s, x)) && s <= Interned(s, x)
    ensures Position(s, x) < |Interned(s, x)| && Interned(s, x)[Position(s, x)] == x
  {
    PositionFinds(s, x);
  }

  /** Interning is injective: different id lists stand for different frame lists. */
  lemma {:induction false} FramesInjective(strs: seq<Frame>, a: seq<nat>, b: seq<nat>)
    requires NoRepeats(strs) && IdsBelow(a, |strs|) && IdsBelow(b, |strs|)
    requires FramesOfIds(strs, a) == FramesOfIds(strs, b)
    ensures a == b
  {
    forall i | 0 <= i < |a|
      ensures a[i] == b[i]
    {
      assert FramesOfIds(strs, a)[i] == FramesOfIds(strs, b)[i];
      assert strs[a[i] - 1] == strs[b[i] - 1];
    }
  }

  lemma {:induction false} FramesGrow(strs: seq<Frame>, strs': seq<Frame>, ids: seq<nat>)
    requires strs <= strs' && IdsBelow(ids, |strs|)
    ensures IdsBelow(ids, |strs'|) && FramesOfIds(strs', ids) == FramesOfIds(strs, ids)
  {
  }

  // ---------------------------------------------------------------------------------------------
  // The invariant

  ghost predicate DictOk(s: Store) {
    && NoRepeats(s.strs)
    && NoRepeats(s.stacks)
    && (forall i :: 0 <= i < |s.stacks| ==> IdsBelow(s.stacks[i], |s.strs|))
    && IdsBelow(s.current, |s.strs|)
    && s.lastReverse <= |s.current|
    && s.dumpedStrs <= |s.strs| && s.dumpedStacks <= |s.stacks|
  }

  ghost predicate ItemIdsBelow(items: seq<Item>, n: nat) {
    forall i :: 0 <= i < |items| ==> 1 <= items[i].id <= n
  }

  ghost predicate BucketsBelow(bs: seq<Bucket>, n: nat) {
    forall i :: 0 <= i < |bs| ==> ItemIdsBelow(bs[i].items, n)
  }

  ghost predicate RecordsBelow(rs: seq<Interval>, n: nat) {
    forall i :: 0 <= i < |rs| ==> ItemIdsBelow(rs[i].items, n)
  }

  /** Closure under reference: pending ids are interned, written ids have their dictionary lines, and the
      frame ids of a written stack line have theirs. */
  ghost predicate Closed(s: Store) {
    && BucketsBelow(s.wheel.buckets, |s.stacks|)
    && RecordsBelow(s.records, s.dumpedStacks)
    && s.dumpedStacks <= |s.stacks|
    && (forall i :: 0 <= i < s.dumpedStacks ==> IdsBelow(s.stacks[i], s.dumpedStrs))
  }

  ghost predicate StoreOk(s: Store) {
    DictOk(s) && Closed(s)
  }

  lemma {:induction false} AppendKeepsOk(s: Store, frame: Frame)
    requires StoreOk(s)
    ensures var s' := AppendFrame(s, frame);
            && StoreOk(s') && s.strs <= s'.strs && s'.stacks == s.stacks
            && FramesOfIds(s'.strs, s'.current) == FramesOfIds(s.strs, s.current) + [Bounded(frame)]
  {
    InternedKeeps(s.strs, Bounded(frame));
  }

  lemma {:induction false} ReverseKeepsOk(s: Store)
    requires StoreOk(s)
    ensures var s' := ReverseCurrent(s);
            && StoreOk(s')
            && FramesOfIds(s'.strs, s'.current) == ReverseTail(FramesOfIds(s.strs, s.current), s.lastReverse)
  {
  }

  lemma {:induction false} ResetKeepsOk(s: Store, index: nat)
    requires StoreOk(s) && index <= |s.current|
    ensures var s' := ResetCurrent(s, index);
            && StoreOk(s')
            && FramesOfIds(s'.strs, s'.current) == FramesOfIds(s.strs, s.current)[..index]
  {
  }

  lemma {:induction false} BumpBelow(items: seq<Item>, id: nat, count: nat, n: nat)
    requires ItemIdsBelow(items, n) && 1 <= id <= n
    ensures ItemIdsBelow(Bump(items, id, count), n)
  {
  }

  lemma {:induction false} AddBelow(bs: seq<Bucket>, sec: nat, id: nat, count: nat, n: nat)
    requires BucketsBelow(bs, n) && 1 <= id <= n
    ensures BucketsBelow(WithBucket(bs, sec), n) && BucketsBelow(AddToBucket(bs, sec, id, count), n)
  {
    var bs' := WithBucket(bs, sec);
    assert BucketsBelow(bs', n);
    var i := FindBucket(bs', sec);
    if i < |bs'| {
      BumpBelow(bs'[i].items, id, count, n);
    }
  }

  lemma {:induction false} DoneKeepsOk(s: Store, count: nat, ms: nat, o: DoneOutcome)
    requires StoreOk(s)
    ensures var s' := DoneAt(s, count, ms, o);
            StoreOk(s') && s'.strs == s.strs && s.stacks <= s'.stacks
    ensures o.Counted? ==> 1 <= CurrentId(s) <= |DoneAt(s, count, ms, o).stacks|
                           && DoneAt(s, count, ms, o).stacks[CurrentId(s) - 1] == s.current
  {
    if o.Counted? {
      InternedKeeps(s.stacks, s.current);
      var stacks := Interned(s.stacks, s.current);
      var bs := s.wheel.buckets;
      assert BucketsBelow(bs, |stacks|) by {
        forall i | 0 <= i < |bs|
          ensures ItemIdsBelow(bs[i].items, |stacks|)
        {
          assert ItemIdsBelow(bs[i].items, |s.stacks|);
        }
      }
      AddBelow(bs, PlacedSec(s.wheel, ms), CurrentId(s), count, |stacks|);
    }
  }

  lemma {:induction false} NonZeroBelow(items: seq<Item>, n: nat)
    requires ItemIdsBelow(items, n)
    ensures ItemIdsBelow(NonZero(items), n)
  {
    NonZeroEntries(items);
    forall i | 0 <= i < |NonZero(items)|
      ensures 1 <= NonZero(items)[i].id <= n
    {
      assert NonZero(items)[i] in items;
    }
  }

  lemma {:induction false} DrainBelow(bs: seq<Bucket>, l: Limit, n: nat)
    requires BucketsBelow(bs, n)
    ensures BucketsBelow(Drain(bs, l).0, n) && RecordsBelow(IntervalsOf(Drain(bs, l).1), n)
  {
    DrainPartition(bs, l);
    var rest, out := Drain(bs, l).0, Drain(bs, l).1;
    forall i | 0 <= i < |rest|
      ensures ItemIdsBelow(rest[i].items, n)
    {
      assert rest[i] in bs;
    }
    forall i | 0 <= i < |out|
      ensures ItemIdsBelow(IntervalsOf(out)[i].items, n)
    {
      assert out[i] in bs;
      NonZeroBelow(out[i].items, n);
    }
  }

  lemma {:induction false} RecordsBelowAppend(a: seq<Interval>, b: seq<Interval>, m: nat, n: nat)
    requires RecordsBelow(a, m) && m <= n && RecordsBelow(b, n)
    ensures RecordsBelow(a + b, n)
  {
    forall i | 0 <= i < |a + b|
      ensures ItemIdsBelow((a + b)[i].items, n)
    {
      if i < |a| {
        assert ItemIdsBelow(a[i].items, m);
      } else {
        assert ItemIdsBelow(b[i - |a|].items, n);
      }
    }
  }

  /** A dump leaves the persisted files closed under reference. */
  lemma {:induction false} DumpKeepsOk(s: Store, l: Limit, w: Wheel, takeOk: seq<bool>)
    requires StoreOk(s) && w.buckets == Drain(s.wheel.buckets, l).0
    ensures var s' := DumpAs(s, (w, Drain(s.wheel.buckets, l).1), takeOk);
            StoreOk(s') && s'.dumpedStrs == |s'.strs| && s'.dumpedStacks == |s'.stacks|
  {
    DrainBelow(s.wheel.buckets, l, |s.stacks|);
    var out := IntervalsOf(Drain(s.wheel.buckets, l).1);
    var rs := s.records + out + Guards(out);
    RecordsBelowAppend(s.records, out, s.dumpedStacks, |s.stacks|);
    RecordsBelowAppend(s.records + out, Guards(out), |s.stacks|, |s.stacks|);
    assert RecordsBelow(rs, |s.stacks|);
  }
}

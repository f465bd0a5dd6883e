/** Splitting a store: selected records are resolved through the source's dictionaries and interned again into
    a new store (`cli_stackmap_split` in src/cli_stackmap_helper/cli_stackmap.c).
  */
module Splits {
  import opened Bits
  import opened Bytes
  import opened Items
  import opened Wheels
  import opened TimeWheels
  import opened Dictionary
  import opened RecordCodec
  import opened TornFiles
  import opened Stores
  import opened StoreRuns
  import opened ReadBack

  // ---------------------------------------------------------------------------------------------
  // Counting by frame list

  ghost predicate Says(d: Dict, id: nat, frames: seq<Frame>) {
    id in d.ids && Resolve(d, id) == frames
  }

  lemma {:induction false} FrameAppend(a: seq<Item>, b: seq<Item>, d: Dict, frames: seq<Frame>)
    ensures FrameCount(a + b, d, frames) == FrameCount(a, d, frames) + FrameCount(b, d, frames)
  {
    if a == [] {
      assert a + b == b;
    } else {
      assert (a + b)[1..] == a[1..] + b;
      FrameAppend(a[1..], b, d, frames);
    }
  }

  lemma {:induction false} FrameOne(e: Item, d: Dict, frames: seq<Frame>)
    ensures FrameCount([e], d, frames) == if Says(d, e.id, frames) then e.count else 0
  {
    assert [e][1..] == [];
  }

  lemma {:induction false} FrameSplit(items: seq<Item>, i: nat, d: Dict, frames: seq<Frame>)
    requires i < |items|
    ensures FrameCount(items, d, frames)
         == FrameCount(items[..i], d, frames) + (if Says(d, items[i].id, frames) then items[i].count else 0) + FrameCount(items[i + 1..], d, frames)
  {
    var a, e, b := items[..i], items[i], items[i + 1..];
    assert items == a + [e] + b;
    FrameAppend(a + [e], b, d, frames);
    FrameAppend(a, [e], d, frames);
    FrameOne(e, d, frames);
  }

  /** Adding to the entry of an id adds to the frame list it resolves to, modulo 2^64. */
  lemma {:induction false} FrameBump(items: seq<Item>, id: nat, c: nat, d: Dict, frames: seq<Frame>)
    ensures Cong(FrameCount(Bump(items, id, c), d, frames), FrameCount(items, d, frames) + (if Says(d, id, frames) then c else 0))
  {
    var i := IndexOf(items, id);
    var r := Bump(items, id, c);
    if i < |items| {
      FrameSplit(items, i, d, frames);
      FrameSplit(r, i, d, frames);
      assert r[..i] == items[..i] && r[i + 1..] == items[i + 1..];
      var rest := FrameCount(items[..i], d, frames) + FrameCount(items[i + 1..], d, frames);
      CongWrap(items[i].count + c);
      CongSame(rest);
      CongSum(AddU64(items[i].count, c), items[i].count + c, rest, rest);
    } else {
      FrameAppend(items, [Item(id, c)], d, frames);
      FrameOne(Item(id, c), d, frames);
      CongSame(FrameCount(r, d, frames));
    }
  }

  lemma {:induction false} FrameBumpN(items: seq<Item>, n: nat, d: Dict, frames: seq<Frame>)
    requires n <= |items|
    ensures Cong(FrameCount(BumpN([], items, n), d, frames), FrameCount(items[..n], d, frames))
  {
    if n == 0 {
      CongSame(0);
    } else {
      var e := items[n - 1];
      var before := BumpN([], items, n - 1);
      FrameBumpN(items, n - 1, d, frames);
      FrameBump(before, e.id, e.count, d, frames);
      assert items[..n] == items[..n - 1] + [e];
      FrameAppend(items[..n - 1], [e], d, frames);
      FrameOne(e, d, frames);
      var x := if Says(d, e.id, frames) then e.count else 0;
      CongSame(x);
      CongSum(FrameCount(before, d, frames), FrameCount(items[..n - 1], d, frames), x, x);
      CongTrans(FrameCount(BumpN([], items, n), d, frames), FrameCount(before, d, frames) + x, FrameCount(items[..n], d, frames));
    }
  }

  lemma {:induction false} RemoveOne<T>(a: seq<T>, b: seq<T>, i: nat)
    requires a != [] && i < |b| && b[i] == a[0] && multiset(a) == multiset(b)
    ensures multiset(a[1..]) == multiset(b[..i] + b[i + 1..])
  {
    var rest := b[..i] + b[i + 1..];
    assert b == b[..i] + [b[i]] + b[i + 1..];
    assert multiset(b) == multiset(rest) + multiset{b[i]};
    assert a == [a[0]] + a[1..];
    assert multiset(a) == multiset(a[1..]) + multiset{a[0]};
    assert multiset(a[1..]) == multiset(a) - multiset{a[0]} == multiset(rest);
  }

  /** The order of the entries does not matter. */
  lemma {:induction false} FramePermuted(a: seq<Item>, b: seq<Item>, d: Dict, frames: seq<Frame>)
    requires multiset(a) == multiset(b)
    ensures FrameCount(a, d, frames) == FrameCount(b, d, frames)
  {
    if a == [] {
      assert |b| == |multiset(b)| == 0;
    } else {
      assert a[0] in multiset(b);
      var i :| 0 <= i < |b| && b[i] == a[0];
      RemoveOne(a, b, i);
      FrameSplit(b, i, d, frames);
      FrameAppend(b[..i], b[i + 1..], d, frames);
      FramePermuted(a[1..], b[..i] + b[i + 1..], d, frames);
    }
  }

  lemma {:induction false} FrameNonZero(items: seq<Item>, d: Dict, frames: seq<Frame>)
    ensures FrameCount(NonZero(items), d, frames) == FrameCount(items, d, frames)
  {
    if items != [] {
      var front := if items[0].count != 0 then [items[0]] else [];
      FrameNonZero(items[1..], d, frames);
      FrameAppend(front, NonZero(items[1..]), d, frames);
      FrameOne(items[0], d, frames);
    }
  }

  // ---------------------------------------------------------------------------------------------
  // The split

  /** One selected record and the order in which the sorting visits its aggregated entries. */
  datatype Pick = Pick(rec: Rec, order: seq<Item>)

  /** What `cli_stackmap_dump` returns for one record; nothing when it cannot be read. */
  function Aggregate(file: seq<byte>, rec: Rec): seq<Item> {
    match EntriesOf(file, rec)
    case Missing => []
    case Found(items) => BumpN([], items, |items|)
  }

  ghost predicate PickOk(file: seq<byte>, p: Pick) {
    && multiset(p.order) == multiset(Aggregate(file, p.rec))
    && |p.order| < U64 && p.rec.startMs < U64 && p.rec.endMs < U64
    && forall i :: 0 <= i < |p.order| ==> p.order[i].count < U64
  }

  function AppendAll(s: Store, frames: seq<Frame>, n: nat): Store
    requires n <= |frames|
  {
    if n == 0 then s else AppendFrame(AppendAll(s, frames, n - 1), frames[n - 1])
  }

  /** The new store and the counts of the record being built. */
  datatype Building = Building(store: Store, counts: seq<Item>)

  /** Resolves one entry, interns its frames and adds its count (`cli_stackmap_done`); an id without a line is skipped. */
  function SplitEntry(b: Building, d: Dict, e: Item): Building {
    if e.id !in d.ids then b
    else
      var frames := Resolve(d, e.id);
      var s := AppendAll(b.store, frames, |frames|);
      Building(ResetCurrent(InternCurrent(s), 0), Bump(b.counts, CurrentId(s), e.count))
  }

  /** The id under which an entry of the source is counted in the new store. */
  function NewId(b: Building, d: Dict, e: Item): nat
    requires e.id in d.ids
  {
    CurrentId(AppendAll(b.store, Resolve(d, e.id), |Resolve(d, e.id)|))
  }

  function SplitEntries(s: Store, d: Dict, order: seq<Item>, n: nat): Building
    requires n <= |order|
  {
    if n == 0 then Building(s, []) else SplitEntry(SplitEntries(s, d, order, n - 1), d, order[n - 1])
  }

  /** Writes both dictionaries and one record (`_cli_stackmap_dump_stackmap`). */
  function WriteSplit(b: Building, rec: Rec): Store {
    b.store.(dumpedStrs := |b.store.strs|, dumpedStacks := |b.store.stacks|,
             records := b.store.records + [Interval(rec.startMs, rec.endMs, NonZero(b.counts))])
  }

  function SplitRecord(s: Store, d: Dict, p: Pick): Store {
    WriteSplit(SplitEntries(s, d, p.order, |p.order|), p.rec)
  }

  function Split(d: Dict, picks: seq<Pick>, n: nat): Store
    requires n <= |picks|
  {
    if n == 0 then NewStore(0)
    else SplitRecord(Split(d, picks, n - 1), d, picks[n - 1])
  }

  method AppendFrames(b: Building, d: Dict, id: nat) returns (s: Store)
    requires id in d.ids
    ensures s == AppendAll(b.store, Resolve(d, id), |d.ids[id]|)
  {
    s := b.store;
    var ids := d.ids[id];
    for i := 0 to |ids|
      invariant s == AppendAll(b.store, Resolve(d, id), i)
    {
      var frame := LOST;
      if ids[i] in d.strs {
        frame := d.strs[ids[i]];
      }
      s := AppendFrame(s, frame);
    }
  }

  /** `cli_stackmap_split`. */
  method RunSplit(d: Dict, picks: seq<Pick>) returns (s: Store)
    ensures s == Split(d, picks, |picks|)
  {
    s := NewStore(0);
    for k := 0 to |picks|
      invariant s == Split(d, picks, k)
    {
      var b := RunEntries(s, d, picks[k].order);
      s := WriteSplit(b, picks[k].rec);
    }
  }

  /** The entries of one record. */
  method RunEntries(s: Store, d: Dict, order: seq<Item>) returns (b: Building)
    ensures b == SplitEntries(s, d, order, |order|)
  {
    b := Building(s, []);
    for i := 0 to |order|
      invariant b == SplitEntries(s, d, order, i)
    {
      var e := order[i];
      if e.id in d.ids {
        var t := AppendFrames(b, d, e.id);
        b := Building(ResetCurrent(InternCurrent(t), 0), Bump(b.counts, CurrentId(t), e.count));
      }
    }
  }

  // ---------------------------------------------------------------------------------------------
  // The new store is well-formed

  /** The source's frames are within the cap and hold no newline. */
  ghost predicate Plain(frame: Frame) {
    |frame| <= FRAME_MAX_LEN && NoNewline(frame)
  }

  ghost predicate PlainDict(d: Dict) {
    forall id :: id in d.strs ==> Plain(d.strs[id])
  }

  ghost predicate AllPlain(frames: seq<Frame>) {
    forall i :: 0 <= i < |frames| ==> Plain(frames[i])
  }

  lemma {:induction false} ResolvePlain(d: Dict, id: nat)
    requires PlainDict(d) && id in d.ids
    ensures AllPlain(Resolve(d, id))
  {
  }

  /** Dictionaries of a store, as a reader of its files has them. */
  function TablesOf(s: Store): Dict {
    Dict(Table(s.strs, |s.strs|), Table(s.stacks, |s.stacks|))
  }

  ghost predicate Grows(s: Store, s': Store) {
    s.strs <= s'.strs && s.stacks <= s'.stacks
  }

  ghost predicate SplitOk(s: Store) {
    StoreOk(s) && s.current == [] && AllPlain(s.strs) && s.torn == []
  }

  lemma {:induction false} PlainInterned(strs: seq<Frame>, frame: Frame)
    requires AllPlain(strs) && Plain(frame)
    ensures AllPlain(Interned(strs, frame)) && Bounded(frame) == frame
  {
  }

  /** `s'` is `s` with `frames` as its current stack. */
  ghost predicate AppendedTo(s: Store, s': Store, frames: seq<Frame>) {
    && StoreOk(s') && AllPlain(s'.strs)
    && s.strs <= s'.strs && s'.stacks == s.stacks && s'.records == s.records && s'.torn == s.torn
    && FramesOfIds(s'.strs, s'.current) == frames
  }

  lemma {:induction false} AppendOneOk(s: Store, s1: Store, frames: seq<Frame>, frame: Frame)
    requires AppendedTo(s, s1, frames) && Plain(frame)
    ensures AppendedTo(s, AppendFrame(s1, frame), frames + [frame])
  {
    PlainInterned(s1.strs, frame);
    AppendKeepsOk(s1, frame);
  }

  lemma {:induction false} AppendAllOk(s: Store, frames: seq<Frame>, n: nat)
    requires SplitOk(s) && AllPlain(frames) && n <= |frames|
    ensures AppendedTo(s, AppendAll(s, frames, n), frames[..n])
  {
    if n > 0 {
      AppendAllOk(s, frames, n - 1);
      AppendOneOk(s, AppendAll(s, frames, n - 1), frames[..n - 1], frames[n - 1]);
      assert frames[..n] == frames[..n - 1] + [frames[n - 1]];
    }
  }

  lemma {:induction false} InternOk(s: Store)
    requires StoreOk(s) && AllPlain(s.strs) && s.torn == []
    ensures var s' := ResetCurrent(InternCurrent(s), 0);
            && SplitOk(s') && s'.strs == s.strs && s.stacks <= s'.stacks
            && StandsFor(s', CurrentId(s), FramesOfIds(s.strs, s.current))
  {
    InternedKeeps(s.stacks, s.current);
    var stacks := Interned(s.stacks, s.current);
    var bs := s.wheel.buckets;
    forall i | 0 <= i < |bs|
      ensures ItemIdsBelow(bs[i].items, |stacks|)
    {
      assert ItemIdsBelow(bs[i].items, |s.stacks|);
    }
  }

  ghost predicate CountsOk(b: Building, n: nat) {
    && SplitOk(b.store) && ItemIdsBelow(b.counts, |b.store.stacks|) && Distinct(b.counts)
    && CountsFit(b.counts, n)
  }

  /** The stack of an entry, interned into the new store. */
  lemma {:induction false} EntryStack(s: Store, frames: seq<Frame>, t: Store)
    requires SplitOk(s) && AllPlain(frames) && t == AppendAll(s, frames, |frames|)
    ensures var s' := ResetCurrent(InternCurrent(t), 0);
            && SplitOk(s') && Grows(s, s') && s'.records == s.records && StandsFor(s', CurrentId(t), frames)
  {
    AppendAllOk(s, frames, |frames|);
    assert frames[..|frames|] == frames;
    InternOk(t);
  }

  lemma {:induction false} EntryOk(b: Building, d: Dict, e: Item, n: nat)
    requires CountsOk(b, n) && PlainDict(d) && e.count < U64
    ensures var b' := SplitEntry(b, d, e);
            CountsOk(b', n + 1) && Grows(b.store, b'.store) && b'.store.records == b.store.records
    ensures e.id in d.ids ==>
              var b' := SplitEntry(b, d, e);
              b'.counts == Bump(b.counts, NewId(b, d, e), e.count) && StandsFor(b'.store, NewId(b, d, e), Resolve(d, e.id))
  {
    if e.id in d.ids {
      var frames := Resolve(d, e.id);
      ResolvePlain(d, e.id);
      var s := AppendAll(b.store, frames, |frames|);
      EntryStack(b.store, frames, s);
      var id := CurrentId(s);
      BumpCounts(b.counts, id, e.count, 0);
      BumpBelow(b.counts, id, e.count, |SplitEntry(b, d, e).store.stacks|);
    }
  }

  lemma {:induction false} EntriesOk(s: Store, d: Dict, order: seq<Item>, n: nat)
    requires SplitOk(s) && PlainDict(d) && n <= |order| && forall i :: 0 <= i < |order| ==> order[i].count < U64
    ensures var b := SplitEntries(s, d, order, n);
            CountsOk(b, n) && Grows(s, b.store) && b.store.records == s.records
  {
    if n > 0 {
      EntriesOk(s, d, order, n - 1);
      EntryOk(SplitEntries(s, d, order, n - 1), d, order[n - 1], n - 1);
    }
  }

  /** What a record of a store stands for does not change as the dictionaries grow. */
  lemma {:induction false} FrameGrows(s: Store, s': Store, items: seq<Item>, frames: seq<Frame>)
    requires StoreOk(s) && StoreOk(s') && Grows(s, s') && ItemIdsBelow(items, |s.stacks|)
    ensures FrameCount(items, TablesOf(s'), frames) == FrameCount(items, TablesOf(s), frames)
  {
    if items != [] {
      var id := items[0].id;
      FrameGrows(s, s', items[1..], frames);
      ResolveIsFrames(s, TablesOf(s), id);
      ResolveIsFrames(s', TablesOf(s'), id);
      assert s'.stacks[id - 1] == s.stacks[id - 1];
      FramesGrow(s.strs, s'.strs, s.stacks[id - 1]);
    }
  }

  /** What the record under construction holds for a frame list. */
  function Holds(b: Building, frames: seq<Frame>): nat {
    FrameCount(b.counts, TablesOf(b.store), frames)
  }

  lemma {:induction false} EntryMeaning(b: Building, d: Dict, e: Item, n: nat, frames: seq<Frame>)
    requires CountsOk(b, n) && PlainDict(d) && e.count < U64
    ensures Cong(Holds(SplitEntry(b, d, e), frames), Holds(b, frames) + (if Says(d, e.id, frames) then e.count else 0))
  {
    if e.id in d.ids {
      EntryOk(b, d, e, n);
      BumpMeaning(b, SplitEntry(b, d, e), NewId(b, d, e), e.count, Resolve(d, e.id), frames);
    } else {
      CongSame(Holds(b, frames));
    }
  }

  lemma {:induction false} BumpMeaning(b: Building, b': Building, id: nat, c: nat, own: seq<Frame>, frames: seq<Frame>)
    requires StoreOk(b.store) && ItemIdsBelow(b.counts, |b.store.stacks|)
    requires StoreOk(b'.store) && Grows(b.store, b'.store) && StandsFor(b'.store, id, own) && b'.counts == Bump(b.counts, id, c)
    ensures Cong(Holds(b', frames), Holds(b, frames) + (if own == frames then c else 0))
  {
    FrameGrows(b.store, b'.store, b.counts, frames);
    ResolveIsFrames(b'.store, TablesOf(b'.store), id);
    FrameBump(b.counts, id, c, TablesOf(b'.store), frames);
  }

  lemma {:induction false} CongStep(x': nat, x: nat, y: nat, c: nat)
    requires Cong(x', x + c) && Cong(x, y)
    ensures Cong(x', y + c)
  {
    CongSame(c);
    CongSum(x, y, c, c);
    CongTrans(x', x + c, y + c);
  }

  lemma {:induction false} FrameUpTo(items: seq<Item>, n: nat, d: Dict, frames: seq<Frame>)
    requires 0 < n <= |items|
    ensures FrameCount(items[..n], d, frames)
         == FrameCount(items[..n - 1], d, frames) + (if Says(d, items[n - 1].id, frames) then items[n - 1].count else 0)
  {
    assert items[..n] == items[..n - 1] + [items[n - 1]];
    FrameAppend(items[..n - 1], [items[n - 1]], d, frames);
    FrameOne(items[n - 1], d, frames);
  }

  ghost predicate MeansFirst(s: Store, d: Dict, order: seq<Item>, n: nat, frames: seq<Frame>)
    requires n <= |order|
  {
    Cong(Holds(SplitEntries(s, d, order, n), frames), FrameCount(order[..n], d, frames))
  }

  lemma {:induction false} NextMeans(b: Building, d: Dict, order: seq<Item>, n: nat, frames: seq<Frame>)
    requires PlainDict(d) && 0 < n <= |order| && CountsOk(b, n - 1) && order[n - 1].count < U64
    requires Cong(Holds(b, frames), FrameCount(order[..n - 1], d, frames))
    ensures Cong(Holds(SplitEntry(b, d, order[n - 1]), frames), FrameCount(order[..n], d, frames))
  {
    var e := order[n - 1];
    EntryMeaning(b, d, e, n - 1, frames);
    FrameUpTo(order, n, d, frames);
    CongStep(Holds(SplitEntry(b, d, e), frames), Holds(b, frames), FrameCount(order[..n - 1], d, frames),
             if Says(d, e.id, frames) then e.count else 0);
  }

  lemma {:induction false} MeansNext(s: Store, d: Dict, order: seq<Item>, n: nat, frames: seq<Frame>)
    requires SplitOk(s) && PlainDict(d) && 0 < n <= |order| && forall i :: 0 <= i < |order| ==> order[i].count < U64
    requires MeansFirst(s, d, order, n - 1, frames)
    ensures MeansFirst(s, d, order, n, frames)
  {
    EntriesOk(s, d, order, n - 1);
    NextMeans(SplitEntries(s, d, order, n - 1), d, order, n, frames);
  }

  /** The record under construction means what the visited entries mean. */
  lemma {:induction false} EntriesMeaning(s: Store, d: Dict, order: seq<Item>, n: nat, frames: seq<Frame>)
    requires SplitOk(s) && PlainDict(d) && n <= |order| && forall i :: 0 <= i < |order| ==> order[i].count < U64
    ensures MeansFirst(s, d, order, n, frames)
  {
    if n == 0 {
      CongSame(0);
    } else {
      EntriesMeaning(s, d, order, n - 1, frames);
      MeansNext(s, d, order, n, frames);
    }
  }

  // ---------------------------------------------------------------------------------------------
  // Whole splits

  ghost predicate PicksOk(file: seq<byte>, picks: seq<Pick>) {
    forall k :: 0 <= k < |picks| ==> PickOk(file, picks[k])
  }

  /** A written record: the picked interval, distinct non-zero entries that fit their fields. */
  ghost predicate WrittenAs(r: Interval, p: Pick) {
    && r.startMs == p.rec.startMs && r.endMs == p.rec.endMs
    && Distinct(r.items) && CountsFit(r.items, |p.order|)
    && forall i :: 0 <= i < |r.items| ==> r.items[i].count != 0
  }

  ghost predicate AllWritten(rs: seq<Interval>, picks: seq<Pick>) {
    |rs| <= |picks| && forall k :: 0 <= k < |rs| ==> WrittenAs(rs[k], picks[k])
  }

  lemma {:induction false} WriteOk(b: Building, p: Pick)
    requires CountsOk(b, |p.order|)
    ensures var s := WriteSplit(b, p.rec);
            SplitOk(s) && Complete(s) && WrittenAs(Interval(p.rec.startMs, p.rec.endMs, NonZero(b.counts)), p)
  {
    var s := WriteSplit(b, p.rec);
    NonZeroBelow(b.counts, |b.store.stacks|);
    NonZeroEntries(b.counts);
    NonZeroFits(b.counts, |p.order|);
    var r := Interval(p.rec.startMs, p.rec.endMs, NonZero(b.counts));
    RecordsBelowAppend(b.store.records, [r], b.store.dumpedStacks, |b.store.stacks|);
  }

  ghost predicate OneMore(s: Store, s': Store, p: Pick) {
    && SplitOk(s') && Complete(s') && Grows(s, s')
    && |s'.records| == |s.records| + 1 && s.records <= s'.records
    && WrittenAs(s'.records[|s.records|], p)
  }

  lemma {:induction false} SplitRecordOk(s: Store, d: Dict, file: seq<byte>, p: Pick)
    requires SplitOk(s) && PlainDict(d) && PickOk(file, p)
    ensures OneMore(s, SplitRecord(s, d, p), p)
  {
    EntriesOk(s, d, p.order, |p.order|);
    WriteOk(SplitEntries(s, d, p.order, |p.order|), p);
  }

  ghost predicate Shape(s: Store, picks: seq<Pick>, n: nat) {
    SplitOk(s) && Complete(s) && |s.records| == n && AllWritten(s.records, picks)
  }

  lemma {:induction false} ShapeStep(s: Store, s': Store, picks: seq<Pick>, n: nat)
    requires n < |picks| && Shape(s, picks, n) && OneMore(s, s', picks[n])
    ensures Shape(s', picks, n + 1)
  {
    forall k | 0 <= k < |s'.records|
      ensures WrittenAs(s'.records[k], picks[k])
    {
      if k < n {
        assert s'.records[k] == s.records[k];
      }
    }
  }

  lemma {:induction false} ShapeNext(s: Store, d: Dict, file: seq<byte>, picks: seq<Pick>, n: nat)
    requires n < |picks| && Shape(s, picks, n) && PlainDict(d) && PickOk(file, picks[n])
    ensures Shape(SplitRecord(s, d, picks[n]), picks, n + 1)
  {
    SplitRecordOk(s, d, file, picks[n]);
    ShapeStep(s, SplitRecord(s, d, picks[n]), picks, n);
  }

  lemma {:induction false} SplitShape(d: Dict, file: seq<byte>, picks: seq<Pick>, n: nat)
    requires PlainDict(d) && PicksOk(file, picks) && n <= |picks|
    ensures Shape(Split(d, picks, n), picks, n)
  {
    if n > 0 {
      SplitShape(d, file, picks, n - 1);
      ShapeNext(Split(d, picks, n - 1), d, file, picks, n - 1);
    }
  }

  /** A picked record means the same read from the file or visited in any order. */
  lemma {:induction false} PickMeaning(file: seq<byte>, p: Pick, d: Dict, frames: seq<Frame>)
    requires PickOk(file, p)
    ensures Cong(FrameCount(p.order, d, frames), EntriesCount(EntriesOf(file, p.rec), d, frames))
  {
    FramePermuted(p.order, Aggregate(file, p.rec), d, frames);
    match EntriesOf(file, p.rec)
    case Missing => CongSame(0);
    case Found(items) =>
      FrameBumpN(items, |items|, d, frames);
      assert items[..|items|] == items;
  }

  /** What record `k` of the new store holds for a frame list; nothing when there is no such record. */
  function HeldBy(s: Store, k: nat, frames: seq<Frame>): nat {
    if k < |s.records| then FrameCount(s.records[k].items, TablesOf(s), frames) else 0
  }

  lemma {:induction false} LastMeaning(s: Store, s': Store, d: Dict, file: seq<byte>, p: Pick, frames: seq<Frame>)
    requires SplitOk(s) && PlainDict(d) && PickOk(file, p) && s' == SplitRecord(s, d, p)
    ensures |s'.records| == |s.records| + 1
    ensures Cong(HeldBy(s', |s.records|, frames), EntriesCount(EntriesOf(file, p.rec), d, frames))
  {
    var b := SplitEntries(s, d, p.order, |p.order|);
    SplitRecordOk(s, d, file, p);
    EntriesOk(s, d, p.order, |p.order|);
    EntriesMeaning(s, d, p.order, |p.order|, frames);
    assert p.order[..|p.order|] == p.order;
    PickMeaning(file, p, d, frames);
    assert TablesOf(s') == TablesOf(b.store);
    FrameNonZero(b.counts, TablesOf(s'), frames);
    assert s'.records[|s.records|].items == NonZero(b.counts);
    CongTrans(FrameCount(NonZero(b.counts), TablesOf(s'), frames), FrameCount(p.order, d, frames),
              EntriesCount(EntriesOf(file, p.rec), d, frames));
  }

  lemma {:induction false} SplitNext(d: Dict, file: seq<byte>, picks: seq<Pick>, n: nat)
    requires PlainDict(d) && PicksOk(file, picks) && 0 < n <= |picks|
    ensures Shape(Split(d, picks, n - 1), picks, n - 1) && OneMore(Split(d, picks, n - 1), Split(d, picks, n), picks[n - 1])
  {
    SplitShape(d, file, picks, n - 1);
    SplitRecordOk(Split(d, picks, n - 1), d, file, picks[n - 1]);
  }

  /** Later records change nothing that an earlier record means. */
  lemma {:induction false} EarlierSame(d: Dict, file: seq<byte>, picks: seq<Pick>, n: nat, k: nat, frames: seq<Frame>)
    requires PlainDict(d) && PicksOk(file, picks) && 0 < n <= |picks| && k < n - 1
    ensures HeldBy(Split(d, picks, n), k, frames) == HeldBy(Split(d, picks, n - 1), k, frames)
  {
    SplitNext(d, file, picks, n);
    var s, s' := Split(d, picks, n - 1), Split(d, picks, n);
    assert s'.records[k] == s.records[k];
    assert ItemIdsBelow(s.records[k].items, s.dumpedStacks);
    FrameGrows(s, s', s.records[k].items, frames);
  }

  ghost predicate SameHeld(states: seq<Store>, i: nat, k: nat, frames: seq<Frame>)
    requires 0 < i < |states|
  {
    HeldBy(states[i], k, frames) == HeldBy(states[i - 1], k, frames)
  }

  /** What record `k` held when it was written it still holds later on. */
  lemma {:induction false} StillHeld(states: seq<Store>, n: nat, k: nat, frames: seq<Frame>)
    requires k < n < |states| && forall i :: k + 1 < i <= n ==> SameHeld(states, i, k, frames)
    ensures HeldBy(states[n], k, frames) == HeldBy(states[k + 1], k, frames)
  {
    if k + 1 < n {
      StillHeld(states, n - 1, k, frames);
      assert SameHeld(states, n, k, frames);
    }
  }

  lemma {:induction false} LastMeans(d: Dict, file: seq<byte>, picks: seq<Pick>, n: nat, frames: seq<Frame>)
    requires PlainDict(d) && PicksOk(file, picks) && 0 < n <= |picks|
    ensures Cong(HeldBy(Split(d, picks, n), n - 1, frames), EntriesCount(EntriesOf(file, picks[n - 1].rec), d, frames))
  {
    SplitNext(d, file, picks, n);
    LastMeaning(Split(d, picks, n - 1), Split(d, picks, n), d, file, picks[n - 1], frames);
  }

  lemma {:induction false} PickedMeaning(d: Dict, file: seq<byte>, picks: seq<Pick>, k: nat, frames: seq<Frame>)
    requires PlainDict(d) && PicksOk(file, picks) && k < |picks|
    ensures Cong(HeldBy(Split(d, picks, |picks|), k, frames), EntriesCount(EntriesOf(file, picks[k].rec), d, frames))
  {
    var states := seq(|picks| + 1, n requires 0 <= n <= |picks| => Split(d, picks, n));
    forall i | k + 1 < i <= |picks|
      ensures SameHeld(states, i, k, frames)
    {
      EarlierSame(d, file, picks, i, k, frames);
    }
    StillHeld(states, |picks|, k, frames);
    LastMeans(d, file, picks, k + 1, frames);
  }

  // ---------------------------------------------------------------------------------------------
  // The files of the new store

  ghost predicate IdsInRange(s: Store) {
    |s.strs| < 0x8000_0000 && |s.stacks| < 0x8000_0000
  }

  lemma {:induction false} SplitReloads(s: Store)
    requires SplitOk(s) && Complete(s) && IdsInRange(s)
    ensures Reload(FilesOf(s)) == TablesOf(s)
  {
    forall i | 0 <= i < |s.stacks|
      ensures IdsFit(s.stacks[i])
    {
      assert IdsBelow(s.stacks[i], |s.strs|);
    }
    forall i | 0 <= i < |s.strs|
      ensures NoNewline(s.strs[i])
    {
      assert Plain(s.strs[i]);
    }
    StrmapRoundTrip(s.strs, []);
    IdsmapRoundTrip(s.stacks, []);
  }

  lemma {:induction false} SplitFits(d: Dict, file: seq<byte>, picks: seq<Pick>)
    requires PlainDict(d) && PicksOk(file, picks) && IdsInRange(Split(d, picks, |picks|))
    ensures AllFit(Split(d, picks, |picks|).records)
  {
    var s := Split(d, picks, |picks|);
    SplitShape(d, file, picks, |picks|);
    forall k | 0 <= k < |picks|
      ensures Fits(s.records[k])
    {
      assert PickOk(file, picks[k]) && WrittenAs(s.records[k], picks[k]);
      assert ItemIdsBelow(s.records[k].items, s.dumpedStacks);
    }
  }

  lemma {:induction false} CountBelow(items: seq<Item>, id: nat)
    requires Distinct(items) && forall i :: 0 <= i < |items| ==> items[i].count < U64
    ensures CountOf(items, id) < U64
  {
    if HasId(items, id) {
      var i :| 0 <= i < |items| && items[i].id == id;
      CountAt(items, i);
    } else {
      CountAbsent(items, id);
    }
  }

  /** In a well-formed store no frame list has two entries in a record, so its count is one word. */
  lemma {:induction false} FrameCountIsWord(s: Store, items: seq<Item>, frames: seq<Frame>)
    requires StoreOk(s) && ItemIdsBelow(items, |s.stacks|)
    requires Distinct(items) && forall i :: 0 <= i < |items| ==> items[i].count < U64
    ensures FrameCount(items, TablesOf(s), frames) < U64
  {
    if id: nat :| StandsFor(s, id, frames) {
      FrameCountIsCount(s, TablesOf(s), items, id, frames);
      CountBelow(items, id);
    } else {
      FrameCountIsCount(s, TablesOf(s), items, 0, frames);
    }
  }

  /** Splitting preserves meaning. The files of the new store index the picked records in order, leaving out
      only records that hold nothing over an empty interval. Each keeps its start; it keeps its end exactly when that
      does not lie before the first start that the new index records. For every frame list the decoded count is
      the word that the picked record decodes to. */
  lemma {:induction false} SplitPreservesMeaning(d: Dict, file: seq<byte>, picks: seq<Pick>, j: nat, frames: seq<Frame>)
    requires PlainDict(d) && PicksOk(file, picks) && IdsInRange(Split(d, picks, |picks|))
    requires j < |RealOnes(Split(d, picks, |picks|).records, |Split(d, picks, |picks|).records|)|
    ensures var s := Split(d, picks, |picks|);
            var f := FilesOf(s);
            && Scan(f.stackBin, 0, NO_INFO).Scanned?
            && var info := Scan(f.stackBin, 0, NO_INFO).info;
               var first, k := RealOnes(s.records, |s.records|)[0], RealOnes(s.records, |s.records|)[j];
               && j < |info.records| && first < |picks| && k < |picks|
               && info.records[j].startMs == picks[k].rec.startMs
               && info.start == picks[first].rec.startMs
               && info.records[j].endMs == DayWrapped(info.start, picks[k].rec.endMs)
               && (info.records[j].endMs == picks[k].rec.endMs <==> info.start == 0 || picks[k].rec.endMs >= info.start)
               && EntriesCount(EntriesOf(f.stackBin, info.records[j]), Reload(f), frames)
                  == Wrap(EntriesCount(EntriesOf(file, picks[k].rec), d, frames))
  {
    var s := Split(d, picks, |picks|);
    var first, k := RealOnes(s.records, |s.records|)[0], RealOnes(s.records, |s.records|)[j];
    SplitShape(d, file, picks, |picks|);
    assert WrittenAs(s.records[first], picks[first]);
    SplitFits(d, file, picks);
    WholeFile(s.records, s.torn);
    IndexedAt(s.records, j, first, k);
    SplitReloads(s);
    PickedMeaning(d, file, picks, k, frames);
    assert WrittenAs(s.records[k], picks[k]);
    SameWord(s, k, picks[k], frames, EntriesCount(EntriesOf(file, picks[k].rec), d, frames));
  }

  /** What the index of a written file says of its entry `j`. */
  lemma {:induction false} IndexedAt(rs: seq<Interval>, j: nat, first: nat, k: nat)
    requires AllFit(rs) && j < |RealOnes(rs, |rs|)| && first == RealOnes(rs, |rs|)[0] && k == RealOnes(rs, |rs|)[j]
    ensures Scan(EncodeAll(rs), 0, NO_INFO).Scanned?
    ensures var info := Scan(EncodeAll(rs), 0, NO_INFO).info;
            && j < |info.records| && info.start == rs[first].startMs && info.records[j].startMs == rs[k].startMs
            && info.records[j].endMs == DayWrapped(info.start, rs[k].endMs)
            && EntriesOf(EncodeAll(rs), info.records[j]) == Found(rs[k].items)
  {
    FileRoundTrip(rs);
  }

  lemma {:induction false} SameWord(s: Store, k: nat, p: Pick, frames: seq<Frame>, count: nat)
    requires SplitOk(s) && Complete(s) && k < |s.records| && WrittenAs(s.records[k], p) && Cong(HeldBy(s, k, frames), count)
    ensures EntriesCount(Found(s.records[k].items), TablesOf(s), frames) == Wrap(count)
  {
    assert ItemIdsBelow(s.records[k].items, s.dumpedStacks);
    FrameCountIsWord(s, s.records[k].items, frames);
    CongIsSameWord(FrameCount(s.records[k].items, TablesOf(s), frames), count);
  }

  /** A picked record that the new index does not list covers no time and decodes to nothing. */
  lemma {:induction false} DroppedHoldsNothing(d: Dict, file: seq<byte>, picks: seq<Pick>, k: nat, frames: seq<Frame>)
    requires PlainDict(d) && PicksOk(file, picks)
    requires k < |picks| && k !in RealOnes(Split(d, picks, |picks|).records, |Split(d, picks, |picks|).records|)
    ensures picks[k].rec.startMs == picks[k].rec.endMs
    ensures Wrap(EntriesCount(EntriesOf(file, picks[k].rec), d, frames)) == 0
  {
    var s := Split(d, picks, |picks|);
    SplitShape(d, file, picks, |picks|);
    if !IsGuardInterval(s.records[k]) {
      RealOnesComplete(s.records, |picks|, k);
    }
    assert WrittenAs(s.records[k], picks[k]);
    PickedMeaning(d, file, picks, k, frames);
    CongIsSameWord(0, EntriesCount(EntriesOf(file, picks[k].rec), d, frames));
  }

  /** Records without entries, split through empty dictionaries, keep their intervals and nothing else. */
  lemma {:induction false} EmptyPicks(p: Pick, q: Pick)
    requires p.order == [] && q.order == []
    ensures var s := Split(Dict(map[], map[]), [p, q], 2);
            s.records == [Interval(p.rec.startMs, p.rec.endMs, []), Interval(q.rec.startMs, q.rec.endMs, [])] && s.torn == []
            && s.dumpedStrs <= |s.strs| && s.dumpedStacks <= |s.stacks|
  {
    var d, picks := Dict(map[], map[]), [p, q];
    var s0 := NewStore(0);
    var s1 := SplitRecord(s0, d, p);
    assert Split(d, picks, 0) == s0 && Split(d, picks, 1) == s1;
    assert s1.records == [Interval(p.rec.startMs, p.rec.endMs, [])];
    assert Split(d, picks, 2) == SplitRecord(s1, d, q);
  }

  lemma {:induction false} ScanOfTwo(a: Interval, b: Interval)
    requires a == Interval(5000, 6000, []) && b == Interval(1000, 2000, [])
    ensures var result := Scan(EncodeAll([a, b]), 0, NO_INFO);
            result.Scanned? && |result.info.records| == 2
            && result.info.records[1].startMs == 1000 && result.info.records[1].endMs == 2000 + DAY_MS
  {
    var rs := [a, b];
    FileRoundTrip(rs);
    assert RealOnes(rs, 1) == [0] && RealOnes(rs, 2) == [0, 1];
  }

  lemma {:induction false} EmptyPicksOk(file: seq<byte>, p: Pick, q: Pick)
    requires p == Pick(Rec(5000, 6000, 30, 0), []) && q == Pick(Rec(1000, 2000, 2, 0), [])
    ensures PicksOk(file, [p, q])
  {
    assert EntriesOf(file, p.rec) == Found([]) && EntriesOf(file, q.rec) == Found([]);
  }

  /** Two records picked out of order: the earlier one comes out ending a day later. */
  lemma {:induction false} OutOfOrderMovesEnd(file: seq<byte>, d: Dict, picks: seq<Pick>, s: Store)
    requires d == Dict(map[], map[]) && picks == [Pick(Rec(5000, 6000, 30, 0), []), Pick(Rec(1000, 2000, 2, 0), [])]
    requires s == Split(d, picks, 2)
    ensures PlainDict(d) && PicksOk(file, picks)
    ensures s.dumpedStrs <= |s.strs| && s.dumpedStacks <= |s.stacks|
    ensures var result := Scan(FilesOf(s).stackBin, 0, NO_INFO);
            result.Scanned? && |result.info.records| == 2
            && result.info.records[1].startMs == 1000 && result.info.records[1].endMs == 2000 + DAY_MS
  {
    var p, q := picks[0], picks[1];
    assert picks == [p, q];
    EmptyPicksOk(file, p, q);
    EmptyPicks(p, q);
    WholeFile(s.records, s.torn);
    ScanOfTwo(s.records[0], s.records[1]);
    assert s.records == [s.records[0], s.records[1]];
  }
}

/** The binary file stack.bin: how intervals are written, how the reader indexes them and how it
    reads their entries back (src/cli_stackmap_helper/cli_stackmap.c).
  */
module RecordCodec {
  import opened Bits
  import opened Bytes
  import opened Items
  import opened Markers
  import opened TimeWheels

  const DAY_MS: nat := 86400 * 1000

  /** What fits the fields of a record. */
  predicate FitsItem(e: Item) {
    e.id < U32 && e.count < U64
  }

  ghost predicate Fits(r: Interval) {
    && r.startMs < U64 && r.endMs < U64 && |r.items| < U64
    && forall i :: 0 <= i < |r.items| ==> FitsItem(r.items[i])
  }

  ghost predicate AllFit(rs: seq<Interval>) {
    forall i :: 0 <= i < |rs| ==> Fits(rs[i])
  }

  // ---------------------------------------------------------------------------------------------
  // Writing

  function EncodeItem(e: Item): (s: seq<byte>)
    ensures |s| == 12
  {
    LE(e.id, 4) + LE(e.count, 8)
  }

  /** The first `n` entries. */
  function EncodeItems(items: seq<Item>, n: nat): (s: seq<byte>)
    requires n <= |items|
    ensures |s| == 12 * n
  {
    if n == 0 then [] else EncodeItems(items, n - 1) + EncodeItem(items[n - 1])
  }

  function Header(startMs: nat, endMs: nat, count: nat): (s: seq<byte>)
    ensures |s| == 26
  {
    [0xFA, 0xFB] + LE(startMs, 8) + LE(endMs, 8) + LE(count, 8)
  }

  function Encode(r: Interval): (s: seq<byte>)
    ensures |s| == 28 + 12 * |r.items|
  {
    Header(r.startMs, r.endMs, |r.items|) + EncodeItems(r.items, |r.items|) + [0xFC, 0xFD]
  }

  /** The first `n` records. */
  function EncodeRecords(rs: seq<Interval>, n: nat): seq<byte>
    requires n <= |rs|
  {
    if n == 0 then [] else EncodeRecords(rs, n - 1) + Encode(rs[n - 1])
  }

  function EncodeAll(rs: seq<Interval>): seq<byte> {
    EncodeRecords(rs, |rs|)
  }

  /** Where record `n` begins. */
  function OffsetAt(rs: seq<Interval>, n: nat): nat
    requires n <= |rs|
  {
    if n == 0 then 0 else OffsetAt(rs, n - 1) + 28 + 12 * |rs[n - 1].items|
  }

  lemma {:induction false} OffsetIsLength(rs: seq<Interval>, n: nat)
    requires n <= |rs|
    ensures |EncodeRecords(rs, n)| == OffsetAt(rs, n)
  {
    if n > 0 {
      OffsetIsLength(rs, n - 1);
    }
  }

  /** Records already written are not affected by later ones. */
  lemma {:induction false} EncodePrefix(rs: seq<Interval>, n: nat, m: nat)
    requires n <= m <= |rs|
    ensures EncodeRecords(rs, n) <= EncodeRecords(rs, m)
  {
    if n < m {
      EncodePrefix(rs, n, m - 1);
    }
  }

  // ---------------------------------------------------------------------------------------------
  // Indexing

  datatype Rec = Rec(startMs: nat, endMs: nat, fileOff: nat, count: nat)

  datatype DumpInfo = DumpInfo(start: nat, end: nat, records: seq<Rec>)

  datatype ScanResult = Scanned(info: DumpInfo) | Corrupt

  const NO_INFO := DumpInfo(0, 0, [])

  /** A zero-count record with equal ends marks that the previous bucket is complete. */
  predicate IsGuard(startMs: nat, endMs: nat, count: nat) {
    count == 0 && startMs == endMs
  }

  /** An end before the first start belongs to the next day. */
  function DayWrapped(firstStart: nat, endMs: nat): nat {
    if firstStart != 0 && endMs < firstStart then endMs + DAY_MS else endMs
  }

  function NoteRecord(info: DumpInfo, startMs: nat, endMs: nat, count: nat, fileOff: nat): DumpInfo {
    if IsGuard(startMs, endMs, count) then
      DumpInfo(info.start, DayWrapped(info.start, endMs), info.records)
    else
      var first := if info.records == [] then startMs else info.start;
      var end := DayWrapped(first, endMs);
      DumpInfo(first, end, info.records + [Rec(startMs, end, fileOff, count)])
  }

  /** What stands at a header position: the end of the records, a damaged record, or a record. */
  datatype Head = NoHeader | Damaged | Head(startMs: nat, endMs: nat, count: nat)

  function HeadAt(file: seq<byte>, off: nat): (h: Head)
    ensures h.Head? ==> off + 28 + 12 * h.count <= |file|
  {
    if off + 2 > |file| || file[off] != 0xFA || file[off + 1] != 0xFB then NoHeader
    else if off + 26 > |file| then Damaged
    else
      var count := Word(file, off + 18, 8);
      var next := off + 28 + 12 * count;
      if next > |file| || file[next - 2] != 0xFC || file[next - 1] != 0xFD then Damaged
      else Head(Word(file, off + 2, 8), Word(file, off + 10, 8), count)
  }

  /** The indexing scan from the header at `off` on. */
  function Scan(file: seq<byte>, off: nat, info: DumpInfo): ScanResult
    decreases |file| - off
  {
    match HeadAt(file, off)
    case NoHeader => Scanned(info)
    case Damaged => Corrupt
    case Head(startMs, endMs, count) =>
      Scan(file, off + 28 + 12 * count, NoteRecord(info, startMs, endMs, count, off + 2))
  }

  /** The reads and the footer check of one round of the scan. */
  method ReadHead(file: seq<byte>, off: nat) returns (h: Head)
    ensures h == HeadAt(file, off)
  {
    if off + 2 > |file| || file[off] != 0xFA || file[off + 1] != 0xFB {
      return NoHeader;
    }
    var fileOffset := off + 2;
    if fileOffset + 24 > |file| {
      return Damaged;
    }
    var startMs := Word(file, fileOffset, 8);
    var endMs := Word(file, fileOffset + 8, 8);
    var count := Word(file, fileOffset + 16, 8);
    fileOffset := fileOffset + 8 + 8 + 8 + count * (4 + 8) + 2;
    if fileOffset > |file| || file[fileOffset - 2] != 0xFC || file[fileOffset - 1] != 0xFD {
      return Damaged;
    }
    h := Head(startMs, endMs, count);
  }

  /** What the index notes of one record. */
  method Note(before: DumpInfo, h: Head, fileOff: nat) returns (info: DumpInfo)
    requires h.Head?
    ensures info == NoteRecord(before, h.startMs, h.endMs, h.count, fileOff)
  {
    info := before;
    var endMs := h.endMs;
    var guard := h.count == 0 && h.startMs == h.endMs;
    if !guard && |info.records| == 0 {
      info := info.(start := h.startMs);
    }
    if info.start != 0 && endMs < info.start {
      endMs := endMs + DAY_MS;
    }
    info := info.(end := endMs);
    if !guard {
      info := info.(records := info.records + [Rec(h.startMs, endMs, fileOff, h.count)]);
    }
  }

  /** Memory for a list of `n` records: the first array holds 16, and growth `k` doubles one of `16 * 2^k`. Beyond the end of `grow` there
      is enough. */
  ghost predicate ListFits(allocOk: bool, grow: seq<bool>, n: nat) {
    allocOk && forall k :: 0 <= k < |grow| && 16 * Pow2(k) < n ==> grow[k]
  }

  lemma {:induction false} ScanExtends(file: seq<byte>, off: nat, info: DumpInfo)
    ensures var r := Scan(file, off, info); r.Scanned? ==> |info.records| <= |r.info.records|
    decreases |file| - off
  {
    var h := HeadAt(file, off);
    if h.Head? {
      ScanExtends(file, off + 28 + 12 * h.count, NoteRecord(info, h.startMs, h.endMs, h.count, off + 2));
    }
  }

  /** A list of `n` records has been made room for by `grown` growths. */
  ghost predicate ListGrown(grow: seq<bool>, grown: nat, capacity: nat, n: nat) {
    n <= capacity == 16 * Pow2(grown) && forall k :: 0 <= k < grown && k < |grow| ==> grow[k]
  }

  lemma {:induction false} GrownFits(grow: seq<bool>, grown: nat, capacity: nat, n: nat)
    requires ListGrown(grow, grown, capacity, n)
    ensures ListFits(true, grow, n)
  {
    forall k | 0 <= k < |grow| && 16 * Pow2(k) < n
      ensures grow[k]
    {
      if k >= grown {
        Pow2Grows(grown, k);
      }
    }
  }

  /** Room for one more record of the list, if it is not a guard. */
  method MakeRoom(grow: seq<bool>, grown: nat, capacity: nat, n: nat, guard: bool) returns (ok: bool, grown': nat, capacity': nat)
    requires ListGrown(grow, grown, capacity, n)
    ensures ok ==> ListGrown(grow, grown', capacity', if guard then n else n + 1)
    ensures !ok ==> !guard && forall m :: n < m ==> !ListFits(true, grow, m)
  {
    grown', capacity' := grown, capacity;
    if guard || n < capacity {
      return true, grown', capacity';
    }
    if grown < |grow| && !grow[grown] {
      return false, grown', capacity';
    }
    capacity' := capacity * 2;
    grown' := grown + 1;
    ok := true;
  }

  /** One record of the scan: noted, and not to be lost from the list any more. */
  lemma {:induction false} ScanNotes(file: seq<byte>, off: nat, info: DumpInfo, h: Head)
    requires h == HeadAt(file, off) && h.Head?
    ensures var noted := NoteRecord(info, h.startMs, h.endMs, h.count, off + 2);
            var r := Scan(file, off, info);
            && r == Scan(file, off + 28 + 12 * h.count, noted)
            && |noted.records| == (if IsGuard(h.startMs, h.endMs, h.count) then |info.records| else |info.records| + 1)
            && (r.Scanned? ==> |noted.records| <= |r.info.records|)
  {
    var noted := NoteRecord(info, h.startMs, h.endMs, h.count, off + 2);
    ScanOne(file, off, info, h.startMs, h.endMs, h.count);
    ScanExtends(file, off + 28 + 12 * h.count, noted);
  }

  /** `cli_stackmap_fetch_dump_info` on the decompressed file: the index of its records, if it is not damaged and there is memory for
      the list. */
  method FetchDumpInfo(file: seq<byte>, allocOk: bool, grow: seq<bool>) returns (r: ScanResult)
    ensures var s := Scan(file, 0, NO_INFO);
            r == if s.Scanned? && ListFits(allocOk, grow, |s.info.records|) then s else Corrupt
  {
    if !allocOk {
      return Corrupt;
    }
    var info := NO_INFO;
    var fileOffset := 0;
    var capacity, grown, ok := 16, 0, true;
    var h := ReadHead(file, fileOffset);
    while h.Head?
      invariant h == HeadAt(file, fileOffset)
      invariant Scan(file, fileOffset, info) == Scan(file, 0, NO_INFO)
      invariant ListGrown(grow, grown, capacity, |info.records|)
      decreases |file| - fileOffset
    {
      ScanNotes(file, fileOffset, info, h);
      ok, grown, capacity := MakeRoom(grow, grown, capacity, |info.records|, IsGuard(h.startMs, h.endMs, h.count));
      if !ok {
        return Corrupt;
      }
      info := Note(info, h, fileOffset + 2);
      fileOffset := fileOffset + 28 + 12 * h.count;
      h := ReadHead(file, fileOffset);
    }
    if h.Damaged? {
      return Corrupt;
    }
    GrownFits(grow, grown, capacity, |info.records|);
    r := Scanned(info);
  }

  /** The index of the first `n` intervals: no bytes involved. */
  function IndexN(rs: seq<Interval>, n: nat): DumpInfo
    requires n <= |rs|
  {
    if n == 0 then NO_INFO
    else
      var r := rs[n - 1];
      NoteRecord(IndexN(rs, n - 1), r.startMs, r.endMs, |r.items|, OffsetAt(rs, n - 1) + 2)
  }

  lemma {:induction false} HeaderInFile(pre: seq<byte>, post: seq<byte>, startMs: nat, endMs: nat, count: nat)
    requires startMs < U64 && endMs < U64 && count < U64
    ensures var file := pre + Header(startMs, endMs, count) + post;
            var off := |pre|;
            && file[off] == 0xFA && file[off + 1] == 0xFB
            && Word(file, off + 2, 8) == startMs && Word(file, off + 10, 8) == endMs && Word(file, off + 18, 8) == count
  {
    var m: seq<byte> := [0xFA, 0xFB];
    var a, b, c := LE(startMs, 8), LE(endMs, 8), LE(count, 8);
    var file := pre + Header(startMs, endMs, count) + post;
    Widths();
    assert file == (pre + m) + a + (b + c + post);
    WordRoundTrip(pre + m, startMs, 8, b + c + post);
    assert file == (pre + m + a) + b + (c + post);
    WordRoundTrip(pre + m + a, endMs, 8, c + post);
    assert file == (pre + m + a + b) + c + post;
    WordRoundTrip(pre + m + a + b, count, 8, post);
  }

  /** A written record is recognised wherever it stands. */
  lemma {:induction false} HeadOfEncoded(pre: seq<byte>, r: Interval, post: seq<byte>)
    requires Fits(r)
    ensures HeadAt(pre + Encode(r) + post, |pre|) == Head(r.startMs, r.endMs, |r.items|)
  {
    var file := pre + Encode(r) + post;
    var h, entries := Header(r.startMs, r.endMs, |r.items|), EncodeItems(r.items, |r.items|);
    var foot: seq<byte> := [0xFC, 0xFD];
    Regroup(pre, h, entries, foot, post);
    HeaderInFile(pre, entries + foot + post, r.startMs, r.endMs, |r.items|);
    var body := pre + h + entries;
    assert file == body + foot + post && |body| == |pre| + 26 + 12 * |r.items|;
    assert file[|body|] == foot[0] && file[|body| + 1] == foot[1];
  }

  /** Record `n` stands at its offset. */
  lemma {:induction false} RecordInFile(rs: seq<Interval>, n: nat) returns (post: seq<byte>)
    requires n < |rs|
    ensures EncodeAll(rs) == EncodeRecords(rs, n) + Encode(rs[n]) + post
    ensures |EncodeRecords(rs, n)| == OffsetAt(rs, n)
  {
    EncodePrefix(rs, n + 1, |rs|);
    OffsetIsLength(rs, n);
    var done := EncodeRecords(rs, n + 1);
    post := EncodeAll(rs)[|done|..];
    assert EncodeAll(rs) == done + post;
  }

  lemma {:induction false} HeadOfRecord(rs: seq<Interval>, n: nat)
    requires AllFit(rs) && n < |rs|
    ensures HeadAt(EncodeAll(rs), OffsetAt(rs, n)) == Head(rs[n].startMs, rs[n].endMs, |rs[n].items|)
  {
    var post := RecordInFile(rs, n);
    HeadOfEncoded(EncodeRecords(rs, n), rs[n], post);
  }

  /** One round of the scan notes one record. */
  lemma {:induction false} ScanOne(file: seq<byte>, off: nat, info: DumpInfo, startMs: nat, endMs: nat, count: nat)
    requires HeadAt(file, off) == Head(startMs, endMs, count)
    ensures Scan(file, off, info) == Scan(file, off + 28 + 12 * count, NoteRecord(info, startMs, endMs, count, off + 2))
  {
  }

  /** Scanning from record `n` on ends with the index of all records. */
  lemma {:induction false} IndexStep(rs: seq<Interval>, n: nat)
    requires n < |rs|
    ensures OffsetAt(rs, n + 1) == OffsetAt(rs, n) + 28 + 12 * |rs[n].items|
    ensures IndexN(rs, n + 1) == NoteRecord(IndexN(rs, n), rs[n].startMs, rs[n].endMs, |rs[n].items|, OffsetAt(rs, n) + 2)
  {
  }

  /** Where record `n` is found, the scan goes on to the next. */
  lemma {:induction false} ScanOn(rs: seq<Interval>, n: nat, file: seq<byte>)
    requires n < |rs| && HeadAt(file, OffsetAt(rs, n)) == Head(rs[n].startMs, rs[n].endMs, |rs[n].items|)
    ensures Scan(file, OffsetAt(rs, n), IndexN(rs, n)) == Scan(file, OffsetAt(rs, n + 1), IndexN(rs, n + 1))
  {
    IndexStep(rs, n);
    ScanOne(file, OffsetAt(rs, n), IndexN(rs, n), rs[n].startMs, rs[n].endMs, |rs[n].items|);
  }

  lemma {:induction false} ScanNext(rs: seq<Interval>, n: nat, file: seq<byte>)
    requires AllFit(rs) && n < |rs| && file == EncodeAll(rs)
    ensures Scan(file, OffsetAt(rs, n), IndexN(rs, n)) == Scan(file, OffsetAt(rs, n + 1), IndexN(rs, n + 1))
  {
    HeadOfRecord(rs, n);
    ScanOn(rs, n, file);
  }

  lemma {:induction false} ScanRest(rs: seq<Interval>, n: nat, file: seq<byte>, off: nat, info: DumpInfo)
    requires AllFit(rs) && n <= |rs| && file == EncodeAll(rs)
    requires off == OffsetAt(rs, n) && info == IndexN(rs, n)
    ensures Scan(file, off, info) == Scanned(IndexN(rs, |rs|))
    decreases |rs| - n
  {
    if n == |rs| {
      OffsetIsLength(rs, n);
    } else {
      ScanNext(rs, n, file);
      ScanRest(rs, n + 1, file, OffsetAt(rs, n + 1), IndexN(rs, n + 1));
    }
  }

  /** Indexing any concatenation of written records succeeds and yields exactly their index. */
  lemma {:induction false} ScanRoundTrip(rs: seq<Interval>)
    requires AllFit(rs)
    ensures Scan(EncodeAll(rs), 0, NO_INFO) == Scanned(IndexN(rs, |rs|))
  {
    ScanRest(rs, 0, EncodeAll(rs), 0, NO_INFO);
  }

  // ---------------------------------------------------------------------------------------------
  // What the index says

  predicate IsGuardInterval(r: Interval) {
    IsGuard(r.startMs, r.endMs, |r.items|)
  }

  /** The positions, among the first `n` intervals, of those that are not guards. */
  function RealOnes(rs: seq<Interval>, n: nat): (s: seq<nat>)
    requires n <= |rs|
    ensures forall k :: 0 <= k < |s| ==> s[k] < n
  {
    if n == 0 then []
    else RealOnes(rs, n - 1) + (if IsGuardInterval(rs[n - 1]) then [] else [n - 1])
  }

  /** The index entry that a written interval deserves. */
  function RecOf(rs: seq<Interval>, i: nat, firstStart: nat): Rec
    requires i < |rs|
  {
    Rec(rs[i].startMs, DayWrapped(firstStart, rs[i].endMs), OffsetAt(rs, i) + 2, |rs[i].items|)
  }

  /** The positions listed are those of non-guards, in order ... */
  lemma {:induction false} RealOnesOrdered(rs: seq<Interval>, n: nat, k: nat)
    requires n <= |rs| && k < |RealOnes(rs, n)|
    ensures !IsGuardInterval(rs[RealOnes(rs, n)[k]])
    ensures k > 0 ==> RealOnes(rs, n)[k - 1] < RealOnes(rs, n)[k]
  {
    if k < |RealOnes(rs, n - 1)| {
      RealOnesOrdered(rs, n - 1, k);
    }
  }

  /** ... and every non-guard is listed. */
  lemma {:induction false} RealOnesComplete(rs: seq<Interval>, n: nat, i: nat)
    requires i < n <= |rs| && !IsGuardInterval(rs[i])
    ensures i in RealOnes(rs, n)
  {
    if i < n - 1 {
      RealOnesComplete(rs, n - 1, i);
    }
  }

  lemma {:induction false} IndexShape(rs: seq<Interval>, n: nat)
    requires n <= |rs|
    ensures var out := IndexN(rs, n);
            var reals := RealOnes(rs, n);
            && |out.records| == |reals|
            && out.start == (if reals == [] then 0 else rs[reals[0]].startMs)
  {
    if n > 0 {
      IndexShape(rs, n - 1);
    }
  }

  /** Indexing lists the real intervals in order, with one first start for all of them. */
  lemma {:induction false} IndexRecord(rs: seq<Interval>, n: nat, k: nat)
    requires n <= |rs| && k < |RealOnes(rs, n)|
    ensures k < |IndexN(rs, n).records|
    ensures IndexN(rs, n).records[k] == RecOf(rs, RealOnes(rs, n)[k], IndexN(rs, n).start)
  {
    IndexShape(rs, n - 1);
    if k < |RealOnes(rs, n - 1)| {
      IndexRecord(rs, n - 1, k);
      assert IndexN(rs, n).start == IndexN(rs, n - 1).start;
    }
  }

  // ---------------------------------------------------------------------------------------------
  // Reading entries back

  function ItemAt(file: seq<byte>, pos: nat): Item
    requires pos + 12 <= |file|
  {
    Item(Word(file, pos, 4), Word(file, pos + 4, 8))
  }

  /** `n` consecutive entries. */
  function ItemsAt(file: seq<byte>, base: nat, n: nat): (s: seq<Item>)
    requires n > 0 ==> base + 12 * n <= |file|
    ensures |s| == n
  {
    if n == 0 then [] else ItemsAt(file, base, n - 1) + [ItemAt(file, base + 12 * (n - 1))]
  }

  datatype Entries = Found(items: seq<Item>) | Missing

  /** The entries of one record as a reader sees them. */
  function EntriesOf(file: seq<byte>, rec: Rec): Entries {
    if rec.count == 0 || rec.fileOff + 24 + 12 * rec.count <= |file|
    then Found(ItemsAt(file, rec.fileOff + 24, rec.count))
    else Missing
  }

  /** Adding the first `n` entries of a list one by one to an aggregate. */
  function BumpN(acc: seq<Item>, items: seq<Item>, n: nat): seq<Item>
    requires n <= |items|
  {
    if n == 0 then acc else Bump(BumpN(acc, items, n - 1), items[n - 1].id, items[n - 1].count)
  }

  lemma {:induction false} BumpSame(acc: seq<Item>, a: seq<Item>, b: seq<Item>, n: nat)
    requires n <= |a| && n <= |b| && forall i :: 0 <= i < n ==> a[i] == b[i]
    ensures BumpN(acc, a, n) == BumpN(acc, b, n)
  {
    if n > 0 {
      BumpSame(acc, a, b, n - 1);
    }
  }

  /** How many of the first `n` rounds get memory for an entry. */
  function Rounds(callocOk: seq<bool>, n: nat): (r: nat)
    ensures r <= n
  {
    if n == 0 then 0 else Rounds(callocOk, n - 1) + (if n - 1 < |callocOk| && !callocOk[n - 1] then 0 else 1)
  }

  /** `cli_stackmap_dump` for one record: reads its entries and adds them to the aggregate. A round that gets no memory reads nothing,
      so that each of them loses one entry at the end of the record. */
  method DumpRecord(file: seq<byte>, rec: Rec, before: seq<Item>, callocOk: seq<bool>) returns (ok: bool, all: seq<Item>)
    ensures var n := Rounds(callocOk, rec.count);
            var entries := EntriesOf(file, rec.(count := n));
            (ok <==> entries.Found?) && (ok ==> all == BumpN(before, entries.items, n))
  {
    ok, all := DumpRounds(file, rec, before, callocOk);
    if ok {
      AggregateEnds(file, rec, before, Rounds(callocOk, rec.count), all);
    }
  }

  /** The loop over the entries. */
  method DumpRounds(file: seq<byte>, rec: Rec, before: seq<Item>, callocOk: seq<bool>) returns (ok: bool, all: seq<Item>)
    ensures ok ==> Aggregated(file, rec.fileOff + 24, before, Rounds(callocOk, rec.count), all)
    ensures !ok ==> Rounds(callocOk, rec.count) > 0 && rec.fileOff + 24 + 12 * Rounds(callocOk, rec.count) > |file|
  {
    all := before;
    var base := rec.fileOff + 24;
    var n: nat := 0;
    AggregateBegins(file, base, before);
    for i := 0 to rec.count
      invariant n == Rounds(callocOk, i) && Aggregated(file, base, before, n, all)
    {
      if i < |callocOk| && !callocOk[i] {
        continue;
      }
      var pos := base + 12 * n;
      if pos + 12 > |file| {
        RoundsGrow(callocOk, i + 1, rec.count);
        return false, [];
      }
      all := DumpRound(file, base, n, before, all);
      n := n + 1;
    }
    ok := true;
  }

  method DumpRound(file: seq<byte>, base: nat, n: nat, ghost before: seq<Item>, all: seq<Item>) returns (more: seq<Item>)
    requires Aggregated(file, base, before, n, all) && base + 12 * n + 12 <= |file|
    ensures Aggregated(file, base, before, n + 1, more)
  {
    var e := ItemAt(file, base + 12 * n);
    AggregateOne(file, base, before, n, all);
    more := Bump(all, e.id, e.count);
  }

  /** `all` is `before` with the first `n` entries added. */
  ghost predicate Aggregated(file: seq<byte>, base: nat, before: seq<Item>, n: nat, all: seq<Item>) {
    forall k {:trigger OpenFold(k)} :: OpenFold(k) ==>
      (n > 0 ==> base + 12 * n <= |file|) && all == BumpN(before, ItemsAt(file, base, n), n)
  }

  lemma {:induction false} AggregateBegins(file: seq<byte>, base: nat, before: seq<Item>)
    ensures Aggregated(file, base, before, 0, before)
  {
  }

  lemma {:induction false} AggregateOne(file: seq<byte>, base: nat, before: seq<Item>, n: nat, all: seq<Item>)
    requires Aggregated(file, base, before, n, all) && base + 12 * n + 12 <= |file|
    ensures var e := ItemAt(file, base + 12 * n); Aggregated(file, base, before, n + 1, Bump(all, e.id, e.count))
  {
    assert OpenFold(0);
    BumpSame(before, ItemsAt(file, base, n), ItemsAt(file, base, n + 1), n);
  }

  lemma {:induction false} AggregateEnds(file: seq<byte>, rec: Rec, before: seq<Item>, n: nat, all: seq<Item>)
    requires Aggregated(file, rec.fileOff + 24, before, n, all)
    ensures var entries := EntriesOf(file, rec.(count := n)); entries.Found? && all == BumpN(before, entries.items, n)
  {
    assert OpenFold(0);
  }

  lemma {:induction false} RoundsGrow(callocOk: seq<bool>, n: nat, m: nat)
    requires n <= m
    ensures Rounds(callocOk, n) <= Rounds(callocOk, m)
  {
    if n < m {
      RoundsGrow(callocOk, n, m - 1);
    }
  }

  /** With memory throughout, all entries of the record are read. */
  lemma {:induction false} AllRounds(callocOk: seq<bool>, n: nat)
    requires forall i :: 0 <= i < |callocOk| ==> callocOk[i]
    ensures Rounds(callocOk, n) == n
  {
    if n > 0 {
      AllRounds(callocOk, n - 1);
    }
  }

  lemma {:induction false} ItemRoundTrip(pre: seq<byte>, e: Item, post: seq<byte>)
    requires FitsItem(e)
    ensures ItemAt(pre + EncodeItem(e) + post, |pre|) == e
  {
    Widths();
    var file := pre + EncodeItem(e) + post;
    var a, b := LE(e.id, 4), LE(e.count, 8);
    assert file == pre + a + (b + post);
    WordRoundTrip(pre, e.id, 4, b + post);
    assert file == (pre + a) + b + post;
    WordRoundTrip(pre + a, e.count, 8, post);
  }

  lemma {:induction false} ItemsPrefix(items: seq<Item>, n: nat, m: nat)
    requires n <= m <= |items|
    ensures EncodeItems(items, n) <= EncodeItems(items, m)
  {
    if n < m {
      ItemsPrefix(items, n, m - 1);
    }
  }

  lemma {:induction false} OneOfItems(pre: seq<byte>, items: seq<Item>, post: seq<byte>, n: nat)
    requires n < |items| && FitsItem(items[n])
    ensures ItemAt(pre + EncodeItems(items, |items|) + post, |pre| + 12 * n) == items[n]
  {
    var all := EncodeItems(items, |items|);
    ItemsPrefix(items, n + 1, |items|);
    var done, e := EncodeItems(items, n), EncodeItem(items[n]);
    assert EncodeItems(items, n + 1) == done + e;
    var rest := all[12 * n + 12..];
    assert all == done + e + rest;
    Regroup(pre, done, e, rest, post);
    ItemRoundTrip(pre + done, items[n], rest + post);
  }

  lemma {:induction false} ItemsRoundTrip(pre: seq<byte>, items: seq<Item>, post: seq<byte>, n: nat)
    requires n <= |items| && forall i :: 0 <= i < |items| ==> FitsItem(items[i])
    ensures ItemsAt(pre + EncodeItems(items, |items|) + post, |pre|, n) == items[..n]
  {
    if n > 0 {
      ItemsRoundTrip(pre, items, post, n - 1);
      OneOfItems(pre, items, post, n - 1);
    }
  }

  lemma {:induction false} EntriesInFile(file: seq<byte>, pre: seq<byte>, r: Interval, post: seq<byte>, rec: Rec)
    requires Fits(r) && file == pre + Encode(r) + post && rec.fileOff == |pre| + 2 && rec.count == |r.items|
    ensures EntriesOf(file, rec) == Found(r.items)
  {
    var h, items, foot := Header(r.startMs, r.endMs, |r.items|), EncodeItems(r.items, |r.items|), [0xFC, 0xFD];
    Regroup(pre, h, items, foot, post);
    EntriesBehind(file, pre + h, r.items, foot + post);
    assert |pre + h| == rec.fileOff + 24;
  }

  lemma {:induction false} EntriesBehind(file: seq<byte>, front: seq<byte>, items: seq<Item>, post: seq<byte>)
    requires file == front + EncodeItems(items, |items|) + post && forall i :: 0 <= i < |items| ==> FitsItem(items[i])
    ensures |front| + 12 * |items| <= |file| && ItemsAt(file, |front|, |items|) == items
  {
    ItemsRoundTrip(front, items, post, |items|);
    assert items[..|items|] == items;
  }

  /** The entries of record `i` stand where its index entry points. */
  lemma {:induction false} EntriesRoundTrip(rs: seq<Interval>, i: nat, rec: Rec)
    requires AllFit(rs) && i < |rs|
    requires rec.fileOff == OffsetAt(rs, i) + 2 && rec.count == |rs[i].items|
    ensures EntriesOf(EncodeAll(rs), rec) == Found(rs[i].items)
  {
    var post := RecordInFile(rs, i);
    EntriesInFile(EncodeAll(rs), EncodeRecords(rs, i), rs[i], post, rec);
  }

  /** The round trip of stack.bin: a reader of any concatenation of written records finds exactly the
      non-guard intervals, in order, each with its own start, its day-wrapped end and its own entries. */
  lemma {:induction false} FileRoundTrip(rs: seq<Interval>)
    requires AllFit(rs)
    ensures var file := EncodeAll(rs);
            var reals := RealOnes(rs, |rs|);
            && Scan(file, 0, NO_INFO).Scanned?
            && var info := Scan(file, 0, NO_INFO).info;
               && |info.records| == |reals|
               && info.start == (if reals == [] then 0 else rs[reals[0]].startMs)
               && forall k :: 0 <= k < |reals| ==>
                    && info.records[k].startMs == rs[reals[k]].startMs
                    && info.records[k].endMs == DayWrapped(info.start, rs[reals[k]].endMs)
                    && EntriesOf(file, info.records[k]) == Found(rs[reals[k]].items)
  {
    ScanRoundTrip(rs);
    IndexShape(rs, |rs|);
    var info := IndexN(rs, |rs|);
    var reals := RealOnes(rs, |rs|);
    forall k | 0 <= k < |reals|
      ensures info.records[k] == RecOf(rs, reals[k], info.start)
      ensures EntriesOf(EncodeAll(rs), info.records[k]) == Found(rs[reals[k]].items)
    {
      IndexRecord(rs, |rs|, k);
      EntriesRoundTrip(rs, reals[k], info.records[k]);
    }
  }
}

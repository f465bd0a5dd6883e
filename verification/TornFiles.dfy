/** Records whose entries could not be handed out: what they leave in stack.bin, what of it leaves the staging buffer, and what the
    reader makes of it (src/cli_stackmap_helper/cli_stackmap.c, src/cli_zstd_helper/cli_zstd_helper.c).
  */
module TornFiles {
  import opened Bytes
  import opened Markers
  import opened TimeWheels
  import opened ZstdStreams
  import opened RecordCodec

  /** What a dump leaves behind when it cannot get the entries of its table: neither count nor footer. */
  function Stub(r: Interval): (s: seq<byte>)
    ensures |s| == 18
  {
    [0xFA, 0xFB] + LE(r.startMs, 8) + LE(r.endMs, 8)
  }

  function Piece(r: Interval, torn: bool): (s: seq<byte>)
    ensures |s| == if torn then 18 else 28 + 12 * |r.items|
    ensures s[0] == 0xFA && s[1] == 0xFB
  {
    if torn then Stub(r) else Encode(r)
  }

  predicate IsTorn(torn: seq<bool>, i: nat) {
    i < |torn| && torn[i]
  }

  ghost predicate NoneTorn(torn: seq<bool>) {
    forall i :: 0 <= i < |torn| ==> !torn[i]
  }

  /** Position `k` is the first torn record. */
  ghost predicate FirstTorn(torn: seq<bool>, k: nat) {
    k < |torn| && torn[k] && forall i :: 0 <= i < k ==> !torn[i]
  }

  lemma {:induction false} SomeFirstTorn(torn: seq<bool>, n: nat) returns (k: nat)
    requires n <= |torn| && (forall i :: 0 <= i < n ==> !torn[i]) && !NoneTorn(torn)
    ensures FirstTorn(torn, k)
    decreases |torn| - n
  {
    if n < |torn| && torn[n] {
      k := n;
    } else {
      k := SomeFirstTorn(torn, n + 1);
    }
  }

  /** What each record leaves, those that `torn` marks as stubs. */
  function Pieces(rs: seq<Interval>, torn: seq<bool>): (p: seq<seq<byte>>)
    ensures |p| == |rs|
    ensures forall i :: 0 <= i < |rs| ==> p[i] == Piece(rs[i], IsTorn(torn, i))
  {
    seq(|rs|, i requires 0 <= i < |rs| => Piece(rs[i], IsTorn(torn, i)))
  }

  function Joined(parts: seq<seq<byte>>, n: nat): seq<byte>
    requires n <= |parts|
  {
    if n == 0 then [] else Joined(parts, n - 1) + parts[n - 1]
  }

  /** Everything written to stack.bin, staged or not. */
  function FileBytes(rs: seq<Interval>, torn: seq<bool>): seq<byte> {
    Joined(Pieces(rs, torn), |rs|)
  }

  lemma {:induction false} JoinedSame(parts: seq<seq<byte>>, p: seq<byte>, n: nat)
    requires n <= |parts|
    ensures Joined(parts + [p], n) == Joined(parts, n)
  {
    if n > 0 {
      JoinedSame(parts, p, n - 1);
    }
  }

  lemma {:induction false} JoinedGrows(parts: seq<seq<byte>>, n: nat, m: nat)
    requires n <= m <= |parts|
    ensures Joined(parts, n) <= Joined(parts, m)
  {
    if n < m {
      JoinedGrows(parts, n, m - 1);
    }
  }

  lemma {:induction false} JoinedRecords(rs: seq<Interval>, parts: seq<seq<byte>>, n: nat)
    requires n <= |rs| == |parts| && forall i :: 0 <= i < n ==> parts[i] == Encode(rs[i])
    ensures Joined(parts, n) == EncodeRecords(rs, n)
  {
    if n > 0 {
      JoinedRecords(rs, parts, n - 1);
    }
  }

  /** Before the first torn record the file is the encoding of its records. */
  lemma {:induction false} WholeTo(rs: seq<Interval>, torn: seq<bool>, n: nat)
    requires n <= |rs| && forall i :: 0 <= i < n ==> !IsTorn(torn, i)
    ensures Joined(Pieces(rs, torn), n) == EncodeRecords(rs, n)
  {
    JoinedRecords(rs, Pieces(rs, torn), n);
  }

  lemma {:induction false} PiecesAppend(rs: seq<Interval>, torn: seq<bool>, r: Interval, lost: bool)
    requires |torn| == |rs|
    ensures Pieces(rs + [r], torn + [lost]) == Pieces(rs, torn) + [Piece(r, lost)]
  {
    var a, b := Pieces(rs + [r], torn + [lost]), Pieces(rs, torn) + [Piece(r, lost)];
    forall i | 0 <= i < |a|
      ensures a[i] == b[i]
    {
      assert a[i] == Piece((rs + [r])[i], IsTorn(torn + [lost], i));
      if i < |rs| {
        assert (rs + [r])[i] == rs[i] && IsTorn(torn + [lost], i) == IsTorn(torn, i);
      }
    }
  }

  /** Appending a record, whole or torn, appends its bytes. */
  lemma {:induction false} TornAppend(rs: seq<Interval>, torn: seq<bool>, r: Interval, lost: bool)
    requires |torn| == |rs|
    ensures FileBytes(rs + [r], torn + [lost]) == FileBytes(rs, torn) + Piece(r, lost)
  {
    PiecesAppend(rs, torn, r, lost);
    JoinedSame(Pieces(rs, torn), Piece(r, lost), |rs|);
  }

  // ---------------------------------------------------------------------------------------------
  // What leaves the staging buffer

  /** How many bytes have been passed on after the three blocks of a stub. */
  function SentStub(sent: nat, total: nat): (r: nat)
    requires sent <= total
    ensures sent <= r <= total + 18
  {
    var a := PassedOn(sent, total, 2);
    var b := PassedOn(a, total + 2, 8);
    PassedOn(b, total + 10, 8)
  }

  /** How many bytes of the first `n` pieces have been passed on: all of them after a whole record, which ends in a write-out. */
  function Sent(parts: seq<seq<byte>>, torn: seq<bool>, n: nat): (r: nat)
    requires n <= |parts| && forall i :: 0 <= i < |parts| ==> |parts[i]| >= 18
    ensures r <= |Joined(parts, n)|
  {
    if n == 0 then 0
    else if IsTorn(torn, n - 1) then SentStub(Sent(parts, torn, n - 1), |Joined(parts, n - 1)|)
    else |Joined(parts, n)|
  }

  function SentOf(rs: seq<Interval>, torn: seq<bool>): (r: nat)
    ensures r <= |FileBytes(rs, torn)|
  {
    Sent(Pieces(rs, torn), torn, |rs|)
  }

  /** What a reader finds in stack.bin. */
  function Reached(rs: seq<Interval>, torn: seq<bool>): seq<byte> {
    FileBytes(rs, torn)[..SentOf(rs, torn)]
  }

  ghost predicate LongParts(parts: seq<seq<byte>>) {
    forall i :: 0 <= i < |parts| ==> |parts[i]| >= 18
  }

  lemma {:induction false} SentSame(parts: seq<seq<byte>>, torn: seq<bool>, p: seq<byte>, lost: bool, n: nat)
    requires n <= |parts| == |torn| && LongParts(parts) && |p| >= 18
    ensures Sent(parts + [p], torn + [lost], n) == Sent(parts, torn, n)
  {
    JoinedSame(parts, p, n);
    if n > 0 {
      JoinedSame(parts, p, n - 1);
      SentSame(parts, torn, p, lost, n - 1);
    }
  }

  /** A torn record is passed on block by block, a whole one at once with everything before it. */
  lemma {:induction false} SentAppend(rs: seq<Interval>, torn: seq<bool>, r: Interval, lost: bool)
    requires |torn| == |rs|
    ensures lost ==> SentOf(rs + [r], torn + [lost]) == SentStub(SentOf(rs, torn), |FileBytes(rs, torn)|)
    ensures !lost ==> SentOf(rs + [r], torn + [lost]) == |FileBytes(rs + [r], torn + [lost])|
  {
    PiecesAppend(rs, torn, r, lost);
    var parts, p := Pieces(rs, torn), Piece(r, lost);
    SentSame(parts, torn, p, lost, |rs|);
    JoinedSame(parts, p, |rs|);
  }

  /** As many torn records fit the staging buffer. */
  const STAGED_STUBS: nat := CHUNK_SIZE / 18

  /** From `k` on only torn records follow, and they fit the staging buffer. */
  ghost predicate Unsent(torn: seq<bool>, k: nat, n: nat) {
    n <= k + STAGED_STUBS && forall i :: k <= i < n ==> IsTorn(torn, i)
  }

  lemma {:induction false} StubStays(sent: nat, total: nat, j: nat)
    requires total == sent + 18 * j
    ensures j < STAGED_STUBS ==> SentStub(sent, total) == sent
    ensures j == STAGED_STUBS ==> SentStub(sent, total) >= sent + 26
  {
  }

  /** Stubs have 18 bytes. */
  ghost predicate TornParts(parts: seq<seq<byte>>, torn: seq<bool>) {
    LongParts(parts) && forall i :: 0 <= i < |parts| && IsTorn(torn, i) ==> |parts[i]| == 18
  }

  lemma {:induction false} PiecesTorn(rs: seq<Interval>, torn: seq<bool>)
    ensures TornParts(Pieces(rs, torn), torn)
  {
  }

  lemma {:induction false} SentTorn(parts: seq<seq<byte>>, torn: seq<bool>, k: nat, n: nat)
    requires k < n < |parts| && TornParts(parts, torn) && IsTorn(torn, n) && Sent(parts, torn, k) == |Joined(parts, k)|
    requires Unsent(torn, k, n) ==> Sent(parts, torn, n) == |Joined(parts, k)| && |Joined(parts, n)| == |Joined(parts, k)| + 18 * (n - k)
    requires !Unsent(torn, k, n) ==> Sent(parts, torn, n) >= |Joined(parts, k)| + 26
    ensures Unsent(torn, k, n + 1) ==>
              Sent(parts, torn, n + 1) == |Joined(parts, k)| && |Joined(parts, n + 1)| == |Joined(parts, k)| + 18 * (n + 1 - k)
    ensures !Unsent(torn, k, n + 1) ==> Sent(parts, torn, n + 1) >= |Joined(parts, k)| + 26
  {
    if Unsent(torn, k, n) {
      StubStays(Sent(parts, torn, n), |Joined(parts, n)|, n - k);
    }
  }

  /** Exactly when nothing of the records from `k` on has been passed on. */
  lemma {:induction false} SentIff(parts: seq<seq<byte>>, torn: seq<bool>, k: nat, n: nat)
    requires k < n <= |parts| && TornParts(parts, torn) && IsTorn(torn, k) && Sent(parts, torn, k) == |Joined(parts, k)|
    ensures Unsent(torn, k, n) ==> Sent(parts, torn, n) == |Joined(parts, k)| && |Joined(parts, n)| == |Joined(parts, k)| + 18 * (n - k)
    ensures !Unsent(torn, k, n) ==> Sent(parts, torn, n) >= |Joined(parts, k)| + 26
  {
    if n == k + 1 {
      StubStays(Sent(parts, torn, k), |Joined(parts, k)|, 0);
    } else {
      SentIff(parts, torn, k, n - 1);
      if IsTorn(torn, n - 1) {
        SentTorn(parts, torn, k, n - 1);
      } else {
        JoinedGrows(parts, k + 1, n - 1);
      }
    }
  }

  lemma {:induction false} SentBefore(rs: seq<Interval>, torn: seq<bool>, k: nat)
    requires k <= |rs| && forall i :: 0 <= i < k ==> !IsTorn(torn, i)
    ensures Sent(Pieces(rs, torn), torn, k) == |Joined(Pieces(rs, torn), k)|
  {
  }

  /** Without a failure the file is the encoding of its records. */
  lemma {:induction false} WholeFile(rs: seq<Interval>, torn: seq<bool>)
    requires NoneTorn(torn)
    ensures FileBytes(rs, torn) == EncodeAll(rs) && Reached(rs, torn) == EncodeAll(rs)
  {
    WholeTo(rs, torn, |rs|);
    SentBefore(rs, torn, |rs|);
  }

  // ---------------------------------------------------------------------------------------------
  // What any scan keeps

  lemma {:induction false} NoteKeeps(info: DumpInfo, startMs: nat, endMs: nat, count: nat, fileOff: nat)
    ensures var r := NoteRecord(info, startMs, endMs, count, fileOff);
            && info.records <= r.records && |r.records| <= |info.records| + 1
            && (IsGuard(startMs, endMs, count) <==> r.records == info.records)
            && (!IsGuard(startMs, endMs, count) ==>
                  |r.records| == |info.records| + 1 && r.records[|info.records|].fileOff == fileOff && r.records[|info.records|].count == count)
  {
  }

  /** Records once listed stay listed. */
  lemma {:induction false} ScanKeeps(file: seq<byte>, off: nat, info: DumpInfo)
    ensures var r := Scan(file, off, info); r.Scanned? ==> info.records <= r.info.records
    decreases |file| - off
  {
    var h := HeadAt(file, off);
    if h.Head? {
      NoteKeeps(info, h.startMs, h.endMs, h.count, off + 2);
      ScanKeeps(file, off + 28 + 12 * h.count, NoteRecord(info, h.startMs, h.endMs, h.count, off + 2));
    }
  }

  /** Every record listed lies within the file. */
  lemma {:induction false} ScanWithin(file: seq<byte>, off: nat, info: DumpInfo, i: nat)
    requires Scan(file, off, info).Scanned? && |info.records| <= i < |Scan(file, off, info).info.records|
    ensures var rec := Scan(file, off, info).info.records[i]; rec.fileOff + 26 + 12 * rec.count <= |file|
    decreases |file| - off
  {
    var h := HeadAt(file, off);
    if h.Head? {
      var next, info' := off + 28 + 12 * h.count, NoteRecord(info, h.startMs, h.endMs, h.count, off + 2);
      NoteKeeps(info, h.startMs, h.endMs, h.count, off + 2);
      if i < |info'.records| {
        ScanKeeps(file, next, info');
      } else {
        ScanWithin(file, next, info', i);
      }
    }
  }

  // ---------------------------------------------------------------------------------------------
  // The index of what was recorded

  lemma {:induction false} IndexKeeps(rs: seq<Interval>, n: nat, m: nat)
    requires n <= m <= |rs|
    ensures IndexN(rs, n).records <= IndexN(rs, m).records
  {
    if n < m {
      IndexKeeps(rs, n, m - 1);
      NoteKeeps(IndexN(rs, m - 1), rs[m - 1].startMs, rs[m - 1].endMs, |rs[m - 1].items|, OffsetAt(rs, m - 1) + 2);
    }
  }

  /** Where the index lists record `k`. */
  ghost function Listed(rs: seq<Interval>, k: nat): nat
    requires k <= |rs|
  {
    |IndexN(rs, k).records|
  }

  lemma {:induction false} IndexHas(rs: seq<Interval>, k: nat)
    requires k < |rs| && !IsGuardInterval(rs[k])
    ensures Listed(rs, k) < |IndexN(rs, |rs|).records|
    ensures var rec := IndexN(rs, |rs|).records[Listed(rs, k)]; rec.fileOff == OffsetAt(rs, k) + 2 && rec.count == |rs[k].items|
  {
    NoteKeeps(IndexN(rs, k), rs[k].startMs, rs[k].endMs, |rs[k].items|, OffsetAt(rs, k) + 2);
    IndexKeeps(rs, k + 1, |rs|);
  }

  // ---------------------------------------------------------------------------------------------
  // The scan up to the first torn record

  /** The scan from record `n` on comes to what the scan from record `m` on does. */
  ghost predicate SameScan(rs: seq<Interval>, file: seq<byte>, n: nat, m: nat)
    requires n <= |rs| && m <= |rs|
  {
    forall q {:trigger OpenFold(q)} :: OpenFold(q) ==> Scan(file, OffsetAt(rs, n), IndexN(rs, n)) == Scan(file, OffsetAt(rs, m), IndexN(rs, m))
  }

  lemma {:induction false} SameSelf(rs: seq<Interval>, file: seq<byte>, n: nat)
    requires n <= |rs|
    ensures SameScan(rs, file, n, n)
  {
  }

  lemma {:induction false} SameTrans(rs: seq<Interval>, file: seq<byte>, a: nat, b: nat, c: nat)
    requires a <= |rs| && b <= |rs| && c <= |rs| && SameScan(rs, file, a, b) && SameScan(rs, file, b, c)
    ensures SameScan(rs, file, a, c)
  {
    assert OpenFold(0);
  }

  /** The scan goes on from record `i` to the next. */
  ghost predicate Passes(rs: seq<Interval>, file: seq<byte>, i: nat) {
    i < |rs| && SameScan(rs, file, i, i + 1)
  }

  lemma {:induction false} SameChain(rs: seq<Interval>, file: seq<byte>, n: nat)
    requires n <= |rs| && forall i :: 0 <= i < n ==> Passes(rs, file, i)
    ensures SameScan(rs, file, 0, n)
  {
    if n == 0 {
      SameSelf(rs, file, 0);
    } else {
      SameChain(rs, file, n - 1);
      assert Passes(rs, file, n - 1);
      SameTrans(rs, file, 0, n - 1, n);
    }
  }

  lemma {:induction false} HeadBehind(file: seq<byte>, pre: seq<byte>, r: Interval)
    requires Fits(r) && pre + Encode(r) <= file
    ensures HeadAt(file, |pre|) == Head(r.startMs, r.endMs, |r.items|)
  {
    var post := file[|pre + Encode(r)|..];
    assert file == pre + Encode(r) + post;
    HeadOfEncoded(pre, r, post);
  }

  lemma {:induction false} HeadAtWhole(rs: seq<Interval>, k: nat, file: seq<byte>, i: nat)
    requires AllFit(rs) && i < k <= |rs| && EncodeRecords(rs, k) <= file
    ensures HeadAt(file, OffsetAt(rs, i)) == Head(rs[i].startMs, rs[i].endMs, |rs[i].items|)
  {
    EncodePrefix(rs, i + 1, k);
    OffsetIsLength(rs, i);
    HeadBehind(file, EncodeRecords(rs, i), rs[i]);
  }

  lemma {:induction false} PassesWhole(rs: seq<Interval>, k: nat, file: seq<byte>, i: nat)
    requires AllFit(rs) && i < k <= |rs| && EncodeRecords(rs, k) <= file
    ensures Passes(rs, file, i)
  {
    HeadAtWhole(rs, k, file, i);
    ScanOn(rs, i, file);
  }

  /** Over the whole records at its head the scan lists what was recorded. */
  lemma {:induction false} ScanReaches(rs: seq<Interval>, k: nat, file: seq<byte>)
    requires AllFit(rs) && k <= |rs| && EncodeRecords(rs, k) <= file
    ensures Scan(file, 0, NO_INFO) == Scan(file, |EncodeRecords(rs, k)|, IndexN(rs, k))
  {
    forall i | 0 <= i < k
      ensures Passes(rs, file, i)
    {
      PassesWhole(rs, k, file, i);
    }
    SameChain(rs, file, k);
    OffsetIsLength(rs, k);
    assert OpenFold(0);
  }

  // ---------------------------------------------------------------------------------------------
  // The scan of a torn record

  /** If there are two bytes at all, they are the marker. */
  predicate Leads(p: seq<byte>) {
    |p| >= 2 ==> p[0] == 0xFA && p[1] == 0xFB
  }

  /** The least count that the next marker can be taken for, and the length that a record with so many entries needs. */
  const STUB_REACH: nat := 12 * 0xFBFA + 10

  lemma {:induction false} WordLow(file: seq<byte>, pos: nat)
    requires pos + 8 <= |file| && file[pos] == 0xFA && file[pos + 1] == 0xFB
    ensures Word(file, pos, 8) >= 0xFBFA
  {
    assert Word(file, pos, 8) == file[pos] + 256 * Word(file, pos + 1, 7);
    assert Word(file, pos + 1, 7) == file[pos + 1] + 256 * Word(file, pos + 2, 6);
  }

  /** Whole records, then a stub with what follows it. */
  ghost predicate StubAt(rs: seq<Interval>, k: nat, file: seq<byte>, post: seq<byte>) {
    AllFit(rs) && k < |rs| && file == EncodeRecords(rs, k) + Stub(rs[k]) + post && Leads(post)
  }

  /** A stub takes the marker behind it for its count. */
  lemma {:induction false} StubCount(file: seq<byte>, pre: seq<byte>, r: Interval, post: seq<byte>)
    requires file == pre + Stub(r) + post && Leads(post)
    ensures var h := HeadAt(file, |pre|);
            !h.NoHeader? && (|post| < STUB_REACH ==> h.Damaged?) && (h.Head? ==> h.count >= 0xFBFA)
  {
    var off := |pre|;
    assert file[off] == Stub(r)[0] && file[off + 1] == Stub(r)[1];
    if |post| >= 8 {
      assert file[off + 18] == post[0] && file[off + 19] == post[1];
      WordLow(file, off + 18);
    }
  }

  /** A file with a stub is refused as a whole, unless 774082 bytes or more follow the first one. */
  lemma {:induction false} StubIsCorrupt(rs: seq<Interval>, k: nat, file: seq<byte>, post: seq<byte>)
    requires StubAt(rs, k, file, post) && |post| < STUB_REACH
    ensures Scan(file, 0, NO_INFO) == Corrupt
  {
    ScanReaches(rs, k, file);
    StubCount(file, EncodeRecords(rs, k), rs[k], post);
  }

  /** A head with so large a count is listed by every scan that gets past it. */
  lemma {:induction false} CountListed(file: seq<byte>, off: nat, info: DumpInfo, h: Head, info': DumpInfo)
    requires h == HeadAt(file, off) && h.Head? && h.count >= 0xFBFA && info' == NoteRecord(info, h.startMs, h.endMs, h.count, off + 2)
    requires Scan(file, off + 28 + 12 * h.count, info').Scanned?
    ensures var recs := Scan(file, off + 28 + 12 * h.count, info').info.records;
            |info.records| < |recs| && recs[|info.records|].count >= 0xFBFA
  {
    NoteKeeps(info, h.startMs, h.endMs, h.count, off + 2);
    ScanKeeps(file, off + 28 + 12 * h.count, info');
  }

  lemma {:induction false} GetsPast(file: seq<byte>, off: nat, info: DumpInfo)
    requires Scan(file, off, info).Scanned? && !HeadAt(file, off).NoHeader? && (HeadAt(file, off).Head? ==> HeadAt(file, off).count >= 0xFBFA)
    ensures var recs := Scan(file, off, info).info.records; |info.records| < |recs| && recs[|info.records|].count >= 0xFBFA
  {
    var h := HeadAt(file, off);
    CountListed(file, off, info, h, NoteRecord(info, h.startMs, h.endMs, h.count, off + 2));
  }

  lemma {:induction false} ScannedCount(rs: seq<Interval>, k: nat, file: seq<byte>, post: seq<byte>)
    requires StubAt(rs, k, file, post) && Scan(file, 0, NO_INFO).Scanned?
    ensures var recs := Scan(file, 0, NO_INFO).info.records; Listed(rs, k) < |recs| && recs[Listed(rs, k)].count >= 0xFBFA
  {
    ScanReaches(rs, k, file);
    StubCount(file, EncodeRecords(rs, k), rs[k], post);
    GetsPast(file, |EncodeRecords(rs, k)|, IndexN(rs, k));
  }

  // ---------------------------------------------------------------------------------------------
  // Lengths

  lemma {:induction false} PieceLengths(rs: seq<Interval>, torn: seq<bool>, k: nat)
    requires k < |rs| && IsTorn(torn, k)
    ensures |Pieces(rs, torn)[k]| == 18
    ensures forall i :: 0 <= i < |rs| ==> |Pieces(rs, torn)[i]| <= 28 + 12 * |rs[i].items|
  {
  }

  /** A stub shortens the file by count, entries and footer. */
  lemma {:induction false} TornShorter(rs: seq<Interval>, parts: seq<seq<byte>>, k: nat, n: nat)
    requires n <= |rs| == |parts| && k < |rs| && |parts[k]| == 18
    requires forall i :: 0 <= i < |rs| ==> |parts[i]| <= 28 + 12 * |rs[i].items|
    ensures k < n ==> |Joined(parts, n)| + 10 + 12 * |rs[k].items| <= OffsetAt(rs, n)
    ensures |Joined(parts, n)| <= OffsetAt(rs, n)
  {
    if n > 0 {
      TornShorter(rs, parts, k, n - 1);
    }
  }

  /** No two guards follow each other. */
  ghost predicate SparseGuards(rs: seq<Interval>) {
    forall i :: 0 < i < |rs| ==> !IsGuardInterval(rs[i - 1]) || !IsGuardInterval(rs[i])
  }

  /** A record that is not a guard, with at most one guard after it. */
  lemma {:induction false} LastReal(rs: seq<Interval>, k: nat) returns (m: nat)
    requires SparseGuards(rs) && k < |rs| && !IsGuardInterval(rs[k])
    ensures m < |rs| && !IsGuardInterval(rs[m]) && OffsetAt(rs, |rs|) <= OffsetAt(rs, m + 1) + 28
  {
    m := |rs| - 1;
    if IsGuardInterval(rs[m]) {
      m := m - 1;
    }
  }

  /** A file with a stub and no longer than what was written is never read as what was recorded. */
  lemma {:induction false} StubIsMisread(rs: seq<Interval>, torn: seq<bool>, k: nat, file: seq<byte>, post: seq<byte>)
    requires StubAt(rs, k, file, post) && IsTorn(torn, k) && |file| <= |FileBytes(rs, torn)| && rs[k].items != [] && SparseGuards(rs)
    ensures Scan(file, 0, NO_INFO) != Scanned(IndexN(rs, |rs|))
  {
    if Scan(file, 0, NO_INFO) == Scanned(IndexN(rs, |rs|)) {
      ScannedCount(rs, k, file, post);
      IndexHas(rs, k);
      var m := LastReal(rs, k);
      IndexHas(rs, m);
      ScanWithin(file, 0, NO_INFO, Listed(rs, m));
      PieceLengths(rs, torn, k);
      TornShorter(rs, Pieces(rs, torn), k, |rs|);
    }
  }

  // ---------------------------------------------------------------------------------------------
  // The file as it is found

  lemma {:induction false} TailLeads(parts: seq<seq<byte>>, n: nat, m: nat) returns (post: seq<byte>)
    requires n <= m <= |parts| && LongParts(parts) && forall i :: 0 <= i < |parts| ==> Leads(parts[i])
    ensures Joined(parts, m) == Joined(parts, n) + post && Leads(post) && (post == [] || |post| >= 18)
  {
    if n == m {
      post := [];
    } else {
      var p := TailLeads(parts, n, m - 1);
      assert Leads(parts[m - 1]);
      post := p + parts[m - 1];
    }
  }

  lemma {:induction false} PiecesLead(rs: seq<Interval>, torn: seq<bool>)
    ensures forall i :: 0 <= i < |rs| ==> Leads(Pieces(rs, torn)[i])
  {
  }

  lemma {:induction false} FileAround(rs: seq<Interval>, torn: seq<bool>, k: nat) returns (tail: seq<byte>)
    requires k < |rs| && FirstTorn(torn, k)
    ensures FileBytes(rs, torn) == EncodeRecords(rs, k) + Stub(rs[k]) + tail && Leads(tail)
  {
    WholeTo(rs, torn, k);
    PiecesTorn(rs, torn);
    PiecesLead(rs, torn);
    tail := TailAround(Pieces(rs, torn), k, Stub(rs[k]));
  }

  lemma {:induction false} TailAround(parts: seq<seq<byte>>, k: nat, p: seq<byte>) returns (tail: seq<byte>)
    requires k < |parts| && parts[k] == p && LongParts(parts) && forall i :: 0 <= i < |parts| ==> Leads(parts[i])
    ensures Joined(parts, |parts|) == Joined(parts, k) + p + tail && Leads(tail)
  {
    tail := TailLeads(parts, k + 1, |parts|);
  }

  /** What was passed on beyond the first stub. */
  lemma {:induction false} StubInFile(rs: seq<Interval>, torn: seq<bool>, k: nat, len: nat) returns (post: seq<byte>)
    requires AllFit(rs) && k < |rs| && FirstTorn(torn, k) && |EncodeRecords(rs, k)| + 18 <= len <= |FileBytes(rs, torn)|
    ensures StubAt(rs, k, FileBytes(rs, torn)[..len], post) && |post| == len - |EncodeRecords(rs, k)| - 18
  {
    var tail := FileAround(rs, torn, k);
    var head := EncodeRecords(rs, k) + Stub(rs[k]);
    post := tail[..len - |head|];
    assert (head + tail)[..len] == head + post;
  }

  /** How far the file reaches that has `k` as its first torn record. */
  lemma {:induction false} SentBeyond(rs: seq<Interval>, torn: seq<bool>, k: nat)
    requires |torn| == |rs| && FirstTorn(torn, k)
    ensures Unsent(torn, k, |rs|) ==> Reached(rs, torn) == EncodeRecords(rs, k)
    ensures !Unsent(torn, k, |rs|) ==> SentOf(rs, torn) >= |EncodeRecords(rs, k)| + 26
  {
    var parts := Pieces(rs, torn);
    SentBefore(rs, torn, k);
    WholeTo(rs, torn, k);
    PiecesTorn(rs, torn);
    SentIff(parts, torn, k, |rs|);
    JoinedGrows(parts, k, |rs|);
  }

  /** Fewer bytes of the file follow its first stub than the marker behind it makes the reader expect. */
  ghost predicate ShortAfter(rs: seq<Interval>, torn: seq<bool>, k: nat)
    requires k <= |rs|
  {
    |Reached(rs, torn)| < |EncodeRecords(rs, k)| + 18 + STUB_REACH
  }

  /** What the reader makes of a file whose first torn record is `k`: when only torn records follow that still fit the staging buffer,
      they are not seen at all; otherwise the file is refused, as long as fewer than 774082 bytes follow the stub. */
  lemma {:induction false} TornOutcome(rs: seq<Interval>, torn: seq<bool>, k: nat)
    requires AllFit(rs) && |torn| == |rs| && FirstTorn(torn, k)
    ensures Unsent(torn, k, |rs|) ==> Scan(Reached(rs, torn), 0, NO_INFO) == Scanned(IndexN(rs, k))
    ensures !Unsent(torn, k, |rs|) && ShortAfter(rs, torn, k) ==> Scan(Reached(rs, torn), 0, NO_INFO) == Corrupt
  {
    SentBeyond(rs, torn, k);
    if Unsent(torn, k, |rs|) {
      ScanReaches(rs, k, EncodeRecords(rs, k));
    } else {
      var post := StubInFile(rs, torn, k, SentOf(rs, torn));
      if |post| < STUB_REACH {
        StubIsCorrupt(rs, k, Reached(rs, torn), post);
      }
    }
  }

  lemma {:induction false} TornIsMisread(rs: seq<Interval>, torn: seq<bool>, k: nat)
    requires AllFit(rs) && |torn| == |rs| && FirstTorn(torn, k) && rs[k].items != [] && SparseGuards(rs)
    ensures Scan(Reached(rs, torn), 0, NO_INFO) != Scanned(IndexN(rs, |rs|))
  {
    if Unsent(torn, k, |rs|) {
      TornOutcome(rs, torn, k);
      IndexHas(rs, k);
    } else {
      SentBeyond(rs, torn, k);
      var post := StubInFile(rs, torn, k, SentOf(rs, torn));
      StubIsMisread(rs, torn, k, Reached(rs, torn), post);
    }
  }

  /** The reader lists exactly what was recorded if and only if no record is torn. */
  lemma {:induction false} ReadIff(rs: seq<Interval>, torn: seq<bool>)
    requires AllFit(rs) && |torn| == |rs| && SparseGuards(rs)
    requires forall i :: 0 <= i < |rs| && torn[i] ==> rs[i].items != []
    ensures Scan(Reached(rs, torn), 0, NO_INFO) == Scanned(IndexN(rs, |rs|)) <==> NoneTorn(torn)
  {
    if NoneTorn(torn) {
      WholeFile(rs, torn);
      ScanRoundTrip(rs);
    } else {
      var k := SomeFirstTorn(torn, 0);
      TornIsMisread(rs, torn, k);
    }
  }
}

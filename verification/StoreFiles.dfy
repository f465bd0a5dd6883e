/** The three output files of a profile store and what they hold, down to the bytes
    (src/cli_stackmap_helper/cli_stackmap.c).
  */
module StoreFiles {
  import opened Markers
  import opened Bytes
  import opened Options
  import opened Items
  import opened TimeWheels
  import opened Dictionary
  import opened RecordCodec
  import opened TornFiles
  import opened Stores
  import opened ZstdStreams

  /** Frame and stack ids stay below 2^31. */
  const ID_LIMIT: nat := 0x8000_0000

  class OutputFiles {
    /** Frames, stacks and intervals written so far. */
    ghost var StrDone: seq<Frame>
    ghost var IdsDone: seq<seq<nat>>
    ghost var Records: seq<Interval>
    /** Which of the intervals were left without their entries. */
    ghost var Torn: seq<bool>

    const strmap: ZstdStream
    const idsmap: ZstdStream
    const stackmap: ZstdStream

    ghost function Repr(): set<object> {
      {this, strmap, strmap.inputBuffer, idsmap, idsmap.inputBuffer, stackmap, stackmap.inputBuffer}
    }

    ghost predicate Separate() {
      && strmap != idsmap && strmap != stackmap && idsmap != stackmap
      && strmap.inputBuffer != idsmap.inputBuffer && strmap.inputBuffer != stackmap.inputBuffer
      && idsmap.inputBuffer != stackmap.inputBuffer
    }

    ghost predicate StrOk()
      reads this`StrDone, strmap, strmap.inputBuffer
    {
      forall k {:trigger OpenFiles(k)} :: OpenFiles(k) && k == 0 ==> strmap.Valid() && strmap.Content == StrFile(StrDone, |StrDone|)
    }

    ghost predicate IdsOk()
      reads this`IdsDone, idsmap, idsmap.inputBuffer
    {
      forall k {:trigger OpenFiles(k)} :: OpenFiles(k) && k == 1 ==>
        idsmap.Valid() && idsmap.Content == IdsFile(IdsDone, |IdsDone|) && idsmap.inputSize == 0
    }

    ghost predicate BinOk()
      reads this`Records, this`Torn, stackmap, stackmap.inputBuffer
    {
      forall k {:trigger OpenFiles(k)} :: OpenFiles(k) && k == 2 ==>
        && stackmap.Valid() && stackmap.Content == FileBytes(Records, Torn) && |Torn| == |Records|
        && |stackmap.sink| == SentOf(Records, Torn)
        && (stackmap.inputSize == 0 || EndsTorn())
    }

    /** Each file holds exactly what is recorded as written: every id once, in order. Between operations nothing of idsmap is staged, and
        nothing of stack.bin unless its last record is torn. */
    ghost predicate Valid()
      reads this, strmap, strmap.inputBuffer, idsmap, idsmap.inputBuffer, stackmap, stackmap.inputBuffer
    {
      Separate() && StrOk() && IdsOk() && BinOk()
    }

    /** The last record is torn: its bytes may still be staged. */
    ghost predicate EndsTorn()
      reads this`Torn
    {
      Torn != [] && Torn[|Torn| - 1]
    }

    constructor (strs: ZstdStream, ids: ZstdStream, bin: ZstdStream)
      requires strs.Valid() && ids.Valid() && bin.Valid() && strs.Content == ids.Content == bin.Content == []
      requires strs.inputSize == ids.inputSize == bin.inputSize == 0
      requires strs != ids && strs != bin && ids != bin
      requires strs.inputBuffer != ids.inputBuffer && strs.inputBuffer != bin.inputBuffer && ids.inputBuffer != bin.inputBuffer
      ensures Valid() && strmap == strs && idsmap == ids && stackmap == bin
      ensures StrDone == [] && IdsDone == [] && Records == [] && Torn == []
    {
      strmap, idsmap, stackmap := strs, ids, bin;
      StrDone, IdsDone, Records, Torn := [], [], [], [];
    }

    /** One line of strmap. */
    method WriteStrLine(s: Frame, id: nat)
      requires Valid()
      requires id == |StrDone| + 1 <= ID_LIMIT && |s| <= FRAME_MAX_LEN
      modifies this`StrDone, strmap, strmap.inputBuffer
      ensures Valid()
      ensures StrDone == old(StrDone) + [s]
    {
      assert OpenFiles(0);
      LineShort(s, id);
      strmap.Write(s + IdTail(id));
      FileStep(StrDone, s);
      StrDone := StrDone + [s];
    }

    method FlushStrmap()
      requires Valid()
      modifies strmap
      ensures Valid() && strmap.inputSize == 0
    {
      assert OpenFiles(0);
      strmap.WriteDone();
    }

    /** The text of one stack: each frame id and a semicolon, written piece by piece. */
    method WriteIdList(list: seq<nat>)
      requires idsmap.Valid() && IdsBelow(list, ID_LIMIT)
      modifies idsmap, idsmap.inputBuffer
      ensures idsmap.Valid()
      ensures idsmap.Content == old(idsmap.Content) + IdList(list, |list|)
    {
      for i := 0 to |list|
        invariant idsmap.Valid()
        invariant idsmap.Content == old(idsmap.Content) + IdList(list, i)
      {
        DecShort(list[i]);
        idsmap.Write(Dec(list[i]) + [SEMICOLON]);
      }
    }

    /** The idsmap text of one stack, written piece by piece. */
    method WriteIdsText(list: seq<nat>, id: nat)
      requires idsmap.Valid() && id <= ID_LIMIT && IdsBelow(list, ID_LIMIT)
      modifies idsmap, idsmap.inputBuffer
      ensures idsmap.Valid() && idsmap.inputSize == 0
      ensures idsmap.Content == old(idsmap.Content) + (IdList(list, |list|) + IdTail(id))
    {
      WriteIdList(list);
      TailShort(id);
      ghost var before := old(idsmap.Content);
      idsmap.Write(IdTail(id));
      assert (before + IdList(list, |list|)) + IdTail(id) == before + (IdList(list, |list|) + IdTail(id));
      idsmap.WriteDone();
    }

    /** One line of idsmap. */
    method WriteIdsLine(list: seq<nat>, id: nat)
      requires Valid()
      requires id == |IdsDone| + 1 <= ID_LIMIT && IdsBelow(list, ID_LIMIT)
      modifies this`IdsDone, idsmap, idsmap.inputBuffer
      ensures Valid()
      ensures IdsDone == old(IdsDone) + [list]
    {
      assert OpenFiles(1);
      WriteIdsText(list, id);
      IdsFileStep(IdsDone, list);
      IdsDone := IdsDone + [list];
    }

    /** The entries of one record. */
    method WriteItems(items: seq<Item>)
      requires stackmap.Valid()
      modifies stackmap, stackmap.inputBuffer
      ensures stackmap.Valid()
      ensures stackmap.Content == old(stackmap.Content) + EncodeItems(items, |items|)
    {
      for i := 0 to |items|
        invariant stackmap.Valid()
        invariant stackmap.Content == old(stackmap.Content) + EncodeItems(items, i)
      {
        stackmap.WriteBytes(LE(items[i].id, 4));
        stackmap.WriteBytes(LE(items[i].count, 8));
      }
    }

    /** Marker, start and end. */
    method WriteStub(startMs: nat, endMs: nat, ghost r: Interval)
      requires stackmap.Valid() && startMs == r.startMs && endMs == r.endMs
      modifies stackmap, stackmap.inputBuffer
      ensures stackmap.Valid()
      ensures stackmap.Content == old(stackmap.Content) + Stub(r)
      ensures |stackmap.sink| == SentStub(|old(stackmap.sink)|, |old(stackmap.Content)|)
    {
      stackmap.WriteBytes([0xFA, 0xFB]);
      stackmap.WriteBytes(LE(startMs, 8));
      stackmap.WriteBytes(LE(endMs, 8));
    }

    /** Count, entries and footer, after which the staged bytes are passed on. */
    method WriteBody(items: seq<Item>, ghost r: Interval)
      requires stackmap.Valid() && items == r.items
      modifies stackmap, stackmap.inputBuffer
      ensures stackmap.Valid() && stackmap.inputSize == 0
      ensures stackmap.Content == old(stackmap.Content) + Body(r)
    {
      stackmap.WriteBytes(LE(|items|, 8));
      WriteItems(items);
      stackmap.WriteBytes([0xFC, 0xFD]);
      stackmap.WriteDone();
    }

    method WriteRecord(h: Handed, ghost r: Interval)
      requires stackmap.Valid() && HandedFrom(h, r)
      modifies stackmap, stackmap.inputBuffer
      ensures stackmap.Valid() && (h.taken.Some? ==> stackmap.inputSize == 0)
      ensures stackmap.Content == old(stackmap.Content) + Piece(r, h.taken.None?)
      ensures h.taken.None? ==> |stackmap.sink| == SentStub(|old(stackmap.sink)|, |old(stackmap.Content)|)
    {
      ghost var before := stackmap.Content;
      WriteStub(h.startMs, h.endMs, r);
      if h.taken.None? {
        return;
      }
      WriteBody(h.taken.value, r);
      StubThenBody(before, r);
    }

    /** `_cli_stackmap_dump_stackmap_table`: the entries need memory to be handed out; without it the record is left as it stands. */
    method DumpTable(h: Handed, ghost r: Interval)
      requires Valid() && HandedFrom(h, r)
      modifies this`Records, this`Torn, stackmap, stackmap.inputBuffer
      ensures Valid()
      ensures Records == old(Records) + [r] && Torn == old(Torn) + [h.taken.None?]
    {
      assert OpenFiles(2);
      WriteRecord(h, r);
      TornAppend(Records, Torn, r, h.taken.None?);
      SentAppend(Records, Torn, r, h.taken.None?);
      Records := Records + [r];
      Torn := Torn + [h.taken.None?];
    }

    /** The records of a flush. */
    method DumpBuckets(handed: seq<Handed>, ghost out: seq<Interval>, ghost takeOk: seq<bool>)
      requires Valid() && handed == HandedOut(out, takeOk)
      modifies this`Records, this`Torn, stackmap, stackmap.inputBuffer
      ensures Valid()
      ensures Records == old(Records) + out && Torn == old(Torn) + TornBy(out, takeOk)
    {
      ghost var torn := TornBy(out, takeOk);
      for i := 0 to |handed|
        invariant Valid()
        invariant Extends(old(Records), out, i, Records) && Extends(old(Torn), torn, i, Torn)
      {
        ExtendsMore(old(Records), out, i, Records);
        ExtendsMore(old(Torn), torn, i, Torn);
        DumpTable(handed[i], out[i]);
      }
      assert out[..|out|] == out && torn[..|out|] == torn;
    }

    /** The records of a flush and the guard record after them. */
    method DumpIntervals(handed: seq<Handed>, ghost out: seq<Interval>, ghost takeOk: seq<bool>)
      requires Valid() && handed == HandedOut(out, takeOk)
      modifies this`Records, this`Torn, stackmap, stackmap.inputBuffer
      ensures Valid()
      ensures Records == old(Records) + out + Guards(out) && Torn == old(Torn) + TornBy(out, takeOk) + GuardsWhole(out)
      ensures stackmap.inputSize == 0 || EndsTorn()
    {
      DumpBuckets(handed, out, takeOk);
      if |handed| > 0 && handed[|handed| - 1].endMs < DAY_MS {
        var lastEndMs := handed[|handed| - 1].endMs;
        DumpTable(Handed(lastEndMs, lastEndMs, Some([])), Interval(lastEndMs, lastEndMs, []));
      }
      assert stackmap.inputSize == 0 || EndsTorn() by {
        assert OpenFiles(2);
      }
    }
  }

  /** What was handed out of the interval. */
  ghost predicate HandedFrom(h: Handed, r: Interval) {
    h.startMs == r.startMs && h.endMs == r.endMs && (h.taken.Some? ==> h.taken.value == r.items)
  }

  method NewFiles() returns (f: OutputFiles)
    ensures f.Valid() && fresh(f.Repr()) && f.strmap.inputSize == 0
    ensures f.StrDone == [] && f.IdsDone == [] && f.Records == [] && f.Torn == []
  {
    var a := new ZstdStream();
    var b := new ZstdStream();
    var c := new ZstdStream();
    f := new OutputFiles(a, b, c);
  }

  /** `now` is `start` with the first `i` of `more`. */
  ghost predicate Extends<T>(start: seq<T>, more: seq<T>, i: nat, now: seq<T>)
    requires i <= |more|
  {
    now == start + more[..i]
  }

  lemma {:induction false} ExtendsMore<T>(start: seq<T>, more: seq<T>, i: nat, now: seq<T>)
    requires i < |more| && Extends(start, more, i, now)
    ensures Extends(start, more, i + 1, now + [more[i]])
  {
    assert start + more[..i + 1] == (start + more[..i]) + [more[i]];
  }

  /** What follows the interval in a record. */
  function Body(r: Interval): seq<byte> {
    LE(|r.items|, 8) + EncodeItems(r.items, |r.items|) + [0xFC, 0xFD]
  }

  lemma {:induction false} StubThenBody(before: seq<byte>, r: Interval)
    ensures before + Stub(r) + Body(r) == before + Encode(r)
  {
    var m: seq<byte>, f: seq<byte> := [0xFA, 0xFB], [0xFC, 0xFD];
    var a, b, c, e := LE(r.startMs, 8), LE(r.endMs, 8), LE(|r.items|, 8), EncodeItems(r.items, |r.items|);
    assert before + (m + a + b) + (c + e + f) == before + (m + a + b + c + e + f);
  }

  lemma {:induction false} FileStep(done: seq<seq<byte>>, s: seq<byte>)
    ensures FileOf(done + [s], |done| + 1) == FileOf(done, |done|) + (s + IdTail(|done| + 1))
  {
    FilePrefixSame(done, done + [s], |done|);
  }

  lemma {:induction false} IdsFileStep(done: seq<seq<nat>>, list: seq<nat>)
    ensures IdsFile(done + [list], |done| + 1) == IdsFile(done, |done|) + (IdList(list, |list|) + IdTail(|done| + 1))
  {
    assert IdTexts(done + [list]) == IdTexts(done) + [IdList(list, |list|)];
    FileStep(IdTexts(done), IdList(list, |list|));
  }

  lemma {:induction false} FilePrefixSame(a: seq<seq<byte>>, b: seq<seq<byte>>, n: nat)
    requires a <= b && n <= |a|
    ensures FileOf(a, n) == FileOf(b, n)
  {
    if n > 0 {
      FilePrefixSame(a, b, n - 1);
    }
  }

  lemma {:induction false} TailShort(id: nat)
    requires id <= ID_LIMIT
    ensures |IdTail(id)| < CHUNK_SIZE
  {
    DecShort(id);
  }

  /** A dictionary line is shorter than the staging buffer: this is what the 8192-byte frame cap is for. */
  lemma {:induction false} LineShort(text: seq<byte>, id: nat)
    requires |text| <= FRAME_MAX_LEN && id <= ID_LIMIT
    ensures |text + IdTail(id)| < CHUNK_SIZE
  {
    DecShort(id);
  }
}

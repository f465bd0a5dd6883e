/** How the parts of the mutable profile store fit together. */
module StoreParts {
  import opened Dictionary
  import opened TimeWheels
  import opened Stores
  import opened Interners
  import opened StoreFiles

  /** No frame is longer than the cap. */
  ghost predicate Short(frames: seq<Frame>) {
    forall i :: 0 <= i < |frames| ==> |frames[i]| <= FRAME_MAX_LEN
  }

  lemma {:induction false} InternedShort(frames: seq<Frame>, frame: Frame)
    requires Short(frames)
    ensures Short(Interned(frames, Bounded(frame)))
  {
  }

  /** How many entries a dictionary file holds, given the first id not yet written. */
  ghost function DumpedCount(dumpedId: nat): nat {
    if dumpedId == 0 then 0 else dumpedId - 1
  }

  /** The parts that build stacks. */
  ghost predicate BuildersOk(current: Current, strTable: Interner<Frame>, idsTable: Interner<seq<nat>>)
    reads current, strTable, idsTable
  {
    current.Valid() && strTable.Valid() && idsTable.Valid() && Short(strTable.List)
  }

  /** strmap holds the frames that were dumped. */
  ghost predicate StrSide(strTable: Interner<Frame>, files: OutputFiles, dumpedId: nat)
    reads strTable`List, files`StrDone, files.strmap, files.strmap.inputBuffer
  {
    files.StrOk() && |files.StrDone| == DumpedCount(dumpedId) && files.StrDone <= strTable.List
  }

  /** idsmap holds the stacks that were dumped. */
  ghost predicate IdsSide(idsTable: Interner<seq<nat>>, files: OutputFiles, dumpedId: nat)
    reads idsTable`List, files`IdsDone, files.idsmap, files.idsmap.inputBuffer
  {
    files.IdsOk() && |files.IdsDone| == DumpedCount(dumpedId) && files.IdsDone <= idsTable.List
  }

  /** The wheel shares nothing with the other parts. */
  ghost predicate WheelSide(owner: object, wheel: TimeWheel, current: Current, strTable: Interner<Frame>, idsTable: Interner<seq<nat>>,
                            files: OutputFiles)
    reads wheel, wheel.Repr
  {
    && wheel.Valid()
    && owner !in wheel.Repr && current !in wheel.Repr && strTable !in wheel.Repr && idsTable !in wheel.Repr && files !in wheel.Repr
    && files.strmap !in wheel.Repr && files.idsmap !in wheel.Repr && files.stackmap !in wheel.Repr
    && files.strmap.inputBuffer !in wheel.Repr && files.idsmap.inputBuffer !in wheel.Repr && files.stackmap.inputBuffer !in wheel.Repr
  }

  ghost predicate Consistent(current: Current, strTable: Interner<Frame>, idsTable: Interner<seq<nat>>, files: OutputFiles,
                             dumpedStrId: nat, dumpedIdsId: nat)
    reads current, strTable, idsTable, files.Repr()
  {
    && strTable as object != idsTable && files.Separate()
    && BuildersOk(current, strTable, idsTable)
    && StrSide(strTable, files, dumpedStrId) && IdsSide(idsTable, files, dumpedIdsId) && files.BinOk()
  }
}

/** The mutable profile store of src/cli_stackmap_helper/cli_stackmap.c: two interning tables, the stack under
    construction, the time wheel and the output files. Its operations are in StackMap.dfy.
  */
module StackMapState {
  import opened Markers
  import opened TimeWheels
  import opened Dictionary
  import opened Stores
  import opened Interners
  import opened StorePlans
  import opened StoreFiles
  import opened StoreParts

  class StackMap {
    var dumpedStrId: nat
    var dumpedIdsId: nat

    const current: Current
    const strTable: Interner<Frame>
    const idsTable: Interner<seq<nat>>
    const wheel: TimeWheel
    const files: OutputFiles

    /** The abstract value. */
    ghost function Value(): Store
      reads this, current, strTable, idsTable, wheel, files
    {
      Store(strTable.List, idsTable.List, current.ids, current.lastReverse,
            DumpedCount(dumpedStrId), DumpedCount(dumpedIdsId), wheel.Value(), files.Records, files.Torn)
    }

    ghost function ArrayCaps(): Caps
      reads current, wheel
    {
      Caps(wheel.bucketCap, current.maxlen)
    }

    ghost predicate Valid()
      reads this, current, strTable, idsTable, files.Repr(), wheel, wheel.Repr
    {
      forall k {:trigger OpenStore(k)} :: OpenStore(k) ==>
        && Consistent(current, strTable, idsTable, files, dumpedStrId, dumpedIdsId)
        && WheelSide(this, wheel, current, strTable, idsTable, files)
    }

    /** Puts together empty parts. */
    constructor (c: Current, s: Interner<Frame>, t: Interner<seq<nat>>, w: TimeWheel, f: OutputFiles)
      requires c.Valid() && s.Valid() && s.List == [] && t.Valid() && t.List == [] && s as object != t
      requires w.Valid() && w.Repr !! {c, s, t} + f.Repr()
      requires f.Valid() && f.StrDone == [] && f.IdsDone == [] && f.Records == [] && f.Torn == []
      ensures Valid()
      ensures current == c && strTable == s && idsTable == t && wheel == w && files == f
      ensures ArrayCaps() == Caps(w.bucketCap, c.maxlen)
      ensures Value() == Store([], [], c.ids, c.lastReverse, 0, 0, w.Value(), [], [])
    {
      dumpedStrId, dumpedIdsId := 0, 0;
      current, strTable, idsTable, wheel, files := c, s, t, w, f;
    }
  }
}

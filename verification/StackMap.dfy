/** The operations of the profile store. Each is proved to do to the store what the corresponding function of
    `Stores` says.
  */
module StackMaps {
  import opened Options
  import opened Markers
  import opened Wheels
  import opened TimeWheels
  import opened Dictionary
  import opened Stores
  import opened Interners
  import opened StorePlans
  import opened StoreFiles
  import opened StoreParts
  import opened StackMapState

  method NewTables() returns (s: Interner<Frame>, t: Interner<seq<nat>>)
    ensures fresh(s) && fresh(t) && s as object != t
    ensures s.Valid() && s.List == [] && t.Valid() && t.List == []
  {
    s := new Interner<Frame>();
    t := new Interner<seq<nat>>();
  }

  /** `cli_stackmap_init` followed by `cli_stackmap_enable_timewheel`. */
  method Create(holdMs: nat) returns (m: StackMap)
    ensures m.Valid() && fresh(m) && fresh(m.strTable) && fresh(m.idsTable) && fresh(m.current) && fresh(m.wheel.Repr) && fresh(m.files.Repr())
    ensures m.Value() == NewStore(holdMs) && m.ArrayCaps() == FIRST_CAPS && m.files.strmap.inputSize == 0
  {
    var s, t := NewTables();
    var c := new Current();
    var w := new TimeWheel(holdMs);
    var f := NewFiles();
    m := new StackMap(c, s, t, w, f);
  }

  /** Finds or creates the id of a frame. */
  method InternFrame(m: StackMap, frame: Frame, allocOk: bool, reallocOk: bool) returns (o: InternOutcome)
    requires m.Valid()
    modifies m.strTable
    ensures o.Refused? <==> NewFrame(old(m.Value()), frame) && !allocOk
    ensures o.Stranded? <==> NewFrame(old(m.Value()), frame) && allocOk && TableFull(|old(m.Value()).strs|) && !reallocOk
    ensures o.Refused? ==> m.Valid() && m.Value() == old(m.Value())
    ensures o.Given? ==> m.Valid() && m.Value() == Stores.InternFrame(old(m.Value()), Bounded(frame))
    ensures o.Given? ==> o.id == Position(old(m.Value()).strs, Bounded(frame)) + 1
    ensures o.Stranded? ==> FrameIsStranded(m, frame)
  {
    assert OpenStore(0);
    InternedShort(m.strTable.List, frame);
    o := m.strTable.InternFirst(Bounded(frame), allocOk, reallocOk);
  }

  /** The frame stands in the hash table under an id that the by-id array has no slot for. */
  ghost predicate FrameIsStranded(m: StackMap, frame: Frame)
    reads m.strTable
  {
    var t := m.strTable;
    Bounded(frame) in t.hash && |t.byId| <= t.hash[Bounded(frame)] < t.maxlen && t.nextId == t.hash[Bounded(frame)] + 1
  }

  /** `cli_stackmap_entry_append_id` on the current stack. */
  method AppendId(m: StackMap, id: nat, reallocOk: bool) returns (ok: bool)
    requires m.Valid()
    modifies m.current
    ensures ok <==> reallocOk || |old(m.Value()).current| < old(m.ArrayCaps()).ids
    ensures m.ArrayCaps() == AppendCaps(old(m.Value()), old(m.ArrayCaps()))
    ensures ok ==> m.Valid() && m.Value() == PushId(old(m.Value()), id)
    ensures !ok ==> !m.current.present && m.Value() == old(m.Value())
  {
    assert OpenStore(0);
    ok := m.current.AppendId(id, reallocOk);
  }

  /** `cli_stackmap_append`. */
  method Append(m: StackMap, frame: Frame, l: Luck) returns (o: AppendOutcome)
    requires m.Valid()
    modifies m.strTable, m.current
    ensures o == AppendFate(old(m.Value()), old(m.ArrayCaps()), frame, l)
    ensures m.ArrayCaps() == if o.Appended? || o.StackGone? then AppendCaps(old(m.Value()), old(m.ArrayCaps())) else old(m.ArrayCaps())
    ensures o.Appended? ==> m.Valid() && m.Value() == AppendFrame(old(m.Value()), frame)
    ensures o.NotAppended? ==> m.Valid() && m.Value() == old(m.Value())
    ensures o.FrameStranded? ==> FrameIsStranded(m, frame) && m.current.ids == old(m.current.ids)
    ensures o.StackGone? ==> !m.current.present && m.Value() == Stores.InternFrame(old(m.Value()), Bounded(frame))
  {
    if |frame| >= FRAME_MAX_LEN && !l.dupOk {
      return NotAppended;
    }
    var i := InternFrame(m, frame, l.allocOk, l.growOk);
    if i.Refused? {
      return NotAppended;
    }
    if i.Stranded? {
      return FrameStranded;
    }
    var ok := AppendId(m, i.id, l.idsOk);
    return if ok then Appended else StackGone;
  }

  /** `cli_stackmap_entry_reverse_ids`. */
  method ReverseIds(m: StackMap)
    requires m.Valid()
    modifies m.current
    ensures m.Valid()
    ensures m.Value() == ReverseCurrent(old(m.Value())) && m.ArrayCaps() == old(m.ArrayCaps())
  {
    assert OpenStore(0);
    m.current.ReverseIds();
  }

  /** `cli_stackmap_current_reset`. */
  method CurrentReset(m: StackMap, index: nat)
    requires m.Valid() && index <= |m.Value().current|
    modifies m.current
    ensures m.Valid()
    ensures m.Value() == ResetCurrent(old(m.Value()), index) && m.ArrayCaps() == old(m.ArrayCaps())
  {
    assert OpenStore(0);
    m.current.Reset(index);
  }

  /** `cli_stackmap_intern_current_ids`. */
  method InternCurrentIds(m: StackMap, allocOk: bool, reallocOk: bool) returns (o: InternOutcome)
    requires m.Valid()
    modifies m.idsTable
    ensures o.Refused? <==> NewStack(old(m.Value())) && !allocOk
    ensures o.Stranded? <==> NewStack(old(m.Value())) && allocOk && TableFull(|old(m.Value()).stacks|) && !reallocOk
    ensures o.Refused? ==> m.Valid() && m.Value() == old(m.Value())
    ensures o.Given? ==> m.Valid() && m.Value() == InternCurrent(old(m.Value())) && o.id == CurrentId(old(m.Value()))
    ensures o.Stranded? ==> m.Value() == old(m.Value()) && |m.idsTable.byId| <= m.idsTable.nextId < m.idsTable.maxlen
  {
    assert OpenStore(0);
    o := m.idsTable.Intern(m.current.ids, allocOk, reallocOk);
  }

  method AddToWheel(m: StackMap, ms: nat, id: nat, count: nat, l: AddLuck) returns (o: Outcome)
    requires m.Valid()
    modifies m.wheel.Repr
    ensures m.Valid() && fresh(m.wheel.Repr - old(m.wheel.Repr))
    ensures m.Value() == old(m.Value()).(wheel := AddSample(old(m.Value()).wheel, ms, id, count, o))
    ensures o == AddFate(old(m.Value()).wheel, old(m.ArrayCaps()).buckets, ms, id, l)
    ensures m.ArrayCaps() == DoneCaps(old(m.Value()), old(m.ArrayCaps()), ms, l)
  {
    assert OpenStore(0);
    o := m.wheel.Add(ms, id, count, l);
  }

  method CountSample(m: StackMap, id: nat, count: nat, ms: nat, l: AddLuck) returns (o: Outcome)
    requires m.Valid()
    modifies m.wheel.Repr, m.current
    ensures m.Valid() && fresh(m.wheel.Repr - old(m.wheel.Repr))
    ensures m.Value() == CountAs(old(m.Value()), id, count, ms, o)
    ensures o == AddFate(old(m.Value()).wheel, old(m.ArrayCaps()).buckets, ms, id, l)
    ensures m.ArrayCaps() == DoneCaps(old(m.Value()), old(m.ArrayCaps()), ms, l)
  {
    o := AddToWheel(m, ms, id, count, l);
    if !o.Added? {
      return;
    }
    CurrentReset(m, 0);
  }

  /** `cli_stackmap_done_at` with the wheel enabled; `fatal` tells that the by-id array of stacks could not be enlarged. */
  method DoneAt(m: StackMap, count: nat, ms: nat, internOk: bool, growOk: bool, l: AddLuck)
    returns (o: DoneOutcome, fatal: bool)
    requires m.Valid()
    modifies m.idsTable, m.wheel.Repr, m.current
    ensures !fatal ==> m.Valid() && fresh(m.wheel.Repr - old(m.wheel.Repr))
    ensures m.Value() == Stores.DoneAt(old(m.Value()), count, ms, o)
    ensures fatal <==> DoneFate(old(m.Value()), old(m.ArrayCaps()), ms, internOk, growOk, l).None?
    ensures !fatal ==> DoneFate(old(m.Value()), old(m.ArrayCaps()), ms, internOk, growOk, l) == Some(o)
    ensures m.ArrayCaps() == if o.Counted? then DoneCaps(old(m.Value()), old(m.ArrayCaps()), ms, l) else old(m.ArrayCaps())
    ensures fatal ==> o == NotInterned && |m.idsTable.byId| <= m.idsTable.nextId < m.idsTable.maxlen
  {
    var i := InternCurrentIds(m, internOk, growOk);
    if !i.Given? {
      return NotInterned, i.Stranded?;
    }
    var wo := CountSample(m, i.id, count, ms, l);
    return Counted(wo), false;
  }

  method DumpStrLine(m: StackMap, id: nat)
    requires m.Valid() && id == m.Value().dumpedStrs + 1 <= |m.Value().strs| < ID_LIMIT
    modifies m`dumpedStrId, m.files`StrDone, m.files.strmap, m.files.strmap.inputBuffer
    ensures m.Valid() && m.Value() == old(m.Value()).(dumpedStrs := id) && m.dumpedStrId == id + 1
  {
    assert OpenStore(0) && OpenTable(0);
    var frame := m.strTable.byId[id].value;
    assert frame == m.strTable.List[id - 1];
    m.files.WriteStrLine(frame, id);
    m.dumpedStrId := id + 1;
  }

  method FlushStrmap(m: StackMap)
    requires m.Valid()
    modifies m.files.strmap
    ensures m.Valid() && m.files.strmap.inputSize == 0
  {
    assert OpenStore(0);
    m.files.FlushStrmap();
  }

  /** `cli_stackmap_dump_strmap`: writes a line for every frame not yet written. */
  method DumpStrmap(m: StackMap)
    requires m.Valid() && |m.Value().strs| < ID_LIMIT
    modifies m`dumpedStrId, m.files`StrDone, m.files.strmap, m.files.strmap.inputBuffer
    ensures m.Valid() && m.files.strmap.inputSize == 0
    ensures m.Value() == old(m.Value()).(dumpedStrs := |old(m.Value()).strs|)
  {
    assert OpenStore(0) && OpenTable(0);
    var id := m.dumpedStrId;
    while id <= m.strTable.nextId - 1
      invariant m.dumpedStrId <= id <= m.strTable.nextId
      invariant id == m.dumpedStrId || (id == 1 && m.dumpedStrId == 0)
      invariant m.Valid()
      invariant m.Value() == old(m.Value()).(dumpedStrs := m.Value().dumpedStrs)
    {
      if m.strTable.byId[id].Some? {
        DumpStrLine(m, id);
      }
      id := id + 1;
    }
    FlushStrmap(m);
  }

  method DumpIdsLine(m: StackMap, id: nat)
    requires m.Valid() && id == m.Value().dumpedStacks + 1 <= |m.Value().stacks| < ID_LIMIT
    requires IdsBelow(m.Value().stacks[id - 1], ID_LIMIT)
    modifies m`dumpedIdsId, m.files`IdsDone, m.files.idsmap, m.files.idsmap.inputBuffer
    ensures m.Valid() && m.Value() == old(m.Value()).(dumpedStacks := id) && m.dumpedIdsId == id + 1
  {
    assert OpenStore(0) && OpenTable(0);
    m.files.WriteIdsLine(m.idsTable.byId[id].value, id);
    m.dumpedIdsId := id + 1;
  }

  /** Every frame id occurring in a stack is below the id limit. */
  ghost predicate SmallIds(s: Store) {
    && |s.strs| < ID_LIMIT && |s.stacks| < ID_LIMIT
    && forall i :: 0 <= i < |s.stacks| ==> IdsBelow(s.stacks[i], ID_LIMIT)
  }

  /** `cli_stackmap_dump_idsmap`. */
  method DumpIdsmap(m: StackMap)
    requires m.Valid() && SmallIds(m.Value())
    modifies m`dumpedIdsId, m.files`IdsDone, m.files.idsmap, m.files.idsmap.inputBuffer
    ensures m.Valid() && m.files.idsmap.inputSize == 0
    ensures m.Value() == old(m.Value()).(dumpedStacks := |old(m.Value()).stacks|)
  {
    assert OpenStore(0) && OpenTable(0) && OpenFiles(1);
    var id := m.dumpedIdsId;
    while id <= m.idsTable.nextId - 1
      invariant m.dumpedIdsId <= id <= m.idsTable.nextId
      invariant id == m.dumpedIdsId || (id == 1 && m.dumpedIdsId == 0)
      invariant m.Valid()
      invariant m.Value() == old(m.Value()).(dumpedStacks := m.Value().dumpedStacks)
    {
      if m.idsTable.byId[id].Some? {
        DumpIdsLine(m, id);
      }
      id := id + 1;
    }
  }

  /** Both dictionaries. */
  method DumpDictionaries(m: StackMap)
    requires m.Valid() && SmallIds(m.Value())
    modifies m, m.files`StrDone, m.files`IdsDone, m.files.strmap, m.files.strmap.inputBuffer, m.files.idsmap, m.files.idsmap.inputBuffer
    ensures m.Valid() && m.files.strmap.inputSize == 0 && m.files.idsmap.inputSize == 0
    ensures m.Value() == old(m.Value()).(dumpedStrs := |old(m.Value()).strs|, dumpedStacks := |old(m.Value()).stacks|)
    ensures m.wheel.Repr == old(m.wheel.Repr) && m.ArrayCaps() == old(m.ArrayCaps())
  {
    assert m.files.strmap != m.files.idsmap by {
      assert OpenStore(0);
    }
    DumpStrmap(m);
    DumpIdsmap(m);
  }

  method DumpFlushed(m: StackMap, handed: seq<Handed>, ghost out: seq<Interval>, ghost takeOk: seq<bool>)
    requires m.Valid() && handed == HandedOut(out, takeOk)
    modifies m.files`Records, m.files`Torn, m.files.stackmap, m.files.stackmap.inputBuffer
    ensures m.Valid()
    ensures m.Value() == old(m.Value()).(records := old(m.Value()).records + out + Guards(out),
                                         torn := old(m.Value()).torn + TornBy(out, takeOk) + GuardsWhole(out))
    ensures m.files.stackmap.inputSize == 0 || m.files.EndsTorn()
    ensures unchanged(m.files.strmap) && unchanged(m.files.idsmap)
  {
    assert OpenStore(0);
    m.files.DumpIntervals(handed, out, takeOk);
  }

  method FlushWheel(m: StackMap, nowMs: nat, flushAll: bool, takeOk: seq<bool>) returns (handed: seq<Handed>)
    requires m.Valid()
    modifies m.wheel.Repr
    ensures m.Valid() && m.wheel.Repr == old(m.wheel.Repr) && m.ArrayCaps() == old(m.ArrayCaps())
    ensures unchanged(m.files.strmap) && unchanged(m.files.idsmap)
    ensures var flushed := if flushAll then FlushAll(old(m.Value()).wheel) else FlushReady(old(m.Value()).wheel, nowMs);
            m.Value() == old(m.Value()).(wheel := flushed.0) && handed == HandedOut(IntervalsOf(flushed.1), takeOk)
  {
    assert OpenStore(0);
    if flushAll {
      handed := m.wheel.FlushAll(takeOk);
    } else {
      handed := m.wheel.FlushReady(nowMs, takeOk);
    }
  }

  /** `cli_stackmap_dump_delta_stack_common`: dictionaries first, then the flushed intervals. Afterwards both dictionaries have left their
      staging buffers, and so has stack.bin unless its last record is torn. */
  method DumpDelta(m: StackMap, nowMs: nat, flushAll: bool, takeOk: seq<bool>)
    requires m.Valid() && SmallIds(m.Value())
    modifies m, m.wheel.Repr, m.files.Repr()
    ensures m.wheel.Repr == old(m.wheel.Repr) && m.ArrayCaps() == old(m.ArrayCaps())
    ensures m.Valid() && m.files.strmap.inputSize == 0 && m.files.idsmap.inputSize == 0
    ensures m.files.stackmap.inputSize == 0 || m.files.EndsTorn()
    ensures m.Value() == if flushAll then DumpAll(old(m.Value()), takeOk) else DumpReady(old(m.Value()), nowMs, takeOk)
  {
    DumpDictionaries(m);
    ghost var w := m.Value().wheel;
    ghost var out := IntervalsOf((if flushAll then FlushAll(w) else FlushReady(w, nowMs)).1);
    var handed := FlushWheel(m, nowMs, flushAll, takeOk);
    DumpFlushed(m, handed, out, takeOk);
  }
}

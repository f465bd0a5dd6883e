/** What becomes of the calls of a run, decided from the calls and the memory they meet: which abstract operation each of them is, and
    whether the source loses an array on the way.
  */
module StorePlans {
  import opened Options
  import opened Items
  import opened Wheels
  import opened TimeWheels
  import opened Dictionary
  import opened Stores
  import opened StoreRuns
  import opened Interners
  import CountTables

  /** What the environment decides about one append: whether an overlong frame can be copied, whether memory for a new one can be had,
      and whether the by-id array and the current stack can be enlarged. */
  datatype Luck = Luck(dupOk: bool, allocOk: bool, growOk: bool, idsOk: bool)

  /** One call with what the environment decides about it. */
  datatype Input =
    | PutFrame(frame: Frame, luck: Luck)
    | Turn
    | CutTo(index: nat)
    | Finish(count: nat, ms: nat, internOk: bool, growOk: bool, l: AddLuck)
    | DumpNow(nowMs: nat, takeOk: seq<bool>)
    | DumpRest(takeOk: seq<bool>)

  /** The slots of the bucket array and of the array of the stack under construction. */
  datatype Caps = Caps(buckets: nat, ids: nat)

  const FIRST_CAPS := Caps(INITIAL_BUCKETS, DEFAULT_IDS_LEN)

  ghost predicate NewFrame(s: Store, frame: Frame) {
    Position(s.strs, Bounded(frame)) == |s.strs|
  }

  ghost predicate NewStack(s: Store) {
    Position(s.stacks, s.current) == |s.stacks|
  }

  /** How appending a frame ends. The last two are what the source calls fatal: the frame has its id, but the by-id array of frames, or
      the array of the stack under construction, could not be enlarged and cannot be used any more. */
  datatype AppendOutcome = Appended | NotAppended | FrameStranded | StackGone

  ghost function AppendFate(s: Store, c: Caps, frame: Frame, l: Luck): AppendOutcome {
    if |frame| >= FRAME_MAX_LEN && !l.dupOk then NotAppended
    else if NewFrame(s, frame) && !l.allocOk then NotAppended
    else if NewFrame(s, frame) && TableFull(|s.strs|) && !l.growOk then FrameStranded
    else if |s.current| >= c.ids && !l.idsOk then StackGone
    else Appended
  }

  /** How finishing a stack ends; nothing when the by-id array of stacks could not be enlarged. */
  ghost function DoneFate(s: Store, c: Caps, ms: nat, internOk: bool, growOk: bool, l: AddLuck): Option<DoneOutcome> {
    if NewStack(s) && !internOk then Some(NotInterned)
    else if NewStack(s) && TableFull(|s.stacks|) && !growOk then None
    else Some(Counted(AddFate(s.wheel, c.buckets, ms, CurrentId(s), l)))
  }

  ghost function AppendCaps(s: Store, c: Caps): Caps {
    c.(ids := if |s.current| >= c.ids then 2 * c.ids else c.ids)
  }

  ghost function DoneCaps(s: Store, c: Caps, ms: nat, l: AddLuck): Caps {
    c.(buckets := CapAfter(s.wheel.buckets, c.buckets, PlacedSec(s.wheel, ms), l))
  }

  /** What one call comes to: an operation, or the loss of an array. */
  datatype Verdict = Goes(op: StoreOp, caps: Caps) | Breaks

  ghost function Judge(s: Store, c: Caps, i: Input): Verdict {
    match i
    case PutFrame(frame, l) =>
      (match AppendFate(s, c, frame, l)
       case Appended => Goes(Append(frame, true), AppendCaps(s, c))
       case NotAppended => Goes(Append(frame, false), c)
       case _ => Breaks)
    case Turn => Goes(Reverse, c)
    case CutTo(index) => Goes(Reset(index), c)
    case Finish(count, ms, internOk, growOk, l) =>
      (match DoneFate(s, c, ms, internOk, growOk, l)
       case None => Breaks
       case Some(o) => Goes(Done(count, ms, o), if o.Counted? then DoneCaps(s, c, ms, l) else c))
    case DumpNow(nowMs, takeOk) => Goes(Timed(nowMs, takeOk), c)
    case DumpRest(takeOk) => Goes(Final(takeOk), c)
  }

  datatype Course = Course(ops: seq<StoreOp>, caps: Caps)

  /** What a run of calls comes to; nothing when an array is lost on the way. */
  ghost function Plan(holdMs: nat, inputs: seq<Input>): Option<Course> {
    if inputs == [] then Some(Course([], FIRST_CAPS))
    else
      match Plan(holdMs, inputs[..|inputs| - 1])
      case None => None
      case Some(p) =>
        match Judge(StoreExec(holdMs, p.ops).store, p.caps, inputs[|inputs| - 1])
        case Breaks => None
        case Goes(op, caps) => Some(Course(p.ops + [op], caps))
  }

  lemma {:induction false} PlanStep(holdMs: nat, inputs: seq<Input>, i: nat, p: Course)
    requires i < |inputs| && Plan(holdMs, inputs[..i]) == Some(p)
    ensures var v := Judge(StoreExec(holdMs, p.ops).store, p.caps, inputs[i]);
            Plan(holdMs, inputs[..i + 1]) == if v.Goes? then Some(Course(p.ops + [v.op], v.caps)) else None
  {
    assert inputs[..i + 1][..i] == inputs[..i];
  }

  /** Once an array is lost the run is over. */
  lemma {:induction false} LostStays(holdMs: nat, inputs: seq<Input>, i: nat)
    requires i <= |inputs| && Plan(holdMs, inputs[..i]).None?
    ensures Plan(holdMs, inputs).None?
  {
    if i == |inputs| {
      assert inputs[..i] == inputs;
    } else {
      var n := |inputs| - 1;
      assert inputs[..n][..i] == inputs[..i];
      LostStays(holdMs, inputs[..n], i);
    }
  }

  // ---------------------------------------------------------------------------------------------
  // What the operations have in common with the calls, whatever the memory

  ghost predicate Realises(i: Input, op: StoreOp) {
    match i
    case PutFrame(frame, _) => op.Append? && op.frame == frame
    case Turn => op == Reverse
    case CutTo(index) => op == Reset(index)
    case Finish(count, ms, _, _, _) => op.Done? && op.count == count && op.ms == ms
    case DumpNow(nowMs, takeOk) => op == Timed(nowMs, takeOk)
    case DumpRest(takeOk) => op == Final(takeOk)
  }

  ghost predicate AllRealised(inputs: seq<Input>, ops: seq<StoreOp>) {
    |ops| == |inputs| && forall i :: 0 <= i < |inputs| ==> Realises(inputs[i], ops[i])
  }

  lemma {:induction false} JudgedRealises(s: Store, c: Caps, i: Input)
    ensures var v := Judge(s, c, i); v.Goes? ==> Realises(i, v.op)
  {
  }

  lemma {:induction false} PlanRealises(holdMs: nat, inputs: seq<Input>)
    ensures var p := Plan(holdMs, inputs); p.Some? ==> AllRealised(inputs, p.value.ops)
  {
    if inputs != [] {
      var n := |inputs| - 1;
      PlanRealises(holdMs, inputs[..n]);
      var before := Plan(holdMs, inputs[..n]);
      if before.Some? {
        JudgedRealises(StoreExec(holdMs, before.value.ops).store, before.value.caps, inputs[n]);
      }
    }
  }

  // ---------------------------------------------------------------------------------------------
  // With memory

  /** The arrays that the call may have to enlarge can be enlarged. */
  ghost predicate CanGrow(i: Input) {
    match i
    case PutFrame(_, l) => l.growOk && l.idsOk
    case Finish(_, _, _, growOk, _) => growOk
    case _ => true
  }

  lemma {:induction false} GrowingGoes(s: Store, c: Caps, i: Input)
    requires CanGrow(i)
    ensures Judge(s, c, i).Goes?
  {
  }

  /** A run loses no array as long as those that it has to enlarge can be enlarged. */
  lemma {:induction false} GrowingRunEnds(holdMs: nat, inputs: seq<Input>)
    requires forall i :: 0 <= i < |inputs| ==> CanGrow(inputs[i])
    ensures Plan(holdMs, inputs).Some?
  {
    if inputs != [] {
      var n := |inputs| - 1;
      GrowingRunEnds(holdMs, inputs[..n]);
      var p := Plan(holdMs, inputs[..n]).value;
      GrowingGoes(StoreExec(holdMs, p.ops).store, p.caps, inputs[n]);
    }
  }

  /** The call gets all the memory it asks for. */
  ghost predicate Lucky(i: Input) {
    match i
    case PutFrame(_, l) => l == Luck(true, true, true, true)
    case Finish(_, _, internOk, growOk, l) => internOk && growOk && l == AddLuck(true, true, true)
    case _ => true
  }

  /** What the caller wants. */
  function Intended(i: Input): StoreOp {
    match i
    case PutFrame(frame, _) => Append(frame, true)
    case Turn => Reverse
    case CutTo(index) => Reset(index)
    case Finish(count, ms, _, _, _) => Done(count, ms, Counted(Added))
    case DumpNow(nowMs, takeOk) => Timed(nowMs, takeOk)
    case DumpRest(takeOk) => Final(takeOk)
  }

  function AllIntended(inputs: seq<Input>): (ops: seq<StoreOp>)
    ensures |ops| == |inputs| && forall i :: 0 <= i < |inputs| ==> ops[i] == Intended(inputs[i])
  {
    seq(|inputs|, i requires 0 <= i < |inputs| => Intended(inputs[i]))
  }

  /** A table is out of slots only from here on. */
  const TABLE_LIMIT: nat := 0x6000_0000

  /** With memory a table takes any id until it holds 3 * 2^29 - 1 entries. */
  lemma {:induction false} RoomBelow(items: seq<Item>, id: nat)
    requires |items| + 1 < TABLE_LIMIT
    ensures !CountTables.NoRoom(items, CountTables.CapFor(|items|), id, true)
  {
  }

  ghost predicate SmallTables(s: Store) {
    forall i :: 0 <= i < |s.wheel.buckets| ==> |s.wheel.buckets[i].items| + 1 < TABLE_LIMIT
  }

  lemma {:induction false} LuckyJudged(s: Store, c: Caps, i: Input)
    requires Lucky(i) && SmallTables(s)
    ensures var v := Judge(s, c, i); v.Goes? && v.op == Intended(i)
  {
    if i.Finish? {
      var k := FindBucket(s.wheel.buckets, PlacedSec(s.wheel, i.ms));
      if k < |s.wheel.buckets| {
        RoomBelow(s.wheel.buckets[k].items, CurrentId(s));
      }
    }
  }
}

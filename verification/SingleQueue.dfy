/** The single-producer, single-consumer ring of src/cli_queue_helper/cli_single_queue.c: positions in the ring,
    the queue as an object, and every interleaving of its two threads.
  */
module RingPositions {
  import opened Bits

  /** The position after `t`, with the mask when the size is a power of two and the remainder otherwise. */
  function NextIndex(size: nat, t: nat): nat
    requires size > 0
  {
    if IsPowerOfTwo(size) then And(t + 1, size - 1) else (t + 1) % size
  }

  /** Both forms of wrap-around agree: the next position, or zero after the last one. */
  lemma {:induction false} NextWraps(size: nat, t: nat)
    requires t < size
    ensures NextIndex(size, t) == if t + 1 == size then 0 else t + 1
  {
    if IsPowerOfTwo(size) {
      MaskIsMod(t + 1, size);
    }
    if t + 1 == size {
      ModUnique(t + 1, size, 1, 0);
    } else {
      ModUnique(t + 1, size, 0, t + 1);
    }
  }

  /** The slot of the `n`-th item ever pushed. */
  function Slot(size: nat, n: nat): (s: nat)
    requires size > 0
    ensures s < size
  {
    if n == 0 then 0
    else var t := Slot(size, n - 1); if t + 1 == size then 0 else t + 1
  }

  lemma {:induction false} SlotNext(size: nat, n: nat)
    requires size > 0
    ensures Slot(size, n + 1) == NextIndex(size, Slot(size, n))
  {
    NextWraps(size, Slot(size, n));
  }

  lemma {:induction false} SlotAhead(size: nat, n: nat, d: nat)
    requires d <= size && size > 0
    ensures var t := Slot(size, n) + d;
            Slot(size, n + d) == if t < size then t else t - size
  {
    if d > 0 {
      SlotAhead(size, n, d - 1);
    }
  }

  /** Fewer than `size` consecutive items never share a slot. */
  lemma {:induction false} SlotsApart(size: nat, m: nat, n: nat)
    requires m < n < m + size
    ensures Slot(size, m) != Slot(size, n)
  {
    SlotAhead(size, m, n - m);
  }

  /** `queue_count` on the two positions. */
  function Occupancy(size: nat, head: nat, tail: nat): int {
    if tail >= head then tail - head else size - head + tail
  }

  lemma {:induction false} OccupancyIsLength(size: nat, c: nat, p: nat)
    requires c <= p < c + size
    ensures Occupancy(size, Slot(size, c), Slot(size, p)) == p - c
  {
    SlotAhead(size, c, p - c);
  }
}

/** The queue used by one thread at a time. */
module SingleQueues {
  import opened Bits
  import opened Options
  import opened RingPositions

  class SingleQueue<T> {
    /** How many items were ever popped, and all items ever pushed. */
    ghost var Popped: nat
    ghost var Pushed: seq<T>

    const data: array<Option<T>>
    var head: nat
    var tail: nat
    const size: nat
    const mask: nat
    const isPowerOfTwo: bool

    ghost predicate Valid()
      reads this, data
    {
      && 0 < size == data.Length < U32
      && isPowerOfTwo == IsPowerOfTwo(size)
      && mask == (if isPowerOfTwo then size - 1 else 0)
      && Popped <= |Pushed| < Popped + size
      && head == Slot(size, Popped) && tail == Slot(size, |Pushed|)
      && forall i :: Popped <= i < |Pushed| ==> data[Slot(size, i)] == Some(Pushed[i])
    }

    /** The items queued, first in first. */
    ghost function Contents(): seq<T>
      reads this
      requires Popped <= |Pushed|
    {
      Pushed[Popped..]
    }

    constructor (size: nat)
      requires 0 < size < U32
      ensures Valid() && fresh(data) && this.size == size && Contents() == []
    {
      this.size := size;
      isPowerOfTwo := IsPowerOfTwo(size);
      mask := if IsPowerOfTwo(size) then size - 1 else 0;
      data := new Option<T>[size](_ => None);
      head, tail := 0, 0;
      Popped, Pushed := 0, [];
    }

    method Advance(t: nat) returns (next: nat)
      requires Valid() && t < size
      ensures next == NextIndex(size, t)
    {
      if isPowerOfTwo {
        next := And(t + 1, mask);
      } else {
        next := (t + 1) % size;
      }
    }

    /** `queue_push`: fails exactly when `size - 1` items are queued. */
    method Push(item: T) returns (ok: bool)
      requires Valid()
      modifies this`tail, this`Pushed, data
      ensures Valid()
      ensures ok <==> |old(Contents())| < size - 1
      ensures Contents() == if ok then old(Contents()) + [item] else old(Contents())
    {
      var nextTail := Advance(tail);
      SlotNext(size, |Pushed|);
      OccupancyIsLength(size, Popped, |Pushed|);
      SlotAhead(size, Popped, |Pushed| + 1 - Popped);
      if nextTail == head {
        return false;
      }
      ghost var before := Pushed;
      forall i | Popped <= i < |Pushed|
        ensures Slot(size, i) != tail && data[Slot(size, i)] == Some(before[i])
      {
        SlotsApart(size, i, |Pushed|);
      }
      data[tail] := Some(item);
      tail := nextTail;
      Pushed := Pushed + [item];
      ok := true;
    }

    /** `queue_pop`. */
    method Pop() returns (item: Option<T>)
      requires Valid()
      modifies this`head, this`Popped
      ensures Valid()
      ensures item.None? <==> old(Contents()) == []
      ensures item.None? ==> Contents() == []
      ensures item.Some? ==> old(Contents()) == [item.value] + Contents()
    {
      OccupancyIsLength(size, Popped, |Pushed|);
      if head == tail {
        return None;
      }
      item := data[head];
      var nextHead := Advance(head);
      SlotNext(size, Popped);
      head := nextHead;
      Popped := Popped + 1;
    }

    /** `queue_peek`. */
    method Peek() returns (item: Option<T>)
      requires Valid()
      ensures item == if Contents() == [] then None else Some(Contents()[0])
    {
      OccupancyIsLength(size, Popped, |Pushed|);
      if head == tail {
        return None;
      }
      item := data[head];
    }

    /** `queue_count` with no push or pop under way. */
    method Count() returns (n: int)
      requires Valid()
      ensures n == |Contents()|
    {
      OccupancyIsLength(size, Popped, |Pushed|);
      if tail >= head {
        n := tail - head;
      } else {
        n := size - head + tail;
      }
    }
  }
}

/** The queue used by its producer and its consumer at once. Each atomic access, and each access to a slot, is one step;
    the two threads may interleave their steps in any way. */
module RingRuns {
  import opened Options
  import opened RingPositions

  /** Where the producer stands inside `queue_push`. */
  datatype Producer<T> =
    | Idle
    | TailLoaded(item: T, tail: nat)
    | RoomSeen(item: T, tail: nat)
    | Written(item: T, tail: nat)

  /** Where the consumer stands inside `queue_pop` or `queue_peek`. */
  datatype Consumer<T> =
    | Resting
    | HeadLoaded(head: nat, peek: bool)
    | ItemSeen(head: nat, peek: bool)
    | Taken(head: nat, item: Option<T>)

  datatype Ring<T> = Ring(size: nat, head: nat, tail: nat, slots: seq<Option<T>>,
                          producer: Producer<T>, consumer: Consumer<T>,
                          pushed: seq<T>, popped: seq<Option<T>>, peeked: seq<Peeked<T>>)

  /** What a peek returned and how many items had been popped before it. */
  datatype Peeked<T> = Peeked(at: nat, item: Option<T>)

  datatype Action<T> = PushBegin(item: T) | PushCheck | PushWrite | PushPublish
                     | PopBegin(peek: bool) | PopCheck | PopRead | PopPublish

  function NewRing<T>(size: nat): Ring<T> {
    Ring(size, 0, 0, seq(size, _ => None), Idle, Resting, [], [], [])
  }

  function ProducerStep<T>(r: Ring<T>, a: Action<T>): Ring<T>
    requires r.size > 0
  {
    match a
    case PushBegin(item) => if r.producer.Idle? then r.(producer := TailLoaded(item, r.tail)) else r
    case PushCheck =>
      if !r.producer.TailLoaded? then r
      else if NextIndex(r.size, r.producer.tail) == r.head then r.(producer := Idle)
      else r.(producer := RoomSeen(r.producer.item, r.producer.tail))
    case PushWrite =>
      if r.producer.RoomSeen? && r.producer.tail < |r.slots|
      then r.(slots := r.slots[r.producer.tail := Some(r.producer.item)], producer := Written(r.producer.item, r.producer.tail))
      else r
    case PushPublish =>
      if r.producer.Written?
      then r.(tail := NextIndex(r.size, r.producer.tail), pushed := r.pushed + [r.producer.item], producer := Idle)
      else r
    case _ => r
  }

  function ConsumerStep<T>(r: Ring<T>, a: Action<T>): Ring<T>
    requires r.size > 0
  {
    match a
    case PopBegin(peek) => if r.consumer.Resting? then r.(consumer := HeadLoaded(r.head, peek)) else r
    case PopCheck =>
      if !r.consumer.HeadLoaded? then r
      else if r.consumer.head == r.tail then r.(consumer := Resting)
      else r.(consumer := ItemSeen(r.consumer.head, r.consumer.peek))
    case PopRead =>
      if r.consumer.ItemSeen? && r.consumer.head < |r.slots| then
        var item := r.slots[r.consumer.head];
        if r.consumer.peek then r.(peeked := r.peeked + [Peeked(|r.popped|, item)], consumer := Resting)
        else r.(consumer := Taken(r.consumer.head, item))
      else r
    case PopPublish =>
      if r.consumer.Taken?
      then r.(head := NextIndex(r.size, r.consumer.head), popped := r.popped + [r.consumer.item], consumer := Resting)
      else r
    case _ => r
  }

  /** One step of either thread; a step that its thread is not ready for changes nothing. */
  function Step<T>(r: Ring<T>, a: Action<T>): Ring<T>
    requires r.size > 0
  {
    if a.PushBegin? || a.PushCheck? || a.PushWrite? || a.PushPublish? then ProducerStep(r, a) else ConsumerStep(r, a)
  }

  function Run<T>(size: nat, actions: seq<Action<T>>): (r: Ring<T>)
    requires size > 0
    ensures r.size == size
  {
    if actions == [] then NewRing(size) else Step(Run(size, actions[..|actions| - 1]), actions[|actions| - 1])
  }

  // ---------------------------------------------------------------------------------------------
  // The invariant

  ghost predicate Held<T>(slots: seq<Option<T>>, pushed: seq<T>, i: nat)
    requires slots != [] && i < |pushed|
  {
    slots[Slot(|slots|, i)] == Some(pushed[i])
  }

  ghost predicate Positions<T>(r: Ring<T>) {
    && r.size > 0 && |r.slots| == r.size
    && |r.popped| <= |r.pushed| < |r.popped| + r.size
    && r.head == Slot(r.size, |r.popped|) && r.tail == Slot(r.size, |r.pushed|)
  }

  ghost predicate ProducerOk<T>(r: Ring<T>)
    requires Positions(r)
  {
    match r.producer
    case Idle => true
    case TailLoaded(_, tail) => tail == r.tail
    case RoomSeen(_, tail) => tail == r.tail && |r.pushed| + 1 < |r.popped| + r.size
    case Written(item, tail) => tail == r.tail && |r.pushed| + 1 < |r.popped| + r.size && r.slots[tail] == Some(item)
  }

  ghost predicate ConsumerOk<T>(r: Ring<T>)
    requires Positions(r)
  {
    match r.consumer
    case Resting => true
    case HeadLoaded(head, _) => head == r.head
    case ItemSeen(head, _) => head == r.head && |r.popped| < |r.pushed|
    case Taken(head, item) => head == r.head && |r.popped| < |r.pushed| && item == Some(r.pushed[|r.popped|])
  }

  ghost predicate PoppedOk<T>(r: Ring<T>) {
    |r.popped| <= |r.pushed| && forall i :: 0 <= i < |r.popped| ==> r.popped[i] == Some(r.pushed[i])
  }

  ghost predicate PeekedOk<T>(r: Ring<T>) {
    forall i :: 0 <= i < |r.peeked| ==>
      r.peeked[i].at < |r.pushed| && r.peeked[i].item == Some(r.pushed[r.peeked[i].at])
  }

  ghost predicate SlotsOk<T>(r: Ring<T>)
    requires Positions(r)
  {
    forall i :: |r.popped| <= i < |r.pushed| ==> Held(r.slots, r.pushed, i)
  }

  ghost predicate RingOk<T>(r: Ring<T>) {
    Positions(r) && ProducerOk(r) && ConsumerOk(r) && PoppedOk(r) && PeekedOk(r) && SlotsOk(r)
  }

  lemma {:induction false} WriteKeepsSlots<T>(r: Ring<T>)
    requires RingOk(r) && r.producer.RoomSeen?
    ensures RingOk(ProducerStep(r, PushWrite))
  {
    var r' := ProducerStep(r, PushWrite);
    forall i | |r.popped| <= i < |r.pushed|
      ensures Held(r'.slots, r'.pushed, i)
    {
      assert Held(r.slots, r.pushed, i);
      SlotsApart(r.size, i, |r.pushed|);
    }
  }

  lemma {:induction false} PublishKeepsSlots<T>(r: Ring<T>)
    requires RingOk(r) && r.producer.Written?
    ensures RingOk(ProducerStep(r, PushPublish))
  {
    var r' := ProducerStep(r, PushPublish);
    SlotNext(r.size, |r.pushed|);
    forall i | |r.popped| <= i < |r'.pushed|
      ensures Held(r'.slots, r'.pushed, i)
    {
      if i < |r.pushed| {
        assert Held(r.slots, r.pushed, i);
      }
    }
  }

  lemma {:induction false} PushCheckKeepsOk<T>(r: Ring<T>)
    requires RingOk(r)
    ensures RingOk(ProducerStep(r, PushCheck))
  {
    SlotNext(r.size, |r.pushed|);
    SlotAhead(r.size, |r.popped|, |r.pushed| + 1 - |r.popped|);
  }

  lemma {:induction false} PopCheckKeepsOk<T>(r: Ring<T>)
    requires RingOk(r)
    ensures RingOk(ConsumerStep(r, PopCheck))
  {
    if |r.popped| < |r.pushed| {
      SlotsApart(r.size, |r.popped|, |r.pushed|);
    }
  }

  lemma {:induction false} ReadKeepsOk<T>(r: Ring<T>)
    requires RingOk(r)
    ensures RingOk(ConsumerStep(r, PopRead))
  {
    if r.consumer.ItemSeen? {
      assert Held(r.slots, r.pushed, |r.popped|);
    }
  }

  lemma {:induction false} PopKeepsOk<T>(r: Ring<T>)
    requires RingOk(r)
    ensures RingOk(ConsumerStep(r, PopPublish))
  {
    var r' := ConsumerStep(r, PopPublish);
    if r.consumer.Taken? {
      SlotNext(r.size, |r.popped|);
      forall i | |r'.popped| <= i < |r.pushed|
        ensures Held(r'.slots, r'.pushed, i)
      {
        assert Held(r.slots, r.pushed, i);
      }
    }
  }

  lemma {:induction false} StepKeepsOk<T>(r: Ring<T>, a: Action<T>)
    requires RingOk(r)
    ensures RingOk(Step(r, a))
  {
    match a
    case PushBegin(_) =>
    case PushCheck => PushCheckKeepsOk(r);
    case PushWrite => if r.producer.RoomSeen? { WriteKeepsSlots(r); }
    case PushPublish => if r.producer.Written? { PublishKeepsSlots(r); }
    case PopBegin(_) =>
    case PopCheck => PopCheckKeepsOk(r);
    case PopRead => ReadKeepsOk(r);
    case PopPublish => PopKeepsOk(r);
  }

  lemma {:induction false} RunOk<T>(size: nat, actions: seq<Action<T>>)
    requires size > 0
    ensures RingOk(Run(size, actions))
  {
    if actions != [] {
      RunOk(size, actions[..|actions| - 1]);
      StepKeepsOk(Run(size, actions[..|actions| - 1]), actions[|actions| - 1]);
    }
  }

  // ---------------------------------------------------------------------------------------------
  // What it gives

  /** A queue refines a FIFO of capacity `size - 1` under every interleaving: what was popped is a prefix of what was
      pushed, every peek saw the item that was then first, no unwritten slot was read, at most `size - 1` items wait, and
      the two positions count them. */
  lemma {:induction false} RunIsFifo<T>(size: nat, actions: seq<Action<T>>)
    requires size > 0
    ensures var r := Run(size, actions);
            && |r.popped| <= |r.pushed| <= |r.popped| + (size - 1)
            && (forall i :: 0 <= i < |r.popped| ==> r.popped[i] == Some(r.pushed[i]))
            && (forall i :: 0 <= i < |r.peeked| ==> r.peeked[i].at < |r.pushed| && r.peeked[i].item == Some(r.pushed[r.peeked[i].at]))
            && Occupancy(size, r.head, r.tail) == |r.pushed| - |r.popped|
  {
    RunOk(size, actions);
    var r := Run(size, actions);
    OccupancyIsLength(size, |r.popped|, |r.pushed|);
  }

  /** A push reports a full queue exactly when `size - 1` items wait at the moment it loads the head, and a pop reports
      an empty one exactly when none waits at the moment it loads the tail. */
  lemma {:induction false} AnswersAreExact<T>(size: nat, actions: seq<Action<T>>)
    requires size > 0
    ensures var r := Run(size, actions);
            && (r.producer.TailLoaded? ==> (Step(r, PushCheck).producer.Idle? <==> |r.pushed| - |r.popped| == size - 1))
            && (r.consumer.HeadLoaded? ==> (Step(r, PopCheck).consumer.Resting? <==> |r.pushed| == |r.popped|))
  {
    RunOk(size, actions);
    var r := Run(size, actions);
    SlotNext(size, |r.pushed|);
    SlotAhead(size, |r.popped|, |r.pushed| + 1 - |r.popped|);
    OccupancyIsLength(size, |r.popped|, |r.pushed|);
  }

  /** The slot being written is never the slot being read, and the slot being read was written. */
  lemma {:induction false} NoSlotRace<T>(size: nat, actions: seq<Action<T>>)
    requires size > 0
    ensures var r := Run(size, actions);
            && (r.consumer.ItemSeen? ==> r.consumer.head < |r.slots| && r.slots[r.consumer.head].Some?)
            && (r.producer.RoomSeen? && r.consumer.ItemSeen? ==> r.producer.tail != r.consumer.head)
  {
    RunOk(size, actions);
    var r := Run(size, actions);
    if r.consumer.ItemSeen? {
      assert Held(r.slots, r.pushed, |r.popped|);
      SlotsApart(size, |r.popped|, |r.pushed|);
    }
  }
}

/** The pid tracker on the real heap (src/cpa_monitor/cpa_nobpf_unwinder_event.c): each locked section is proved to do what the step of the
    state machine says, so that every interleaving of them is one of its runs.
  */
module PidStores {
  import opened Bits
  import opened Markers
  import opened CounterHeaps
  import opened PidTrackers
  import opened PidHeaps
  import opened HeapOrder

  // ---------------------------------------------------------------------------------------------
  // Heap values and tracker states

  /** The store holds the values of the heap, with the epochs of the payloads. */
  ghost predicate Same(store: map<nat, Stored>, c: map<nat, nat>, last: map<nat, nat>) {
    forall q {:trigger OpenFold(q)} :: OpenFold(q) ==>
      && (forall k :: k in store <==> k in c)
      && forall k :: k in store ==> k in last && store[k] == Stored(c[k], last[k])
  }

  lemma {:induction false} DecayStore(s: Tracker, visited: seq<nat>, n: nat, k: nat)
    requires Distinct(visited) && n <= |visited|
    ensures var s' := DecayAll(s, visited, n);
            && s'.epoch == s.epoch && (k in s'.store <==> k in s.store)
            && (k in s.store && !Among(visited, n, k) ==> s'.store[k] == s.store[k])
            && (k in s.store && Among(visited, n, k) ==> s'.store[k] == Stored(Decayed(s.store[k].value, Age(s, s.store[k])), s.store[k].last))
  {
    if n > 0 {
      DecayStore(s, visited, n - 1, k);
      assert Among(visited, n, k) <==> Among(visited, n - 1, k) || visited[n - 1] == k;
      if visited[n - 1] == k {
        assert !Among(visited, n - 1, k);
      }
    }
  }

  lemma {:induction false} DecaysTogether(s: Tracker, c: map<nat, nat>, last: map<nat, nat>, visited: seq<nat>)
    requires Same(s.store, c, last) && Distinct(visited)
    ensures Same(DecayAll(s, visited, |visited|).store, DecayedTo(c, s.epoch, last, visited, |visited|), last)
  {
    assert OpenFold(0);
    var s' := DecayAll(s, visited, |visited|);
    forall k
      ensures k in s'.store <==> k in c
      ensures k in s'.store ==> k in last && s'.store[k] == Stored(DecayedTo(c, s.epoch, last, visited, |visited|)[k], last[k])
    {
      DecayStore(s, visited, |visited|, k);
    }
  }

  lemma {:induction false} WithoutKeeps(c: map<nat, nat>, pids: seq<nat>, n: nat, k: nat)
    requires n <= |pids|
    ensures k in Without(c, pids, n) ==> k in c && Without(c, pids, n)[k] == c[k]
  {
    if n > 0 {
      WithoutKeeps(c, pids, n - 1, k);
    }
  }

  lemma {:induction false} PopsTogether(s: Tracker, c: map<nat, nat>, last: map<nat, nat>, pids: seq<nat>, n: nat)
    requires s.timer.Probing? && Same(s.store, c, last) && n <= |pids|
    ensures Same(PopAll(s, pids, n).store, Without(c, pids, n), last)
  {
    if n > 0 {
      PopsTogether(s, c, last, pids, n - 1);
      SameWithout(PopAll(s, pids, n - 1).store, Without(c, pids, n - 1), last, pids[n - 1]);
    }
  }

  lemma {:induction false} SameWithout(store: map<nat, Stored>, c: map<nat, nat>, last: map<nat, nat>, pid: nat)
    requires Same(store, c, last)
    ensures pid in store ==> Same(store - {pid}, c - {pid}, last)
    ensures pid !in store ==> Same(store, c - {pid}, last)
  {
    assert OpenFold(0);
  }

  lemma {:induction false} SameAt(store: map<nat, Stored>, c: map<nat, nat>, last: map<nat, nat>, pid: nat)
    requires Same(store, c, last)
    ensures (pid in store <==> pid in c) && (pid in c ==> pid in last && store[pid] == Stored(c[pid], last[pid]))
  {
    assert OpenFold(0);
  }

  lemma {:induction false} SameWith(store: map<nat, Stored>, c: map<nat, nat>, last: map<nat, nat>, pid: nat, value: nat, epoch: nat)
    requires Same(store, c, last)
    ensures Same(store[pid := Stored(value, epoch)], c[pid := value], last[pid := epoch])
  {
    assert OpenFold(0);
  }

  /** The pids with their values, in the order in which they were taken. */
  ghost predicate HeldAre(held: seq<Held>, c: map<nat, nat>, pids: seq<nat>, n: nat)
    requires n <= |pids|
  {
    |held| == n && forall i :: 0 <= i < n ==> pids[i] in c && held[i] == Held(pids[i], c[pids[i]])
  }

  /** The next pid taken has the value that it had at the start. */
  lemma {:induction false} NextTaken(c: map<nat, nat>, pids: seq<nat>, n: nat)
    requires n < |pids| && TakenInOrder(c, pids)
    ensures pids[n] in c && pids[n] in Without(c, pids, n) && Without(c, pids, n)[pids[n]] == c[pids[n]]
  {
    LeastTaken(c, pids, n);
    WithoutKeeps(c, pids, n, pids[n]);
  }

  lemma {:induction false} PopHolds(s: Tracker, v: nat, c: map<nat, nat>, pids: seq<nat>, n: nat)
    requires s.timer.Probing? && n < |pids| && HeldAre(s.timer.todo, c, pids, n) && pids[n] in c && c[pids[n]] == v
    requires pids[n] in s.store && s.store[pids[n]].value == v
    ensures HeldAre(PopOne(s, pids[n]).timer.todo, c, pids, n + 1)
  {
  }

  lemma {:induction false} PopValue(s: Tracker, c: map<nat, nat>, last: map<nat, nat>, pids: seq<nat>, n: nat)
    requires s.timer.Probing? && Same(s.store, c, last) && n < |pids| && TakenInOrder(c, pids)
    ensures var store := PopAll(s, pids, n).store; pids[n] in c && pids[n] in store && store[pids[n]].value == c[pids[n]]
  {
    PopsTogether(s, c, last, pids, n);
    NextTaken(c, pids, n);
    SameAt(PopAll(s, pids, n).store, Without(c, pids, n), last, pids[n]);
  }

  lemma {:induction false} PopsHold(s: Tracker, c: map<nat, nat>, last: map<nat, nat>, pids: seq<nat>, n: nat)
    requires s.timer.Probing? && s.timer.todo == [] && Same(s.store, c, last) && n <= |pids| && TakenInOrder(c, pids)
    ensures HeldAre(PopAll(s, pids, n).timer.todo, c, pids, n)
  {
    if n > 0 {
      PopsHold(s, c, last, pids, n - 1);
      PopValue(s, c, last, pids, n - 1);
      PopHolds(PopAll(s, pids, n - 1), c[pids[n - 1]], c, pids, n - 1);
    }
  }

  lemma {:induction false} PopsLeave(s: Tracker, pids: seq<nat>, n: nat)
    requires s.timer.Probing? && n <= |pids|
    ensures var s' := PopAll(s, pids, n);
            s' == s.(store := s'.store, timer := s.timer.(todo := s'.timer.todo))
  {
    if n > 0 {
      PopsLeave(s, pids, n - 1);
    }
  }

  lemma {:induction false} SameLeast(store: map<nat, Stored>, c: map<nat, nat>, last: map<nat, nat>, pid: nat)
    requires Same(store, c, last)
    ensures LeastIn(c, pid) ==> IsLeast(store, pid)
    ensures c == map[] ==> store == map[]
    ensures store.Keys == c.Keys
  {
    assert OpenFold(0);
  }

  /** What the heap yields is what the state machine allows. */
  lemma {:induction false} HeapPopsAllowed(s: Tracker, c: map<nat, nat>, last: map<nat, nat>, pids: seq<nat>)
    requires s.timer.Probing? && Same(s.store, c, last)
    requires |pids| <= POP_LIMIT && TakenInOrder(c, pids) && (|pids| < POP_LIMIT ==> Without(c, pids, |pids|) == map[])
    ensures PopsAllowed(s, pids)
  {
    forall n | 0 <= n < |pids|
      ensures IsLeast(PopAll(s, pids, n).store, pids[n])
    {
      PopsTogether(s, c, last, pids, n);
      LeastTaken(c, pids, n);
      SameLeast(PopAll(s, pids, n).store, Without(c, pids, n), last, pids[n]);
    }
    PopsTogether(s, c, last, pids, |pids|);
    SameLeast(PopAll(s, pids, |pids|).store, Without(c, pids, |pids|), last, 0);
  }

  /** The payload epochs after the first `n` live pids were put back. */
  function LastTo(last: map<nat, nat>, held: seq<Held>, epoch: nat, n: nat): map<nat, nat>
    requires n <= |held|
  {
    if n == 0 then last else LastTo(last, held, epoch, n - 1)[held[n - 1].pid := epoch]
  }

  lemma {:induction false} ReturnsTogether(s: Tracker, c: map<nat, nat>, last: map<nat, nat>, held: seq<Held>, pushOk: seq<bool>, n: nat)
    requires Same(s.store, c, last) && n <= |held|
    ensures var s' := ReturnAll(s, held, pushOk, n);
            s'.epoch == s.epoch && s'.lookups == s.lookups && s'.retired == s.retired
            && Same(s'.store, Returned(c, held, pushOk, n), LastTo(last, held, s.epoch, n))
  {
    assert OpenFold(0);
    if n > 0 {
      ReturnsTogether(s, c, last, held, pushOk, n - 1);
    }
  }

  /** Decay and the beginning of a pass leave the rest alone. */
  ghost predicate DecayLeft(s: Tracker, b: Tracker) {
    b.epoch == s.epoch + 1 && b.lookups == s.lookups && b.retired == s.retired && b.timer == Probing([], [], 0)
  }

  lemma {:induction false} DecayLeaves(s: Tracker, visited: seq<nat>, n: nat)
    requires n <= |visited|
    ensures var s' := DecayAll(s, visited, n); s'.epoch == s.epoch && s'.lookups == s.lookups && s'.retired == s.retired
  {
    if n > 0 {
      DecayLeaves(s, visited, n - 1);
    }
  }

  /** The step that an action is. */
  ghost predicate Stepped(s: Tracker, a: Action, s': Tracker) {
    forall q {:trigger OpenFold(q)} :: OpenFold(q) ==> s' == Step(s, a)
  }

  ghost predicate Begun(s: Tracker, visited: seq<nat>, b: Tracker) {
    forall q {:trigger OpenFold(q)} :: OpenFold(q) ==> b == TickBegins(s, visited)
  }

  lemma {:induction false} DecayBegun(s: Tracker, c: map<nat, nat>, last: map<nat, nat>, visited: seq<nat>, ok: bool) returns (b: Tracker)
    requires Same(s.store, c, last) && Visits(s.store.Keys, visited, ok)
    ensures Begun(s, visited, b) && DecayLeft(s, b) && Same(b.store, DecayedTo(c, s.epoch + 1, last, visited, |visited|), last)
  {
    b := TickBegins(s, visited);
    assert Distinct(visited) by {
      assert OpenFold(0);
    }
    var d := s.(epoch := s.epoch + 1);
    DecaysTogether(d, c, last, visited);
    DecayLeaves(d, visited, |visited|);
  }

  ghost predicate PopsGive(b: Tracker, pids: seq<nat>, p: Tracker) {
    b.timer.Probing? && forall q {:trigger OpenFold(q)} :: OpenFold(q) ==> PopsAllowed(b, pids) && p == PopAll(b, pids, |pids|)
  }

  /** What popping from the heap comes to. */
  lemma {:induction false} TickMirrors(b: Tracker, c: map<nat, nat>, last: map<nat, nat>, pids: seq<nat>) returns (p: Tracker)
    requires b.timer == Probing([], [], 0) && Same(b.store, c, last)
    requires |pids| <= POP_LIMIT && TakenInOrder(c, pids) && (|pids| < POP_LIMIT ==> Without(c, pids, |pids|) == map[])
    ensures PopsGive(b, pids, p) && Same(p.store, Without(c, pids, |pids|), last)
    ensures p.timer.Probing? && HeldAre(p.timer.todo, c, pids, |pids|) && p == b.(store := p.store, timer := Probing(p.timer.todo, [], 0))
  {
    p := PopAll(b, pids, |pids|);
    HeapPopsAllowed(b, c, last, pids);
    PopsTogether(b, c, last, pids, |pids|);
    PopsHold(b, c, last, pids, |pids|);
    PopsLeave(b, pids, |pids|);
  }

  lemma {:induction false} HeldAreThose(held: seq<Held>, c: map<nat, nat>, popped: seq<Entry>)
    requires HeldAre(held, c, KeysOf(popped), |popped|)
    requires forall i :: 0 <= i < |popped| ==> popped[i].key in c && c[popped[i].key] == popped[i].value
    ensures held == HeldOf(popped)
  {
    forall i | 0 <= i < |popped|
      ensures held[i] == Held(popped[i].key, popped[i].value)
    {
      assert KeysOf(popped)[i] == popped[i].key;
    }
  }

  /** The state after popping: a pass that has popped nothing is over at once. */
  ghost predicate Rested(p: Tracker, s': Tracker) {
    && s'.store == p.store && s'.epoch == p.epoch && s'.retired == p.retired && s'.lookups == p.lookups
    && p.timer.Probing? && s'.timer == if p.timer.todo == [] then Resting else p.timer
  }

  /** The chunk at the cursor is visited, and the next one starts at `cursor`. */
  ghost predicate Chunked(r: Room, visited: seq<nat>, callocOk: bool, cursor: nat) {
    forall q {:trigger OpenFold(q)} :: OpenFold(q) ==>
      visited == ChunkOf(r.order, r.cursor, callocOk) && cursor == CursorAfter(|r.order|, r.cursor, PID_DECAY_BATCH, callocOk)
  }

  lemma {:induction false} TickIs(s: Tracker, r: Room, visited: seq<nat>, callocOk: bool, b: Tracker, pids: seq<nat>, p: Tracker, cursor: nat,
                                  r': Room)
    returns (s': Tracker)
    requires s.timer.Resting? && Visits(s.store.Keys, visited, callocOk) && Begun(s, visited, b) && PopsGive(b, pids, p) && p.timer.Probing?
    requires Chunked(r, visited, callocOk, cursor) && r' == Room(r.capacity, if r'.order == [] then 0 else cursor, r'.order)
    ensures Tied(s, r, Ticking(callocOk), PidTrackers.Tick(visited, pids), r') && Stepped(s, PidTrackers.Tick(visited, pids), s') && Rested(p, s')
  {
    assert OpenFold(0);
    s' := if p.timer.todo == [] then p.(timer := Resting) else p;
  }

  /** What putting the live pids back comes to. */
  lemma {:induction false} PutBackIs(s: Tracker, c: map<nat, nat>, last: map<nat, nat>, oks: seq<bool>) returns (s': Tracker)
    requires s.timer.Probing? && s.timer.todo == [] && Same(s.store, c, last)
    ensures Stepped(s, Reinsert(oks), s') && s'.timer.Resting?
    ensures s'.epoch == s.epoch && s'.lookups == s.lookups && s'.retired == s.retired + s.timer.dead
    ensures var held := s.timer.alive; Same(s'.store, Returned(c, held, oks, |held|), LastTo(last, held, s.epoch, |held|))
  {
    var held, r := s.timer.alive, s.(retired := s.retired + s.timer.dead, timer := Resting);
    s' := ReturnAll(r, held, oks, |held|);
    ReturnsTogether(r, c, last, held, oks, |held|);
    ReturnsKeepTimer(r, held, oks, |held|);
  }

  /** The timer after a probe. */
  function ProbedTimer(t: Timer, lives: bool, mallocOk: bool): Timer {
    if t.Resting? || t.todo == [] then t
    else if lives then Probing(t.todo[1..], t.alive + [t.todo[0]], t.dead)
    else if !mallocOk then Resting
    else Probing(t.todo[1..], t.alive, t.dead + 1)
  }

  lemma {:induction false} PoppedOutside(h: CounterHeap, popped: seq<Entry>)
    requires h.Valid() && forall i :: 0 <= i < |popped| ==> popped[i].key !in h.byKey
    ensures forall i :: 0 <= i < |popped| ==> popped[i] !in h.byKey.Values
  {
    forall i | 0 <= i < |popped|
      ensures popped[i] !in h.byKey.Values
    {
      if popped[i] in h.byKey.Values {
        var k :| k in h.byKey && h.byKey[k] == popped[i];
        h.KeyAt(k);
      }
    }
  }

  lemma {:induction false} SumAtLeast(held: seq<Held>, n: nat, i: nat)
    requires i < n <= |held|
    ensures Sum(held, n, held[i].pid) >= held[i].value
  {
    if i < n - 1 {
      SumAtLeast(held, n - 1, i);
    }
  }

  /** Live pids are different, and no sum overflows when they are put back. */
  lemma {:induction false} HeldFit(s: Tracker, c: map<nat, nat>, last: map<nat, nat>)
    requires TrackerOk(s) && Bounded(s) && s.timer.Probing? && s.timer.todo == [] && Same(s.store, c, last)
    ensures DistinctPids(s.timer.alive) && AllFit(c, s.timer.alive)
  {
    var held := s.timer.alive;
    assert held + [] == held;
    forall i | 0 <= i < |held|
      ensures Fits(c, held[i])
    {
      SumAtLeast(held, |held|, i);
      SameAt(s.store, c, last, held[i].pid);
      assert InStore(s.store, held[i].pid) + InTimer(s.timer, held[i].pid) + 1 < U64;
    }
  }

  // ---------------------------------------------------------------------------------------------
  // The sections

  /** One locked section, or one probe between them, with what the environment decides about it. */
  datatype Section =
    | Looking(t: nat, pid: nat)
    | Creating(t: nat, commOk: bool, reallocOk: bool, callocOk: bool)
    | Ticking(callocOk: bool)
    | Probed(alive: bool, mallocOk: bool)
    | PuttingBack(pushes: seq<bool>)

  /** What the state machine leaves out of the heap: its capacity, the cursor of the decay, and the pids in the order of the array. */
  datatype Room = Room(capacity: nat, cursor: nat, order: seq<nat>)

  /** The array lists the stored pids, each once, in heap order. */
  ghost predicate OrderOk(store: map<nat, Stored>, order: seq<nat>) {
    && Distinct(order) && (forall pid :: pid in store <==> pid in order)
    && forall i :: 0 < i < |order| ==> store[order[Parent(i)]].value <= store[order[i]].value
  }

  /** The second section of the lookup comes to the insertion of a new pid. */
  predicate Inserts(s: Tracker, t: nat, commOk: bool) {
    t < |s.lookups| && s.lookups[t].Missed? && commOk && s.lookups[t].pid !in s.store
  }

  /** What putting back does to the array. */
  function PuttingFills(s: Tracker, r: Room, pushes: seq<bool>): Fill
    requires s.timer.Probing?
  {
    Filled(s.store.Keys, Fill(|r.order|, r.capacity, []), s.timer.alive, pushes, |s.timer.alive|)
  }

  /** The step of the state machine that a section comes to, and what it does to the room. */
  ghost predicate Tied(s: Tracker, r: Room, x: Section, a: Action, r': Room) {
    forall q {:trigger OpenFold(q)} :: OpenFold(q) ==> Fitting(s, r, x, a, r')
  }

  ghost predicate Fitting(s: Tracker, r: Room, x: Section, a: Action, r': Room) {
    match x
    case Looking(t, pid) => a == Look(t, pid) && r' == r.(order := r'.order)
    case Creating(t, commOk, reallocOk, callocOk) =>
      && a == Create(t, commOk, callocOk && HasRoom(|r.order|, r.capacity, reallocOk))
      && CreateFits(s, r, t, commOk, reallocOk, r')
    case Ticking(callocOk) =>
      a.Tick? && if !s.timer.Resting? then r' == r else TickFits(s, r, callocOk, a.visited, a.popped, r')
    case Probed(alive, mallocOk) => a == Probe(alive, mallocOk) && r' == r
    case PuttingBack(pushes) =>
      if s.timer.Probing? && s.timer.todo == [] then
        a == Reinsert(PuttingFills(s, r, pushes).oks) && r' == Room(PuttingFills(s, r, pushes).capacity, r.cursor, r'.order)
      else a.Reinsert? && r' == r
  }

  /** The array grows when an insertion finds it full. */
  ghost predicate CreateFits(s: Tracker, r: Room, t: nat, commOk: bool, reallocOk: bool, r': Room) {
    r' == Room(if Inserts(s, t, commOk) then GrownCapacity(|r.order|, r.capacity, reallocOk) else r.capacity, r.cursor, r'.order)
  }

  /** The chunk at the cursor decays, and the cursor moves on; it starts again when nothing is left. */
  ghost predicate TickFits(s: Tracker, r: Room, callocOk: bool, visited: seq<nat>, popped: seq<nat>, r': Room) {
    && visited == ChunkOf(r.order, r.cursor, callocOk) && Visits(s.store.Keys, visited, callocOk)
    && PopsAllowed(TickBegins(s, visited), popped)
    && r' == Room(r.capacity, if r'.order == [] then 0 else CursorAfter(|r.order|, r.cursor, PID_DECAY_BATCH, callocOk), r'.order)
  }

  lemma {:induction false} PutBackTied(s: Tracker, r: Room, pushes: seq<bool>, oks: seq<bool>, r': Room)
    requires s.timer.Probing? && s.timer.todo == [] ==>
               && r' == Room(r'.capacity, r.cursor, r'.order)
               && FilledTo(s.store.Keys, Fill(|r.order|, r.capacity, []), s.timer.alive, pushes, |s.timer.alive|, Fill(|r'.order|, r'.capacity, oks))
    requires !(s.timer.Probing? && s.timer.todo == []) ==> r' == r
    ensures Tied(s, r, PuttingBack(pushes), Reinsert(oks), r')
  {
    assert OpenFold(0);
  }

  lemma {:induction false} ProbeIs(s: Tracker, r: Room, lives: bool, mallocOk: bool) returns (a: Action, s': Tracker)
    ensures Tied(s, r, Probed(lives, mallocOk), a, r) && Stepped(s, a, s')
    ensures s'.timer == ProbedTimer(s.timer, lives, mallocOk)
    ensures s'.store == s.store && s'.epoch == s.epoch && s'.retired == s.retired && s'.lookups == s.lookups
  {
    a := Probe(lives, mallocOk);
    s' := Step(s, a);
  }

  lemma {:induction false} LookIs(s: Tracker, r: Room, t: nat, pid: nat) returns (a: Action, s': Tracker)
    ensures forall r': Room :: r' == r.(order := r'.order) ==> Tied(s, r, Looking(t, pid), a, r')
    ensures Stepped(s, a, s') && s' == if t < |s.lookups| then LookStep(s, t, pid) else s
  {
    a := Look(t, pid);
    s' := Step(s, a);
  }

  lemma {:induction false} CreateIs(s: Tracker, r: Room, t: nat, commOk: bool, reallocOk: bool, callocOk: bool) returns (a: Action, s': Tracker)
    ensures forall r': Room :: CreateFits(s, r, t, commOk, reallocOk, r') ==> Tied(s, r, Creating(t, commOk, reallocOk, callocOk), a, r')
    ensures Stepped(s, a, s')
    ensures s' == if t < |s.lookups| then CreateStep(s, t, commOk, callocOk && HasRoom(|r.order|, r.capacity, reallocOk)) else s
  {
    a := Create(t, commOk, callocOk && HasRoom(|r.order|, r.capacity, reallocOk));
    s' := Step(s, a);
  }

  lemma {:induction false} PutBackWaits(s: Tracker, a: Action)
    requires a.Reinsert? && !(s.timer.Probing? && s.timer.todo == [])
    ensures Stepped(s, a, s)
  {
  }

  /** No value can overflow in one more step. */
  ghost predicate Bounded(s: Tracker) {
    forall pid :: InStore(s.store, pid) + InTimer(s.timer, pid) + 1 < U64
  }

  class PidStore {
    const heap: CounterHeap
    /** `last_epoch` of the payloads. */
    var last: map<nat, nat>
    var epoch: nat
    var retired: nat
    var cursor: nat
    /** Where each lookup stands between its sections. */
    var lookups: seq<Lookup>
    /** What the retire timer holds between its sections. */
    var probing: bool
    var todo: seq<Entry>
    var alive: seq<Entry>
    var dead: nat
    /** All entries that are in the heap or held by the timer, and perhaps others. */
    ghost var Mine: set<Entry>

    ghost predicate Owned()
      reads this`Mine, this`todo, this`alive, heap`byKey
    {
      && heap.byKey.Values <= Mine
      && (forall i :: 0 <= i < |todo| ==> todo[i] in Mine) && (forall i :: 0 <= i < |alive| ==> alive[i] in Mine)
    }

    constructor (threads: nat)
      ensures Mirrors(Run(threads, [])) && Owned() && fresh(heap) && Mine == {} && RoomNow() == Room(256, 0, [])
    {
      var h := new CounterHeap(256);
      heap := h;
      last, epoch, retired, cursor := map[], 0, 0, 0;
      lookups := seq(threads, _ => Free);
      probing, todo, alive, dead := false, [], [], 0;
      Mine := {};
    }

    ghost function RoomNow(): Room
      reads this`cursor, heap`capacity, heap`heap
    {
      Room(heap.capacity, cursor, KeysOf(heap.heap))
    }

    /** The array lists what the store holds. */
    lemma {:induction false} OrderIs(s: Tracker)
      requires Mirrors(s)
      ensures OrderOk(s.store, RoomNow().order)
    {
      assert OpenHeap(0) && OpenLinks(0) && OpenFold(0);
      var order, v := KeysOf(heap.heap), heap.Vals();
      forall pid
        ensures pid in s.store <==> pid in order
      {
        if pid in s.store {
          assert order[heap.byKey[pid].index] == pid;
        }
      }
      forall i | 0 <= i < |order|
        ensures order[i] in s.store && s.store[order[i]].value == v[i]
      {
        assert heap.byKey[order[i]] == heap.heap[i];
      }
      assert IsHeap(v);
    }

    /** The heap, the payloads and the counters. */
    ghost predicate HeapMirrors(store: map<nat, Stored>, e: nat, r: nat)
      reads this`last, this`epoch, this`retired, heap, heap.heap, heap.byKey.Values
    {
      heap.Valid() && Same(store, heap.Content(), last) && epoch == e && retired == r
    }

    /** The entries that the timer holds are not in the heap. */
    ghost predicate TimerOutside()
      reads this`todo, this`alive, heap`byKey
    {
      && (forall i :: 0 <= i < |todo| ==> todo[i] !in heap.byKey.Values)
      && (forall i :: 0 <= i < |alive| ==> alive[i] !in heap.byKey.Values)
    }

    ghost predicate TimerMirrors(t: Timer)
      reads this`probing, this`todo, this`alive, this`dead, todo, alive
    {
      forall q {:trigger OpenTimer(q)} :: OpenTimer(q) ==>
        && (probing ==> t == Probing(HeldOf(todo), HeldOf(alive), dead))
        && (!probing ==> t == Resting && todo == [] && alive == [])
    }

    ghost predicate Mirrors(s: Tracker)
      reads this, heap, heap.heap, heap.byKey.Values, todo, alive
    {
      HeapMirrors(s.store, s.epoch, s.retired) && lookups == s.lookups && TimerOutside() && TimerMirrors(s.timer)
    }

    /** A found entry is credited. */
    method Credited(e: Entry, ghost s: Tracker)
      requires Mirrors(s) && Bounded(s) && heap.Holds(e)
      modifies this`last, heap, heap.byKey.Values
      ensures e.key in s.store && Mirrors(Credit(s, e.key))
      ensures heap.byKey == old(heap.byKey) && heap.capacity == old(heap.capacity)
    {
      assert InStore(s.store, e.key) + InTimer(s.timer, e.key) + 1 < U64;
      CreditedHeap(e, s);
    }

    method CreditedHeap(e: Entry, ghost s: Tracker)
      requires HeapMirrors(s.store, s.epoch, s.retired) && InStore(s.store, e.key) + 1 < U64 && heap.Holds(e)
      modifies this`last, heap, heap.byKey.Values
      ensures e.key in s.store && HeapMirrors(Credit(s, e.key).store, s.epoch, s.retired)
      ensures heap.byKey == old(heap.byKey) && heap.capacity == old(heap.capacity)
    {
      SameAt(s.store, heap.Content(), last, e.key);
      SameWith(s.store, heap.Content(), last, e.key, e.value + 1, epoch);
      last := last[e.key := epoch];
      heap.Increment(e, 1);
    }

    /** `get_pid_comm_auto_retire`, first section. */
    method Look(t: nat, pid: nat, ghost s: Tracker) returns (ghost a: Action, ghost s': Tracker)
      requires Mirrors(s) && Bounded(s)
      requires Owned()
      modifies this`last, this`lookups, heap, heap.byKey.Values
      ensures Tied(s, old(RoomNow()), Looking(t, pid), a, RoomNow()) && Stepped(s, a, s') && Mirrors(s') && Owned()
    {
      a, s' := LookIs(s, RoomNow(), t, pid);
      if t < |lookups| && lookups[t].Free? {
        FindOrMiss(t, pid, s);
      }
    }

    method FindOrMiss(t: nat, pid: nat, ghost s: Tracker)
      requires Mirrors(s) && Bounded(s) && Owned() && t < |lookups| && lookups[t].Free?
      modifies this`last, this`lookups, heap, heap.byKey.Values
      ensures Mirrors(LookStep(s, t, pid)) && heap.byKey == old(heap.byKey) && heap.capacity == old(heap.capacity)
    {
      SameAt(s.store, heap.Content(), last, pid);
      var e := heap.Find(pid);
      if e == null {
        lookups := lookups[t := Missed(pid)];
      } else {
        Credited(e, s);
      }
    }

    /** `get_pid_comm_auto_retire`, second section. */
    method Create(t: nat, commOk: bool, reallocOk: bool, callocOk: bool, ghost s: Tracker) returns (ghost a: Action, ghost s': Tracker)
      requires Mirrors(s) && Bounded(s)
      requires Owned()
      modifies this`last, this`lookups, this`Mine, heap, heap.byKey.Values
      ensures Tied(s, old(RoomNow()), Creating(t, commOk, reallocOk, callocOk), a, RoomNow()) && Stepped(s, a, s') && Mirrors(s')
      ensures Owned() && fresh(Mine - old(Mine))
    {
      a, s' := CreateIs(s, RoomNow(), t, commOk, reallocOk, callocOk);
      if t >= |lookups| || !lookups[t].Missed? {
        return;
      }
      var pid := lookups[t].pid;
      lookups := lookups[t := Free];
      if !commOk {
        return;
      }
      var ok := FoundOrInserted(pid, reallocOk, callocOk, s.(lookups := lookups));
    }

    /** Another thread may have stored the pid meanwhile. */
    method FoundOrInserted(pid: nat, reallocOk: bool, callocOk: bool, ghost s: Tracker) returns (ok: bool)
      requires Mirrors(s) && Bounded(s) && Owned()
      modifies this`last, this`Mine, heap, heap.byKey.Values
      ensures Owned() && fresh(Mine - old(Mine))
      ensures pid !in s.store ==> (ok <==> callocOk && HasRoom(|old(heap.heap)|, old(heap.capacity), reallocOk))
      ensures heap.capacity == if pid in s.store then old(heap.capacity) else GrownCapacity(|old(heap.heap)|, old(heap.capacity), reallocOk)
      ensures pid in s.store ==> Mirrors(Credit(s, pid))
      ensures pid !in s.store && !ok ==> Mirrors(s)
      ensures pid !in s.store && ok ==> Mirrors(s.(store := s.store[pid := Stored(1, s.epoch)]))
    {
      SameAt(s.store, heap.Content(), last, pid);
      var e := heap.Find(pid);
      if e != null {
        Credited(e, s);
        return true;
      }
      ok := Inserted(pid, reallocOk, callocOk, s);
    }

    /** A pid that is not stored gets an entry. */
    method Inserted(pid: nat, reallocOk: bool, callocOk: bool, ghost s: Tracker) returns (ok: bool)
      requires Mirrors(s) && pid !in s.store && Owned()
      modifies this`last, this`Mine, heap, heap.byKey.Values`index
      ensures Owned() && fresh(Mine - old(Mine))
      ensures ok <==> callocOk && HasRoom(|old(heap.heap)|, old(heap.capacity), reallocOk)
      ensures heap.capacity == GrownCapacity(|old(heap.heap)|, old(heap.capacity), reallocOk)
      ensures !ok ==> Mirrors(s)
      ensures ok ==> Mirrors(s.(store := s.store[pid := Stored(1, s.epoch)]))
    {
      SameAt(s.store, heap.Content(), last, pid);
      SameWith(s.store, heap.Content(), last, pid, 1, epoch);
      var e := heap.Insert(pid, 1, reallocOk, callocOk);
      ok := e != null;
      if ok {
        last := last[pid := epoch];
        Mine := Mine + {e};
      }
    }

    /** The first section of `nobpf_unwinder_timer`. */
    method Tick(callocOk: bool, ghost s: Tracker) returns (ghost a: Action, ghost s': Tracker)
      requires Mirrors(s) && s.timer.Resting? && Owned()
      modifies this`epoch, this`cursor, this`probing, this`todo, this`alive, this`dead, heap, heap.byKey.Values
      ensures Tied(s, old(RoomNow()), Ticking(callocOk), a, RoomNow()) && Stepped(s, a, s') && Mirrors(s') && Owned()
    {
      var popped;
      popped, a, s' := TickHeap(callocOk, s);
      StartsWith(popped, s.timer);
    }

    /** Decay and popping. */
    method TickHeap(callocOk: bool, ghost s: Tracker) returns (popped: seq<Entry>, ghost a: Action, ghost s': Tracker)
      requires HeapMirrors(s.store, s.epoch, s.retired) && s.timer.Resting? && heap.byKey.Values <= Mine
      modifies this`epoch, this`cursor, heap, heap.byKey.Values
      ensures Tied(s, old(RoomNow()), Ticking(callocOk), a, RoomNow())
      ensures Stepped(s, a, s') && HeapMirrors(s'.store, s'.epoch, s'.retired) && s'.lookups == s.lookups
      ensures s'.timer == if popped == [] then Resting else Probing(HeldOf(popped), [], 0)
      ensures heap.byKey.Values <= Mine
      ensures forall i :: 0 <= i < |popped| ==> popped[i] !in heap.byKey.Values && popped[i] in Mine
    {
      epoch := epoch + 1;
      ghost var visited, b, r;
      r := RoomNow();
      cursor, visited, b := Decay(callocOk, s);
      popped, a, s' := PopHeap(callocOk, s, r, visited, b);
    }

    method PopHeap(ghost callocOk: bool, ghost s: Tracker, ghost r: Room, ghost visited: seq<nat>, ghost b: Tracker)
      returns (popped: seq<Entry>, ghost a: Action, ghost s': Tracker)
      requires HeapMirrors(b.store, b.epoch, b.retired) && heap.byKey.Values <= Mine
      requires s.timer.Resting? && Visits(s.store.Keys, visited, callocOk) && Begun(s, visited, b) && DecayLeft(s, b)
      requires Chunked(r, visited, callocOk, cursor) && heap.capacity == r.capacity
      modifies this`cursor, heap, heap.byKey.Values`index
      ensures Tied(s, r, Ticking(callocOk), a, RoomNow())
      ensures Stepped(s, a, s') && HeapMirrors(s'.store, s'.epoch, s'.retired) && s'.lookups == s.lookups
      ensures s'.timer == if popped == [] then Resting else Probing(HeldOf(popped), [], 0)
      ensures heap.byKey.Values <= Mine
      ensures forall i :: 0 <= i < |popped| ==> popped[i] !in heap.byKey.Values && popped[i] in Mine
    {
      ghost var p, next;
      next := cursor;
      popped, p := Pops(b);
      a := PidTrackers.Tick(visited, KeysOf(popped));
      s' := TickIs(s, r, visited, callocOk, b, KeysOf(popped), p, next, RoomNow());
    }

    /** What the timer holds after popping. */
    method StartsWith(popped: seq<Entry>, ghost t: Timer)
      requires TimerMirrors(t) && t.Resting?
      modifies this`probing, this`todo, this`alive, this`dead
      ensures TimerMirrors(if popped == [] then Resting else Probing(HeldOf(popped), [], 0)) && alive == [] && todo == popped
    {
      assert OpenTimer(0);
      if |popped| != 0 {
        probing, todo, alive, dead := true, popped, [], 0;
      }
    }

    /** The epoch has advanced; one chunk decays. */
    method Decay(callocOk: bool, ghost s: Tracker) returns (next: nat, ghost visited: seq<nat>, ghost b: Tracker)
      requires heap.Valid() && Same(s.store, heap.Content(), last) && epoch == s.epoch + 1
      modifies heap`heap, heap.byKey.Values
      ensures heap.Valid() && heap.byKey == old(heap.byKey) && Visits(s.store.Keys, visited, callocOk)
      ensures Chunked(old(RoomNow()), visited, callocOk, next)
      ensures Begun(s, visited, b) && DecayLeft(s, b) && Same(b.store, heap.Content(), last)
    {
      SameLeast(s.store, heap.Content(), last, 0);
      ghost var c := heap.Content();
      next, visited := ApplyDecay(heap, cursor, epoch, last, callocOk);
      b := DecayBegun(s, c, last, visited, callocOk);
    }

    /** Up to ten least entries leave the heap; the cursor starts again when nothing is left. */
    method Pops(ghost b: Tracker) returns (popped: seq<Entry>, ghost p: Tracker)
      requires heap.Valid() && Same(b.store, heap.Content(), last) && b.timer == Probing([], [], 0) && heap.byKey.Values <= Mine
      modifies this`cursor, heap`heap, heap`byKey, heap.byKey.Values`index
      ensures heap.Valid() && Same(p.store, heap.Content(), last) && heap.byKey.Values <= Mine
      ensures cursor == if heap.heap == [] then 0 else old(cursor)
      ensures PopsGive(b, KeysOf(popped), p) && p == b.(store := p.store, timer := Probing(HeldOf(popped), [], 0))
      ensures forall i :: 0 <= i < |popped| ==> popped[i] !in heap.byKey.Values && popped[i] in Mine
    {
      ghost var c := heap.Content();
      popped := TakeTen();
      PoppedWere(old(heap.byKey), popped, heap.byKey);
      PoppedOutside(heap, popped);
      p := TickMirrors(b, c, last, KeysOf(popped));
      HeldAreThose(p.timer.todo, c, popped);
    }

    method TakeTen() returns (popped: seq<Entry>)
      requires heap.Valid()
      modifies this`cursor, heap`heap, heap`byKey, heap.byKey.Values`index
      ensures heap.Valid() && PoppedFrom(old(heap.byKey), popped, heap.byKey) && cursor == if heap.heap == [] then 0 else old(cursor)
      ensures |popped| <= POP_LIMIT && (|popped| < POP_LIMIT ==> heap.Content() == map[])
      ensures TakenInOrder(old(heap.Content()), KeysOf(popped)) && heap.Content() == Without(old(heap.Content()), KeysOf(popped), |popped|)
    {
      popped := PopTen(heap);
      if |heap.heap| == 0 {
        cursor := 0;
      }
    }

    /** One probe without the lock. */
    method Probe(lives: bool, mallocOk: bool, ghost s: Tracker) returns (ghost a: Action, ghost s': Tracker)
      requires Mirrors(s) && Owned()
      modifies this`probing, this`todo, this`alive, this`dead
      ensures Tied(s, old(RoomNow()), Probed(lives, mallocOk), a, RoomNow()) && Stepped(s, a, s') && Mirrors(s') && Owned()
    {
      a, s' := ProbeIs(s, RoomNow(), lives, mallocOk);
      ProbeFirst(lives, mallocOk, s.timer);
    }

    method ProbeFirst(lives: bool, mallocOk: bool, ghost t: Timer)
      requires TimerMirrors(t) && TimerOutside() && Owned()
      modifies this`probing, this`todo, this`alive, this`dead
      ensures TimerMirrors(ProbedTimer(t, lives, mallocOk)) && TimerOutside() && Owned()
    {
      assert OpenTimer(0);
      if !probing || |todo| == 0 {
        return;
      }
      ghost var h, l := HeldOf(todo), HeldOf(alive);
      var e, rest := todo[0], todo[1..];
      assert HeldOf(rest) == h[1..];
      if lives {
        assert HeldOf(alive + [e]) == l + [h[0]];
        todo, alive := rest, alive + [e];
      } else if !mallocOk {
        probing, todo, alive, dead := false, [], [], 0;
      } else {
        todo, dead := rest, dead + 1;
      }
    }

    /** The payloads of the live pids get the current epoch. */
    method SetEpochs(ghost held: seq<Held>)
      requires |held| == |alive| && forall i :: 0 <= i < |held| ==> held[i].pid == alive[i].key
      modifies this`last
      ensures last == LastTo(old(last), held, epoch, |held|)
    {
      for i := 0 to |alive|
        invariant last == LastTo(old(last), held, epoch, i)
      {
        last := last[alive[i].key := epoch];
      }
    }

    method IsResting(ghost t: Timer) returns (r: bool)
      requires TimerMirrors(t)
      ensures r <==> t.Resting?
    {
      assert OpenTimer(0);
      r := !probing;
    }

    /** Whether the timer has probed all it holds. */
    method AllProbed(ghost t: Timer) returns (r: bool)
      requires TimerMirrors(t)
      ensures r <==> t.Probing? && t.todo == []
      ensures t.Probing? ==> t.alive == HeldOf(alive) && t.dead == dead
    {
      assert OpenTimer(0);
      r := probing && |todo| == 0;
    }

    /** `reinsert_entries`. */
    method PutBack(pushes: seq<bool>, ghost s: Tracker) returns (ghost a: Action, ghost s': Tracker)
      requires Mirrors(s) && Bounded(s) && TrackerOk(s) && Owned()
      modifies this`last, this`retired, this`probing, this`todo, this`alive, this`dead, heap, Mine
      ensures Tied(s, old(RoomNow()), PuttingBack(pushes), a, RoomNow()) && Stepped(s, a, s') && Mirrors(s') && Owned()
    {
      ghost var r := RoomNow();
      var ready := AllProbed(s.timer);
      if !ready {
        a, s' := Reinsert([]), s;
        PutBackTied(s, r, pushes, [], r);
        PutBackWaits(s, a);
        return;
      }
      ghost var oks;
      oks, s' := ReturnEntries(pushes, s);
      a := Reinsert(oks);
      PutBackTied(s, r, pushes, oks, RoomNow());
      Rests();
    }

    /** The pass is over. */
    method Rests()
      modifies this`probing, this`todo, this`alive, this`dead
      ensures TimerOutside() && TimerMirrors(Resting) && todo == alive == []
    {
      probing, todo, alive, dead := false, [], [], 0;
    }

    method ReturnEntries(pushes: seq<bool>, ghost s: Tracker) returns (ghost oks: seq<bool>, ghost s': Tracker)
      requires HeapMirrors(s.store, s.epoch, s.retired) && TimerOutside() && Bounded(s) && TrackerOk(s) && Owned()
      requires s.timer.Probing? && s.timer.todo == [] && s.timer.alive == HeldOf(alive) && s.timer.dead == dead
      modifies this`last, this`retired, heap, Mine
      ensures Stepped(s, Reinsert(oks), s') && HeapMirrors(s'.store, s'.epoch, s'.retired) && s'.timer.Resting? && s'.lookups == s.lookups
      ensures FilledTo(s.store.Keys, Fill(|old(heap.heap)|, old(heap.capacity), []), s.timer.alive, pushes, |s.timer.alive|,
                       Fill(|heap.heap|, heap.capacity, oks))
      ensures heap.byKey.Values <= Mine
    {
      ghost var c := heap.Content();
      oks := PushAlive(pushes, s);
      retired := retired + dead;
      SetEpochs(s.timer.alive);
      s' := PutBackIs(s, c, old(last), oks);
    }

    /** The live pids go back into the heap. */
    method PushAlive(pushes: seq<bool>, ghost s: Tracker) returns (oks: seq<bool>)
      requires heap.Valid() && Same(s.store, heap.Content(), last) && TimerOutside() && Bounded(s) && TrackerOk(s) && Owned()
      requires s.timer.Probing? && s.timer.todo == [] && s.timer.alive == HeldOf(alive)
      modifies heap, Mine
      ensures heap.Valid() && heap.byKey.Values <= Mine
      ensures heap.Content() == Returned(old(heap.Content()), s.timer.alive, oks, |s.timer.alive|)
      ensures FilledTo(s.store.Keys, Fill(|old(heap.heap)|, old(heap.capacity), []), s.timer.alive, pushes, |s.timer.alive|,
                       Fill(|heap.heap|, heap.capacity, oks))
    {
      ghost var held, c := s.timer.alive, heap.Content();
      HeldFit(s, c, last);
      SameLeast(s.store, c, last, 0);
      oks := ReinsertEntries(heap, alive, pushes, held, Mine);
    }
  }

  // ---------------------------------------------------------------------------------------------
  // No value overflows

  /** What a pid was given. */
  function Givens(ledger: seq<Change>, n: nat, pid: nat): nat
    requires n <= |ledger|
  {
    if n == 0 then 0 else Givens(ledger, n - 1, pid) + (if ledger[n - 1].Given? && ledger[n - 1].pid == pid then ledger[n - 1].amount else 0)
  }

  lemma {:induction false} BalanceBelow(ledger: seq<Change>, n: nat, pid: nat)
    requires n <= |ledger|
    ensures Balance(ledger, n, pid) <= Givens(ledger, n, pid)
  {
    if n > 0 {
      BalanceBelow(ledger, n - 1, pid);
    }
  }

  /** Only takings were added to the ledger. */
  ghost predicate OnlyTakes(a: seq<Change>, b: seq<Change>) {
    a <= b && forall i :: |a| <= i < |b| ==> b[i].Taken?
  }

  lemma {:induction false} GivensSame(a: seq<Change>, b: seq<Change>, n: nat, pid: nat)
    requires OnlyTakes(a, b) && n <= |b|
    ensures Givens(b, n, pid) == Givens(a, if n < |a| then n else |a|, pid)
  {
    if n > 0 {
      GivensSame(a, b, n - 1, pid);
    }
  }

  lemma {:induction false} DecayTakes(s: Tracker, visited: seq<nat>, n: nat)
    requires n <= |visited|
    ensures OnlyTakes(s.ledger, DecayAll(s, visited, n).ledger)
  {
    if n > 0 {
      DecayTakes(s, visited, n - 1);
    }
  }

  lemma {:induction false} PopTakes(s: Tracker, pids: seq<nat>, n: nat)
    requires s.timer.Probing? && n <= |pids|
    ensures PopAll(s, pids, n).ledger == s.ledger
  {
    if n > 0 {
      PopTakes(s, pids, n - 1);
    }
  }

  lemma {:induction false} DropTakesOnly(ledger: seq<Change>, held: seq<Held>, n: nat)
    requires n <= |held|
    ensures OnlyTakes(ledger, Drop(ledger, held, n))
  {
    if n > 0 {
      DropTakesOnly(ledger, held, n - 1);
    }
  }

  lemma {:induction false} ReturnTakes(s: Tracker, held: seq<Held>, oks: seq<bool>, n: nat)
    requires n <= |held|
    ensures OnlyTakes(s.ledger, ReturnAll(s, held, oks, n).ledger)
  {
    if n > 0 {
      ReturnTakes(s, held, oks, n - 1);
    }
  }

  lemma {:induction false} TimerTakes(s: Tracker, a: Action)
    requires a.Tick? || a.Probe? || a.Reinsert?
    ensures OnlyTakes(s.ledger, Step(s, a).ledger)
  {
    match a
    case Tick(visited, popped) =>
      DecayTakes(s.(epoch := s.epoch + 1), visited, |visited|);
      PopTakes(TickBegins(s, visited), popped, |popped|);
    case Probe(_, _) =>
      if s.timer.Probing? {
        DropTakesOnly(s.ledger, s.timer.todo, |s.timer.todo|);
        DropTakesOnly(Drop(s.ledger, s.timer.todo, |s.timer.todo|), s.timer.alive, |s.timer.alive|);
      }
    case Reinsert(oks) =>
      if s.timer.Probing? {
        ReturnTakes(s.(retired := s.retired + s.timer.dead, timer := Resting), s.timer.alive, oks, |s.timer.alive|);
      }
  }

  lemma {:induction false} GivensPrefix(a: seq<Change>, b: seq<Change>, n: nat, pid: nat)
    requires n <= |a| && a <= b
    ensures Givens(b, n, pid) == Givens(a, n, pid)
  {
    if n > 0 {
      GivensPrefix(a, b, n - 1, pid);
    }
  }

  lemma {:induction false} LookupGives(s: Tracker, a: Action)
    requires a.Look? || a.Create?
    ensures Step(s, a).ledger == s.ledger || exists pid :: Step(s, a).ledger == s.ledger + [Given(pid, 1)]
  {
  }

  lemma {:induction false} GivensStep(s: Tracker, a: Action, pid: nat)
    ensures var s' := Step(s, a); Givens(s'.ledger, |s'.ledger|, pid) <= Givens(s.ledger, |s.ledger|, pid) + 1
  {
    var s' := Step(s, a);
    if a.Look? || a.Create? {
      LookupGives(s, a);
      if s'.ledger != s.ledger {
        GivensPrefix(s.ledger, s'.ledger, |s.ledger|, pid);
      }
    } else {
      TimerTakes(s, a);
      GivensSame(s.ledger, s'.ledger, |s'.ledger|, pid);
    }
  }

  lemma {:induction false} RunGivens(lookups: nat, actions: seq<Action>, pid: nat)
    ensures var s := Run(lookups, actions); Givens(s.ledger, |s.ledger|, pid) <= |actions|
  {
    if actions != [] {
      var n := |actions| - 1;
      RunGivens(lookups, actions[..n], pid);
      GivensStep(Run(lookups, actions[..n]), actions[n], pid);
    }
  }

  /** A pid never has more credit than there were steps, so that no value overflows in fewer than 2^64 - 1 of them. */
  lemma {:induction false} RunBounded(lookups: nat, actions: seq<Action>)
    requires |actions| + 1 < U64
    ensures Bounded(Run(lookups, actions))
  {
    var s := Run(lookups, actions);
    forall pid
      ensures InStore(s.store, pid) + InTimer(s.timer, pid) + 1 < U64
    {
      CreditConserved(lookups, actions, pid);
      RunGivens(lookups, actions, pid);
      BalanceBelow(s.ledger, |s.ledger|, pid);
    }
  }

  // ---------------------------------------------------------------------------------------------
  // Every interleaving

  /** One section, or nothing when the timer is in the wrong place for it. */
  method Do(p: PidStore, x: Section, ghost s: Tracker) returns (ghost a: Action, ghost s': Tracker)
    requires p.Mirrors(s) && p.Owned() && Bounded(s) && TrackerOk(s)
    modifies p, p.heap, p.Mine
    ensures Tied(s, old(p.RoomNow()), x, a, p.RoomNow())
    ensures Stepped(s, a, s') && p.Mirrors(s') && p.Owned() && fresh(p.Mine - old(p.Mine))
  {
    match x
    case Looking(t, pid) =>
      a, s' := p.Look(t, pid, s);
    case Creating(t, commOk, reallocOk, callocOk) =>
      a, s' := p.Create(t, commOk, reallocOk, callocOk, s);
    case Ticking(callocOk) =>
      var rests := p.IsResting(s.timer);
      if rests {
        a, s' := p.Tick(callocOk, s);
      } else {
        a, s' := Tick([], []), s;
      }
    case Probed(lives, mallocOk) =>
      a, s' := p.Probe(lives, mallocOk, s);
    case PuttingBack(pushes) =>
      a, s' := p.PutBack(pushes, s);
  }

  /** Each section came to the action in its place, and led from one room to the next. */
  ghost predicate AllTied(threads: nat, sections: seq<Section>, actions: seq<Action>, rooms: seq<Room>, n: nat) {
    && |actions| == n <= |sections| && |rooms| == n + 1 && rooms[0] == Room(256, 0, [])
    && forall i :: 0 <= i < n ==> TiedAt(threads, sections, actions, rooms, i)
  }

  ghost predicate TiedAt(threads: nat, sections: seq<Section>, actions: seq<Action>, rooms: seq<Room>, i: nat) {
    && i < |actions| && i < |sections| && i + 1 < |rooms|
    && Tied(Run(threads, actions[..i]), rooms[i], sections[i], actions[i], rooms[i + 1])
    && OrderOk(Run(threads, actions[..i]).store, rooms[i].order)
  }

  lemma {:induction false} TiedMore(threads: nat, sections: seq<Section>, actions: seq<Action>, rooms: seq<Room>, s: Tracker, a: Action, s': Tracker,
                                    r': Room)
    requires AllTied(threads, sections, actions, rooms, |actions|) && |actions| < |sections|
    requires s == Run(threads, actions) && Tied(s, rooms[|actions|], sections[|actions|], a, r') && Stepped(s, a, s')
    requires OrderOk(s.store, rooms[|actions|].order)
    ensures AllTied(threads, sections, actions + [a], rooms + [r'], |actions| + 1) && s' == Run(threads, actions + [a])
  {
    var n, more, on := |actions|, actions + [a], rooms + [r'];
    assert OpenFold(0);
    assert more[..n] == actions;
    forall i | 0 <= i < n + 1
      ensures TiedAt(threads, sections, more, on, i)
    {
      if i < n {
        assert TiedAt(threads, sections, actions, rooms, i);
        assert more[..i] == actions[..i];
      }
    }
  }

  /** Any sequence of sections, of lookups and of the timer, on the real heap is a run of the state machine: memory, the fill of the array
      and the cursor decide which one. */
  method Interleave(threads: nat, sections: seq<Section>) returns (p: PidStore, ghost actions: seq<Action>, ghost rooms: seq<Room>)
    requires |sections| + 1 < U64
    ensures AllTied(threads, sections, actions, rooms, |sections|)
    ensures p.Mirrors(Run(threads, actions)) && p.RoomNow() == rooms[|sections|] && OrderOk(Run(threads, actions).store, rooms[|sections|].order)
  {
    p := new PidStore(threads);
    actions, rooms := [], [p.RoomNow()];
    ghost var s := Run(threads, []);
    for i := 0 to |sections|
      invariant s == Run(threads, actions) && AllTied(threads, sections, actions, rooms, i)
      invariant fresh(p) && fresh(p.heap) && fresh(p.Mine) && p.Owned() && p.Mirrors(s) && p.RoomNow() == rooms[i]
    {
      RunBounded(threads, actions);
      RunOk(threads, actions);
      p.OrderIs(s);
      ghost var a, s';
      a, s' := Do(p, sections[i], s);
      TiedMore(threads, sections, actions, rooms, s, a, s', p.RoomNow());
      actions, s, rooms := actions + [a], s', rooms + [p.RoomNow()];
    }
    p.OrderIs(s);
  }
}

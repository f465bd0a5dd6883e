/** The loops of the pid tracker (src/cpa_monitor/cpa_nobpf_unwinder_event.c) on the real heap, as changes of the values it holds. */
module PidHeaps {
  import opened Bits
  import opened Markers
  import opened CounterHeaps
  import opened PidTrackers

  // ---------------------------------------------------------------------------------------------
  // Decay

  /** The epochs since a pid was last looked up. */
  function Gap(epoch: nat, last: map<nat, nat>, pid: nat): nat {
    if pid in last && last[pid] <= epoch then epoch - last[pid] else 0
  }

  predicate Among(pids: seq<nat>, n: nat, pid: nat)
    requires n <= |pids|
  {
    exists i :: 0 <= i < n && pids[i] == pid
  }

  /** The values after the first `n` visits. */
  ghost function DecayedTo(c: map<nat, nat>, epoch: nat, last: map<nat, nat>, visited: seq<nat>, n: nat): map<nat, nat>
    requires n <= |visited|
  {
    map k | k in c :: if Among(visited, n, k) then Decayed(c[k], Gap(epoch, last, k)) else c[k]
  }

  ghost predicate Distinct(pids: seq<nat>) {
    forall i, j :: 0 <= i < j < |pids| ==> pids[i] != pids[j]
  }

  lemma {:induction false} DecayNext(c: map<nat, nat>, epoch: nat, last: map<nat, nat>, visited: seq<nat>, n: nat)
    requires n < |visited| && Distinct(visited) && visited[n] in c
    ensures var pid := visited[n];
            && DecayedTo(c, epoch, last, visited, n)[pid] == c[pid]
            && DecayedTo(c, epoch, last, visited, n + 1) == DecayedTo(c, epoch, last, visited, n)[pid := Decayed(c[pid], Gap(epoch, last, pid))]
  {
    var pid := visited[n];
    assert !Among(visited, n, pid);
    forall k
      ensures Among(visited, n + 1, k) <==> Among(visited, n, k) || k == pid
    {
      if k == pid {
        assert visited[n] == k;
      }
    }
  }

  function KeysOf(es: seq<Entry>): (r: seq<nat>)
    ensures |r| == |es| && forall i :: 0 <= i < |es| ==> r[i] == es[i].key
  {
    seq(|es|, i requires 0 <= i < |es| => es[i].key)
  }

  /** The pids of one chunk: consecutive ones from the cursor on, around the end of the array. */
  function ChunkOf(order: seq<nat>, cursor: nat, callocOk: bool): seq<nat> {
    seq(ChunkLength(|order|, PID_DECAY_BATCH, callocOk), i requires 0 <= i < ChunkLength(|order|, PID_DECAY_BATCH, callocOk) =>
      order[Around(|order|, if cursor < |order| then cursor else 0, i)])
  }

  /** What one chunk visits of `n` entries: as many as the cursor allows, all of them if that is fewer than a batch. */
  ghost predicate Visits(keys: set<nat>, visited: seq<nat>, callocOk: bool) {
    forall q {:trigger OpenFold(q)} :: OpenFold(q) ==>
      && |visited| <= PID_DECAY_BATCH && Distinct(visited)
      && (forall i :: 0 <= i < |visited| ==> visited[i] in keys)
      && (!callocOk ==> visited == [])
      && (callocOk && |visited| < PID_DECAY_BATCH ==> forall k :: k in keys ==> k in visited)
  }

  /** A chunk of the whole heap visits every entry. */
  lemma {:induction false} ChunkCovers(h: CounterHeap, items: seq<Entry>, cursor: nat, k: nat)
    requires h.Valid() && k in h.byKey && |items| == |h.heap|
    requires forall i :: 0 <= i < |items| ==> items[i] == h.heap[Around(|h.heap|, if cursor < |h.heap| then cursor else 0, i)]
    ensures k in KeysOf(items)
  {
    h.KeyAt(k);
    var n, p := |h.heap|, h.byKey[k].index;
    var from := if cursor < n then cursor else 0;
    var i := if p >= from then p - from else p + n - from;
    assert Around(n, from, i) == p;
    assert items[i] == h.heap[p] && KeysOf(items)[i] == k;
  }

  /** The entries of one chunk. */
  method ChunkKeys(h: CounterHeap, cursor: nat, callocOk: bool) returns (items: seq<Entry>, next: nat)
    requires h.Valid()
    ensures next == CursorAfter(|h.heap|, cursor, PID_DECAY_BATCH, callocOk) && KeysOf(items) == ChunkOf(KeysOf(h.heap), cursor, callocOk)
    ensures Visits(h.byKey.Keys, KeysOf(items), callocOk) && forall i :: 0 <= i < |items| ==> h.Holds(items[i])
  {
    items, next := h.Chunk(cursor, PID_DECAY_BATCH, callocOk);
    ghost var visited := KeysOf(items);
    assert visited == ChunkOf(KeysOf(h.heap), cursor, callocOk);
    forall i, j | 0 <= i < j < |items|
      ensures visited[i] != visited[j]
    {
      assert h.Holds(items[i]) && h.Holds(items[j]);
    }
    if callocOk && |items| < PID_DECAY_BATCH {
      forall k | k in h.byKey
        ensures k in visited
      {
        ChunkCovers(h, items, cursor, k);
      }
    }
  }

  /** `decay_entry`. */
  method DecayEntry(h: CounterHeap, e: Entry, epoch: nat, last: map<nat, nat>)
    requires h.Valid() && h.Holds(e)
    modifies h`heap, h.byKey.Values
    ensures h.Valid() && h.byKey == old(h.byKey) && e.key in old(h.Content())
    ensures h.Content() == old(h.Content())[e.key := Decayed(old(h.Content())[e.key], Gap(epoch, last, e.key))]
  {
    h.UpdateValue(e, Decayed(e.value, Gap(epoch, last, e.key)));
  }

  /** `apply_decay`: the entries of one chunk decay, once each; the others keep their value, and the next chunk starts where this one ends. */
  method ApplyDecay(h: CounterHeap, cursor: nat, epoch: nat, last: map<nat, nat>, callocOk: bool) returns (next: nat, ghost visited: seq<nat>)
    requires h.Valid()
    modifies h`heap, h.byKey.Values
    ensures h.Valid() && h.byKey == old(h.byKey)
    ensures next == CursorAfter(|old(h.heap)|, cursor, PID_DECAY_BATCH, callocOk) && Visits(h.byKey.Keys, visited, callocOk)
    ensures visited == ChunkOf(KeysOf(old(h.heap)), cursor, callocOk)
    ensures h.Content() == DecayedTo(old(h.Content()), epoch, last, visited, |visited|)
  {
    var items;
    items, next := ChunkKeys(h, cursor, callocOk);
    visited := KeysOf(items);
    assert Distinct(visited) by {
      assert OpenFold(0);
    }
    ghost var c := h.Content();
    assert DecayedTo(c, epoch, last, visited, 0) == c;
    for i := 0 to |items|
      invariant h.Valid() && h.byKey == old(h.byKey)
      invariant h.Content() == DecayedTo(c, epoch, last, visited, i)
    {
      DecayNext(c, epoch, last, visited, i);
      DecayEntry(h, items[i], epoch, last);
    }
  }

  // ---------------------------------------------------------------------------------------------
  // Popping

  /** What is left of the values after the first `n` pids were taken. */
  function Without(c: map<nat, nat>, pids: seq<nat>, n: nat): map<nat, nat>
    requires n <= |pids|
  {
    if n == 0 then c else Without(c, pids, n - 1) - {pids[n - 1]}
  }

  ghost predicate LeastIn(c: map<nat, nat>, pid: nat) {
    pid in c && forall k :: k in c ==> c[pid] <= c[k]
  }

  /** Each pid was a least one when it was taken. */
  ghost predicate TakenInOrder(c: map<nat, nat>, pids: seq<nat>) {
    forall q {:trigger OpenFold(q)} :: OpenFold(q) ==> forall n :: 0 <= n < |pids| ==> LeastIn(Without(c, pids, n), pids[n])
  }

  lemma {:induction false} LeastTaken(c: map<nat, nat>, pids: seq<nat>, n: nat)
    requires TakenInOrder(c, pids) && n < |pids|
    ensures LeastIn(Without(c, pids, n), pids[n])
  {
    assert OpenFold(0);
  }

  lemma {:induction false} WithoutSame(c: map<nat, nat>, a: seq<nat>, b: seq<nat>, n: nat)
    requires n <= |a| && a <= b
    ensures Without(c, a, n) == Without(c, b, n)
  {
    if n > 0 {
      WithoutSame(c, a, b, n - 1);
    }
  }

  lemma {:induction false} TakenStill(c: map<nat, nat>, pids: seq<nat>, more: seq<nat>, n: nat)
    requires TakenInOrder(c, pids) && n < |pids| && pids <= more
    ensures LeastIn(Without(c, more, n), more[n])
  {
    WithoutSame(c, pids, more, n);
    LeastTaken(c, pids, n);
  }

  lemma {:induction false} WithoutMore(c: map<nat, nat>, pids: seq<nat>, pid: nat)
    ensures Without(c, pids + [pid], |pids| + 1) == Without(c, pids, |pids|) - {pid}
  {
    WithoutSame(c, pids, pids + [pid], |pids|);
  }

  lemma {:induction false} TakenAt(c: map<nat, nat>, pids: seq<nat>, pid: nat, n: nat)
    requires TakenInOrder(c, pids) && LeastIn(Without(c, pids, |pids|), pid) && n <= |pids|
    ensures LeastIn(Without(c, pids + [pid], n), (pids + [pid])[n])
  {
    if n < |pids| {
      TakenStill(c, pids, pids + [pid], n);
    } else {
      WithoutSame(c, pids, pids + [pid], n);
    }
  }

  lemma {:induction false} TakenOneMore(c: map<nat, nat>, pids: seq<nat>, pid: nat)
    requires TakenInOrder(c, pids) && LeastIn(Without(c, pids, |pids|), pid)
    ensures TakenInOrder(c, pids + [pid]) && Without(c, pids + [pid], |pids| + 1) == Without(c, pids, |pids|) - {pid}
  {
    forall n | 0 <= n < |pids + [pid]|
      ensures LeastIn(Without(c, pids + [pid], n), (pids + [pid])[n])
    {
      TakenAt(c, pids, pid, n);
    }
    WithoutMore(c, pids, pid);
  }

  /** The entries that the keys had in the heap, and that have left it. */
  ghost predicate PoppedFrom(was: map<nat, Entry>, popped: seq<Entry>, now: map<nat, Entry>) {
    forall q {:trigger OpenFold(q)} :: OpenFold(q) ==>
      && (forall k :: k in now ==> k in was && now[k] == was[k])
      && forall i :: 0 <= i < |popped| ==> popped[i].key in was && was[popped[i].key] == popped[i] && popped[i].key !in now
  }

  lemma {:induction false} PoppedWere(was: map<nat, Entry>, popped: seq<Entry>, now: map<nat, Entry>)
    requires PoppedFrom(was, popped, now)
    ensures now.Values <= was.Values
    ensures forall i :: 0 <= i < |popped| ==> popped[i].key in was && was[popped[i].key] == popped[i] && popped[i].key !in now
  {
    assert OpenFold(0);
  }

  lemma {:induction false} PoppedOneMore(was: map<nat, Entry>, popped: seq<Entry>, now: map<nat, Entry>, e: Entry)
    requires PoppedFrom(was, popped, now) && e.key in now && now[e.key] == e
    ensures PoppedFrom(was, popped + [e], now - {e.key})
  {
    assert OpenFold(0);
  }

  /** The pop loop of `nobpf_unwinder_timer`. */
  method PopTen(h: CounterHeap) returns (popped: seq<Entry>)
    requires h.Valid()
    modifies h`heap, h`byKey, h.byKey.Values`index
    ensures h.Valid() && PoppedFrom(old(h.byKey), popped, h.byKey)
    ensures |popped| <= POP_LIMIT && (|popped| < POP_LIMIT ==> h.Content() == map[])
    ensures TakenInOrder(old(h.Content()), KeysOf(popped)) && h.Content() == Without(old(h.Content()), KeysOf(popped), |popped|)
  {
    popped := [];
    ghost var c := h.Content();
    while |popped| < POP_LIMIT
      invariant h.Valid() && |popped| <= POP_LIMIT && PoppedFrom(old(h.byKey), popped, h.byKey) && h.byKey.Values <= old(h.byKey).Values
      invariant TakenInOrder(c, KeysOf(popped)) && h.Content() == Without(c, KeysOf(popped), |popped|)
    {
      ghost var now := h.byKey;
      var e := h.PopMin();
      if e == null {
        break;
      }
      PoppedOneMore(old(h.byKey), popped, now, e);
      TakenOneMore(c, KeysOf(popped), e.key);
      assert KeysOf(popped + [e]) == KeysOf(popped) + [e.key];
      popped := popped + [e];
    }
  }

  // ---------------------------------------------------------------------------------------------
  // Putting back

  /** One live pid put back: on top of the entry created meanwhile, or pushed again if that succeeds. */
  function PutBack(c: map<nat, nat>, h: Held, ok: bool): map<nat, nat> {
    if h.pid in c then c[h.pid := c[h.pid] + h.value] else if ok then c[h.pid := h.value] else c
  }

  /** Putting the first `n` live pids back. */
  function Returned(c: map<nat, nat>, held: seq<Held>, pushOk: seq<bool>, n: nat): map<nat, nat>
    requires n <= |held|
  {
    if n == 0 then c else PutBack(Returned(c, held, pushOk, n - 1), held[n - 1], n - 1 >= |pushOk| || pushOk[n - 1])
  }

  /** The sum fits 64 bits. */
  predicate Fits(c: map<nat, nat>, h: Held) {
    h.value < U64 && (h.pid in c ==> c[h.pid] + h.value < U64)
  }

  /** What the entries hold. */
  ghost function HeldOf(es: seq<Entry>): (r: seq<Held>)
    reads es
    ensures |r| == |es| && forall i :: 0 <= i < |es| ==> r[i] == Held(es[i].key, es[i].value)
  {
    seq(|es|, i requires 0 <= i < |es| reads es => Held(es[i].key, es[i].value))
  }

  lemma {:induction false} ReturnedSame(c: map<nat, nat>, held: seq<Held>, a: seq<bool>, b: seq<bool>, n: nat)
    requires n <= |held| && n <= |a| && a <= b
    ensures Returned(c, held, a, n) == Returned(c, held, b, n)
  {
    if n > 0 {
      ReturnedSame(c, held, a, b, n - 1);
    }
  }

  lemma {:induction false} ReturnedOneMore(c: map<nat, nat>, held: seq<Held>, oks: seq<bool>, ok: bool)
    requires |oks| < |held|
    ensures Returned(c, held, oks + [ok], |oks| + 1) == PutBack(Returned(c, held, oks, |oks|), held[|oks|], ok)
  {
    ReturnedSame(c, held, oks, oks + [ok], |oks|);
  }

  /** Pids not yet put back are as they were. */
  lemma {:induction false} ReturnedElsewhere(c: map<nat, nat>, held: seq<Held>, oks: seq<bool>, n: nat, i: nat)
    requires n <= i < |held| && DistinctPids(held)
    ensures var r := Returned(c, held, oks, n);
            (held[i].pid in r <==> held[i].pid in c) && (held[i].pid in c ==> r[held[i].pid] == c[held[i].pid])
  {
    if n > 0 {
      ReturnedElsewhere(c, held, oks, n - 1, i);
    }
  }

  /** How full the array is, and which entries got in. */
  datatype Fill = Fill(size: nat, capacity: nat, oks: seq<bool>)

  function FillOne(f: Fill, stored: bool, reallocOk: bool): Fill {
    if stored then f.(oks := f.oks + [true])
    else if HasRoom(f.size, f.capacity, reallocOk) then Fill(f.size + 1, GrownCapacity(f.size, f.capacity, reallocOk), f.oks + [true])
    else f.(oks := f.oks + [false])
  }

  /** The first `n` pids are put back into an array that holds those of `keys`. */
  function Filled(keys: set<nat>, f: Fill, held: seq<Held>, reallocOk: seq<bool>, n: nat): Fill
    requires n <= |held|
  {
    if n == 0 then f else FillOne(Filled(keys, f, held, reallocOk, n - 1), held[n - 1].pid in keys, GetsMemory(reallocOk, n - 1))
  }

  /** One more pid fills the array from `f` on. */
  ghost predicate FillsTo(f: Fill, stored: bool, reallocOk: bool, ok: bool, size: nat, capacity: nat) {
    forall q {:trigger OpenFold(q)} :: OpenFold(q) ==> Fill(size, capacity, f.oks + [ok]) == FillOne(f, stored, reallocOk)
  }

  ghost predicate FilledTo(keys: set<nat>, f: Fill, held: seq<Held>, reallocOk: seq<bool>, n: nat, f': Fill) {
    n <= |held| && forall q {:trigger OpenFold(q)} :: OpenFold(q) ==> f' == Filled(keys, f, held, reallocOk, n)
  }

  lemma {:induction false} FilledOneMore(keys: set<nat>, f: Fill, held: seq<Held>, reallocOk: seq<bool>, g: Fill, stored: bool, ok: bool, g': Fill)
    requires |g.oks| < |held| && FilledTo(keys, f, held, reallocOk, |g.oks|, g) && (stored <==> held[|g.oks|].pid in keys)
    requires FillsTo(g, stored, GetsMemory(reallocOk, |g.oks|), ok, g'.size, g'.capacity) && g'.oks == g.oks + [ok]
    ensures FilledTo(keys, f, held, reallocOk, |g.oks| + 1, g')
  {
    assert OpenFold(0);
  }

  /** One round of `reinsert_entries`; the result tells whether an entry could be pushed. */
  method ReinsertOne(h: CounterHeap, e: Entry, reallocOk: bool, ghost oks: seq<bool>) returns (ok: bool)
    requires h.Valid() && e !in h.byKey.Values && Fits(h.Content(), Held(e.key, e.value))
    modifies h, h.byKey.Values, e`index
    ensures h.Valid() && h.byKey.Values <= old(h.byKey.Values) + {e}
    ensures h.Content() == PutBack(old(h.Content()), Held(e.key, e.value), ok)
    ensures FillsTo(Fill(|old(h.heap)|, old(h.capacity), oks), e.key in old(h.Content()), reallocOk, ok, |h.heap|, h.capacity)
  {
    var existing := h.Find(e.key);
    if existing != null {
      assert AddU64(existing.value, e.value) == existing.value + e.value;
      h.Increment(existing, e.value);
      return true;
    }
    ok := h.PushEntry(e, reallocOk);
  }

  predicate GetsMemory(ok: seq<bool>, i: nat) {
    i >= |ok| || ok[i]
  }

  /** None of the entries from `n` on is in the heap, and they still hold what they held. */
  ghost predicate Outside(h: CounterHeap, es: seq<Entry>, held: seq<Held>, n: nat)
    reads h, es
  {
    && |es| == |held|
    && forall i :: n <= i < |es| ==> es[i] !in h.byKey.Values && es[i].key == held[i].pid && es[i].value == held[i].value
  }

  ghost predicate AllFit(c: map<nat, nat>, held: seq<Held>) {
    forall i :: 0 <= i < |held| ==> Fits(c, held[i])
  }

  lemma {:induction false} StillFits(c: map<nat, nat>, held: seq<Held>, oks: seq<bool>, i: nat)
    requires i < |held| && DistinctPids(held) && AllFit(c, held)
    ensures Fits(Returned(c, held, oks, i), held[i]) && (held[i].pid in Returned(c, held, oks, i) <==> held[i].pid in c)
  {
    ReturnedElsewhere(c, held, oks, i, i);
    assert Fits(c, held[i]);
  }

  /** `reinsert_entries` without its counting: a push gets in exactly when the array has room or can grow. The source's sums may wrap around; this is about those that
      do not. */
  method ReinsertEntries(h: CounterHeap, es: seq<Entry>, reallocOk: seq<bool>, ghost held: seq<Held>, ghost mine: set<Entry>) returns (oks: seq<bool>)
    requires h.Valid() && DistinctPids(held) && Outside(h, es, held, 0) && AllFit(h.Content(), held)
    requires h.byKey.Values <= mine && forall i :: 0 <= i < |es| ==> es[i] in mine
    modifies h, mine
    ensures h.Valid() && h.byKey.Values <= mine
    ensures FilledTo(old(h.Content()).Keys, Fill(|old(h.heap)|, old(h.capacity), []), held, reallocOk, |held|, Fill(|h.heap|, h.capacity, oks))
    ensures h.Content() == Returned(old(h.Content()), held, oks, |held|)
  {
    oks := [];
    ghost var c := h.Content();
    ghost var f := Fill(|h.heap|, h.capacity, []);
    for i := 0 to |es|
      invariant h.Valid() && h.byKey.Values <= mine && Outside(h, es, held, i)
      invariant |oks| == i && FilledTo(c.Keys, f, held, reallocOk, i, Fill(|h.heap|, h.capacity, oks))
      invariant h.Content() == Returned(c, held, oks, i)
    {
      StillFits(c, held, oks, i);
      ghost var g, stored := Fill(|h.heap|, h.capacity, oks), es[i].key in h.Content();
      var ok := ReinsertOne(h, es[i], GetsMemory(reallocOk, i), oks);
      FilledOneMore(c.Keys, f, held, reallocOk, g, stored, ok, Fill(|h.heap|, h.capacity, oks + [ok]));
      ReturnedOneMore(c, held, oks, ok);
      OthersOutside(held, es, i);
      oks := oks + [ok];
    }
  }

  /** Different pids have different entries. */
  lemma {:induction false} OthersOutside(held: seq<Held>, es: seq<Entry>, i: nat)
    requires DistinctPids(held) && |es| == |held| && i < |es| && forall j :: i <= j < |es| ==> es[j].key == held[j].pid
    ensures forall j :: i < j < |es| ==> es[j] != es[i]
  {
  }
}

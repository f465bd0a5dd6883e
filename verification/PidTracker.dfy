/** The pid tracker of src/cpa_monitor/cpa_nobpf_unwinder_event.c. Lookups and the retire timer share a heap of pids under a lock;
    both let go of the lock in the middle of their work, so one step is one locked section.
  */
module PidTrackers {
  const PID_DECAY_THRESHOLD: nat := 4
  const PID_DECAY_SHIFT_MAX: nat := 8
  const PID_DECAY_BATCH: nat := 32
  const POP_LIMIT: nat := 10

  // ---------------------------------------------------------------------------------------------
  // Decay

  function ShiftRight(x: nat, n: nat): (r: nat)
    ensures r <= x
  {
    if n == 0 then x else ShiftRight(x / 2, n - 1)
  }

  /** `decay_entry`: what is left of a value not looked up for `gap` epochs. */
  function Decayed(value: nat, gap: nat): nat {
    if gap < PID_DECAY_THRESHOLD || value <= 1 then value
    else
      var shift := gap / PID_DECAY_THRESHOLD;
      var left := ShiftRight(value, if shift > PID_DECAY_SHIFT_MAX then PID_DECAY_SHIFT_MAX else shift);
      if left == 0 then 1 else left
  }

  /** Decay never raises a value and never takes it below one. */
  lemma {:induction false} DecayBounds(value: nat, gap: nat)
    ensures Decayed(value, gap) <= value
    ensures value >= 1 ==> Decayed(value, gap) >= 1
  {
  }

  // ---------------------------------------------------------------------------------------------
  // The tracker as a state machine

  /** A pid taken out of the heap, with its value. */
  datatype Held = Held(pid: nat, value: nat)

  /** The retire timer between its two locked sections: pids still to be probed, pids found alive, pids found dead. */
  datatype Timer = Resting | Probing(todo: seq<Held>, alive: seq<Held>, dead: nat)

  /** A lookup between its two locked sections. */
  datatype Lookup = Free | Missed(pid: nat)

  datatype Stored = Stored(value: nat, last: nat)

  /** Every change of a pid's credit. */
  datatype Change = Given(pid: nat, amount: nat) | Taken(pid: nat, amount: nat)

  datatype Tracker = Tracker(store: map<nat, Stored>, epoch: nat, retired: nat, forgotten: nat, deaths: nat,
                             timer: Timer, lookups: seq<Lookup>, ledger: seq<Change>)

  datatype Action =
    | Look(t: nat, pid: nat)
    | Create(t: nat, commOk: bool, insertOk: bool)
    | Tick(visited: seq<nat>, popped: seq<nat>)
    | Probe(alive: bool, mallocOk: bool)
    | Reinsert(pushOk: seq<bool>)

  /** One successful lookup of a stored pid. */
  function Credit(s: Tracker, pid: nat): Tracker
    requires pid in s.store
  {
    s.(store := s.store[pid := Stored(s.store[pid].value + 1, s.epoch)], ledger := s.ledger + [Given(pid, 1)])
  }

  /** `get_pid_comm_auto_retire`, first locked section. */
  function LookStep(s: Tracker, t: nat, pid: nat): Tracker
    requires t < |s.lookups|
  {
    if !s.lookups[t].Free? then s
    else if pid in s.store then Credit(s, pid)
    else s.(lookups := s.lookups[t := Missed(pid)])
  }

  /** `get_pid_comm_auto_retire`, second locked section: another thread may have stored the pid meanwhile. */
  function CreateStep(s: Tracker, t: nat, commOk: bool, insertOk: bool): Tracker
    requires t < |s.lookups|
  {
    if !s.lookups[t].Missed? then s
    else
      var pid, s' := s.lookups[t].pid, s.(lookups := s.lookups[t := Free]);
      if !commOk then s'
      else if pid in s.store then Credit(s', pid)
      else if !insertOk then s'
      else s'.(store := s.store[pid := Stored(1, s.epoch)], ledger := s.ledger + [Given(pid, 1)])
  }

  function Age(s: Tracker, e: Stored): nat {
    if e.last <= s.epoch then s.epoch - e.last else 0
  }

  function DecayOne(s: Tracker, pid: nat): Tracker {
    if pid !in s.store then s
    else
      var e := s.store[pid];
      var value := Decayed(e.value, Age(s, e));
      DecayBounds(e.value, Age(s, e));
      s.(store := s.store[pid := Stored(value, e.last)], ledger := s.ledger + [Taken(pid, e.value - value)])
  }

  function DecayAll(s: Tracker, visited: seq<nat>, n: nat): Tracker
    requires n <= |visited|
  {
    if n == 0 then s else DecayOne(DecayAll(s, visited, n - 1), visited[n - 1])
  }

  /** A pid that the heap may yield next: none has a smaller value. */
  ghost predicate IsLeast(store: map<nat, Stored>, pid: nat) {
    pid in store && forall k :: k in store ==> store[pid].value <= store[k].value
  }

  function PopOne(s: Tracker, pid: nat): Tracker
    requires s.timer.Probing?
  {
    if pid !in s.store then s
    else s.(store := s.store - {pid}, timer := s.timer.(todo := s.timer.todo + [Held(pid, s.store[pid].value)]))
  }

  function PopAll(s: Tracker, popped: seq<nat>, n: nat): (s': Tracker)
    requires s.timer.Probing? && n <= |popped|
    ensures s'.timer.Probing?
  {
    if n == 0 then s else PopOne(PopAll(s, popped, n - 1), popped[n - 1])
  }

  /** What the heap really yields: at most ten pids, each a least one when it is taken, fewer only when none is left. */
  ghost predicate PopsAllowed(s: Tracker, popped: seq<nat>)
    requires s.timer.Probing?
  {
    && |popped| <= POP_LIMIT
    && (forall n :: 0 <= n < |popped| ==> IsLeast(PopAll(s, popped, n).store, popped[n]))
    && (|popped| < POP_LIMIT ==> PopAll(s, popped, |popped|).store == map[])
  }

  /** What one chunk visits: at most 32 different pids. */
  ghost predicate VisitAllowed(visited: seq<nat>) {
    |visited| <= PID_DECAY_BATCH && forall i, j :: 0 <= i < j < |visited| ==> visited[i] != visited[j]
  }

  function TickBegins(s: Tracker, visited: seq<nat>): Tracker {
    DecayAll(s.(epoch := s.epoch + 1), visited, |visited|).(timer := Probing([], [], 0))
  }

  /** The first locked section of `nobpf_unwinder_timer`. */
  function TickStep(s: Tracker, visited: seq<nat>, popped: seq<nat>): Tracker {
    if !s.timer.Resting? then s
    else
      var s' := PopAll(TickBegins(s, visited), popped, |popped|);
      if s'.timer.todo == [] then s'.(timer := Resting) else s'
  }

  function Drop(ledger: seq<Change>, held: seq<Held>, n: nat): seq<Change>
    requires n <= |held|
  {
    if n == 0 then ledger else Drop(ledger, held, n - 1) + [Taken(held[n - 1].pid, held[n - 1].value)]
  }

  /** Probing one popped pid without the lock. When memory for the exit event is short, the pass is given up and all it holds
      is lost, counted or not. */
  function ProbeStep(s: Tracker, alive: bool, mallocOk: bool): Tracker {
    if !s.timer.Probing? || s.timer.todo == [] then s
    else
      var p, h := s.timer, s.timer.todo[0];
      if alive then s.(timer := Probing(p.todo[1..], p.alive + [h], p.dead))
      else if !mallocOk then
        s.(timer := Resting, forgotten := s.forgotten + p.dead,
           ledger := Drop(Drop(s.ledger, p.todo, |p.todo|), p.alive, |p.alive|))
      else s.(timer := Probing(p.todo[1..], p.alive, p.dead + 1), deaths := s.deaths + 1,
              ledger := s.ledger + [Taken(h.pid, h.value)])
  }

  /** Putting one live pid back: summed into an entry created meanwhile, or pushed again. */
  function ReturnOne(s: Tracker, h: Held, pushOk: bool): Tracker {
    if h.pid in s.store then s.(store := s.store[h.pid := Stored(s.store[h.pid].value + h.value, s.epoch)])
    else if pushOk then s.(store := s.store[h.pid := Stored(h.value, s.epoch)])
    else s.(ledger := s.ledger + [Taken(h.pid, h.value)])
  }

  function ReturnAll(s: Tracker, alive: seq<Held>, pushOk: seq<bool>, n: nat): Tracker
    requires n <= |alive|
  {
    if n == 0 then s
    else ReturnOne(ReturnAll(s, alive, pushOk, n - 1), alive[n - 1], n - 1 >= |pushOk| || pushOk[n - 1])
  }

  /** `reinsert_entries`. */
  function ReinsertStep(s: Tracker, pushOk: seq<bool>): Tracker {
    if !s.timer.Probing? || s.timer.todo != [] then s
    else ReturnAll(s.(retired := s.retired + s.timer.dead, timer := Resting), s.timer.alive, pushOk, |s.timer.alive|)
  }

  ghost function Step(s: Tracker, a: Action): Tracker {
    match a
    case Look(t, pid) => if t < |s.lookups| then LookStep(s, t, pid) else s
    case Create(t, commOk, insertOk) => if t < |s.lookups| then CreateStep(s, t, commOk, insertOk) else s
    case Tick(visited, popped) =>
      if VisitAllowed(visited) && PopsAllowed(TickBegins(s, visited), popped) then TickStep(s, visited, popped) else s
    case Probe(alive, mallocOk) => ProbeStep(s, alive, mallocOk)
    case Reinsert(pushOk) => ReinsertStep(s, pushOk)
  }

  ghost function Run(lookups: nat, actions: seq<Action>): Tracker {
    if actions == [] then Tracker(map[], 0, 0, 0, 0, Resting, seq(lookups, _ => Free), [])
    else Step(Run(lookups, actions[..|actions| - 1]), actions[|actions| - 1])
  }

  // ---------------------------------------------------------------------------------------------
  // Credit is conserved

  function InStore(store: map<nat, Stored>, pid: nat): nat {
    if pid in store then store[pid].value else 0
  }

  function Sum(held: seq<Held>, n: nat, pid: nat): nat
    requires n <= |held|
  {
    if n == 0 then 0 else Sum(held, n - 1, pid) + (if held[n - 1].pid == pid then held[n - 1].value else 0)
  }

  function InTimer(t: Timer, pid: nat): nat {
    match t
    case Resting => 0
    case Probing(todo, alive, _) => Sum(todo, |todo|, pid) + Sum(alive, |alive|, pid)
  }

  function Of(e: Change, pid: nat): int {
    var amount: int := e.amount;
    if e.pid != pid then 0 else if e.Given? then amount else -amount
  }

  /** What a pid was given less what was taken from it. */
  function Balance(ledger: seq<Change>, n: nat, pid: nat): int
    requires n <= |ledger|
  {
    if n == 0 then 0 else Balance(ledger, n - 1, pid) + Of(ledger[n - 1], pid)
  }

  function Owed(s: Tracker, pid: nat): int {
    Balance(s.ledger, |s.ledger|, pid)
  }

  /** How much more the ledger says than the store and the timer hold. */
  function Excess(s: Tracker, pid: nat): int {
    Owed(s, pid) - InStore(s.store, pid) - InTimer(s.timer, pid)
  }

  lemma {:induction false} BalancePrefix(a: seq<Change>, b: seq<Change>, n: nat, pid: nat)
    requires n <= |a| && a <= b
    ensures Balance(b, n, pid) == Balance(a, n, pid)
  {
    if n > 0 {
      BalancePrefix(a, b, n - 1, pid);
    }
  }

  lemma {:induction false} BalanceAppend(a: seq<Change>, e: Change, pid: nat)
    ensures Balance(a + [e], |a| + 1, pid) == Balance(a, |a|, pid) + Of(e, pid)
  {
    BalancePrefix(a, a + [e], |a|, pid);
  }

  lemma {:induction false} SumPrefix(a: seq<Held>, b: seq<Held>, n: nat, pid: nat)
    requires n <= |a| && a <= b
    ensures Sum(b, n, pid) == Sum(a, n, pid)
  {
    if n > 0 {
      SumPrefix(a, b, n - 1, pid);
    }
  }

  lemma {:induction false} SumAppend(a: seq<Held>, h: Held, pid: nat)
    ensures Sum(a + [h], |a| + 1, pid) == Sum(a, |a|, pid) + (if h.pid == pid then h.value else 0)
  {
    SumPrefix(a, a + [h], |a|, pid);
  }

  lemma {:induction false} SumFirst(a: seq<Held>, n: nat, pid: nat)
    requires 0 < n <= |a|
    ensures Sum(a, n, pid) == Sum(a[1..], n - 1, pid) + (if a[0].pid == pid then a[0].value else 0)
  {
    if n > 1 {
      SumFirst(a, n - 1, pid);
    }
  }

  lemma {:induction false} CreditKeeps(s: Tracker, p: nat, pid: nat)
    requires p in s.store
    ensures Excess(Credit(s, p), pid) == Excess(s, pid)
  {
    BalanceAppend(s.ledger, Given(p, 1), pid);
  }

  lemma {:induction false} CreateKeeps(s: Tracker, t: nat, commOk: bool, insertOk: bool, pid: nat)
    requires t < |s.lookups|
    ensures Excess(CreateStep(s, t, commOk, insertOk), pid) == Excess(s, pid)
  {
    if s.lookups[t].Missed? && commOk {
      var p, s' := s.lookups[t].pid, s.(lookups := s.lookups[t := Free]);
      assert Excess(s', pid) == Excess(s, pid);
      if p in s.store {
        CreditKeeps(s', p, pid);
      } else {
        BalanceAppend(s.ledger, Given(p, 1), pid);
      }
    }
  }

  lemma {:induction false} DecayOneKeeps(s: Tracker, p: nat, pid: nat)
    ensures Excess(DecayOne(s, p), pid) == Excess(s, pid)
  {
    if p in s.store {
      var e := s.store[p];
      DecayBounds(e.value, Age(s, e));
      BalanceAppend(s.ledger, Taken(p, e.value - Decayed(e.value, Age(s, e))), pid);
    }
  }

  lemma {:induction false} DecayAllKeeps(s: Tracker, visited: seq<nat>, n: nat, pid: nat)
    requires n <= |visited|
    ensures Excess(DecayAll(s, visited, n), pid) == Excess(s, pid)
    ensures DecayAll(s, visited, n).timer == s.timer
  {
    if n > 0 {
      DecayAllKeeps(s, visited, n - 1, pid);
      DecayOneKeeps(DecayAll(s, visited, n - 1), visited[n - 1], pid);
    }
  }

  lemma {:induction false} PopOneKeeps(s: Tracker, p: nat, pid: nat)
    requires s.timer.Probing?
    ensures Excess(PopOne(s, p), pid) == Excess(s, pid)
  {
    if p in s.store {
      SumAppend(s.timer.todo, Held(p, s.store[p].value), pid);
    }
  }

  lemma {:induction false} PopAllKeeps(s: Tracker, popped: seq<nat>, n: nat, pid: nat)
    requires s.timer.Probing? && n <= |popped|
    ensures Excess(PopAll(s, popped, n), pid) == Excess(s, pid)
    ensures PopAll(s, popped, n).timer.alive == s.timer.alive
  {
    if n > 0 {
      PopAllKeeps(s, popped, n - 1, pid);
      PopOneKeeps(PopAll(s, popped, n - 1), popped[n - 1], pid);
    }
  }

  lemma {:induction false} TickKeeps(s: Tracker, visited: seq<nat>, popped: seq<nat>, pid: nat)
    ensures Excess(TickStep(s, visited, popped), pid) == Excess(s, pid)
  {
    if s.timer.Resting? {
      var d := s.(epoch := s.epoch + 1);
      DecayAllKeeps(d, visited, |visited|, pid);
      assert Excess(TickBegins(s, visited), pid) == Excess(s, pid);
      PopAllKeeps(TickBegins(s, visited), popped, |popped|, pid);
    }
  }

  lemma {:induction false} DropTakes(ledger: seq<Change>, held: seq<Held>, n: nat, pid: nat)
    requires n <= |held|
    ensures var r := Drop(ledger, held, n);
            Balance(r, |r|, pid) == Balance(ledger, |ledger|, pid) - Sum(held, n, pid)
  {
    if n > 0 {
      DropTakes(ledger, held, n - 1, pid);
      BalanceAppend(Drop(ledger, held, n - 1), Taken(held[n - 1].pid, held[n - 1].value), pid);
    }
  }

  lemma {:induction false} ProbeKeeps(s: Tracker, alive: bool, mallocOk: bool, pid: nat)
    ensures Excess(ProbeStep(s, alive, mallocOk), pid) == Excess(s, pid)
  {
    if s.timer.Probing? && s.timer.todo != [] {
      var p, h := s.timer, s.timer.todo[0];
      SumFirst(p.todo, |p.todo|, pid);
      if alive {
        SumAppend(p.alive, h, pid);
      } else if !mallocOk {
        DropTakes(s.ledger, p.todo, |p.todo|, pid);
        DropTakes(Drop(s.ledger, p.todo, |p.todo|), p.alive, |p.alive|, pid);
      } else {
        BalanceAppend(s.ledger, Taken(h.pid, h.value), pid);
      }
    }
  }

  lemma {:induction false} ReturnOneKeeps(s: Tracker, h: Held, pushOk: bool, pid: nat)
    ensures Excess(ReturnOne(s, h, pushOk), pid) == Excess(s, pid) - (if h.pid == pid then h.value else 0)
  {
    BalanceAppend(s.ledger, Taken(h.pid, h.value), pid);
  }

  lemma {:induction false} ReturnAllKeeps(s: Tracker, alive: seq<Held>, pushOk: seq<bool>, n: nat, pid: nat)
    requires n <= |alive|
    ensures Excess(ReturnAll(s, alive, pushOk, n), pid) == Excess(s, pid) - Sum(alive, n, pid)
  {
    if n > 0 {
      ReturnAllKeeps(s, alive, pushOk, n - 1, pid);
      ReturnOneKeeps(ReturnAll(s, alive, pushOk, n - 1), alive[n - 1], n - 1 >= |pushOk| || pushOk[n - 1], pid);
    }
  }

  lemma {:induction false} ReinsertKeeps(s: Tracker, pushOk: seq<bool>, pid: nat)
    ensures Excess(ReinsertStep(s, pushOk), pid) == Excess(s, pid)
  {
    if s.timer.Probing? && s.timer.todo == [] {
      var s' := s.(retired := s.retired + s.timer.dead, timer := Resting);
      assert Excess(s', pid) == Excess(s, pid) + Sum(s.timer.alive, |s.timer.alive|, pid);
      ReturnAllKeeps(s', s.timer.alive, pushOk, |s.timer.alive|, pid);
    }
  }

  /** In every run, with lookups falling into the gap where the timer holds no lock, the credit of every pid is accounted for:
      what lookups gave it, less what decay, death and memory failures took, is what the store and the timer hold. */
  lemma {:induction false} CreditConserved(lookups: nat, actions: seq<Action>, pid: nat)
    ensures var s := Run(lookups, actions);
            Owed(s, pid) == InStore(s.store, pid) + InTimer(s.timer, pid)
  {
    if actions != [] {
      var a := actions[|actions| - 1];
      var s := Run(lookups, actions[..|actions| - 1]);
      CreditConserved(lookups, actions[..|actions| - 1], pid);
      match a
      case Look(t, p) => if t < |s.lookups| && s.lookups[t].Free? && p in s.store { CreditKeeps(s, p, pid); }
      case Create(t, commOk, insertOk) => if t < |s.lookups| { CreateKeeps(s, t, commOk, insertOk, pid); }
      case Tick(visited, popped) => TickKeeps(s, visited, popped, pid);
      case Probe(alive, mallocOk) => ProbeKeeps(s, alive, mallocOk, pid);
      case Reinsert(pushOk) => ReinsertKeeps(s, pushOk, pid);
    }
  }

  // ---------------------------------------------------------------------------------------------
  // Live pids return, dead ones are counted

  ghost predicate DistinctPids(held: seq<Held>) {
    forall i, j :: 0 <= i < j < |held| ==> held[i].pid != held[j].pid
  }

  ghost predicate AllPositive(held: seq<Held>) {
    forall i :: 0 <= i < |held| ==> held[i].value >= 1
  }

  ghost predicate StoreOk(s: Tracker) {
    forall k :: k in s.store ==> s.store[k].value >= 1 && s.store[k].last <= s.epoch
  }

  ghost predicate TimerOk(t: Timer) {
    t.Probing? ==> DistinctPids(t.alive + t.todo) && AllPositive(t.alive + t.todo)
  }

  /** Deaths counted, about to be counted, or forgotten with a pass that was given up. */
  ghost predicate DeathsOk(s: Tracker) {
    s.deaths == s.retired + s.forgotten + (if s.timer.Probing? then s.timer.dead else 0)
  }

  ghost predicate TrackerOk(s: Tracker) {
    StoreOk(s) && TimerOk(s.timer) && DeathsOk(s)
  }

  lemma {:induction false} DecayAllOk(s: Tracker, visited: seq<nat>, n: nat)
    requires StoreOk(s) && n <= |visited|
    ensures var s' := DecayAll(s, visited, n);
            && StoreOk(s') && s'.epoch == s.epoch && s'.store.Keys == s.store.Keys
            && s'.retired == s.retired && s'.forgotten == s.forgotten && s'.deaths == s.deaths
  {
    if n > 0 {
      DecayAllOk(s, visited, n - 1);
      var d, p := DecayAll(s, visited, n - 1), visited[n - 1];
      if p in d.store {
        DecayBounds(d.store[p].value, Age(d, d.store[p]));
      }
    }
  }

  /** While the timer pops, what it holds is not in the store. */
  ghost predicate PopOk(s: Tracker) {
    && s.timer.Probing? && s.timer.alive == [] && s.timer.dead == 0 && StoreOk(s)
    && DistinctPids(s.timer.todo) && AllPositive(s.timer.todo)
    && forall i :: 0 <= i < |s.timer.todo| ==> s.timer.todo[i].pid !in s.store
  }

  lemma {:induction false} PopAllOk(s: Tracker, popped: seq<nat>, n: nat)
    requires PopOk(s) && n <= |popped|
    ensures var s' := PopAll(s, popped, n);
            PopOk(s') && s'.retired == s.retired && s'.forgotten == s.forgotten && s'.deaths == s.deaths
  {
    if n > 0 {
      PopAllOk(s, popped, n - 1);
    }
  }

  lemma {:induction false} TickOk(s: Tracker, visited: seq<nat>, popped: seq<nat>)
    requires TrackerOk(s)
    ensures TrackerOk(TickStep(s, visited, popped))
  {
    if s.timer.Resting? {
      DecayAllOk(s.(epoch := s.epoch + 1), visited, |visited|);
      PopAllOk(TickBegins(s, visited), popped, |popped|);
      var s' := PopAll(TickBegins(s, visited), popped, |popped|);
      assert [] + s'.timer.todo == s'.timer.todo;
    }
  }

  lemma {:induction false} ProbeOk(s: Tracker, alive: bool, mallocOk: bool)
    requires TrackerOk(s)
    ensures TrackerOk(ProbeStep(s, alive, mallocOk))
  {
    if s.timer.Probing? && s.timer.todo != [] {
      var p, h := s.timer, s.timer.todo[0];
      var all := p.alive + p.todo;
      assert p.alive + [h] + p.todo[1..] == all;
      var rest := p.alive + p.todo[1..];
      forall i | 0 <= i < |rest|
        ensures rest[i] == all[if i < |p.alive| then i else i + 1]
      {
      }
    }
  }

  /** Returning the first `n` live pids: each is in the store with its value on top of whatever was stored meanwhile; no other
      pid changes. */
  lemma {:induction false} ReturnAllOk(s: Tracker, alive: seq<Held>, pushOk: seq<bool>, n: nat, pid: nat)
    requires n <= |alive| && DistinctPids(alive) && AllPositive(alive) && StoreOk(s)
    ensures var s' := ReturnAll(s, alive, pushOk, n);
            && StoreOk(s') && s'.epoch == s.epoch && s'.timer == s.timer
            && s'.retired == s.retired && s'.forgotten == s.forgotten && s'.deaths == s.deaths
            && ((forall i :: 0 <= i < n ==> alive[i].pid != pid) ==> (pid in s'.store <==> pid in s.store) && InStore(s'.store, pid) == InStore(s.store, pid))
  {
    if n > 0 {
      ReturnAllOk(s, alive, pushOk, n - 1, pid);
      ReturnAllOk(s, alive, pushOk, n - 1, alive[n - 1].pid);
    }
  }

  lemma {:induction false} ReturnsOne(s: Tracker, alive: seq<Held>, pushOk: seq<bool>, n: nat, i: nat)
    requires i < n <= |alive| && DistinctPids(alive) && AllPositive(alive) && StoreOk(s)
    ensures var s', h := ReturnAll(s, alive, pushOk, n), alive[i];
            if h.pid in s.store || i >= |pushOk| || pushOk[i]
            then h.pid in s'.store && s'.store[h.pid] == Stored(InStore(s.store, h.pid) + h.value, s.epoch)
            else h.pid !in s'.store
  {
    var h := alive[i];
    ReturnAllOk(s, alive, pushOk, i, h.pid);
    if i < n - 1 {
      ReturnsOne(s, alive, pushOk, n - 1, i);
      ReturnAllOk(s, alive, pushOk, n - 1, alive[n - 1].pid);
    }
  }

  lemma {:induction false} StepOk(s: Tracker, a: Action)
    requires TrackerOk(s)
    ensures TrackerOk(Step(s, a))
  {
    match a
    case Look(t, pid) =>
    case Create(t, commOk, insertOk) =>
    case Tick(visited, popped) => TickOk(s, visited, popped);
    case Probe(alive, mallocOk) => ProbeOk(s, alive, mallocOk);
    case Reinsert(pushOk) =>
      if s.timer.Probing? && s.timer.todo == [] {
        assert s.timer.alive + [] == s.timer.alive;
        ReturnAllOk(s.(retired := s.retired + s.timer.dead, timer := Resting), s.timer.alive, pushOk, |s.timer.alive|, 0);
      }
  }

  lemma {:induction false} RunOk(lookups: nat, actions: seq<Action>)
    ensures TrackerOk(Run(lookups, actions))
  {
    if actions != [] {
      RunOk(lookups, actions[..|actions| - 1]);
      StepOk(Run(lookups, actions[..|actions| - 1]), actions[|actions| - 1]);
    }
  }

  lemma {:induction false} LiveReturns(s: Tracker, pushOk: seq<bool>, i: nat)
    requires TrackerOk(s) && s.timer.Probing? && s.timer.todo == [] && i < |s.timer.alive|
    ensures ReinsertStep(s, pushOk).timer.Resting?
    ensures IsBack(s, ReinsertStep(s, pushOk), s.timer.alive[i]) <==> s.timer.alive[i].pid in s.store || i >= |pushOk| || pushOk[i]
  {
    assert s.timer.alive + [] == s.timer.alive;
    var r := s.(retired := s.retired + s.timer.dead, timer := Resting);
    ReturnAllOk(r, s.timer.alive, pushOk, |s.timer.alive|, 0);
    ReturnsOne(r, s.timer.alive, pushOk, |s.timer.alive|, i);
  }

  /** The states that the actions lead through. */
  ghost predicate Trace(ss: seq<Tracker>, actions: seq<Action>) {
    |ss| == |actions| + 1 && forall n :: 0 <= n < |actions| ==> ss[n + 1] == Step(ss[n], actions[n])
  }

  /** The retire pass goes on until the last of the actions, which ends it. */
  ghost predicate IsPass(ss: seq<Tracker>, actions: seq<Action>) {
    && Trace(ss, actions) && actions != [] && ss[|actions|].timer.Resting?
    && forall n :: 0 <= n < |actions| ==> ss[n].timer.Probing?
  }

  /** The action meets a dead pid without memory for its exit event. */
  predicate GivesUp(s: Tracker, a: Action) {
    s.timer.Probing? && s.timer.todo != [] && a.Probe? && !a.alive && !a.mallocOk
  }

  /** From `s` to `s'` the pid was put back with its value on top of what was stored of it. */
  ghost predicate IsBack(s: Tracker, s': Tracker, h: Held) {
    h.pid in s'.store && s'.store[h.pid].value == InStore(s.store, h.pid) + h.value
  }

  /** A pass is left by giving it up or by putting back. */
  lemma {:induction false} LeavesPass(s: Tracker, a: Action)
    requires s.timer.Probing?
    ensures Step(s, a).timer.Resting? <==> GivesUp(s, a) || (a.Reinsert? && s.timer.todo == [])
    ensures Step(s, a).timer.Probing? ==> s.timer.alive <= Step(s, a).timer.alive
  {
    if a.Reinsert? && s.timer.todo == [] {
      ReturnsKeepTimer(s.(retired := s.retired + s.timer.dead, timer := Resting), s.timer.alive, a.pushOk, |s.timer.alive|);
    }
  }

  lemma {:induction false} ReturnsKeepTimer(s: Tracker, alive: seq<Held>, pushOk: seq<bool>, n: nat)
    requires n <= |alive|
    ensures ReturnAll(s, alive, pushOk, n).timer == s.timer
  {
    if n > 0 {
      ReturnsKeepTimer(s, alive, pushOk, n - 1);
    }
  }

  lemma {:induction false} AliveStays(ss: seq<Tracker>, actions: seq<Action>, n: nat)
    requires n < |actions| && IsPass(ss, actions)
    ensures ss[0].timer.alive <= ss[n].timer.alive
  {
    if n > 0 {
      AliveStays(ss, actions, n - 1);
      LeavesPass(ss[n - 1], actions[n - 1]);
      assert ss[n] == Step(ss[n - 1], actions[n - 1]);
    }
  }

  lemma {:induction false} TraceOk(ss: seq<Tracker>, actions: seq<Action>, n: nat)
    requires n <= |actions| && Trace(ss, actions) && TrackerOk(ss[0])
    ensures TrackerOk(ss[n])
  {
    if n > 0 {
      TraceOk(ss, actions, n - 1);
      StepOk(ss[n - 1], actions[n - 1]);
      assert ss[n] == Step(ss[n - 1], actions[n - 1]);
    }
  }

  /** No action of the pass gives it up. */
  ghost predicate Persists(ss: seq<Tracker>, actions: seq<Action>) {
    |actions| < |ss| && forall n :: 0 <= n < |actions| ==> !GivesUp(ss[n], actions[n])
  }

  lemma {:induction false} GoesOn(ss: seq<Tracker>, actions: seq<Action>, n: nat)
    requires IsPass(ss, actions) && n < |actions| - 1
    ensures !GivesUp(ss[n], actions[n])
  {
    LeavesPass(ss[n], actions[n]);
    assert ss[n + 1] == Step(ss[n], actions[n]);
  }

  lemma {:induction false} LastDecides(ss: seq<Tracker>, actions: seq<Action>, m: nat)
    requires IsPass(ss, actions) && m == |actions| - 1
    ensures Persists(ss, actions) <==> !GivesUp(ss[m], actions[m])
  {
    forall n | 0 <= n < m
      ensures !GivesUp(ss[n], actions[n])
    {
      GoesOn(ss, actions, n);
    }
  }

  /** Giving up puts nothing back. */
  lemma {:induction false} NoneReturns(s: Tracker, a: Action, h: Held)
    requires GivesUp(s, a) && h.value >= 1
    ensures !IsBack(s, Step(s, a), h)
  {
  }

  /** How a pass ends for a pid found alive, at its last action. */
  lemma {:induction false} PassEndsFor(e: Tracker, a: Action, i: nat)
    requires TrackerOk(e) && e.timer.Probing? && Step(e, a).timer.Resting? && i < |e.timer.alive|
    ensures !GivesUp(e, a) ==> a.Reinsert?
    ensures IsBack(e, Step(e, a), e.timer.alive[i]) <==>
            !GivesUp(e, a) && (e.timer.alive[i].pid in e.store || i >= |a.pushOk| || a.pushOk[i])
  {
    var h := e.timer.alive[i];
    assert (e.timer.alive + e.timer.todo)[i] == h;
    LeavesPass(e, a);
    if GivesUp(e, a) {
      NoneReturns(e, a, h);
    } else {
      LiveReturns(e, a.pushOk, i);
    }
  }

  /** In every run, at every moment of a retire pass, for every pid found alive and every way in which the pass goes on to its end, lookups
      falling in between: the pid is put back, with its value on top of the entry that a lookup may have created meanwhile, if and only
      if no probe of the pass meets a dead pid without memory, and the pid was stored meanwhile or its push gets memory. */
  lemma {:induction false} LivePidReturns(lookups: nat, before: seq<Action>, ss: seq<Tracker>, actions: seq<Action>, m: nat, i: nat)
    requires IsPass(ss, actions) && ss[0] == Run(lookups, before) && m == |actions| - 1 && i < |ss[0].timer.alive|
    ensures var h, a := ss[0].timer.alive[i], actions[m];
            && (Persists(ss, actions) ==> a.Reinsert?)
            && (IsBack(ss[m], ss[m + 1], h) <==> Persists(ss, actions) && (h.pid in ss[m].store || i >= |a.pushOk| || a.pushOk[i]))
  {
    RunOk(lookups, before);
    TraceOk(ss, actions, m);
    AliveStays(ss, actions, m);
    LastDecides(ss, actions, m);
    assert ss[m + 1] == Step(ss[m], actions[m]);
    PassEndsFor(ss[m], actions[m], i);
  }

  /** In every run the retired count is the number of dead pids found, except for those of a pass that was given up for want of
      memory and those of the pass under way; no stored value is ever below one. */
  lemma {:induction false} RetiredIsDeaths(lookups: nat, actions: seq<Action>)
    ensures var s := Run(lookups, actions);
            && s.deaths == s.retired + s.forgotten + (if s.timer.Probing? then s.timer.dead else 0)
            && forall k :: k in s.store ==> s.store[k].value >= 1
  {
    RunOk(lookups, actions);
  }

  /** The action gives up a pass that has found dead pids. */
  predicate Forgets(s: Tracker, a: Action) {
    GivesUp(s, a) && s.timer.dead > 0
  }

  lemma {:induction false} ForgottenStep(s: Tracker, a: Action)
    requires TrackerOk(s)
    ensures Step(s, a).forgotten >= s.forgotten && (Step(s, a).forgotten == s.forgotten <==> !Forgets(s, a))
  {
    if a.Tick? && s.timer.Resting? {
      DecayAllOk(s.(epoch := s.epoch + 1), a.visited, |a.visited|);
      PopAllOk(TickBegins(s, a.visited), a.popped, |a.popped|);
    } else if a.Reinsert? && s.timer.Probing? && s.timer.todo == [] {
      assert s.timer.alive + [] == s.timer.alive;
      ReturnAllOk(s.(retired := s.retired + s.timer.dead, timer := Resting), s.timer.alive, a.pushOk, |s.timer.alive|, 0);
    }
  }

  /** Position `n` of a run is such an action. */
  ghost predicate ForgetsAt(lookups: nat, actions: seq<Action>, n: nat)
    requires n < |actions|
  {
    Forgets(Run(lookups, actions[..n]), actions[n])
  }

  lemma {:induction false} ForgetsSame(lookups: nat, actions: seq<Action>, m: nat, n: nat)
    requires n < m <= |actions|
    ensures ForgetsAt(lookups, actions[..m], n) <==> ForgetsAt(lookups, actions, n)
  {
    assert actions[..m][..n] == actions[..n];
  }

  /** In every run no dead pid is forgotten if and only if no probe without memory meets a dead pid when the pass has found one already. */
  lemma {:induction false} NoneForgottenIff(lookups: nat, actions: seq<Action>)
    ensures Run(lookups, actions).forgotten == 0 <==> forall n :: 0 <= n < |actions| ==> !ForgetsAt(lookups, actions, n)
  {
    if actions != [] {
      var m := |actions| - 1;
      var s := Run(lookups, actions[..m]);
      NoneForgottenIff(lookups, actions[..m]);
      RunOk(lookups, actions[..m]);
      ForgottenStep(s, actions[m]);
      assert Run(lookups, actions) == Step(s, actions[m]);
      forall n | 0 <= n < m
        ensures ForgetsAt(lookups, actions[..m], n) <==> ForgetsAt(lookups, actions, n)
      {
        ForgetsSame(lookups, actions, m, n);
      }
      assert ForgetsAt(lookups, actions, m) <==> Forgets(s, actions[m]);
    }
  }

  /** Some run leads to the state. */
  ghost predicate Reachable(lookups: nat, s: Tracker) {
    exists actions :: Run(lookups, actions) == s
  }

  lemma {:induction false} Goes(lookups: nat, s: Tracker, a: Action) returns (s': Tracker)
    requires Reachable(lookups, s)
    ensures s' == Step(s, a) && Reachable(lookups, s')
  {
    var actions :| Run(lookups, actions) == s;
    s' := Step(s, a);
    assert (actions + [a])[..|actions|] == actions;
    assert Run(lookups, actions + [a]) == s';
  }

  lemma {:induction false} TwoPids() returns (s: Tracker)
    ensures Reachable(1, s) && s.store == map[7 := Stored(1, 0), 8 := Stored(1, 0)] && s.timer.Resting? && s.forgotten == s.deaths == s.retired == 0
  {
    s := Tracker(map[], 0, 0, 0, 0, Resting, seq(1, _ => Free), []);
    assert Run(1, []) == s;
    s := Goes(1, s, Look(0, 7));
    s := Goes(1, s, Create(0, true, true));
    assert s.store == map[7 := Stored(1, 0)];
    s := Goes(1, s, Look(0, 8));
    s := Goes(1, s, Create(0, true, true));
  }

  /** The only way to take both pids. */
  lemma {:induction false} PopsBoth(s: Tracker)
    requires s.store == map[7 := Stored(1, 0), 8 := Stored(1, 0)] && s.timer == Probing([], [], 0)
    ensures PopsAllowed(s, [7, 8]) && PopAll(s, [7, 8], 2) == s.(store := map[], timer := Probing([Held(7, 1), Held(8, 1)], [], 0))
  {
    var pids := [7, 8];
    assert PopAll(s, pids, 0) == s;
    var s1 := PopAll(s, pids, 1);
    assert s1 == PopOne(s, 7);
    assert s1.store == map[8 := Stored(1, 0)] && s1.timer.todo == [Held(7, 1)];
    assert PopAll(s, pids, 2) == PopOne(s1, 8);
    assert PopAll(s, pids, 2).store == map[];
    forall n | 0 <= n < 2
      ensures IsLeast(PopAll(s, pids, n).store, pids[n])
    {
    }
  }

  /** Both pids are popped. */
  lemma {:induction false} BothPopped() returns (s: Tracker)
    ensures Reachable(1, s) && s.timer == Probing([Held(7, 1), Held(8, 1)], [], 0) && s.store == map[]
    ensures s.forgotten == s.deaths == s.retired == 0
  {
    s := TwoPids();
    PopsBoth(TickBegins(s, []));
    s := Goes(1, s, Tick([], [7, 8]));
  }

  /** A pass that finds one pid alive and then meets a dead one without memory loses the live one, although no push was attempted and
      nothing is counted as forgotten. */
  lemma {:induction false} LivePidLost() returns (s: Tracker)
    ensures Reachable(1, s) && s.timer == Probing([Held(8, 1)], [Held(7, 1)], 0) && GivesUp(s, Probe(false, false))
    ensures var s' := Step(s, Probe(false, false));
            Reachable(1, s') && s'.timer.Resting? && s'.store == map[] && s'.forgotten == s'.deaths == s'.retired == 0
  {
    s := BothPopped();
    s := Goes(1, s, Probe(true, true));
    var s' := Goes(1, s, Probe(false, false));
  }

  /** A pass that finds one pid dead and then runs out of memory forgets the dead one and loses the other. */
  lemma {:induction false} PassGivenUp() returns (s: Tracker)
    ensures Reachable(1, s) && s.forgotten == 1 && s.deaths == 1 && s.retired == 0 && s.store == map[] && s.timer.Resting?
  {
    s := BothPopped();
    s := Goes(1, s, Probe(false, true));
    s := Goes(1, s, Probe(false, false));
  }
}

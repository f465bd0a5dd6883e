/** Worker start-up and teardown in src/cpa_monitor/cpa_runtime.c: sorting, initialisation with in-place compaction, rollback,
    and teardown in reverse order.
  */
module Workers {
  import opened Markers

  /** `id` stands for the address, which breaks ties. */
  datatype Worker = Worker(index: nat, name: string, id: nat, hasInit: bool, hasDestroy: bool)

  /** What the opaque `init_fn` answers. */
  datatype Answer = Success | Skip | Failed

  datatype Call = Init(w: Worker) | Destroy(w: Worker)

  // ---------------------------------------------------------------------------------------------
  // Registration

  /** `strncmp` on whole names. */
  function CompareNames(a: string, b: string): int {
    if a == [] && b == [] then 0
    else if a == [] then -1
    else if b == [] then 1
    else if a[0] < b[0] then -1
    else if a[0] > b[0] then 1
    else CompareNames(a[1..], b[1..])
  }

  lemma {:induction false} NamesFlip(a: string, b: string)
    ensures CompareNames(b, a) == -CompareNames(a, b)
  {
    if a != [] && b != [] {
      NamesFlip(a[1..], b[1..]);
    }
  }

  /** Only equal names compare equal. */
  lemma {:induction false} NamesEqual(a: string, b: string)
    ensures CompareNames(a, b) == 0 <==> a == b
  {
    if a != [] && b != [] {
      NamesEqual(a[1..], b[1..]);
      assert a == [a[0]] + a[1..] && b == [b[0]] + b[1..];
    }
  }

  lemma {:induction false} NamesTransitive(a: string, b: string, c: string)
    requires CompareNames(a, b) <= 0 && CompareNames(b, c) <= 0
    ensures CompareNames(a, c) <= 0
    ensures CompareNames(a, c) == 0 ==> CompareNames(a, b) == 0 && CompareNames(b, c) == 0
  {
    if a != [] && b != [] && c != [] && a[0] == b[0] && b[0] == c[0] {
      NamesTransitive(a[1..], b[1..], c[1..]);
    }
  }

  /** `compare_workers` is negative. */
  predicate Before(a: Worker, b: Worker) {
    || a.index < b.index
    || (a.index == b.index && (CompareNames(a.name, b.name) < 0 || (CompareNames(a.name, b.name) == 0 && a.id < b.id)))
  }

  /** `compare_workers` is a strict order. */
  lemma {:induction false} BeforeIsOrder(a: Worker, b: Worker, c: Worker)
    ensures Before(a, b) ==> !Before(b, a)
    ensures Before(a, b) && Before(b, c) ==> Before(a, c)
  {
    NamesFlip(a.name, b.name);
    if Before(a, b) && Before(b, c) && a.index == b.index == c.index {
      NamesTransitive(a.name, b.name, c.name);
    }
  }

  function Insert(ws: seq<Worker>, w: Worker): seq<Worker> {
    if ws == [] || Before(w, ws[0]) then [w] + ws else [ws[0]] + Insert(ws[1..], w)
  }

  function Sort(ws: seq<Worker>): seq<Worker> {
    if ws == [] then [] else Insert(Sort(ws[..|ws| - 1]), ws[|ws| - 1])
  }

  ghost predicate Sorted(ws: seq<Worker>) {
    forall i, j :: 0 <= i < j < |ws| ==> !Before(ws[j], ws[i])
  }

  lemma {:induction false} SortedFront(w: Worker, ws: seq<Worker>)
    requires Sorted(ws) && forall j :: 0 <= j < |ws| ==> !Before(ws[j], w)
    ensures Sorted([w] + ws)
  {
    var r := [w] + ws;
    forall i, j | 0 <= i < j < |r|
      ensures !Before(r[j], r[i])
    {
      assert r[j] == ws[j - 1];
    }
  }

  lemma {:induction false} FrontBefore(ws: seq<Worker>, w: Worker, j: nat)
    requires Sorted(ws) && j < |ws| && Before(w, ws[0])
    ensures !Before(ws[j], w)
  {
    BeforeIsOrder(w, ws[0], ws[0]);
    BeforeIsOrder(ws[j], w, ws[0]);
  }

  lemma {:induction false} InsertContents(ws: seq<Worker>, w: Worker)
    ensures multiset(Insert(ws, w)) == multiset(ws) + multiset{w}
  {
    if ws != [] && !Before(w, ws[0]) {
      InsertContents(ws[1..], w);
      assert ws == [ws[0]] + ws[1..];
    }
  }

  lemma {:induction false} InsertMembers(ws: seq<Worker>, w: Worker, x: Worker)
    requires x in Insert(ws, w)
    ensures x == w || x in ws
  {
    InsertContents(ws, w);
    assert x in multiset(Insert(ws, w));
  }

  lemma {:induction false} InsertKeeps(ws: seq<Worker>, w: Worker)
    requires Sorted(ws)
    ensures Sorted(Insert(ws, w))
  {
    if ws == [] {
      return;
    }
    if Before(w, ws[0]) {
      forall j | 0 <= j < |ws|
        ensures !Before(ws[j], w)
      {
        FrontBefore(ws, w, j);
      }
      SortedFront(w, ws);
      return;
    }
    var rest := Insert(ws[1..], w);
    InsertKeeps(ws[1..], w);
    forall j | 0 <= j < |rest|
      ensures !Before(rest[j], ws[0])
    {
      InsertMembers(ws[1..], w, rest[j]);
    }
    SortedFront(ws[0], rest);
  }

  /** The sort yields the same workers, in the order of their index, name and address. */
  lemma {:induction false} SortSorts(ws: seq<Worker>)
    ensures Sorted(Sort(ws)) && multiset(Sort(ws)) == multiset(ws)
  {
    if ws != [] {
      var n := |ws| - 1;
      SortSorts(ws[..n]);
      InsertKeeps(Sort(ws[..n]), ws[n]);
      InsertContents(Sort(ws[..n]), ws[n]);
      assert ws == ws[..n] + [ws[n]];
    }
  }

  // ---------------------------------------------------------------------------------------------
  // What start-up means

  predicate Fails(w: Worker, init: Worker -> Answer) {
    w.hasInit && init(w).Failed?
  }

  predicate Skips(w: Worker, init: Worker -> Answer) {
    w.hasInit && init(w).Skip?
  }

  /** The workers kept among the first `n`, in order. */
  function Kept(ws: seq<Worker>, init: Worker -> Answer, n: nat): seq<Worker>
    requires n <= |ws|
  {
    if n == 0 then [] else Kept(ws, init, n - 1) + (if Skips(ws[n - 1], init) then [] else [ws[n - 1]])
  }

  /** The first worker from `n` on whose initialisation fails. */
  function FirstFailure(ws: seq<Worker>, init: Worker -> Answer, n: nat): (k: nat)
    requires n <= |ws|
    ensures n <= k <= |ws|
    decreases |ws| - n
  {
    if n == |ws| || Fails(ws[n], init) then n else FirstFailure(ws, init, n + 1)
  }

  /** It fails, and none from `n` on before it does. */
  lemma {:induction false} FirstFailureIs(ws: seq<Worker>, init: Worker -> Answer, n: nat)
    requires n <= |ws|
    ensures var k := FirstFailure(ws, init, n);
            (k < |ws| ==> Fails(ws[k], init)) && forall i :: n <= i < k ==> !Fails(ws[i], init)
    decreases |ws| - n
  {
    if n < |ws| && !Fails(ws[n], init) {
      FirstFailureIs(ws, init, n + 1);
    }
  }

  function InitCalls(ws: seq<Worker>, n: nat): seq<Call>
    requires n <= |ws|
  {
    if n == 0 then [] else InitCalls(ws, n - 1) + (if ws[n - 1].hasInit then [Init(ws[n - 1])] else [])
  }

  function DestroyOne(w: Worker): seq<Call> {
    if w.hasDestroy then [Destroy(w)] else []
  }

  /** Teardown of the first `n` workers, the last one first. */
  function DestroyCalls(ws: seq<Worker>, n: nat): seq<Call>
    requires n <= |ws|
  {
    if n == 0 then [] else DestroyOne(ws[n - 1]) + DestroyCalls(ws, n - 1)
  }

  function InitLog(ws: seq<Worker>, init: Worker -> Answer): seq<Call> {
    var k := FirstFailure(ws, init, 0);
    if k == |ws| then InitCalls(ws, k)
    else InitCalls(ws, k + 1) + DestroyCalls(Kept(ws, init, k), |Kept(ws, init, k)|)
  }

  /** All calls between registration and the end of the process, when the timer thread can be joined. */
  function LifeLog(ws: seq<Worker>, init: Worker -> Answer): seq<Call> {
    var k := FirstFailure(ws, init, 0);
    InitLog(ws, init) + (if k == |ws| then DestroyCalls(Kept(ws, init, k), |Kept(ws, init, k)|) else [])
  }

  // ---------------------------------------------------------------------------------------------
  // The code

  class Runtime {
    var workers: seq<Worker>
    var timerCreated: bool
    var log: seq<Call>

    constructor ()
      ensures workers == [] && !timerCreated && log == []
    {
      workers, timerCreated, log := [], false, [];
    }

    /** `cpa_runtime_register`: refuses an empty list, and a failure changes nothing. */
    method Register(more: seq<Worker>, callocOk: bool) returns (ok: bool)
      modifies this`workers
      ensures ok <==> more != [] && callocOk
      ensures !ok ==> workers == old(workers)
      ensures ok ==> Sorted(workers) && multiset(workers) == multiset(old(workers) + more)
    {
      if more == [] || !callocOk {
        return false;
      }
      SortSorts(workers + more);
      workers := Sort(workers + more);
      ok := true;
    }

    /** Initialises worker `i`; a skipped one is squeezed out of the array. */
    method InitOne(i: nat, init: Worker -> Answer) returns (failed: bool, next: nat)
      requires i < |workers|
      modifies this`workers, this`log
      ensures InitStep(old(workers), i, init, old(log), failed, workers, next, log)
    {
      assert OpenInit(0);
      var worker := workers[i];
      if !worker.hasInit {
        return false, i + 1;
      }
      log := log + [Init(worker)];
      var answer := init(worker);
      if answer.Success? {
        return false, i + 1;
      }
      if answer.Skip? {
        workers := workers[..i] + workers[i + 1..];
        return false, i;
      }
      return true, i;
    }

    /** `cpa_runtime_worker_exec_init`: without memory for its summary it does nothing. */
    method ExecInit(init: Worker -> Answer, callocOk: bool) returns (ok: bool)
      modifies this`workers, this`log
      ensures callocOk ==> InitDone(old(workers), init, workers, old(log), log, ok)
      ensures !callocOk ==> !ok && workers == old(workers) && log == old(log)
    {
      if !callocOk {
        return false;
      }
      ok := InitAll(init);
    }

    method InitAll(init: Worker -> Answer) returns (ok: bool)
      modifies this`workers, this`log
      ensures InitDone(old(workers), init, workers, old(log), log, ok)
    {
      ghost var ws: seq<Worker>, n: nat := workers, 0;
      var i: nat := 0;
      ProgressBegins(ws, init, log);
      while i < |workers|
        invariant Progress(ws, init, n, workers, i, old(log), log)
        decreases |ws| - n
      {
        AtWorker(ws, init, n, workers, i, old(log), log);
        var failed;
        failed, i := InitNext(i, init, ws, n, old(log));
        if failed {
          return false;
        }
        n := n + 1;
      }
      ProgressEnds(ws, init, n, workers, i, old(log), log);
      return true;
    }

    /** One round: on to the next worker, or back through all before it. */
    method InitNext(i: nat, init: Worker -> Answer, ghost ws: seq<Worker>, ghost n: nat, ghost start: seq<Call>) returns (failed: bool, next: nat)
      requires i < |workers| && Progress(ws, init, n, workers, i, start, log)
      modifies this`workers, this`log
      ensures !failed ==> Progress(ws, init, n + 1, workers, next, start, log)
      ensures failed ==> InitDone(ws, init, workers, start, log, false)
    {
      ghost var workers0, log0 := workers, log;
      failed, next := InitOne(i, init);
      if failed {
        ProgressFails(ws, init, n, workers0, i, start, log0, workers, next, log);
        Rollback(next);
      } else {
        ProgressGoes(ws, init, n, workers0, i, start, log0, workers, next, log);
      }
    }

    /** Destroys the workers before `i` in reverse order. */
    method Rollback(i: nat)
      requires i <= |workers|
      modifies this`log
      ensures log == old(log) + DestroyCalls(workers, i)
    {
      var j: nat := i;
      while j > 0
        invariant j <= i
        invariant log + DestroyCalls(workers, j) == old(log) + DestroyCalls(workers, i)
      {
        j := j - 1;
        Regroup(log, DestroyOne(workers[j]), DestroyCalls(workers, j));
        ghost var before := log;
        if workers[j].hasDestroy {
          log := log + [Destroy(workers[j])];
        }
        assert log == before + DestroyOne(workers[j]);
      }
      assert log + [] == log;
    }

    /** `cpa_runtime_start` after its argument checks; `timerOk` tells whether the timer thread can be created. */
    method Start(init: Worker -> Answer, callocOk: bool, timerOk: bool) returns (ok: bool)
      requires !timerCreated
      modifies this
      ensures var ws := old(workers);
              var k := FirstFailure(ws, init, 0);
              && (ok <==> k == |ws| && callocOk && timerOk) && timerCreated == ok
              && (ok ==> workers == Kept(ws, init, k) && log == old(log) + InitLog(ws, init))
              && (!ok && callocOk ==> log == old(log) + LifeLog(ws, init))
              && (!callocOk ==> log == old(log))
    {
      ghost var ws := workers;
      ok := ExecInit(init, callocOk);
      if !ok {
        assert InitLog(ws, init) + [] == InitLog(ws, init);
        return;
      }
      assert workers == Kept(ws, init, |ws|);
      if !timerOk {
        Rollback(|workers|);
        Regroup(old(log), InitLog(ws, init), DestroyCalls(workers, |workers|));
        return false;
      }
      timerCreated := true;
      ok := true;
    }

    /** `cpa_runtime_stop`: without a timer thread to join nothing is destroyed again. */
    method Stop(joinOk: bool) returns (ok: bool)
      modifies this
      ensures ok <==> old(timerCreated) && joinOk
      ensures workers == old(workers)
      ensures log == if ok then old(log) + DestroyCalls(workers, |workers|) else old(log)
    {
      if !timerCreated || !joinOk {
        return false;
      }
      timerCreated := false;
      Rollback(|workers|);
      ok := true;
    }

    /** The whole process: start, run, stop; a failed start is followed by a stop as well. */
    method Life(init: Worker -> Answer, callocOk: bool, timerOk: bool)
      requires !timerCreated
      modifies this
      ensures log == if callocOk then old(log) + LifeLog(old(workers), init) else old(log)
    {
      ghost var ws := workers;
      var started := Start(init, callocOk, timerOk);
      var stopped := Stop(true);
      if started {
        Regroup(old(log), InitLog(ws, init), DestroyCalls(workers, |workers|));
      }
    }
  }

  lemma {:induction false} Regroup(a: seq<Call>, b: seq<Call>, c: seq<Call>)
    ensures (a + b) + c == a + (b + c)
  {
  }

  /** The state of initialisation after `n` of the original workers `ws`. */
  ghost predicate Progress(ws: seq<Worker>, init: Worker -> Answer, n: nat, workers: seq<Worker>, i: nat,
                           start: seq<Call>, log: seq<Call>) {
    forall k {:trigger OpenInit(k)} :: OpenInit(k) ==>
      && n <= |ws| && i == |Kept(ws, init, n)| && workers == Kept(ws, init, n) + ws[n..]
      && FirstFailure(ws, init, 0) == FirstFailure(ws, init, n)
      && log == start + InitCalls(ws, n)
  }

  /** How initialisation ends: at the first failure, rolled back, or with all workers walked. */
  ghost predicate InitDone(ws: seq<Worker>, init: Worker -> Answer, workers: seq<Worker>, start: seq<Call>, log: seq<Call>, ok: bool) {
    var k := FirstFailure(ws, init, 0);
    && (ok <==> k == |ws|)
    && workers == Kept(ws, init, k) + ws[k..]
    && log == start + InitLog(ws, init)
  }

  lemma {:induction false} ProgressEnds(ws: seq<Worker>, init: Worker -> Answer, n: nat, workers: seq<Worker>, i: nat,
                                        start: seq<Call>, log: seq<Call>)
    requires Progress(ws, init, n, workers, i, start, log) && i >= |workers|
    ensures InitDone(ws, init, workers, start, log, true)
  {
    assert OpenInit(0);
  }

  lemma {:induction false} ProgressBegins(ws: seq<Worker>, init: Worker -> Answer, log: seq<Call>)
    ensures Progress(ws, init, 0, ws, 0, log, log)
  {
    assert ws == Kept(ws, init, 0) + ws[0..];
  }

  /** The worker in hand is the next one of the original list. */
  lemma {:induction false} AtWorker(ws: seq<Worker>, init: Worker -> Answer, n: nat, workers: seq<Worker>, i: nat,
                                    start: seq<Call>, log: seq<Call>)
    requires Progress(ws, init, n, workers, i, start, log) && i < |workers|
    ensures n < |ws| && workers[i] == ws[n]
  {
    assert OpenInit(0);
  }

  /** What `InitOne` does to worker `i`. */
  ghost predicate InitStep(workers: seq<Worker>, i: nat, init: Worker -> Answer, log: seq<Call>,
                           failed: bool, workers': seq<Worker>, next: nat, log': seq<Call>)
    requires i < |workers|
  {
    forall k {:trigger OpenInit(k)} :: OpenInit(k) ==>
      var w := workers[i];
      && (failed <==> Fails(w, init))
      && log' == log + (if w.hasInit then [Init(w)] else [])
      && workers' == (if Skips(w, init) then workers[..i] + workers[i + 1..] else workers)
      && next == (if Skips(w, init) || failed then i else i + 1)
  }

  lemma {:induction false} ProgressGoes(ws: seq<Worker>, init: Worker -> Answer, n: nat, workers: seq<Worker>, i: nat,
                                        start: seq<Call>, log: seq<Call>, workers': seq<Worker>, i': nat, log': seq<Call>)
    requires i < |workers| && Progress(ws, init, n, workers, i, start, log)
    requires InitStep(workers, i, init, log, false, workers', i', log')
    ensures Progress(ws, init, n + 1, workers', i', start, log')
  {
    AtWorker(ws, init, n, workers, i, start, log);
    assert OpenInit(0);
    assert ws[n..] == [ws[n]] + ws[n + 1..];
    assert workers' == Kept(ws, init, n + 1) + ws[n + 1..];
  }

  lemma {:induction false} ProgressFails(ws: seq<Worker>, init: Worker -> Answer, n: nat, workers: seq<Worker>, i: nat,
                                         start: seq<Call>, log: seq<Call>, workers': seq<Worker>, i': nat, log': seq<Call>)
    requires i < |workers| && Progress(ws, init, n, workers, i, start, log)
    requires InitStep(workers, i, init, log, true, workers', i', log')
    ensures i' <= |workers'| && InitDone(ws, init, workers', start, log' + DestroyCalls(workers', i'), false)
  {
    AtWorker(ws, init, n, workers, i, start, log);
    assert OpenInit(0);
    assert workers[..i] == Kept(ws, init, n);
    DestroyPrefix(workers, Kept(ws, init, n), i);
    assert log' == start + InitCalls(ws, n + 1);
    Regroup(start, InitCalls(ws, n + 1), DestroyCalls(workers, i));
  }

  lemma {:induction false} DestroyPrefix(ws: seq<Worker>, vs: seq<Worker>, n: nat)
    requires n <= |ws| && n <= |vs| && ws[..n] == vs[..n]
    ensures DestroyCalls(ws, n) == DestroyCalls(vs, n)
  {
    if n > 0 {
      assert ws[..n - 1] == ws[..n][..n - 1] && vs[..n - 1] == vs[..n][..n - 1];
      DestroyPrefix(ws, vs, n - 1);
      assert ws[n - 1] == ws[..n][n - 1];
    }
  }

  // ---------------------------------------------------------------------------------------------
  // Destroyed exactly once, in reverse order

  function Times(log: seq<Call>, c: Call): nat {
    if log == [] then 0 else (if log[0] == c then 1 else 0) + Times(log[1..], c)
  }

  lemma {:induction false} TimesAppend(a: seq<Call>, b: seq<Call>, c: Call)
    ensures Times(a + b, c) == Times(a, c) + Times(b, c)
  {
    if a == [] {
      assert a + b == b;
    } else {
      assert (a + b)[1..] == a[1..] + b;
      TimesAppend(a[1..], b, c);
    }
  }

  ghost predicate Distinct(ws: seq<Worker>) {
    forall i, j :: 0 <= i < j < |ws| ==> ws[i] != ws[j]
  }

  lemma {:induction false} NoDestroyInInits(ws: seq<Worker>, n: nat, w: Worker)
    requires n <= |ws|
    ensures Times(InitCalls(ws, n), Destroy(w)) == 0
  {
    if n > 0 {
      NoDestroyInInits(ws, n - 1, w);
      TimesAppend(InitCalls(ws, n - 1), if ws[n - 1].hasInit then [Init(ws[n - 1])] else [], Destroy(w));
    }
  }

  lemma {:induction false} PrefixMember(ws: seq<Worker>, n: nat, w: Worker)
    requires 0 < n <= |ws| && Distinct(ws)
    ensures w in ws[..n] <==> w in ws[..n - 1] || w == ws[n - 1]
    ensures ws[n - 1] !in ws[..n - 1]
  {
    assert ws[..n] == ws[..n - 1] + [ws[n - 1]];
  }

  lemma {:induction false} DestroyOneTimes(v: Worker, w: Worker)
    ensures Times(DestroyOne(v), Destroy(w)) == if v == w && w.hasDestroy then 1 else 0
  {
    assert v.hasDestroy ==> DestroyOne(v)[1..] == [];
  }

  lemma {:induction false} DestroyTimes(ws: seq<Worker>, n: nat, w: Worker)
    requires n <= |ws| && Distinct(ws)
    ensures Times(DestroyCalls(ws, n), Destroy(w)) == if w in ws[..n] && w.hasDestroy then 1 else 0
  {
    if n > 0 {
      DestroyTimes(ws, n - 1, w);
      TimesAppend(DestroyOne(ws[n - 1]), DestroyCalls(ws, n - 1), Destroy(w));
      DestroyOneTimes(ws[n - 1], w);
      PrefixMember(ws, n, w);
    }
  }

  lemma {:induction false} KeptShape(ws: seq<Worker>, init: Worker -> Answer, n: nat, w: Worker)
    requires n <= |ws| && Distinct(ws)
    ensures Distinct(Kept(ws, init, n))
    ensures w in Kept(ws, init, n) <==> w in ws[..n] && !Skips(w, init)
  {
    if n > 0 {
      KeptShape(ws, init, n - 1, w);
      KeptShape(ws, init, n - 1, ws[n - 1]);
      assert ws[..n] == ws[..n - 1] + [ws[n - 1]];
      var k := Kept(ws, init, n - 1);
      assert ws[n - 1] !in k;
    }
  }

  /** For every worker list and every vector of answers, over the whole life of the process, whether start-up fails at a
      worker, at the timer thread or not at all: a worker is destroyed exactly once if it comes before the first failure, was
      not skipped and has something to destroy, and never otherwise. */
  lemma {:induction false} DestroyedExactlyOnce(ws: seq<Worker>, init: Worker -> Answer, w: Worker)
    requires Distinct(ws)
    ensures var k := FirstFailure(ws, init, 0);
            Times(LifeLog(ws, init), Destroy(w)) == if w in ws[..k] && !Skips(w, init) && w.hasDestroy then 1 else 0
  {
    var k := FirstFailure(ws, init, 0);
    var kept := Kept(ws, init, k);
    KeptShape(ws, init, k, w);
    DestroyTimes(kept, |kept|, w);
    assert kept[..|kept|] == kept;
    var inits := InitCalls(ws, if k == |ws| then k else k + 1);
    NoDestroyInInits(ws, if k == |ws| then k else k + 1, w);
    TimesAppend(inits, DestroyCalls(kept, |kept|), Destroy(w));
    assert LifeLog(ws, init) == inits + DestroyCalls(kept, |kept|);
  }

  /** The teardown calls with the first worker first. */
  function DestroyList(ws: seq<Worker>, n: nat): seq<Call>
    requires n <= |ws|
  {
    if n == 0 then [] else DestroyList(ws, n - 1) + DestroyOne(ws[n - 1])
  }

  /** The same calls in opposite order. */
  ghost predicate Mirrors(a: seq<Call>, b: seq<Call>) {
    |a| == |b| && forall i :: 0 <= i < |a| ==> a[i] == b[|a| - 1 - i]
  }

  lemma {:induction false} MirrorGrows(x: Call, a: seq<Call>, b: seq<Call>)
    requires Mirrors(a, b)
    ensures Mirrors([x] + a, b + [x])
  {
  }

  /** Teardown runs from the last worker to the first. */
  lemma {:induction false} DestroyReversed(ws: seq<Worker>, n: nat)
    requires n <= |ws|
    ensures Mirrors(DestroyCalls(ws, n), DestroyList(ws, n))
  {
    if n > 0 {
      var forwards, calls := DestroyList(ws, n - 1), DestroyCalls(ws, n - 1);
      DestroyReversed(ws, n - 1);
      if ws[n - 1].hasDestroy {
        MirrorGrows(Destroy(ws[n - 1]), calls, forwards);
      } else {
        assert forwards + [] == forwards && [] + calls == calls;
      }
    }
  }
}

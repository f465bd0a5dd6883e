/** Which samples reach the time wheel around a restart: the order in which `cpa_runtime_restart_loop` (src/cpa_monitor/cpa_runtime.c)
    restores the workers, the wheel that one of them gives to the new map, and the samples that others finish meanwhile.
  */
module RestoreOrder {
  /** `n` workers in restore order: samples can be finished again once worker `u` is restored, and worker `c` gives the map its wheel. */
  datatype Layout = Layout(n: nat, u: nat, c: nat)

  ghost predicate LayoutOk(l: Layout) {
    l.u < l.n && l.c < l.n
  }

  /** The timer thread: in its timer callbacks or waiting, with all producers paused, or restoring after `done` workers. */
  datatype Phase = Running | Paused | Restoring(done: nat)

  /** What became of a finished sample: counted in the wheel of a map, counted aside in the untimed table of a map, written, or thrown away
      with that table. */
  datatype Fate = Held(map_: nat) | Aside(map_: nat) | Written | Gone

  /** How a dump of the untimed table ends: written; skipped because the day of the map is over, which keeps the table; or thrown away for
      want of memory. */
  datatype Untimed = Writes | Skips | Loses

  datatype State = State(map_: nat, wheel: bool, phase: Phase, samples: seq<Fate>)

  datatype Action =
    | Finish
    | Dump(ready: seq<bool>, late: Untimed)
    | Pause
    | Stage(drained: nat, late: Untimed, swapOk: bool)
    | RestoreNext(enableOk: bool)

  const START := State(0, true, Running, [])

  /** `cli_stackmap_done_at`: without a wheel the sample goes into the untimed table. */
  function Finished(s: State): State {
    s.(samples := s.samples + [if s.wheel then Held(s.map_) else Aside(s.map_)])
  }

  function FinishedN(s: State, n: nat): State {
    if n == 0 then s else Finished(FinishedN(s, n - 1))
  }

  function DumpedFate(s: State, f: Fate, ready: bool, late: Untimed): Fate {
    if s.wheel then (if ready && f == Held(s.map_) then Written else f)
    else if f != Aside(s.map_) then f
    else match late
      case Writes => Written
      case Skips => f
      case Loses => Gone
  }

  /** A dump of a map writes what is ready in its wheel if it has one, and its untimed table otherwise; beyond the end of `ready` all is. */
  function Dumped(s: State, ready: seq<bool>, late: Untimed): State {
    s.(samples := seq(|s.samples|, i requires 0 <= i < |s.samples| => DumpedFate(s, s.samples[i], i >= |ready| || ready[i], late)))
  }

  /** Samples can be finished by other threads. */
  predicate Open(l: Layout, s: State) {
    s.phase.Running? || (s.phase.Restoring? && l.u < s.phase.done)
  }

  /** The worker whose turn it is gives the map a wheel. */
  predicate Enables(l: Layout, s: State, a: Action) {
    s.phase == Restoring(l.c) && a == RestoreNext(true)
  }

  predicate Swaps(s: State, a: Action) {
    s.phase.Paused? && a.Stage? && a.swapOk
  }

  function Step(l: Layout, s: State, a: Action): State {
    match a
    case Finish => if Open(l, s) then Finished(s) else s
    case Dump(ready, late) => if s.phase.Running? then Dumped(s, ready, late) else s
    case Pause => if s.phase.Running? then s.(phase := Paused) else s
    case Stage(drained, late, swapOk) =>
      // the queue is drained into the old map, which is dumped; then the map is replaced
      if !s.phase.Paused? then s
      else
        var d := Dumped(FinishedN(s, drained), [], late).(phase := Restoring(0));
        if swapOk then d.(map_ := d.map_ + 1, wheel := false) else d
    case RestoreNext(enableOk) =>
      if !s.phase.Restoring? then s
      else
        var k := s.phase.done;
        var w := s.(wheel := s.wheel || (k == l.c && enableOk));
        w.(phase := if k + 1 < l.n then Restoring(k + 1) else Running)
  }

  function Run(l: Layout, actions: seq<Action>): State {
    if actions == [] then START else Step(l, Run(l, actions[..|actions| - 1]), actions[|actions| - 1])
  }

  lemma {:induction false} FinishedKeeps(s: State, n: nat)
    ensures var f := FinishedN(s, n); f == s.(samples := f.samples) && s.samples <= f.samples
  {
    if n > 0 {
      FinishedKeeps(s, n - 1);
    }
  }

  // ---------------------------------------------------------------------------------------------
  // When a map has its wheel

  /** The map was replaced by action `j`, and no later action before `n` gave it a wheel. */
  ghost predicate BareSince(l: Layout, actions: seq<Action>, j: nat, n: nat) {
    && j < n <= |actions| && Swaps(Run(l, actions[..j]), actions[j])
    && forall i :: j < i < n ==> !EnablesAt(l, actions, i) && !SwapsAt(l, actions, i)
  }

  ghost predicate EnablesAt(l: Layout, actions: seq<Action>, i: nat)
    requires i < |actions|
  {
    Enables(l, Run(l, actions[..i]), actions[i])
  }

  ghost predicate SwapsAt(l: Layout, actions: seq<Action>, i: nat)
    requires i < |actions|
  {
    Swaps(Run(l, actions[..i]), actions[i])
  }

  lemma {:induction false} WheelStep(l: Layout, s: State, a: Action)
    ensures !Step(l, s, a).wheel <==> Swaps(s, a) || (!s.wheel && !Enables(l, s, a))
  {
    if a.Stage? && s.phase.Paused? {
      FinishedKeeps(s, a.drained);
    }
  }

  lemma {:induction false} SameAt(l: Layout, actions: seq<Action>, m: nat, i: nat)
    requires i < m <= |actions|
    ensures EnablesAt(l, actions[..m], i) <==> EnablesAt(l, actions, i)
    ensures SwapsAt(l, actions[..m], i) <==> SwapsAt(l, actions, i)
  {
    assert actions[..m][..i] == actions[..i];
  }

  lemma {:induction false} BareSame(l: Layout, actions: seq<Action>, m: nat, j: nat)
    requires m <= |actions|
    ensures BareSince(l, actions[..m], j, m) <==> BareSince(l, actions, j, m)
  {
    if j < m {
      SameAt(l, actions, m, j);
      forall i | j < i < m
        ensures EnablesAt(l, actions[..m], i) <==> EnablesAt(l, actions, i)
        ensures SwapsAt(l, actions[..m], i) <==> SwapsAt(l, actions, i)
      {
        SameAt(l, actions, m, i);
      }
    }
  }

  /** In every run the current map lacks a wheel exactly since it replaced another, until the restoration of the store's worker gives
      it one. */
  lemma {:induction false} NoWheelIff(l: Layout, actions: seq<Action>)
    ensures !Run(l, actions).wheel <==> exists j: nat :: BareSince(l, actions, j, |actions|)
  {
    if actions != [] {
      var m := |actions| - 1;
      var s, a := Run(l, actions[..m]), actions[m];
      NoWheelIff(l, actions[..m]);
      WheelStep(l, s, a);
      if !Run(l, actions).wheel {
        var j := BareNow(l, actions, m);
      }
      forall j: nat | BareSince(l, actions, j, |actions|)
        ensures !Run(l, actions).wheel
      {
        BareBefore(l, actions, m, j);
      }
    }
  }

  lemma {:induction false} BareNow(l: Layout, actions: seq<Action>, m: nat) returns (j: nat)
    requires m == |actions| - 1 && !Run(l, actions).wheel
    requires !Run(l, actions[..m]).wheel <==> exists k: nat :: BareSince(l, actions[..m], k, m)
    ensures BareSince(l, actions, j, |actions|)
  {
    var s, a := Run(l, actions[..m]), actions[m];
    WheelStep(l, s, a);
    if Swaps(s, a) {
      j := m;
    } else {
      j :| BareSince(l, actions[..m], j, m);
      BareSame(l, actions, m, j);
      assert !EnablesAt(l, actions, m) && !SwapsAt(l, actions, m);
    }
  }

  lemma {:induction false} BareBefore(l: Layout, actions: seq<Action>, m: nat, j: nat)
    requires m == |actions| - 1 && BareSince(l, actions, j, |actions|)
    requires !Run(l, actions[..m]).wheel <==> exists k: nat :: BareSince(l, actions[..m], k, m)
    ensures !Run(l, actions).wheel
  {
    var s, a := Run(l, actions[..m]), actions[m];
    WheelStep(l, s, a);
    if j < m {
      assert !EnablesAt(l, actions, m);
      BareSame(l, actions, m, j);
      assert BareSince(l, actions, j, m);
    }
  }

  /** In every run a sample finished now is counted aside if and only if the current map lacks a wheel in this sense. */
  lemma {:induction false} AsideIff(l: Layout, actions: seq<Action>)
    requires Open(l, Run(l, actions))
    ensures var s := Run(l, actions);
            Step(l, s, Finish).samples == s.samples + [Aside(s.map_)] <==> exists j: nat :: BareSince(l, actions, j, |actions|)
  {
    NoWheelIff(l, actions);
    var s := Run(l, actions);
    assert Step(l, s, Finish).samples[|s.samples|] == if s.wheel then Held(s.map_) else Aside(s.map_);
  }

  // ---------------------------------------------------------------------------------------------
  // What becomes of a sample counted aside

  /** The action empties the untimed table of map `m`. */
  predicate Takes(s: State, a: Action, m: nat) {
    && !s.wheel && s.map_ == m
    && ((a.Dump? && s.phase.Running?) || (a.Stage? && s.phase.Paused?)) && !a.late.Skips?
  }

  function TakenAs(late: Untimed): Fate {
    if late.Writes? then Written else Gone
  }

  /** One step of a sample counted aside, written or thrown away. */
  lemma {:induction false} AsideStep(l: Layout, s: State, a: Action, i: nat)
    requires i < |s.samples| && !s.samples[i].Held?
    ensures var f, s' := s.samples[i], Step(l, s, a);
            && i < |s'.samples|
            && s'.samples[i] == if f.Aside? && Takes(s, a, f.map_) then TakenAs(a.late) else f
  {
    if a.Stage? && s.phase.Paused? {
      FinishedKeeps(s, a.drained);
    }
  }

  ghost predicate TakesAt(l: Layout, actions: seq<Action>, k: nat, m: nat)
    requires k < |actions|
  {
    Takes(Run(l, actions[..k]), actions[k], m)
  }

  /** Action `k` is the first from `n` on that empties the untimed table of map `m`. */
  ghost predicate FirstTake(l: Layout, actions: seq<Action>, n: nat, k: nat, m: nat) {
    n <= k < |actions| && TakesAt(l, actions, k, m) && forall i :: n <= i < k ==> !TakesAt(l, actions, i, m)
  }

  ghost predicate NeverTaken(l: Layout, actions: seq<Action>, n: nat, m: nat) {
    forall k :: n <= k < |actions| ==> !TakesAt(l, actions, k, m)
  }

  lemma {:induction false} TakesSame(l: Layout, actions: seq<Action>, p: nat, k: nat, m: nat)
    requires k < p <= |actions|
    ensures TakesAt(l, actions[..p], k, m) <==> TakesAt(l, actions, k, m)
  {
    assert actions[..p][..k] == actions[..k];
  }

  /** Before the first such action the sample stays where it is. */
  lemma {:induction false} AsideWaits(l: Layout, actions: seq<Action>, n: nat, p: nat, i: nat, m: nat)
    requires n <= p <= |actions| && i < |Run(l, actions[..n]).samples| && Run(l, actions[..n]).samples[i] == Aside(m)
    requires forall k :: n <= k < p ==> !TakesAt(l, actions, k, m)
    ensures i < |Run(l, actions[..p]).samples| && Run(l, actions[..p]).samples[i] == Aside(m)
  {
    if n < p {
      AsideWaits(l, actions, n, p - 1, i, m);
      assert actions[..p][..p - 1] == actions[..p - 1];
      AsideStep(l, Run(l, actions[..p - 1]), actions[p - 1], i);
      assert !TakesAt(l, actions, p - 1, m);
    }
  }

  /** What is written or thrown away stays so. */
  lemma {:induction false} TakenStays(l: Layout, actions: seq<Action>, n: nat, p: nat, i: nat)
    requires n <= p <= |actions| && i < |Run(l, actions[..n]).samples|
    requires Run(l, actions[..n]).samples[i].Written? || Run(l, actions[..n]).samples[i].Gone?
    ensures i < |Run(l, actions[..p]).samples| && Run(l, actions[..p]).samples[i] == Run(l, actions[..n]).samples[i]
  {
    if n < p {
      TakenStays(l, actions, n, p - 1, i);
      assert actions[..p][..p - 1] == actions[..p - 1];
      AsideStep(l, Run(l, actions[..p - 1]), actions[p - 1], i);
    }
  }

  lemma {:induction false} TakenAt(l: Layout, actions: seq<Action>, n: nat, k: nat, i: nat, m: nat)
    requires n <= |actions| && i < |Run(l, actions[..n]).samples| && Run(l, actions[..n]).samples[i] == Aside(m)
    requires FirstTake(l, actions, n, k, m)
    ensures i < |Run(l, actions).samples| && Run(l, actions).samples[i] == TakenAs(actions[k].late)
  {
    AsideWaits(l, actions, n, k, i, m);
    assert actions[..k + 1][..k] == actions[..k];
    AsideStep(l, Run(l, actions[..k]), actions[k], i);
    TakenStays(l, actions, k + 1, |actions|, i);
    assert actions[..|actions|] == actions;
  }

  lemma {:induction false} SomeFirstTake(l: Layout, actions: seq<Action>, n: nat, p: nat, m: nat) returns (k: nat)
    requires n <= p <= |actions| && !NeverTaken(l, actions, n, m) && forall i :: n <= i < p ==> !TakesAt(l, actions, i, m)
    ensures FirstTake(l, actions, n, k, m)
    decreases |actions| - p
  {
    if p < |actions| && TakesAt(l, actions, p, m) {
      k := p;
    } else {
      k := SomeFirstTake(l, actions, n, p + 1, m);
    }
  }

  /** In every run, whatever becomes of the wheel: a sample that is in the untimed table of map `m` after `n` actions is written if and only
      if the first later dump that empties the table of `m` writes it, is thrown away if and only if that dump has no memory, and otherwise
      stays where it is. A dump empties the table of a map only while it is current and has no wheel. */
  lemma {:induction false} AsideFate(l: Layout, actions: seq<Action>, n: nat, i: nat, m: nat)
    requires n <= |actions| && i < |Run(l, actions[..n]).samples| && Run(l, actions[..n]).samples[i] == Aside(m)
    ensures i < |Run(l, actions).samples|
    ensures Run(l, actions).samples[i] == Written <==> exists k: nat :: FirstTake(l, actions, n, k, m) && actions[k].late.Writes?
    ensures Run(l, actions).samples[i] == Gone <==> exists k: nat :: FirstTake(l, actions, n, k, m) && actions[k].late.Loses?
    ensures Run(l, actions).samples[i] == Aside(m) <==> NeverTaken(l, actions, n, m)
  {
    if NeverTaken(l, actions, n, m) {
      AsideWaits(l, actions, n, |actions|, i, m);
      assert actions[..|actions|] == actions;
    } else {
      var k := SomeFirstTake(l, actions, n, n, m);
      TakenAt(l, actions, n, k, i, m);
      assert forall k': nat :: FirstTake(l, actions, n, k', m) ==> k' == k;
    }
  }

  // ---------------------------------------------------------------------------------------------
  // Samples that no dump will look for any more

  /** The sample is in the untimed table of a map that is not current any more or has a wheel. */
  ghost predicate Stranded(s: State, i: nat) {
    i < |s.samples| && s.samples[i].Aside? && (s.samples[i].map_ != s.map_ || s.wheel)
  }

  /** The sample is in the untimed table of the current map, which has no wheel. */
  ghost predicate Waits(s: State, i: nat) {
    i < |s.samples| && s.samples[i] == Aside(s.map_) && !s.wheel
  }

  /** The action strands the sample: the map is replaced although its table was skipped, or is given a wheel. */
  ghost predicate Strands(l: Layout, s: State, a: Action, i: nat) {
    || (Swaps(s, a) && a.late.Skips? && Waits(FinishedN(s, a.drained), i))
    || (Enables(l, s, a) && Waits(s, i))
  }

  /** No sample belongs to a map of the future. */
  ghost predicate MapsOk(s: State) {
    forall i :: 0 <= i < |s.samples| && s.samples[i].Aside? ==> s.samples[i].map_ <= s.map_
  }

  lemma {:induction false} FinishedMapsOk(s: State, n: nat)
    requires MapsOk(s)
    ensures MapsOk(FinishedN(s, n))
  {
    if n > 0 {
      FinishedMapsOk(s, n - 1);
      FinishedKeeps(s, n - 1);
    }
  }

  lemma {:induction false} RunMapsOk(l: Layout, actions: seq<Action>)
    ensures MapsOk(Run(l, actions))
  {
    if actions != [] {
      var m := |actions| - 1;
      var s, a := Run(l, actions[..m]), actions[m];
      RunMapsOk(l, actions[..m]);
      if a.Stage? && s.phase.Paused? {
        FinishedMapsOk(s, a.drained);
        FinishedKeeps(s, a.drained);
      }
    }
  }

  lemma {:induction false} FinishedStrands(s: State, n: nat, i: nat)
    ensures Stranded(FinishedN(s, n), i) <==> Stranded(s, i)
  {
    if n > 0 {
      FinishedStrands(s, n - 1, i);
      FinishedKeeps(s, n - 1);
    }
  }

  lemma {:induction false} StrandStep(l: Layout, s: State, a: Action, i: nat)
    requires MapsOk(s)
    ensures Stranded(Step(l, s, a), i) <==> Stranded(s, i) || Strands(l, s, a, i)
  {
    if a.Stage? && s.phase.Paused? {
      FinishedKeeps(s, a.drained);
      FinishedMapsOk(s, a.drained);
      FinishedStrands(s, a.drained, i);
    }
  }

  ghost predicate StrandsAt(l: Layout, actions: seq<Action>, k: nat, i: nat)
    requires k < |actions|
  {
    Strands(l, Run(l, actions[..k]), actions[k], i)
  }

  lemma {:induction false} StrandsSame(l: Layout, actions: seq<Action>, m: nat, k: nat, i: nat)
    requires k < m <= |actions|
    ensures StrandsAt(l, actions[..m], k, i) <==> StrandsAt(l, actions, k, i)
  {
    assert actions[..m][..k] == actions[..k];
  }

  /** In every run a sample is stranded if and only if, while it waited in the untimed table of the current map, that map was replaced with
      its table skipped, or was given a wheel. */
  lemma {:induction false} StrandedIff(l: Layout, actions: seq<Action>, i: nat)
    ensures Stranded(Run(l, actions), i) <==> exists k :: 0 <= k < |actions| && StrandsAt(l, actions, k, i)
  {
    if actions != [] {
      var m := |actions| - 1;
      StrandedIff(l, actions[..m], i);
      RunMapsOk(l, actions[..m]);
      StrandStep(l, Run(l, actions[..m]), actions[m], i);
      forall k | 0 <= k < m
        ensures StrandsAt(l, actions[..m], k, i) <==> StrandsAt(l, actions, k, i)
      {
        StrandsSame(l, actions, m, k, i);
      }
      assert StrandsAt(l, actions, m, i) <==> Strands(l, Run(l, actions[..m]), actions[m], i);
    }
  }

  /** A stranded sample stays as it is, however the run goes on. */
  lemma {:induction false} StrandedIsLost(l: Layout, actions: seq<Action>, n: nat, i: nat)
    requires n <= |actions| && Stranded(Run(l, actions[..n]), i)
    ensures Stranded(Run(l, actions), i) && Run(l, actions).samples[i] == Run(l, actions[..n]).samples[i]
  {
    if n == |actions| {
      assert actions[..n] == actions;
    } else {
      var m := |actions| - 1;
      assert actions[..m][..n] == actions[..n];
      StrandedIsLost(l, actions[..m], n, i);
      RunMapsOk(l, actions[..m]);
      StrandStep(l, Run(l, actions[..m]), actions[m], i);
      AsideStep(l, Run(l, actions[..m]), actions[m], i);
    }
  }

  // ---------------------------------------------------------------------------------------------
  // With the store's worker restored first

  /** The dump before a restart skips the untimed table in which the sample waits. */
  ghost predicate SkippedAt(l: Layout, actions: seq<Action>, k: nat, i: nat)
    requires k < |actions|
  {
    var s := Run(l, actions[..k]);
    s.phase.Paused? && actions[k].Stage? && actions[k].late.Skips? && Waits(FinishedN(s, actions[k].drained), i)
  }

  /** The workers are being restored from action `k` up to action `n`. */
  ghost predicate RestoringFrom(l: Layout, actions: seq<Action>, k: nat, n: nat)
    requires n <= |actions|
  {
    forall m :: k < m <= n ==> Run(l, actions[..m]).phase.Restoring?
  }

  /** The restart that action `k` began gives the map a wheel. */
  ghost predicate Regained(l: Layout, actions: seq<Action>, k: nat) {
    exists j :: k < j < |actions| && EnablesAt(l, actions, j) && RestoringFrom(l, actions, k, j)
  }

  /** A sample waits before worker `u` is restored only if the step before left it waiting, or was a dump that skipped it. */
  lemma {:induction false} WaitsBefore(l: Layout, s: State, a: Action, i: nat)
    requires MapsOk(s) && Step(l, s, a).phase.Restoring? && Step(l, s, a).phase.done <= l.u && Waits(Step(l, s, a), i)
    ensures if s.phase.Paused? then a.Stage? && a.late.Skips? && !a.swapOk && Waits(FinishedN(s, a.drained), i)
            else s.phase.Restoring? && s.phase.done <= l.u && Waits(s, i)
  {
    if a.Stage? && s.phase.Paused? {
      FinishedKeeps(s, a.drained);
      FinishedMapsOk(s, a.drained);
      var f := FinishedN(s, a.drained).samples[i];
      assert f.Aside? ==> f.map_ <= s.map_;
    }
  }

  /** So the restart under way began with such a dump. */
  lemma {:induction false} WaitsSince(l: Layout, actions: seq<Action>, n: nat, i: nat) returns (k: nat)
    requires n <= |actions|
    requires var s := Run(l, actions[..n]); s.phase.Restoring? && s.phase.done <= l.u && Waits(s, i)
    ensures k < n && SkippedAt(l, actions, k, i) && !actions[k].swapOk && RestoringFrom(l, actions, k, n)
  {
    var m := n - 1;
    assert actions[..n][..m] == actions[..m];
    RunMapsOk(l, actions[..m]);
    WaitsBefore(l, Run(l, actions[..m]), actions[m], i);
    if Run(l, actions[..m]).phase.Paused? {
      k := m;
    } else {
      k := WaitsSince(l, actions, m, i);
    }
  }

  lemma {:induction false} WaitsStep(l: Layout, s: State, a: Action, i: nat)
    requires MapsOk(s) && s.phase.Restoring? && (Waits(s, i) || Stranded(s, i))
    ensures Waits(Step(l, s, a), i) || Stranded(Step(l, s, a), i)
  {
    StrandStep(l, s, a, i);
  }

  /** A sample that such a dump skipped waits through the restart, or is stranded in it. */
  lemma {:induction false} WaitsOn(l: Layout, actions: seq<Action>, k: nat, n: nat, i: nat)
    requires k < n <= |actions| && SkippedAt(l, actions, k, i) && !actions[k].swapOk && RestoringFrom(l, actions, k, n)
    ensures Waits(Run(l, actions[..n]), i) || Stranded(Run(l, actions[..n]), i)
  {
    var m := n - 1;
    assert actions[..n][..m] == actions[..m];
    var s := Run(l, actions[..m]);
    if k == m {
      FinishedKeeps(s, actions[m].drained);
    } else {
      WaitsOn(l, actions, k, m, i);
      RunMapsOk(l, actions[..m]);
      WaitsStep(l, s, actions[m], i);
    }
  }

  lemma {:induction false} SkippedStrands(l: Layout, actions: seq<Action>, k: nat, i: nat)
    requires k < |actions| && SkippedAt(l, actions, k, i) && (actions[k].swapOk || Regained(l, actions, k))
    ensures Stranded(Run(l, actions), i)
  {
    if actions[k].swapOk {
      assert StrandsAt(l, actions, k, i);
      StrandedIff(l, actions, i);
    } else {
      var j :| k < j < |actions| && EnablesAt(l, actions, j) && RestoringFrom(l, actions, k, j);
      WaitsOn(l, actions, k, j, i);
      if Waits(Run(l, actions[..j]), i) {
        assert StrandsAt(l, actions, j, i);
        StrandedIff(l, actions, i);
      } else {
        StrandedIsLost(l, actions, j, i);
      }
    }
  }

  /** If the store's worker is restored before the one that lets samples through, then in every run, with or without memory for the wheel, a
      sample is stranded if and only if the dump before a restart skipped it at the end of the day and this restart replaced the map or gave
      it a wheel. */
  lemma {:induction false} StoreFirst(l: Layout, actions: seq<Action>, i: nat)
    requires l.c <= l.u
    ensures Stranded(Run(l, actions), i) <==>
            exists k :: 0 <= k < |actions| && SkippedAt(l, actions, k, i) && (actions[k].swapOk || Regained(l, actions, k))
  {
    StrandedIff(l, actions, i);
    if Stranded(Run(l, actions), i) {
      var j :| 0 <= j < |actions| && StrandsAt(l, actions, j, i);
      if Enables(l, Run(l, actions[..j]), actions[j]) {
        var k := WaitsSince(l, actions, j, i);
        assert EnablesAt(l, actions, j);
      } else {
        assert SkippedAt(l, actions, j, i);
      }
    }
    forall k | 0 <= k < |actions| && SkippedAt(l, actions, k, i) && (actions[k].swapOk || Regained(l, actions, k))
      ensures Stranded(Run(l, actions), i)
    {
      SkippedStrands(l, actions, k, i);
    }
  }

  // ---------------------------------------------------------------------------------------------
  // Restarts in which the wheel can be had

  /** Memory for the wheel can be had at every restart. */
  ghost predicate Steady(actions: seq<Action>) {
    forall i :: 0 <= i < |actions| ==> actions[i] != RestoreNext(false)
  }

  /** Without a wheel the restoration has not come past the store's worker. */
  ghost predicate WheelOk(l: Layout, s: State) {
    && (s.phase.Restoring? ==> s.phase.done < l.n)
    && (!s.wheel ==> s.phase.Restoring? && s.phase.done <= l.c)
  }

  lemma {:induction false} StepKeepsWheel(l: Layout, s: State, a: Action)
    requires LayoutOk(l) && WheelOk(l, s) && a != RestoreNext(false)
    ensures WheelOk(l, Step(l, s, a))
  {
    if a.Stage? && s.phase.Paused? {
      FinishedKeeps(s, a.drained);
    }
  }

  lemma {:induction false} RunWheel(l: Layout, actions: seq<Action>)
    requires LayoutOk(l) && Steady(actions)
    ensures WheelOk(l, Run(l, actions))
  {
    if actions != [] {
      var m := |actions| - 1;
      RunWheel(l, actions[..m]);
      StepKeepsWheel(l, Run(l, actions[..m]), actions[m]);
    }
  }

  /** Then a sample finished now is counted aside if and only if the restart under way has replaced the map, has restored the worker that
      lets samples through, and has not yet restored the store's worker. */
  lemma {:induction false} SteadyAsideIff(l: Layout, actions: seq<Action>)
    requires LayoutOk(l) && Steady(actions) && Open(l, Run(l, actions))
    ensures var s := Run(l, actions);
            Step(l, s, Finish).samples == s.samples + [Aside(s.map_)] <==>
            s.phase.Restoring? && l.u < s.phase.done <= l.c && exists j: nat :: BareSince(l, actions, j, |actions|)
  {
    RunWheel(l, actions);
    NoWheelIff(l, actions);
    AsideIff(l, actions);
  }

  /** Then no dump ever empties an untimed table, so that a sample counted aside is never written. */
  lemma {:induction false} SteadyAsideIsLost(l: Layout, actions: seq<Action>, n: nat, i: nat, m: nat)
    requires LayoutOk(l) && Steady(actions)
    requires n <= |actions| && i < |Run(l, actions[..n]).samples| && Run(l, actions[..n]).samples[i] == Aside(m)
    ensures i < |Run(l, actions).samples| && Run(l, actions).samples[i] == Aside(m)
  {
    forall k | n <= k < |actions|
      ensures !TakesAt(l, actions, k, m)
    {
      RunWheel(l, actions[..k]);
    }
    AsideFate(l, actions, n, i, m);
  }

  // ---------------------------------------------------------------------------------------------
  // Three runs

  lemma {:induction false} LateSample(l: Layout, a: seq<Action>, s: State)
    requires l == Layout(2, 0, 1) && a == [Pause, Stage(0, Writes, true), RestoreNext(true), Finish] && s == Run(l, a)
    ensures s == State(1, false, Restoring(1), [Aside(1)])
  {
    assert a[..3][..2] == a[..2] && a[..2][..1] == a[..1] && a[..1][..0] == [];
    assert Run(l, a[..1]) == State(0, true, Paused, []);
    assert FinishedN(State(0, true, Paused, []), 0).samples == [];
    assert Run(l, a[..2]) == State(1, false, Restoring(0), []);
    assert Run(l, a[..3]) == State(1, false, Restoring(1), []);
  }

  lemma {:induction false} TwoMore(l: Layout, a: seq<Action>, x: Action, y: Action)
    ensures Run(l, a + [x, y]) == Step(l, Step(l, Run(l, a), x), y)
  {
    var b := a + [x, y];
    assert b[..|a| + 1][..|a|] == a && b[..|a| + 1] == a + [x];
    assert Run(l, a + [x]) == Step(l, Run(l, a), x);
  }

  /** The unwinder comes before the store's worker: a sample that it lets through in between is stranded when the map gets its wheel ... */
  lemma {:induction false} LateSampleLost(a: seq<Action>, s: State)
    requires a == [Pause, Stage(0, Writes, true), RestoreNext(true), Finish]
    requires s == Run(Layout(2, 0, 1), a + [RestoreNext(true), Dump([], Writes)])
    ensures s.samples == [Aside(1)] && s.wheel && s.phase.Running? && Stranded(s, 0)
  {
    var l := Layout(2, 0, 1);
    LateSample(l, a, Run(l, a));
    TwoMore(l, a, RestoreNext(true), Dump([], Writes));
  }

  /** ... and written by the next dump when it does not. */
  lemma {:induction false} LateSampleWritten(a: seq<Action>, s: State)
    requires a == [Pause, Stage(0, Writes, true), RestoreNext(true), Finish]
    requires s == Run(Layout(2, 0, 1), a + [RestoreNext(false), Dump([], Writes)])
    ensures s.samples == [Written] && !s.wheel && s.phase.Running?
  {
    var l := Layout(2, 0, 1);
    LateSample(l, a, Run(l, a));
    TwoMore(l, a, RestoreNext(false), Dump([], Writes));
  }

  /** With the store's worker first, a sample is stranded by a restart after a failed enabling whose dump skips it at the end of the day. */
  lemma {:induction false} SkippedSampleLost(l: Layout, a: seq<Action>, b: seq<Action>)
    requires l == Layout(2, 1, 0) && a == [Pause, Stage(0, Writes, true)] + [RestoreNext(false), RestoreNext(true)]
    requires b == a + [Finish, Pause] + [Stage(0, Skips, true), Dump([], Writes)]
    ensures Run(l, b).samples == [Aside(1)] && Stranded(Run(l, b), 0)
  {
    assert [] + [Pause, Stage(0, Writes, true)] == [Pause, Stage(0, Writes, true)];
    TwoMore(l, [], Pause, Stage(0, Writes, true));
    assert FinishedN(State(0, true, Paused, []), 0).samples == [];
    TwoMore(l, [Pause, Stage(0, Writes, true)], RestoreNext(false), RestoreNext(true));
    assert Run(l, a) == State(1, false, Running, []);
    TwoMore(l, a, Finish, Pause);
    assert Run(l, a + [Finish, Pause]) == State(1, false, Paused, [Aside(1)]);
    TwoMore(l, a + [Finish, Pause], Stage(0, Skips, true), Dump([], Writes));
    assert FinishedN(State(1, false, Paused, [Aside(1)]), 0).samples == [Aside(1)];
  }
}

/** What the restart handshake does to samples and to the threads over whole runs: when a pause can end, what a restart frees, and
    when a sample is unwound without a context (src/cpa_monitor/cpa_unwinder.c).
  */
module UnwinderRuns {
  import opened Options
  import opened UnwinderParking

  function ExecFrom(s: State, actions: seq<Action>): State {
    if actions == [] then s else Step(ExecFrom(s, actions[..|actions| - 1]), actions[|actions| - 1])
  }

  lemma {:induction false} ExecFirst(s: State, a: Action, rest: seq<Action>)
    ensures ExecFrom(s, [a] + rest) == ExecFrom(Step(s, a), rest)
  {
    var all := [a] + rest;
    if rest == [] {
      assert all == [a] && all[..0] == [];
    } else {
      var n := |rest| - 1;
      assert all[..|all| - 1] == [a] + rest[..n];
      ExecFirst(s, a, rest[..n]);
    }
  }

  lemma {:induction false} ExecKeepsHandshake(s: State, actions: seq<Action>)
    requires HandshakeOk(s) && ContextOk(s)
    ensures HandshakeOk(ExecFrom(s, actions)) && ContextOk(ExecFrom(s, actions))
  {
    if actions != [] {
      ExecKeepsHandshake(s, actions[..|actions| - 1]);
      StepKeepsHandshake(ExecFrom(s, actions[..|actions| - 1]), actions[|actions| - 1]);
    }
  }

  /** Some run leads to the state. */
  ghost predicate Reachable(adders: nat, capacity: nat, s: State) {
    exists run :: Run(adders, capacity, run) == s
  }

  lemma {:induction false} StartReachable(adders: nat, capacity: nat)
    ensures Reachable(adders, capacity, NewState(adders, capacity))
  {
    assert Run(adders, capacity, []) == NewState(adders, capacity);
  }

  lemma {:induction false} Goes(adders: nat, capacity: nat, s: State, a: Action) returns (s': State)
    requires Reachable(adders, capacity, s)
    ensures s' == Step(s, a) && Reachable(adders, capacity, s')
  {
    var run :| Run(adders, capacity, run) == s;
    s' := Step(s, a);
    assert (run + [a])[..|run|] == run;
    assert Run(adders, capacity, run + [a]) == s';
  }

  // ---------------------------------------------------------------------------------------------
  // When the wait of a pause can end

  /** The main thread still comes to its park point: it has not ended, and if a stop is requested it is past the pop of an
      empty queue. */
  predicate CanPark(s: State) {
    && !s.main.Done?
    && (s.stop ==> s.main.Checking? || s.main.Parked? || (s.main.Popping? && s.samples.queue == []))
  }

  lemma {:induction false} StrandedStep(s: State, a: Action)
    requires HandshakeOk(s) && s.timer.Awaiting? && !CanPark(s)
    ensures Step(s, a).timer.Awaiting? && !CanPark(Step(s, a))
  {
  }

  /** A main thread that cannot park any more leaves the timer thread waiting for ever. */
  lemma {:induction false} StrandedForever(s: State, actions: seq<Action>)
    requires HandshakeOk(s) && ContextOk(s) && s.timer.Awaiting? && !CanPark(s)
    ensures ExecFrom(s, actions).timer.Awaiting? && !CanPark(ExecFrom(s, actions))
  {
    if actions != [] {
      var before := actions[..|actions| - 1];
      StrandedForever(s, before);
      ExecKeepsHandshake(s, before);
      StrandedStep(ExecFrom(s, before), actions[|actions| - 1]);
    }
  }

  function Rank(m: Main): nat {
    match m
    case Holding(_) => 4
    case Unwinding(_, _) => 3
    case Sleeping => 3
    case Popping => 2
    case Checking => 1
    case Parked(_) => 0
    case Done => 0
  }

  /** One step of the main thread on its way to the park point. */
  lemma {:induction false} MainComesCloser(s: State)
    requires HandshakeOk(s) && s.timer.Awaiting? && CanPark(s) && !s.main.Parked?
    ensures var s' := MainStep(s);
            && s'.timer.Awaiting? && CanPark(s')
            && (|s'.samples.queue| < |s.samples.queue|
                || (|s'.samples.queue| == |s.samples.queue| && Rank(s'.main) < Rank(s.main)))
  {
  }

  lemma {:induction false} ComesToPark(s: State) returns (actions: seq<Action>)
    requires HandshakeOk(s) && ContextOk(s) && s.timer.Awaiting? && CanPark(s)
    ensures ExecFrom(s, actions).main.Parked? && ExecFrom(s, actions).timer.Awaiting?
    decreases |s.samples.queue|, Rank(s.main)
  {
    if s.main.Parked? {
      actions := [];
    } else {
      MainComesCloser(s);
      MainKeepsHandshake(s);
      var rest := ComesToPark(Step(s, MainGoes));
      ExecFirst(s, MainGoes, rest);
      actions := [MainGoes] + rest;
    }
  }

  lemma {:induction false} ExecOneMore(s: State, actions: seq<Action>, a: Action)
    ensures ExecFrom(s, actions + [a]) == Step(ExecFrom(s, actions), a)
  {
    assert (actions + [a])[..|actions|] == actions;
  }

  lemma {:induction false} WaitEnds(s: State) returns (actions: seq<Action>)
    requires HandshakeOk(s) && ContextOk(s) && s.timer.Awaiting? && CanPark(s)
    ensures Owns(ExecFrom(s, actions).timer)
  {
    var a := ComesToPark(s);
    ExecKeepsHandshake(s, a);
    ExecOneMore(s, a, TimerWake);
    ExecOneMore(s, a + [TimerWake], TimerGoes(true));
    actions := a + [TimerWake] + [TimerGoes(true)];
  }

  ghost predicate EndsWait(s: State, actions: seq<Action>) {
    Owns(ExecFrom(s, actions).timer)
  }

  /** Exactly when the wait in `cpa_unwinder_pause` can still end, in every run: if and only if the main thread has not ended and,
      once a stop is requested, stands between the pop of an empty queue and its park point. */
  lemma {:induction false} WaitEndsIff(adders: nat, capacity: nat, run: seq<Action>)
    ensures var s := Run(adders, capacity, run);
            s.timer.Awaiting? ==> ((exists actions :: EndsWait(s, actions)) <==> CanPark(s))
  {
    RunKeepsHandshake(adders, capacity, run);
    var s := Run(adders, capacity, run);
    if s.timer.Awaiting? {
      if CanPark(s) {
        var actions := WaitEnds(s);
        assert EndsWait(s, actions);
      } else {
        forall actions
          ensures !EndsWait(s, actions)
        {
          StrandedForever(s, actions);
        }
      }
    }
  }

  /** A stop that the main thread sees just before the pause: the pause, and the join that follows, never end. */
  lemma {:induction false} StopStrandsPause() returns (s: State)
    ensures Reachable(0, 1, s) && s.main.Done? && s.timer == Awaiting(true) && !CanPark(s)
  {
    StartReachable(0, 1);
    s := NewState(0, 1);
    s := Goes(0, 1, s, MainGoes);
    s := Goes(0, 1, s, MainGoes);
    s := Goes(0, 1, s, RequestStop);
    s := Goes(0, 1, s, Pause);
    s := Goes(0, 1, s, MainGoes);
    s := Goes(0, 1, s, TimerGoes(true));
  }

  // ---------------------------------------------------------------------------------------------
  // What a restart frees

  ghost predicate Undisturbed(actions: seq<Action>) {
    forall i :: 0 <= i < |actions| ==> !actions[i].Pause? && !actions[i].RequestStop?
  }

  lemma {:induction false} QuietStep(s: State, a: Action)
    requires (s.timer.Away? || s.timer.Joined?) && !s.stop && !s.main.Done? && !a.Pause? && !a.RequestStop?
    ensures var s' := Step(s, a);
            (s'.timer.Away? || s'.timer.Joined?) && !s'.stop && !s'.main.Done? && s'.samples.freed == s.samples.freed
  {
    match a
    case MainGoes => QuietMain(s);
    case TimerGoes(_) =>
    case _ =>
  }

  lemma {:induction false} QuietMain(s: State)
    requires (s.timer.Away? || s.timer.Joined?) && !s.stop && !s.main.Done?
    ensures var s' := MainStep(s);
            (s'.timer.Away? || s'.timer.Joined?) && !s'.stop && !s'.main.Done? && s'.samples.freed == s.samples.freed
  {
  }

  /** Without a pause and without a stop no queued sample is ever freed. */
  lemma {:induction false} UndisturbedFreesNothing(adders: nat, capacity: nat, actions: seq<Action>)
    requires Undisturbed(actions)
    ensures var s := Run(adders, capacity, actions);
            (s.timer.Away? || s.timer.Joined?) && !s.stop && !s.main.Done? && s.samples.freed == []
  {
    if actions != [] {
      UndisturbedFreesNothing(adders, capacity, actions[..|actions| - 1]);
      QuietStep(Run(adders, capacity, actions[..|actions| - 1]), actions[|actions| - 1]);
    }
  }

  /** What was pushed after the first `n` samples. */
  function PushedSince(m: Samples, n: nat): seq<nat> {
    if n <= |m.pushed| then m.pushed[n..] else []
  }

  /** Freed plus queued, in order, is what was freed or queued before plus what was pushed since. */
  ghost predicate Accounts(m: Samples, m0: Samples) {
    && m0.pushed <= m.pushed
    && m.freed + m.queue == m0.freed + m0.queue + PushedSince(m, |m0.pushed|)
  }

  lemma {:induction false} EmptyAccounts(m: Samples, m0: Samples)
    requires Accounts(m, m0) && m.queue != []
    ensures Accounts(Freed(Taken(m), m.queue[0]), m0)
  {
    assert m.freed + m.queue == m.freed + [m.queue[0]] + m.queue[1..];
  }

  lemma {:induction false} PushAccounts(m: Samples, m0: Samples, t: nat)
    requires Accounts(m, m0) && t < |m.adders|
    ensures Accounts(PushStep(m, t), m0)
  {
    if m.adders[t].Some? && |m.queue| < m.capacity {
      var x, n := m.adders[t].value, |m0.pushed|;
      assert (m.pushed + [x])[n..] == m.pushed[n..] + [x];
      assert m.freed + (m.queue + [x]) == (m.freed + m.queue) + [x];
      assert m0.freed + m0.queue + (m.pushed[n..] + [x]) == (m0.freed + m0.queue + m.pushed[n..]) + [x];
    }
  }

  lemma {:induction false} EmptyingStep(s: State, a: Action, m0: Samples)
    requires HandshakeOk(s) && s.timer.Emptying? && Accounts(s.samples, m0)
    ensures Accounts(Step(s, a).samples, m0)
    ensures Step(s, a).timer.Emptying? || (Step(s, a).timer.Rebuilding? && Step(s, a).samples.queue == [])
  {
    match a
    case Push(t) =>
      if t < |s.samples.adders| {
        PushAccounts(s.samples, m0, t);
      }
    case TimerGoes(_) =>
      if s.samples.queue != [] {
        EmptyAccounts(s.samples, m0);
      }
    case _ =>
  }

  /** What one restart frees, in every run: from the state in which the wait ends until the emptying step finds the queue empty, exactly
      the samples queued at the end of the wait and those pushed since, in that order. */
  lemma {:induction false} RestartFrees(adders: nat, capacity: nat, run: seq<Action>, actions: seq<Action>)
    requires Run(adders, capacity, run).timer.Emptying?
    requires forall i :: 0 <= i < |actions| ==> ExecFrom(Run(adders, capacity, run), actions[..i]).timer.Emptying?
    ensures var s := Run(adders, capacity, run);
            var s' := ExecFrom(s, actions);
            s'.timer.Rebuilding? ==>
              s'.samples.queue == []
              && s'.samples.freed == s.samples.freed + s.samples.queue + PushedSince(s'.samples, |s.samples.pushed|)
  {
    var s := Run(adders, capacity, run);
    RunKeepsHandshake(adders, capacity, run);
    EmptyingRun(s, actions);
    var m := ExecFrom(s, actions).samples;
    assert m.freed + [] == m.freed;
  }

  lemma {:induction false} EmptyingRun(s: State, actions: seq<Action>)
    requires HandshakeOk(s) && ContextOk(s) && s.timer.Emptying?
    requires forall i :: 0 <= i < |actions| ==> ExecFrom(s, actions[..i]).timer.Emptying?
    ensures var s' := ExecFrom(s, actions);
            Accounts(s'.samples, s.samples) && (s'.timer.Emptying? || (s'.timer.Rebuilding? && s'.samples.queue == []))
  {
    if actions == [] {
      assert s.samples.pushed[|s.samples.pushed|..] == [];
    } else {
      var n := |actions| - 1;
      forall i | 0 <= i < n
        ensures ExecFrom(s, actions[..n][..i]).timer.Emptying?
      {
        assert actions[..n][..i] == actions[..i];
      }
      EmptyingRun(s, actions[..n]);
      ExecKeepsHandshake(s, actions[..n]);
      EmptyingStep(ExecFrom(s, actions[..n]), actions[n], s.samples);
    }
  }

  /** The main thread finds the queue empty, and a sample is pushed before it looks for a restart request. */
  lemma {:induction false} PushBeforeCheck() returns (s: State)
    ensures Reachable(1, 1, s) && s == NewState(1, 1).(samples := s.samples, main := Checking) && s.samples.queue == [0]
    ensures s.samples.freed == [] && s.samples.unwound == [] && s.samples.refused == []
  {
    StartReachable(1, 1);
    s := NewState(1, 1);
    s := Goes(1, 1, s, Add(0));
    assert s.samples.adders == [Some(0)];
    s := Goes(1, 1, s, MainGoes);
    s := Goes(1, 1, s, Push(0));
  }

  /** A sample pushed between the empty pop and the park check is freed by the restart, not unwound. */
  lemma {:induction false} RestartMayDiscard() returns (s: State)
    ensures Reachable(1, 1, s) && s.samples.freed == [0] && s.samples.unwound == [] && s.samples.refused == []
  {
    s := PushBeforeCheck();
    s := Goes(1, 1, s, Pause);
    s := Goes(1, 1, s, TimerGoes(true));
    s := Goes(1, 1, s, MainGoes);
    s := Goes(1, 1, s, TimerGoes(true));
    s := Goes(1, 1, s, TimerGoes(true));
  }

  // ---------------------------------------------------------------------------------------------
  // Unwinding without a context

  /** In every run the main thread unwinds without a context exactly when the last attempt to rebuild it failed. */
  lemma {:induction false} NoContextIff(adders: nat, capacity: nat, actions: seq<Action>)
    ensures var s := Run(adders, capacity, actions);
            s.main.Unwinding? ==> (s.main.context.None? <==> s.broken)
  {
    RunKeepsHandshake(adders, capacity, actions);
  }

  ghost predicate RebuildsSucceed(actions: seq<Action>) {
    forall i :: 0 <= i < |actions| && actions[i].TimerGoes? ==> actions[i].initOk
  }

  lemma {:induction false} StaysWhole(s: State, a: Action)
    requires !s.broken && (a.TimerGoes? ==> a.initOk)
    ensures !Step(s, a).broken
  {
  }

  /** So it never does while every rebuild succeeds. */
  lemma {:induction false} AlwaysContext(adders: nat, capacity: nat, actions: seq<Action>)
    requires RebuildsSucceed(actions)
    ensures var s := Run(adders, capacity, actions);
            !s.broken && (s.main.Unwinding? ==> s.main.context.Some?)
  {
    NoContextIff(adders, capacity, actions);
    if actions != [] {
      AlwaysContext(adders, capacity, actions[..|actions| - 1]);
      StaysWhole(Run(adders, capacity, actions[..|actions| - 1]), actions[|actions| - 1]);
    }
  }

  /** A sample is accepted, then a pause begins; the main thread stands before its park point. */
  lemma {:induction false} AcceptedThenPaused() returns (s: State)
    ensures Reachable(1, 1, s) && s.timer == Refusing && s.main == Checking && !s.stop && !s.paused
    ensures s.samples.adders == [Some(0)] && s.samples.queue == [] && s.samples.capacity == 1
  {
    StartReachable(1, 1);
    s := NewState(1, 1);
    s := Goes(1, 1, s, Add(0));
    assert s.samples.adders == [Some(0)];
    s := Goes(1, 1, s, Pause);
    s := Goes(1, 1, s, MainGoes);
  }

  /** The main thread has parked, and the rebuild has failed. */
  lemma {:induction false} FailedRebuild() returns (s: State)
    ensures Reachable(1, 1, s) && s.timer.Ready? && s.broken && s.context.None? && s.main == Parked(true) && !s.stop
    ensures s.samples.adders == [Some(0)] && s.samples.queue == [] && s.samples.capacity == 1
  {
    s := AcceptedThenPaused();
    ghost var m := s.samples;
    s := Goes(1, 1, s, TimerGoes(true));
    s := Goes(1, 1, s, MainGoes);
    s := Goes(1, 1, s, TimerGoes(true));
    assert s.timer == Emptying && s.samples == m;
    s := Goes(1, 1, s, TimerGoes(true));
    s := Goes(1, 1, s, TimerGoes(false));
  }

  /** The late sample is queued, and the restart is over. */
  lemma {:induction false} PushedAfterRebuild() returns (s: State)
    ensures Reachable(1, 1, s) && s.context.None? && s.main == Parked(false) && !s.stop && !s.requested && s.samples.queue == [0]
  {
    s := FailedRebuild();
    s := Goes(1, 1, s, Push(0));
    assert s.samples.queue == [0];
    s := Goes(1, 1, s, Restore);
  }

  /** A sample accepted before the pause and pushed after it is unwound without a context when the rebuild failed. */
  lemma {:induction false} LatePushUnwoundWithoutContext() returns (s: State)
    ensures Reachable(1, 1, s) && s.main == Unwinding(0, None)
  {
    s := PushedAfterRebuild();
    s := Goes(1, 1, s, MainGoes);
    s := Goes(1, 1, s, MainGoes);
    assert s.main == Popping && s.samples.queue == [0];
    s := Goes(1, 1, s, MainGoes);
    s := Goes(1, 1, s, MainGoes);
  }
}

/** The restart handshake of src/cpa_monitor/cpa_unwinder.c as a state machine: the main unwinder thread, the timer thread
    that pauses and restores it, and any number of threads that add samples. One step is one critical section, one
    atomic access, or one stretch of work between them.
  */
module UnwinderParking {
  import opened Options

  /** The main thread in `cpa_unwind_main_worker_fn` and `cpa_check_restart_loop`. */
  datatype Main =
    | Popping
    | Checking
    | Parked(asleep: bool)
    | Sleeping
    | Holding(sample: nat)
    | Unwinding(sample: nat, context: Option<nat>)
    | Done

  /** The timer thread in `cpa_unwinder_pause`, `cpa_unwinder_drain_pending` and `cpa_unwinder_restore`. */
  datatype Timer =
    | Away
    | Refusing                 // no longer accepting events
    | Awaiting(asleep: bool)   // waiting for the main thread to park
    | Emptying                 // freeing queued samples
    | Rebuilding               // old context gone
    | Ready                    // paused; the store may be rotated
    | Draining(sample: nat, context: Option<nat>)
    | Released                 // request cleared, events not yet accepted
    | Joined                   // the timer thread has ended

  /** Where the samples are: `pushed` lists those ever queued, in order. */
  datatype Samples = Samples(capacity: nat, queue: seq<nat>, created: nat, adders: seq<Option<nat>>, pushed: seq<nat>,
                             unwound: seq<nat>, freed: seq<nat>, refused: seq<nat>)

  /** `broken` tells that the last attempt to rebuild the context failed. */
  datatype State = State(requested: bool, paused: bool, accepting: bool, stop: bool,
                         context: Option<nat>, contexts: nat, broken: bool,
                         samples: Samples, main: Main, timer: Timer)

  datatype Action =
    | Add(t: nat) | Push(t: nat)
    | MainGoes | MainWake | TimerWake
    | Pause | TimerGoes(initOk: bool) | DrainOne | Restore
    | RequestStop | Join | StopDrain(unwind: bool)

  // ---------------------------------------------------------------------------------------------
  // Threads that add samples

  /** `cpa_add_stack_event`: the first step loads `accept_events`, the second pushes under the queue lock. */
  function AddStep(m: Samples, t: nat, accepting: bool): Samples
    requires t < |m.adders|
  {
    if m.adders[t].Some? then m
    else if accepting then m.(created := m.created + 1, adders := m.adders[t := Some(m.created)])
    else m.(created := m.created + 1, refused := m.refused + [m.created])
  }

  function PushStep(m: Samples, t: nat): Samples
    requires t < |m.adders|
  {
    if m.adders[t].None? then m
    else
      var x, m' := m.adders[t].value, m.(adders := m.adders[t := None]);
      if |m.queue| < m.capacity then m'.(queue := m.queue + [x], pushed := m.pushed + [x])
      else m'.(refused := m.refused + [x])
  }

  // ---------------------------------------------------------------------------------------------
  // The main thread

  /** A signal or broadcast on the shared condition variable. */
  function Signalled(m: Main): Main {
    if m.Parked? then Parked(false) else m
  }

  function SignalTimer(t: Timer): Timer {
    if t.Awaiting? then Awaiting(false) else t
  }

  function Taken(m: Samples): Samples
    requires m.queue != []
  {
    m.(queue := m.queue[1..])
  }

  function Freed(m: Samples, x: nat): Samples {
    m.(freed := m.freed + [x])
  }

  function Unwound(m: Samples, x: nat): Samples {
    m.(unwound := m.unwound + [x])
  }

  function MainStep(s: State): State {
    match s.main
    case Popping =>
      if s.samples.queue != [] then s.(samples := Taken(s.samples), main := Holding(s.samples.queue[0]))
      else s.(main := Checking)
    case Checking =>
      if s.requested then s.(paused := true, timer := SignalTimer(s.timer), main := Parked(true)) else s.(main := Sleeping)
    case Parked(asleep) =>
      if asleep then s
      else if s.requested then s.(main := Parked(true))
      else s.(paused := false, main := Sleeping)
    case Sleeping => s.(main := if s.stop then Done else Popping)
    case Holding(x) =>
      if s.stop then s.(samples := Freed(s.samples, x), main := Done) else s.(main := Unwinding(x, s.context))
    case Unwinding(x, _) => s.(samples := Unwound(s.samples, x), main := if s.stop then Done else Popping)
    case Done => s
  }

  // ---------------------------------------------------------------------------------------------
  // The timer thread

  function TimerStep(s: State, initOk: bool): State {
    match s.timer
    case Refusing => s.(requested := true, timer := if s.paused then Emptying else Awaiting(true))
    case Awaiting(asleep) =>
      if asleep then s else s.(timer := if s.paused then Emptying else Awaiting(true))
    case Emptying =>
      if s.samples.queue != [] then s.(samples := Freed(Taken(s.samples), s.samples.queue[0]))
      else s.(context := None, timer := Rebuilding)
    case Rebuilding =>
      if initOk then s.(context := Some(s.contexts), contexts := s.contexts + 1, broken := false, timer := Ready)
      else s.(broken := true, timer := Ready)
    case Draining(x, _) => s.(samples := Unwound(s.samples, x), timer := Ready)
    case Released => s.(accepting := s.context.Some?, timer := Away)
    case _ => s
  }

  function Step(s: State, a: Action): State {
    match a
    case Add(t) => if t < |s.samples.adders| then s.(samples := AddStep(s.samples, t, s.accepting)) else s
    case Push(t) => if t < |s.samples.adders| then s.(samples := PushStep(s.samples, t)) else s
    case MainGoes => MainStep(s)
    case MainWake => s.(main := Signalled(s.main))
    case TimerWake => s.(timer := SignalTimer(s.timer))
    case Pause => if s.timer.Away? then s.(accepting := false, timer := Refusing) else s
    case TimerGoes(initOk) => TimerStep(s, initOk)
    case DrainOne =>
      if s.timer.Ready? && s.context.Some? && s.samples.queue != []
      then s.(samples := Taken(s.samples), timer := Draining(s.samples.queue[0], s.context)) else s
    case Restore =>
      if s.timer.Ready? then s.(requested := false, main := Signalled(s.main), timer := Released) else s
    case RequestStop => s.(stop := true)
    case Join => if s.timer.Away? then s.(timer := Joined) else s
    case StopDrain(unwind) =>
      // shutdown on the main thread: the store's worker unwinds what is queued, the unwinder's worker frees the rest
      if s.main.Done? && s.timer.Joined? && s.samples.queue != [] then
        var x, m := s.samples.queue[0], Taken(s.samples);
        s.(samples := if unwind then Unwound(m, x) else Freed(m, x))
      else s
  }

  function NewState(adders: nat, capacity: nat): State {
    State(false, false, true, false, Some(0), 1, false,
          Samples(capacity, [], 0, seq(adders, _ => None), [], [], [], []), Popping, Away)
  }

  function Run(adders: nat, capacity: nat, actions: seq<Action>): State {
    if actions == [] then NewState(adders, capacity)
    else Step(Run(adders, capacity, actions[..|actions| - 1]), actions[|actions| - 1])
  }

  // ---------------------------------------------------------------------------------------------
  // The handshake

  /** The timer thread has left its wait and not yet cleared the request. */
  predicate Owns(t: Timer) {
    t.Emptying? || t.Rebuilding? || t.Ready? || t.Draining?
  }

  ghost predicate HandshakeOk(s: State) {
    && (s.paused <==> s.main.Parked?)
    && (Owns(s.timer) || s.timer.Awaiting? ==> s.requested)
    && (Owns(s.timer) ==> s.paused)
    && (s.requested ==> Owns(s.timer) || s.timer.Awaiting?)
    && (s.main == Parked(true) ==> s.requested)
    && (s.timer == Awaiting(true) ==> !s.paused)
  }

  ghost predicate ContextOk(s: State) {
    && (s.main.Unwinding? ==> s.main.context == s.context)
    && (s.timer.Draining? ==> s.timer.context == s.context && s.context.Some?)
    && (s.context.Some? ==> s.context.value < s.contexts)
    && (!s.timer.Away? && !s.timer.Joined? ==> !s.accepting)
    && (s.accepting ==> s.context.Some?)
    && (s.context.None? <==> s.broken || s.timer.Rebuilding?)
  }

  lemma {:induction false} MainKeepsHandshake(s: State)
    requires HandshakeOk(s) && ContextOk(s)
    ensures HandshakeOk(MainStep(s)) && ContextOk(MainStep(s))
  {
  }

  lemma {:induction false} TimerKeepsHandshake(s: State, initOk: bool)
    requires HandshakeOk(s) && ContextOk(s)
    ensures HandshakeOk(TimerStep(s, initOk)) && ContextOk(TimerStep(s, initOk))
  {
  }

  lemma {:induction false} StepKeepsHandshake(s: State, a: Action)
    requires HandshakeOk(s) && ContextOk(s)
    ensures HandshakeOk(Step(s, a)) && ContextOk(Step(s, a))
  {
    match a
    case MainGoes => MainKeepsHandshake(s);
    case TimerGoes(initOk) => TimerKeepsHandshake(s, initOk);
    case _ =>
  }

  lemma {:induction false} RunKeepsHandshake(adders: nat, capacity: nat, actions: seq<Action>)
    ensures var s := Run(adders, capacity, actions); HandshakeOk(s) && ContextOk(s)
  {
    if actions != [] {
      RunKeepsHandshake(adders, capacity, actions[..|actions| - 1]);
      StepKeepsHandshake(Run(adders, capacity, actions[..|actions| - 1]), actions[|actions| - 1]);
    }
  }

  /** From the end of the wait in `cpa_unwinder_pause` until `cpa_unwinder_restore` clears the request, in every run and
      however often it is repeated, the main thread is parked: it neither unwinds nor holds a sample, so the context and
      both queues have one user. */
  lemma {:induction false} ParkedWhileOwned(adders: nat, capacity: nat, actions: seq<Action>)
    ensures var s := Run(adders, capacity, actions);
            Owns(s.timer) ==> s.main.Parked? && s.requested && s.paused
  {
    RunKeepsHandshake(adders, capacity, actions);
  }

  /** Whoever unwinds uses the context that is current, and never two at once. */
  lemma {:induction false} ContextIsCurrent(adders: nat, capacity: nat, actions: seq<Action>)
    ensures var s := Run(adders, capacity, actions);
            && (s.main.Unwinding? ==> s.main.context == s.context && !Owns(s.timer))
            && (s.timer.Draining? ==> s.timer.context == s.context && s.context.Some? && s.main.Parked?)
  {
    RunKeepsHandshake(adders, capacity, actions);
  }

  /** No signal is missed: the main thread sleeps only while a request stands, the timer thread only while the main thread
      has not parked. Whether the main thread will still park is another matter; see `WaitEndsIff`. */
  lemma {:induction false} NoLostWakeup(adders: nat, capacity: nat, actions: seq<Action>)
    ensures var s := Run(adders, capacity, actions);
            && (s.main == Parked(true) ==> s.requested)
            && (s.timer == Awaiting(true) ==> !s.paused && s.requested && !s.main.Parked?)
  {
    RunKeepsHandshake(adders, capacity, actions);
  }

  // ---------------------------------------------------------------------------------------------
  // Every sample is disposed of exactly once

  /** How often `x` is among the first `n`. */
  function Among(s: seq<nat>, n: nat, x: nat): nat
    requires n <= |s|
  {
    if n == 0 then 0 else Among(s, n - 1, x) + Is(Some(s[n - 1]), x)
  }

  function Occurs(s: seq<nat>, x: nat): nat {
    Among(s, |s|, x)
  }

  function Is(o: Option<nat>, x: nat): nat {
    if o == Some(x) then 1 else 0
  }

  /** How often `x` is in the hands of the first `n` adding threads. */
  function InHands(adders: seq<Option<nat>>, n: nat, x: nat): nat
    requires n <= |adders|
  {
    if n == 0 then 0 else InHands(adders, n - 1, x) + Is(adders[n - 1], x)
  }

  function InMain(m: Main): Option<nat> {
    match m case Holding(y) => Some(y) case Unwinding(y, _) => Some(y) case _ => None
  }

  function InTimer(t: Timer): Option<nat> {
    match t case Draining(y, _) => Some(y) case _ => None
  }

  /** How often a sample occurs among the places where it still waits ... */
  function Pending(s: State, x: nat): nat {
    Waiting(s.samples, x) + Is(InMain(s.main), x) + Is(InTimer(s.timer), x)
  }

  function Waiting(m: Samples, x: nat): nat {
    Occurs(m.queue, x) + InHands(m.adders, |m.adders|, x)
  }

  /** ... and how often it was unwound, freed or handed back. */
  function Disposed(m: Samples, x: nat): nat {
    Occurs(m.unwound, x) + Occurs(m.freed, x) + Occurs(m.refused, x)
  }

  /** All the places outside the hands of the two threads. */
  function Placed(m: Samples, x: nat): nat {
    Waiting(m, x) + Disposed(m, x)
  }

  lemma {:induction false} AmongPrefix(s: seq<nat>, t: seq<nat>, n: nat, x: nat)
    requires n <= |s| && s <= t
    ensures Among(t, n, x) == Among(s, n, x)
  {
    if n > 0 {
      AmongPrefix(s, t, n - 1, x);
    }
  }

  lemma {:induction false} OccursAppend(s: seq<nat>, y: nat, x: nat)
    ensures Occurs(s + [y], x) == Occurs(s, x) + Is(Some(y), x)
  {
    AmongPrefix(s, s + [y], |s|, x);
  }

  lemma {:induction false} AmongRest(s: seq<nat>, n: nat, x: nat)
    requires 0 < n <= |s|
    ensures Among(s, n, x) == Among(s[1..], n - 1, x) + Is(Some(s[0]), x)
  {
    if n > 1 {
      AmongRest(s, n - 1, x);
    }
  }

  lemma {:induction false} OccursFirst(s: seq<nat>, x: nat)
    requires s != []
    ensures Occurs(s, x) == Occurs(s[1..], x) + Is(Some(s[0]), x)
  {
    AmongRest(s, |s|, x);
  }

  lemma {:induction false} HandsMove(adders: seq<Option<nat>>, n: nat, t: nat, o: Option<nat>, x: nat)
    requires t < |adders| && n <= |adders|
    ensures InHands(adders[t := o], n, x) == InHands(adders, n, x) + (if t < n then Is(o, x) - Is(adders[t], x) else 0)
  {
    if n > 0 {
      HandsMove(adders, n - 1, t, o, x);
    }
  }

  lemma {:induction false} NoHands(adders: seq<Option<nat>>, n: nat, x: nat)
    requires n <= |adders| && forall i :: 0 <= i < |adders| ==> adders[i] == None
    ensures InHands(adders, n, x) == 0
  {
    if n > 0 {
      NoHands(adders, n - 1, x);
    }
  }

  lemma {:induction false} TakenPlaced(m: Samples, x: nat)
    requires m.queue != []
    ensures Placed(Taken(m), x) + Is(Some(m.queue[0]), x) == Placed(m, x)
  {
    OccursFirst(m.queue, x);
  }

  lemma {:induction false} FreedPlaced(m: Samples, y: nat, x: nat)
    ensures Placed(Freed(m, y), x) == Placed(m, x) + Is(Some(y), x)
  {
    OccursAppend(m.freed, y, x);
  }

  lemma {:induction false} UnwoundPlaced(m: Samples, y: nat, x: nat)
    ensures Placed(Unwound(m, y), x) == Placed(m, x) + Is(Some(y), x)
  {
    OccursAppend(m.unwound, y, x);
  }

  lemma {:induction false} AddPlaced(m: Samples, t: nat, accepting: bool, x: nat)
    requires t < |m.adders|
    ensures var m' := AddStep(m, t, accepting);
            Placed(m', x) - Placed(m, x) == Due(m', x) - Due(m, x)
  {
    if m.adders[t].None? {
      HandsMove(m.adders, |m.adders|, t, Some(m.created), x);
      OccursAppend(m.refused, m.created, x);
    }
  }

  lemma {:induction false} PushPlaced(m: Samples, t: nat, x: nat)
    requires t < |m.adders|
    ensures Placed(PushStep(m, t), x) == Placed(m, x) && PushStep(m, t).created == m.created
  {
    if m.adders[t].Some? {
      HandsMove(m.adders, |m.adders|, t, None, x);
      if |m.queue| < m.capacity {
        OccursAppend(m.queue, m.adders[t].value, x);
      } else {
        OccursAppend(m.refused, m.adders[t].value, x);
      }
    }
  }

  /** How often a sample must be somewhere: once from the moment it is built. */
  function Due(m: Samples, x: nat): nat {
    if x < m.created then 1 else 0
  }

  /** A step moves the sample at most from one place to another, or builds it. */
  ghost predicate Kept(s: State, s': State, x: nat) {
    Places(s', x) - Places(s, x) == Due(s'.samples, x) - Due(s.samples, x)
  }

  function Places(s: State, x: nat): nat {
    Placed(s.samples, x) + Is(InMain(s.main), x) + Is(InTimer(s.timer), x)
  }

  lemma {:induction false} SameKept(s: State, s': State, x: nat)
    requires s'.samples == s.samples && InMain(s'.main) == InMain(s.main) && InTimer(s'.timer) == InTimer(s.timer)
    ensures Kept(s, s', x)
  {
  }

  lemma {:induction false} PopKeepsOnce(s: State, x: nat)
    requires s.main.Popping?
    ensures Kept(s, MainStep(s), x)
  {
    if s.samples.queue != [] {
      TakenPlaced(s.samples, x);
    }
  }

  lemma {:induction false} HoldKeepsOnce(s: State, x: nat)
    requires s.main.Holding?
    ensures Kept(s, MainStep(s), x)
  {
    FreedPlaced(s.samples, s.main.sample, x);
  }

  lemma {:induction false} UnwindKeepsOnce(s: State, x: nat)
    requires s.main.Unwinding?
    ensures Kept(s, MainStep(s), x)
  {
    UnwoundPlaced(s.samples, s.main.sample, x);
  }

  lemma {:induction false} IdleKeepsOnce(s: State, x: nat)
    requires s.main.Checking? || s.main.Parked? || s.main.Sleeping? || s.main.Done?
    ensures Kept(s, MainStep(s), x)
  {
    SameKept(s, MainStep(s), x);
  }

  lemma {:induction false} MainKeepsOnce(s: State, x: nat)
    ensures Kept(s, MainStep(s), x)
  {
    if s.main.Popping? {
      PopKeepsOnce(s, x);
    } else if s.main.Holding? {
      HoldKeepsOnce(s, x);
    } else if s.main.Unwinding? {
      UnwindKeepsOnce(s, x);
    } else {
      IdleKeepsOnce(s, x);
    }
  }

  lemma {:induction false} EmptyKeepsOnce(s: State, initOk: bool, x: nat)
    requires s.timer.Emptying?
    ensures Kept(s, TimerStep(s, initOk), x)
  {
    if s.samples.queue != [] {
      TakenPlaced(s.samples, x);
      FreedPlaced(Taken(s.samples), s.samples.queue[0], x);
    }
  }

  lemma {:induction false} DrainedKeepsOnce(s: State, initOk: bool, x: nat)
    requires s.timer.Draining?
    ensures Kept(s, TimerStep(s, initOk), x)
  {
    UnwoundPlaced(s.samples, s.timer.sample, x);
  }

  lemma {:induction false} TimerKeepsOnce(s: State, initOk: bool, x: nat)
    ensures Kept(s, TimerStep(s, initOk), x)
  {
    if s.timer.Emptying? {
      EmptyKeepsOnce(s, initOk, x);
    } else if s.timer.Draining? {
      DrainedKeepsOnce(s, initOk, x);
    } else {
      SameKept(s, TimerStep(s, initOk), x);
    }
  }

  lemma {:induction false} DrainKeepsOnce(s: State, x: nat)
    ensures Kept(s, Step(s, DrainOne), x)
  {
    if s.timer.Ready? && s.context.Some? && s.samples.queue != [] {
      TakenPlaced(s.samples, x);
    }
  }

  lemma {:induction false} StopKeepsOnce(s: State, unwind: bool, x: nat)
    ensures Kept(s, Step(s, StopDrain(unwind)), x)
  {
    if s.main.Done? && s.timer.Joined? && s.samples.queue != [] {
      TakenPlaced(s.samples, x);
      if unwind {
        UnwoundPlaced(Taken(s.samples), s.samples.queue[0], x);
      } else {
        FreedPlaced(Taken(s.samples), s.samples.queue[0], x);
      }
    }
  }

  lemma {:induction false} AdderKeepsOnce(s: State, a: Action, x: nat)
    requires a.Add? || a.Push?
    ensures Kept(s, Step(s, a), x)
  {
    if a.t < |s.samples.adders| {
      AddPlaced(s.samples, a.t, s.accepting, x);
      PushPlaced(s.samples, a.t, x);
    }
  }

  lemma {:induction false} StepKeepsOnce(s: State, a: Action, x: nat)
    ensures Kept(s, Step(s, a), x)
  {
    match a
    case Add(_) => AdderKeepsOnce(s, a, x);
    case Push(_) => AdderKeepsOnce(s, a, x);
    case MainGoes => MainKeepsOnce(s, x);
    case TimerGoes(initOk) => TimerKeepsOnce(s, initOk, x);
    case DrainOne => DrainKeepsOnce(s, x);
    case StopDrain(unwind) => StopKeepsOnce(s, unwind, x);
    case _ => SameKept(s, Step(s, a), x);
  }

  /** In every run every sample ever built is, at every moment, in exactly one place: waiting in a queue or a hand, or
      unwound, freed or handed back once. */
  lemma {:induction false} DisposedExactlyOnce(adders: nat, capacity: nat, actions: seq<Action>, x: nat)
    ensures var s := Run(adders, capacity, actions);
            Pending(s, x) + Disposed(s.samples, x) == if x < s.samples.created then 1 else 0
  {
    if actions == [] {
      NoHands(NewState(adders, capacity).samples.adders, adders, x);
    } else {
      DisposedExactlyOnce(adders, capacity, actions[..|actions| - 1], x);
      StepKeepsOnce(Run(adders, capacity, actions[..|actions| - 1]), actions[|actions| - 1], x);
    }
  }
}

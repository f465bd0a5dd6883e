/** The two callback gates of src/cpa_monitor/cpa_bpf_capture.c as a state machine: any number of callback threads and
    one controlling thread, one step per critical section or atomic access.
  */
module CallbackGates {
  datatype CaptureState = Stopped | Running | Paused | Exiting

  /** Where a callback thread stands. */
  datatype Pc =
    | Outside        // not in a callback
    | Body           // admitted through the capture gate
    | Diverted       // saw the kernel-only flag set
    | Emitting       // admitted through the kernel-only gate as well
    | Leaving        // about to leave the capture gate

  /** Where the controlling thread stands in init, pause, destroy and restore. `exit` tells destroy from pause. */
  datatype Control =
    | Down | FlagSet | KernelReset | BothReset
    | Open
    | StateStored(exit: bool) | KernelPaused(exit: bool)
    | AwaitCapture(exit: bool) | AsleepCapture(exit: bool)
    | AwaitKernel(exit: bool) | AsleepKernel(exit: bool)
    | Quiet(exit: bool)
    | Restoring | KernelResumed

  datatype Gate = Gate(count: nat, blocked: bool)

  datatype Gates = Gates(state: CaptureState, kernelOnly: bool, kernel: Gate, capture: Gate,
                         threads: seq<Pc>, control: Control, disabledBusy: bool)

  datatype Action =
    | Enter(t: nat) | Look(t: nat) | EnterKernel(t: nat) | LeaveKernel(t: nat) | Skip(t: nat) | Leave(t: nat)
    | Init(kernelOnly: bool) | Begin(exit: bool) | Advance | Wake

  // ---------------------------------------------------------------------------------------------
  // Callback threads

  /** The admission test of both gates. */
  predicate Admits(state: CaptureState, g: Gate) {
    state == Running && !g.blocked
  }

  /** `capture_callback_leave` and `kernel_only_fastpath_leave`: the counter never goes below zero. */
  function Left(g: Gate): Gate {
    if g.count > 0 then g.(count := g.count - 1) else g
  }

  /** A leave that empties a blocked gate wakes the thread waiting on it. */
  function Woken(c: Control, capture: bool, g: Gate): Control {
    if g.blocked && g.count == 0 then
      match c
      case AsleepCapture(exit) => if capture then AwaitCapture(exit) else c
      case AsleepKernel(exit) => if capture then c else AwaitKernel(exit)
      case _ => c
    else c
  }

  function Goto(g: Gates, t: nat, pc: Pc): Gates
    requires t < |g.threads|
  {
    g.(threads := g.threads[t := pc])
  }

  function ThreadStep(g: Gates, a: Action): Gates
    requires a.Enter? || a.Look? || a.EnterKernel? || a.LeaveKernel? || a.Skip? || a.Leave?
    requires a.t < |g.threads|
  {
    var t, pc := a.t, g.threads[a.t];
    match a
    case Enter(_) =>
      if pc.Outside? && Admits(g.state, g.capture)
      then Goto(g.(capture := g.capture.(count := g.capture.count + 1)), t, Body) else g
    case Look(_) => if pc.Body? && g.kernelOnly then Goto(g, t, Diverted) else g
    case EnterKernel(_) =>
      if !pc.Diverted? then g
      else if g.kernelOnly && Admits(g.state, g.kernel)
      then Goto(g.(kernel := g.kernel.(count := g.kernel.count + 1)), t, Emitting)
      else Goto(g, t, Leaving)
    case LeaveKernel(_) =>
      if pc.Emitting?
      then Goto(g.(kernel := Left(g.kernel), control := Woken(g.control, false, Left(g.kernel))), t, Leaving) else g
    case Skip(_) => if pc.Body? then Goto(g, t, Leaving) else g
    case Leave(_) =>
      if pc.Leaving?
      then Goto(g.(capture := Left(g.capture), control := Woken(g.control, true, Left(g.capture))), t, Outside) else g
  }

  // ---------------------------------------------------------------------------------------------
  // The controlling thread

  predicate Busy(pc: Pc) {
    !pc.Outside?
  }

  predicate AnyBusy(threads: seq<Pc>) {
    exists i :: 0 <= i < |threads| && Busy(threads[i])
  }

  /** The next step of whatever the controlling thread is doing. */
  function ControlStep(g: Gates): Gates {
    match g.control
    case Down => g
    case FlagSet => g.(kernel := Gate(0, false), control := KernelReset)
    case KernelReset => g.(capture := Gate(0, false), control := BothReset)
    case BothReset => g.(state := Running, control := Open)
    case Open => g
    case StateStored(exit) =>
      g.(kernel := if g.kernelOnly then g.kernel.(blocked := true) else g.kernel, control := KernelPaused(exit))
    case KernelPaused(exit) => g.(capture := g.capture.(blocked := true), control := AwaitCapture(exit))
    case AwaitCapture(exit) => g.(control := if g.capture.count > 0 then AsleepCapture(exit) else AwaitKernel(exit))
    case AsleepCapture(_) => g
    case AwaitKernel(exit) =>
      g.(control := if g.kernelOnly && g.kernel.count > 0 then AsleepKernel(exit) else Quiet(exit))
    case AsleepKernel(_) => g
    case Quiet(exit) =>
      // destroy: the flag is cleared and the modules are disabled; pause: restore begins
      if exit then g.(kernelOnly := false, disabledBusy := g.disabledBusy || AnyBusy(g.threads), control := Down)
      else g.(state := Running, control := Restoring)
    case Restoring =>
      g.(kernel := if g.kernelOnly then g.kernel.(blocked := false) else g.kernel, control := KernelResumed)
    case KernelResumed => g.(capture := g.capture.(blocked := false), control := Open)
  }

  function Step(g: Gates, a: Action): Gates {
    match a
    case Init(f) => if g.control.Down? then g.(state := Stopped, kernelOnly := f, control := FlagSet) else g
    case Begin(exit) =>
      // pause or destroy, also from the paused state
      if g.control.Open? || g.control == Quiet(false)
      then g.(state := if exit then Exiting else Paused, control := StateStored(exit)) else g
    case Advance => ControlStep(g)
    case Wake =>
      match g.control {
        case AsleepCapture(exit) => g.(control := AwaitCapture(exit))
        case AsleepKernel(exit) => g.(control := AwaitKernel(exit))
        case _ => g
      }
    case _ => if a.t < |g.threads| then ThreadStep(g, a) else g
  }

  function NewGates(threads: nat): Gates {
    Gates(Stopped, false, Gate(0, false), Gate(0, false), seq(threads, _ => Outside), Down, false)
  }

  function Run(threads: nat, actions: seq<Action>): Gates {
    if actions == [] then NewGates(threads) else Step(Run(threads, actions[..|actions| - 1]), actions[|actions| - 1])
  }

  // ---------------------------------------------------------------------------------------------
  // Counting threads

  function InKernel(pc: Pc): nat {
    if pc.Emitting? then 1 else 0
  }

  function InCapture(pc: Pc): nat {
    if Busy(pc) then 1 else 0
  }

  function KernelSum(threads: seq<Pc>): nat {
    if threads == [] then 0 else KernelSum(threads[..|threads| - 1]) + InKernel(threads[|threads| - 1])
  }

  /** How many threads are inside a callback. */
  function CaptureSum(threads: seq<Pc>): nat {
    if threads == [] then 0 else CaptureSum(threads[..|threads| - 1]) + InCapture(threads[|threads| - 1])
  }

  lemma {:induction false} SumsMove(threads: seq<Pc>, t: nat, pc: Pc)
    requires t < |threads|
    ensures CaptureSum(threads[t := pc]) == CaptureSum(threads) - InCapture(threads[t]) + InCapture(pc)
    ensures KernelSum(threads[t := pc]) == KernelSum(threads) - InKernel(threads[t]) + InKernel(pc)
  {
    var n := |threads| - 1;
    if t == n {
      assert threads[t := pc][..n] == threads[..n];
    } else {
      assert threads[t := pc][..n] == threads[..n][t := pc];
      SumsMove(threads[..n], t, pc);
    }
  }

  lemma {:induction false} SumsAtLeast(threads: seq<Pc>, t: nat)
    requires t < |threads|
    ensures CaptureSum(threads) >= InCapture(threads[t]) && KernelSum(threads) >= InKernel(threads[t])
  {
    var n := |threads| - 1;
    if t < n {
      SumsAtLeast(threads[..n], t);
    }
  }

  lemma {:induction false} IdleSums(n: nat)
    ensures CaptureSum(seq(n, _ => Outside)) == 0 && KernelSum(seq(n, _ => Outside)) == 0
  {
    var s: seq<Pc> := seq(n, _ => Outside);
    if n > 0 {
      assert s[..n - 1] == seq(n - 1, _ => Outside);
      IdleSums(n - 1);
    }
  }

  lemma {:induction false} KernelWithinCapture(threads: seq<Pc>)
    ensures KernelSum(threads) <= CaptureSum(threads)
  {
    if threads != [] {
      KernelWithinCapture(threads[..|threads| - 1]);
    }
  }

  // ---------------------------------------------------------------------------------------------
  // The invariant

  /** Both waits of a pause or destroy are over and the capture gate has not been reopened. */
  predicate Drained(c: Control) {
    c.AwaitKernel? || c.AsleepKernel? || c.Quiet? || c.Restoring? || c.KernelResumed?
  }

  predicate Starting(c: Control) {
    c.Down? || c.FlagSet? || c.KernelReset? || c.BothReset?
  }

  predicate Waiting(c: Control) {
    c.AwaitCapture? || c.AsleepCapture?
  }

  predicate Closing(c: Control) {
    c.StateStored? || c.KernelPaused? || Waiting(c) || c.AwaitKernel? || c.AsleepKernel? || c.Quiet?
  }

  ghost predicate GatesOk(g: Gates) {
    && g.capture.count == CaptureSum(g.threads)
    && g.kernel.count == KernelSum(g.threads)
    && (Starting(g.control) ==> g.state != Running && CaptureSum(g.threads) == 0)
    && (Closing(g.control) ==> g.state != Running)
    && (Waiting(g.control) || Drained(g.control) ==> g.capture.blocked)
    && (Drained(g.control) ==> CaptureSum(g.threads) == 0)
    && (g.control.AsleepCapture? ==> g.capture.count > 0)
    && !g.control.AsleepKernel?
    && !g.disabledBusy
  }

  lemma {:induction false} CaptureKeepsOk(g: Gates, a: Action)
    requires GatesOk(g) && (a.Enter? || a.Leave?) && a.t < |g.threads|
    ensures GatesOk(ThreadStep(g, a))
  {
    SumsAtLeast(g.threads, a.t);
    SumsMove(g.threads, a.t, if a.Enter? then Body else Outside);
  }

  lemma {:induction false} BodyKeepsOk(g: Gates, a: Action)
    requires GatesOk(g) && (a.Look? || a.Skip?) && a.t < |g.threads|
    ensures GatesOk(ThreadStep(g, a))
  {
    SumsMove(g.threads, a.t, if a.Look? then Diverted else Leaving);
  }

  lemma {:induction false} KernelKeepsOk(g: Gates, a: Action)
    requires GatesOk(g) && (a.EnterKernel? || a.LeaveKernel?) && a.t < |g.threads|
    ensures GatesOk(ThreadStep(g, a))
  {
    SumsAtLeast(g.threads, a.t);
    SumsMove(g.threads, a.t, Emitting);
    SumsMove(g.threads, a.t, Leaving);
  }

  lemma {:induction false} IdleThreads(threads: seq<Pc>)
    requires CaptureSum(threads) == 0
    ensures KernelSum(threads) == 0 && !AnyBusy(threads)
  {
    KernelWithinCapture(threads);
    if AnyBusy(threads) {
      var i :| 0 <= i < |threads| && Busy(threads[i]);
      SumsAtLeast(threads, i);
    }
  }

  lemma {:induction false} StartingKeepsOk(g: Gates)
    requires GatesOk(g) && (Starting(g.control) || g.control.Open?)
    ensures GatesOk(ControlStep(g))
  {
    if Starting(g.control) {
      IdleThreads(g.threads);
    }
  }

  lemma {:induction false} ClosingKeepsOk(g: Gates)
    requires GatesOk(g) && (g.control.StateStored? || g.control.KernelPaused? || Waiting(g.control))
    ensures GatesOk(ControlStep(g))
  {
  }

  lemma {:induction false} DrainedKeepsOk(g: Gates)
    requires GatesOk(g) && Drained(g.control)
    ensures GatesOk(ControlStep(g))
  {
    IdleThreads(g.threads);
  }

  lemma {:induction false} StepKeepsOk(g: Gates, a: Action)
    requires GatesOk(g)
    ensures GatesOk(Step(g, a))
  {
    match a
    case Init(_) =>
    case Begin(_) =>
    case Advance =>
      if Drained(g.control) {
        DrainedKeepsOk(g);
      } else if Starting(g.control) || g.control.Open? {
        StartingKeepsOk(g);
      } else {
        ClosingKeepsOk(g);
      }
    case Wake =>
    case _ =>
      if a.t < |g.threads| {
        match a
        case Enter(_) => CaptureKeepsOk(g, a);
        case Leave(_) => CaptureKeepsOk(g, a);
        case Look(_) => BodyKeepsOk(g, a);
        case Skip(_) => BodyKeepsOk(g, a);
        case _ => KernelKeepsOk(g, a);
      }
  }

  lemma {:induction false} RunOk(threads: nat, actions: seq<Action>)
    ensures GatesOk(Run(threads, actions))
  {
    if actions == [] {
      IdleSums(threads);
    } else {
      RunOk(threads, actions[..|actions| - 1]);
      StepKeepsOk(Run(threads, actions[..|actions| - 1]), actions[|actions| - 1]);
    }
  }

  // ---------------------------------------------------------------------------------------------
  // What it gives

  /** At every moment each counter is the number of threads inside its gate. */
  lemma {:induction false} CountersAreThreads(threads: nat, actions: seq<Action>)
    ensures var g := Run(threads, actions);
            g.capture.count == CaptureSum(g.threads) && g.kernel.count == KernelSum(g.threads)
  {
    RunOk(threads, actions);
  }

  /** From the end of the waits until the capture gate is reopened no thread is in a callback body, although the state
      is already `Running` again for the last two steps; so modules are disabled only when idle. */
  lemma {:induction false} QuietUntilResume(threads: nat, actions: seq<Action>, t: nat)
    ensures var g := Run(threads, actions);
            t < |g.threads| && (Drained(g.control) || Starting(g.control)) ==> g.threads[t] == Outside
    ensures !Run(threads, actions).disabledBusy
  {
    RunOk(threads, actions);
    if t < |Run(threads, actions).threads| {
      SumsAtLeast(Run(threads, actions).threads, t);
    }
  }

  /** A leave finds its own thread counted, so it never hits the floor at zero. */
  lemma {:induction false} LeaveNeverUnderflows(threads: nat, actions: seq<Action>, t: nat)
    ensures var g := Run(threads, actions);
            t < |g.threads| ==> (g.threads[t] == Leaving ==> g.capture.count > 0) && (g.threads[t] == Emitting ==> g.kernel.count > 0)
  {
    RunOk(threads, actions);
    if t < |Run(threads, actions).threads| {
      SumsAtLeast(Run(threads, actions).threads, t);
    }
  }

  /** No wake-up is lost: a controlling thread that sleeps on the capture gate has a thread inside the blocked gate whose
      leave will wake it, and once the capture gate is drained it never sleeps on the kernel-only gate. */
  lemma {:induction false} NoLostWakeup(threads: nat, actions: seq<Action>)
    ensures var g := Run(threads, actions);
            && (g.control.AsleepCapture? ==> g.capture.blocked && AnyBusy(g.threads))
            && !g.control.AsleepKernel?
  {
    RunOk(threads, actions);
    var g := Run(threads, actions);
    if CaptureSum(g.threads) > 0 {
      SomeBusy(g.threads);
    }
  }

  lemma {:induction false} SomeBusy(threads: seq<Pc>)
    requires CaptureSum(threads) > 0
    ensures AnyBusy(threads)
  {
    var n := |threads| - 1;
    if Busy(threads[n]) {
      assert Busy(threads[n]);
    } else {
      SomeBusy(threads[..n]);
      var i :| 0 <= i < n && Busy(threads[..n][i]);
      assert Busy(threads[i]);
    }
  }
}

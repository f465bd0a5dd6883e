/** Rotating the profile store: src/cpa_monitor/cpa_stackmap_continuous.c and the restart loop of
    src/cpa_monitor/cpa_runtime.c.

    A directory name stands for a directory; making one succeeds only when it does not exist. A tracemap opens its files at
    its first dump, so that writing one map to two directories, or two maps to one directory, would mix profiles up.
  */
module Rotations {
  import opened Options

  /** One dump: the map that was dumped and the directory that was passed. */
  datatype Write = Write(tracemap: nat, dir: nat)

  datatype Rotation = Rotation(active: Option<nat>, pending: Option<nat>, tracemap: nat, maps: nat,
                               existing: set<nat>, writes: seq<Write>, needRestart: bool, dayPassed: bool)

  /** What the environment decides during one restart: the directory name tried and whether making it and allocating a
      map succeed. */
  datatype Fate = Fate(name: nat, mkdirOk: bool, allocOk: bool)

  // ---------------------------------------------------------------------------------------------
  // The specification: a restart in one step

  function Flushed(r: Rotation): Rotation {
    if r.active.Some? then r.(writes := r.writes + [Write(r.tracemap, r.active.value)]) else r
  }

  /** A staged directory is removed again. */
  function Aborted(r: Rotation): Rotation {
    if r.pending.None? then r else r.(pending := None, existing := r.existing - {r.pending.value})
  }

  predicate Staged(r: Rotation, f: Fate) {
    r.active.Some? && f.mkdirOk && f.name !in r.existing
  }

  /** A restart succeeds exactly when there is a store to rotate, a fresh directory and a fresh map. */
  predicate Succeeds(r: Rotation, f: Fate) {
    Staged(r, f) && f.allocOk
  }

  /** Both the directory and the map move, or neither does. */
  function Restarted(r: Rotation, f: Fate): Rotation {
    var flushed := Flushed(r);
    if Succeeds(r, f)
    then flushed.(active := Some(f.name), tracemap := r.maps, maps := r.maps + 1, existing := r.existing + {f.name})
    else flushed.(maps := if r.active.None? && f.allocOk then r.maps + 1 else r.maps)
  }

  predicate Due(r: Rotation) {
    r.dayPassed || r.needRestart
  }

  /** One timer tick: a timed flush, then a restart if one is due. `again` is a request raised while it runs. */
  function Ticked(r: Rotation, f: Fate, again: bool): Rotation {
    var flushed := Flushed(r);
    if !Due(r) then flushed.(needRestart := again)
    else
      var ok := Succeeds(r, f);
      Restarted(flushed, f).(needRestart := again || (r.needRestart && !ok), dayPassed := r.dayPassed && !ok)
  }

  datatype Event = DayEnds | Request | Tick(fate: Fate, again: bool)

  function Happens(r: Rotation, e: Event): Rotation {
    match e
    case DayEnds => r.(dayPassed := true)
    case Request => r.(needRestart := true)
    case Tick(f, again) => Ticked(r, f, again)
  }

  /** A run from start: `dir` is the directory made at start, none in oneshot mode. */
  function Run(dir: Option<nat>, events: seq<Event>): Rotation {
    if events == []
    then Rotation(dir, None, 0, 1, if dir.Some? then {dir.value} else {}, [], false, false)
    else Happens(Run(dir, events[..|events| - 1]), events[|events| - 1])
  }

  // ---------------------------------------------------------------------------------------------
  // The staged code does the same

  class Runtime {
    var active: Option<nat>
    var pending: Option<nat>
    var tracemap: nat
    var maps: nat
    var existing: set<nat>
    var writes: seq<Write>
    var needRestart: bool
    var dayPassed: bool

    ghost function Value(): Rotation
      reads this
    {
      Rotation(active, pending, tracemap, maps, existing, writes, needRestart, dayPassed)
    }

    constructor (dir: Option<nat>)
      ensures Value() == Run(dir, [])
    {
      active, pending, tracemap, maps := dir, None, 0, 1;
      existing := if dir.Some? then {dir.value} else {};
      writes, needRestart, dayPassed := [], false, false;
    }

    /** `cpa_stackmap_continuous_flush_current`. */
    method FlushCurrent()
      modifies this
      ensures Value() == Flushed(old(Value()))
    {
      if active.None? {
        return;
      }
      writes := writes + [Write(tracemap, active.value)];
    }

    /** `cpa_stackmap_continuous_abort_restart`: the staged directory is removed again. */
    method AbortRestart()
      modifies this
      ensures Value() == Aborted(old(Value()))
    {
      if pending.None? {
        return;
      }
      existing := existing - {pending.value};
      pending := None;
    }

    /** `cpa_stage_new_dir`. */
    method StageNewDir(f: Fate) returns (ret: int)
      modifies this
      ensures ret == 0 <==> f.mkdirOk && f.name !in Aborted(old(Value())).existing
      ensures ret == 0 ==> Value() == Aborted(old(Value())).(pending := Some(f.name), existing := Aborted(old(Value())).existing + {f.name})
      ensures ret != 0 ==> Value() == Aborted(old(Value()))
    {
      AbortRestart();
      if !f.mkdirOk || f.name in existing {
        return -1;
      }
      existing := existing + {f.name};
      pending := Some(f.name);
      ret := 0;
    }

    /** `cpa_stackmap_continuous_prepare_restart`. */
    method PrepareRestart(f: Fate) returns (ret: int)
      requires pending.None?
      modifies this
      ensures ret == 0 <==> old(active).None? || Staged(old(Value()), f)
      ensures ret == 0 && old(active).Some? ==>
                Value() == Flushed(old(Value())).(pending := Some(f.name), existing := old(existing) + {f.name})
      ensures ret != 0 || old(active).None? ==> Value() == Flushed(old(Value()))
    {
      if active.None? {
        return 0;
      }
      FlushCurrent();
      ret := StageNewDir(f);
    }

    /** `cpa_stackmap_continuous_commit_restart`. */
    method CommitRestart() returns (ret: int)
      modifies this
      ensures ret == 0 <==> old(pending).Some?
      ensures Value() == if ret == 0 then old(Value()).(active := old(pending), pending := None) else old(Value())
    {
      if pending.None? {
        return -1;
      }
      active := pending;
      pending := None;
      ret := 0;
    }

    /** `cpa_runtime_restart_loop` between pausing and restoring the workers: whatever fails, and at whichever stage,
        the outcome is that of the one-step specification and nothing stays staged. */
    method RestartLoop(f: Fate) returns (ret: int)
      requires pending.None?
      modifies this
      ensures ret == 0 <==> Succeeds(old(Value()), f)
      ensures Value() == Restarted(old(Value()), f)
    {
      ret := PrepareRestart(f);
      if ret != 0 {
        return;
      }
      if !f.allocOk {
        AbortRestart();
        assert existing == old(existing);
        return -12;
      }
      var newMap := maps;
      maps := maps + 1;
      ret := CommitRestart();
      if ret != 0 {
        AbortRestart();
        return;
      }
      tracemap := newMap;
    }

    /** One round of `cpa_runtime_timer_thread`. */
    method TimerTick(f: Fate, again: bool)
      requires pending.None?
      modifies this
      ensures Value() == Ticked(old(Value()), f, again)
    {
      FlushCurrent();
      if dayPassed || needRestart {
        var retryRequested := needRestart;
        if needRestart {
          needRestart := false;
        }
        var ret := RestartLoop(f);
        needRestart := needRestart || again;
        if ret == 0 {
          dayPassed := false;
        } else if retryRequested {
          needRestart := true;
        }
      } else {
        needRestart := again;
      }
    }
  }

  // ---------------------------------------------------------------------------------------------
  // What holds over every run

  ghost predicate WriteOk(r: Rotation, w: Write) {
    && w.tracemap < r.maps && w.dir in r.existing
    && (w.tracemap == r.tracemap <==> Some(w.dir) == r.active)
  }

  /** Maps and directories that were written go together one to one. */
  ghost predicate OneToOne(writes: seq<Write>) {
    forall i, j :: 0 <= i < |writes| && 0 <= j < |writes| ==> (writes[i].tracemap == writes[j].tracemap <==> writes[i].dir == writes[j].dir)
  }

  ghost predicate RotationOk(r: Rotation) {
    && r.pending.None?
    && r.tracemap < r.maps
    && (r.active.Some? ==> r.active.value in r.existing)
    && (forall i :: 0 <= i < |r.writes| ==> WriteOk(r, r.writes[i]))
    && OneToOne(r.writes)
  }

  lemma {:induction false} FlushKeepsOk(r: Rotation)
    requires RotationOk(r)
    ensures RotationOk(Flushed(r))
  {
  }

  lemma {:induction false} RestartKeepsOk(r: Rotation, f: Fate)
    requires RotationOk(r)
    ensures RotationOk(Restarted(r, f))
  {
    FlushKeepsOk(r);
    var p, q := Flushed(r), Restarted(r, f);
    forall i | 0 <= i < |q.writes|
      ensures WriteOk(q, q.writes[i])
    {
      assert WriteOk(p, p.writes[i]);
    }
  }

  lemma {:induction false} FlagsKeepOk(r: Rotation, needRestart: bool, dayPassed: bool)
    requires RotationOk(r)
    ensures RotationOk(r.(needRestart := needRestart, dayPassed := dayPassed))
  {
    var q := r.(needRestart := needRestart, dayPassed := dayPassed);
    forall i | 0 <= i < |q.writes|
      ensures WriteOk(q, q.writes[i])
    {
      assert WriteOk(r, r.writes[i]);
    }
  }

  lemma {:induction false} EventKeepsOk(r: Rotation, e: Event)
    requires RotationOk(r)
    ensures RotationOk(Happens(r, e))
  {
    match e
    case DayEnds => FlagsKeepOk(r, r.needRestart, true);
    case Request => FlagsKeepOk(r, true, r.dayPassed);
    case Tick(f, again) =>
      FlushKeepsOk(r);
      var p, q := Flushed(r), Ticked(r, f, again);
      if Due(r) {
        RestartKeepsOk(p, f);
        FlagsKeepOk(Restarted(p, f), q.needRestart, q.dayPassed);
      } else {
        FlagsKeepOk(p, q.needRestart, q.dayPassed);
      }
  }

  lemma {:induction false} RunOk(dir: Option<nat>, events: seq<Event>)
    ensures RotationOk(Run(dir, events))
  {
    if events != [] {
      RunOk(dir, events[..|events| - 1]);
      EventKeepsOk(Run(dir, events[..|events| - 1]), events[|events| - 1]);
    }
  }

  /** Over every sequence of restart attempts, with failure possible at every stage: nothing stays staged, no map is
      written to two directories and no directory receives two maps. */
  lemma {:induction false} ProfilesNeverMix(dir: Option<nat>, events: seq<Event>)
    ensures Run(dir, events).pending.None? && OneToOne(Run(dir, events).writes)
  {
    RunOk(dir, events);
  }

  /** Both the active directory and the map move to fresh ones, or neither moves. */
  lemma {:induction false} MoveTogether(dir: Option<nat>, events: seq<Event>, f: Fate, again: bool)
    ensures var r := Run(dir, events);
            var q := Run(dir, events + [Tick(f, again)]);
            && (q.tracemap != r.tracemap <==> q.active != r.active)
            && (q.tracemap != r.tracemap <==> Due(r) && Succeeds(r, f))
            && (q.active != r.active ==> q.active.Some? && q.active.value !in r.existing && forall i :: 0 <= i < |q.writes| ==> q.writes[i].tracemap != q.tracemap)
  {
    RunOk(dir, events);
    var r := Run(dir, events);
    assert (events + [Tick(f, again)])[..|events|] == events;
    var q := Ticked(r, f, again);
    forall i | 0 <= i < |q.writes|
      ensures q.writes[i].tracemap < r.maps
    {
      if i < |r.writes| {
        assert WriteOk(r, r.writes[i]);
      }
    }
  }

  /** What makes a restart due. */
  predicate Raises(e: Event) {
    e.DayEnds? || e.Request? || (e.Tick? && e.again)
  }

  /** The event is a tick at which a restart was due and succeeded. */
  predicate Clears(r: Rotation, e: Event) {
    e.Tick? && Due(r) && Succeeds(r, e.fate)
  }

  /** Event `i` made a restart due, and none has succeeded between it and event `j`. */
  ghost predicate Outstanding(dir: Option<nat>, events: seq<Event>, i: nat, j: nat) {
    && i < j <= |events| && Raises(events[i])
    && forall k :: i < k < j ==> !Clears(Run(dir, events[..k]), events[k])
  }

  lemma {:induction false} DueStep(r: Rotation, e: Event)
    ensures Due(Happens(r, e)) <==> Raises(e) || (Due(r) && !Clears(r, e))
  {
  }

  lemma {:induction false} DueHasReason(dir: Option<nat>, events: seq<Event>) returns (i: nat)
    requires Due(Run(dir, events))
    ensures Outstanding(dir, events, i, |events|)
  {
    var n := |events| - 1;
    DueStep(Run(dir, events[..n]), events[n]);
    if Raises(events[n]) {
      i := n;
    } else {
      i := DueHasReason(dir, events[..n]);
      OutstandingMore(dir, events, i);
    }
  }

  lemma {:induction false} ReasonMakesDue(dir: Option<nat>, events: seq<Event>, i: nat)
    requires Outstanding(dir, events, i, |events|)
    ensures Due(Run(dir, events))
  {
    var n := |events| - 1;
    if i < n {
      OutstandingLess(dir, events, i);
      ReasonMakesDue(dir, events[..n], i);
    }
    DueStep(Run(dir, events[..n]), events[n]);
  }

  /** A restart is due exactly when a size-limit request or a day change was raised after which none has succeeded. */
  lemma {:induction false} DueIff(dir: Option<nat>, events: seq<Event>)
    ensures Due(Run(dir, events)) <==> exists i: nat :: Outstanding(dir, events, i, |events|)
  {
    if Due(Run(dir, events)) {
      var i := DueHasReason(dir, events);
    }
    forall i: nat | Outstanding(dir, events, i, |events|)
      ensures Due(Run(dir, events))
    {
      ReasonMakesDue(dir, events, i);
    }
  }

  lemma {:induction false} OutstandingMore(dir: Option<nat>, events: seq<Event>, i: nat)
    requires events != [] && Outstanding(dir, events[..|events| - 1], i, |events| - 1)
    requires !Clears(Run(dir, events[..|events| - 1]), events[|events| - 1])
    ensures Outstanding(dir, events, i, |events|)
  {
    var n := |events| - 1;
    forall k | i < k < n
      ensures !Clears(Run(dir, events[..k]), events[k])
    {
      assert events[..n][..k] == events[..k];
    }
  }

  lemma {:induction false} OutstandingLess(dir: Option<nat>, events: seq<Event>, i: nat)
    requires events != [] && i < |events| - 1 && Outstanding(dir, events, i, |events|)
    ensures Outstanding(dir, events[..|events| - 1], i, |events| - 1)
    ensures !Clears(Run(dir, events[..|events| - 1]), events[|events| - 1])
  {
    var n := |events| - 1;
    forall k | i < k < n
      ensures !Clears(Run(dir, events[..n][..k]), events[..n][k])
    {
      assert events[..n][..k] == events[..k];
    }
  }

  lemma {:induction false} RunStep(dir: Option<nat>, events: seq<Event>, j: nat)
    requires 0 < j <= |events|
    ensures Run(dir, events[..j]) == Happens(Run(dir, events[..j - 1]), events[j - 1])
  {
    assert events[..j][..j - 1] == events[..j - 1];
  }

  /** In every run a restart that is due stays due, size-limit request or day change alike, until one succeeds. */
  lemma {:induction false} RequestStaysPending(dir: Option<nat>, events: seq<Event>, i: nat, j: nat)
    requires i <= j <= |events| && Due(Run(dir, events[..i]))
    requires forall k :: i <= k < j ==> !Clears(Run(dir, events[..k]), events[k])
    ensures Due(Run(dir, events[..j]))
  {
    if i < j {
      RequestStaysPending(dir, events, i, j - 1);
      RunStep(dir, events, j);
      DueStep(Run(dir, events[..j - 1]), events[j - 1]);
    }
  }

  /** In oneshot mode there is no store directory and no restart ever succeeds: nothing is staged, so committing fails. */
  lemma {:induction false} OneshotNeverMoves(events: seq<Event>)
    ensures var r := Run(None, events);
            r.active.None? && r.tracemap == 0 && r.existing == {} && r.writes == []
  {
    if events != [] {
      OneshotNeverMoves(events[..|events| - 1]);
    }
  }
}

/** The `while(1)` loop of `measureSpeed`: each iteration first runs the stats
    window's report-and-reset branch, then the state machine on the sensor
    readings of that iteration. */
module Monitor {
  import opened Hallway
  import opened StatsWindow
  import HallwayProps

  /** When the report-and-reset branch may run. `AsWritten` is the source:
      whenever it is due. `DeferWhileExited` holds it back during the one
      EXITED_HALL iteration, so that a completed transit is stored and
      classified in the window that counted it. */
  datatype FlushPolicy = AsWritten | DeferWhileExited

  /** One loop iteration's sensor readings (`true` = laser received) and clock. */
  datatype Sample = Sample(laser1Received: bool, laser2Received: bool, now: int)

  /** The state after a sequence of iterations and the events of each one. */
  datatype RunResult = RunResult(final: LoopVars, ticks: seq<seq<Event>>)

  predicate FlushesNow(p: FlushPolicy, s: Settings, v: LoopVars, now: int) {
    FlushDue(s, v, now) && (p == AsWritten || v.location != ExitedHall)
  }

  /** One loop iteration. The report-and-reset branch never changes where the
      machine is, its clocks or its flags, so the state machine's own variables
      move exactly as they would under `Step` alone. */
  function Tick(p: FlushPolicy, s: Settings, v: LoopVars, x: Sample): (r: StepResult)
    ensures SameMachine(r.vars, Step(s, v, x.laser1Received, x.laser2Received, x.now).vars)
    ensures !FlushesNow(p, s, v, x.now) ==> r == Step(s, v, x.laser1Received, x.laser2Received, x.now)
    ensures FlushesNow(p, s, v, x.now) ==>
              |r.events| >= 1 && r.events[0].StatsFlush? && r.vars.startTime == x.now
              && r.vars.peoplePassedThrough <= 1 && r.vars.numberOfSpeeders <= 1
    ensures FlushesNow(p, s, v, x.now) ==>
              && r.events[0].windowStart == v.startTime && r.events[0].windowEnd == x.now
              && r.events[0].passed == v.peoplePassedThrough && r.events[0].speeders == v.numberOfSpeeders
    ensures !FlushesNow(p, s, v, x.now) ==> r.vars.startTime == v.startTime
  {
    var f := if FlushesNow(p, s, v, x.now) then Flush(v, x.now) else StepResult(v, []);
    var m := Step(s, f.vars, x.laser1Received, x.laser2Received, x.now);
    HallwayProps.StepIgnoresWindow(s, f.vars, v, x.laser1Received, x.laser2Received, x.now);
    HallwayProps.StepEventsIgnoreWindow(s, f.vars, v, x.laser1Received, x.laser2Received, x.now);
    StepResult(m.vars, f.events + m.events)
  }

  /** Iterations over the samples, in order. */
  function Run(p: FlushPolicy, s: Settings, v: LoopVars, xs: seq<Sample>): (r: RunResult)
    ensures |r.ticks| == |xs|
    decreases |xs|
  {
    if xs == [] then RunResult(v, [])
    else
      var t := Tick(p, s, v, xs[0]);
      var rest := Run(p, s, t.vars, xs[1..]);
      RunResult(rest.final, [t.events] + rest.ticks)
  }

  /** A run is determined by its iterations: if iteration `i` takes `vs[i]`
      to `vs[i + 1]` with events `es[i]`, the run ends in the last state and
      yields those events. */
  lemma {:induction false} RunFollowsTicks(p: FlushPolicy, s: Settings, vs: seq<LoopVars>, xs: seq<Sample>,
                                           es: seq<seq<Event>>)
    requires |vs| == |xs| + 1 && |es| == |xs|
    requires forall i :: 0 <= i < |xs| ==> Tick(p, s, vs[i], xs[i]) == StepResult(vs[i + 1], es[i])
    ensures Run(p, s, vs[0], xs) == RunResult(vs[|xs|], es)
    decreases |xs|
  {
    if xs != [] {
      forall i | 0 <= i < |xs[1..]|
        ensures Tick(p, s, vs[1..][i], xs[1..][i]) == StepResult(vs[1..][i + 1], es[1..][i])
      {
        assert Tick(p, s, vs[i + 1], xs[i + 1]) == StepResult(vs[i + 2], es[i + 1]);
      }
      RunFollowsTicks(p, s, vs[1..], xs[1..], es[1..]);
      assert Tick(p, s, vs[0], xs[0]) == StepResult(vs[1], es[0]);
      assert [es[0]] + es[1..] == es;
    }
  }

  /** The clock, read at `t` before the samples, never goes backwards. */
  predicate Monotone(t: int, xs: seq<Sample>)
    decreases |xs|
  {
    xs == [] || (t <= xs[0].now && Monotone(xs[0].now, xs[1..]))
  }

  /** The last clock reading of a run that started at `t`. */
  function LastTime(t: int, xs: seq<Sample>): int {
    if xs == [] then t else xs[|xs| - 1].now
  }

  /** What every iteration keeps, given that the clock has read `t` so far
      and is not negative: the warning latch stays set, the array keeps its
      1000 slots, no recorded time lies in the future, and the speed is zero
      outside EXITED_HALL and either the sentinel or non-negative in it. */
  predicate Inv(v: LoopVars, t: int) {
    && v.warningIssued
    && |v.objectSpeeds| == SpeedSlots
    && 0 <= v.enteringTime <= t
    && v.timeInState <= t
    && v.startTime <= t
    && (v.location == ExitedHall ==> v.objectSpeed == -1.0 || v.objectSpeed >= 0.0)
    && (v.location != ExitedHall ==> v.objectSpeed == 0.0)
  }

  /** The window's counters agree: no more speeders than passes, and during
      EXITED_HALL the pass being classified is already counted but not yet
      judged. */
  predicate WindowInv(v: LoopVars) {
    if v.location == ExitedHall then 1 <= v.peoplePassedThrough && v.numberOfSpeeders < v.peoplePassedThrough
    else v.numberOfSpeeders <= v.peoplePassedThrough
  }

  /** The loop starts in the invariant, at any non-negative clock reading. */
  lemma InitInv(t0: int)
    requires t0 >= 0
    ensures Inv(Init(t0), t0) && WindowInv(Init(t0))
  {
  }

  /** One step of the state machine keeps `Inv` under a clock that does not
      go backwards; in particular the travel time of a completed transit is
      never negative, and the hallway warning never fires. */
  lemma StepKeepsInv(s: Settings, v: LoopVars, t: int, laser1: bool, laser2: bool, now: int)
    requires Inv(v, t) && t <= now
    ensures Inv(Step(s, v, laser1, laser2, now).vars, now)
    ensures HallwayWarning !in Step(s, v, laser1, laser2, now).events
    ensures Completes(v.location, laser1, laser2) ==> now - v.enteringTime >= 0
  {
    if Completes(v.location, laser1, laser2) {
      HallwayProps.CompletionStep(s, v, laser1, laser2, now);
    }
  }

  /** Every iteration keeps `Inv`, whether or not it reports and resets the window. */
  lemma TickKeepsInv(p: FlushPolicy, s: Settings, v: LoopVars, t: int, x: Sample)
    requires Inv(v, t) && t <= x.now
    ensures Inv(Tick(p, s, v, x).vars, x.now)
    ensures HallwayWarning !in Tick(p, s, v, x).events
    ensures Completes(v.location, x.laser1Received, x.laser2Received) ==> x.now - v.enteringTime >= 0
  {
    var f := if FlushesNow(p, s, v, x.now) then Flush(v, x.now) else StepResult(v, []);
    assert Inv(f.vars, x.now) && HallwayWarning !in f.events;
    StepKeepsInv(s, f.vars, x.now, x.laser1Received, x.laser2Received, x.now);
  }

  /** With the deferred flush every iteration keeps the window's counters
      consistent. */
  lemma DeferredTickKeepsWindowInv(s: Settings, v: LoopVars, x: Sample)
    requires WindowInv(v)
    ensures WindowInv(Tick(DeferWhileExited, s, v, x).vars)
  {
  }

  /** With the deferred flush the store into `objectSpeeds` never misses the
      array from below: an out-of-range store happens only once a single
      window has counted more than 1000 passes, and then lies past the end. */
  lemma DeferredTickStoresInBounds(s: Settings, v: LoopVars, t: int, x: Sample)
    requires Inv(v, t) && WindowInv(v)
    ensures forall i :: OutOfBoundsWrite(i) in Tick(DeferWhileExited, s, v, x).events ==>
              v.peoplePassedThrough > SpeedSlots && i >= SpeedSlots
  {
    var f := if FlushesNow(DeferWhileExited, s, v, x.now) then Flush(v, x.now) else StepResult(v, []);
    var m := Step(s, f.vars, x.laser1Received, x.laser2Received, x.now);
    HallwayProps.StepStoresOnlyWhenExited(s, f.vars, x.laser1Received, x.laser2Received, x.now);
    assert Tick(DeferWhileExited, s, v, x).events == f.events + m.events;
    assert forall i :: OutOfBoundsWrite(i) in f.events ==> SpeedSlots <= i < v.peoplePassedThrough;
  }

  /** Over any run with a clock that does not go backwards, `Inv` holds at the
      end and the hallway warning never fires, under either policy. */
  lemma {:induction false} RunKeepsInv(p: FlushPolicy, s: Settings, v: LoopVars, t: int, xs: seq<Sample>)
    requires Inv(v, t) && Monotone(t, xs)
    ensures var r := Run(p, s, v, xs);
      && Inv(r.final, LastTime(t, xs))
      && (forall k :: 0 <= k < |xs| ==> HallwayWarning !in r.ticks[k])
    decreases |xs|
  {
    if xs != [] {
      var tk := Tick(p, s, v, xs[0]);
      TickKeepsInv(p, s, v, t, xs[0]);
      RunKeepsInv(p, s, tk.vars, xs[0].now, xs[1..]);
      var rest := Run(p, s, tk.vars, xs[1..]);
      var r := Run(p, s, v, xs);
      assert r.ticks == [tk.events] + rest.ticks;
      assert forall k | 1 <= k < |xs| :: r.ticks[k] == rest.ticks[k - 1];
      assert LastTime(xs[0].now, xs[1..]) == LastTime(t, xs);
    }
  }

  /** With the flush held back during EXITED_HALL, over any run with a clock
      that does not go backwards the window's counters stay consistent and no
      store lands below the array. */
  lemma {:induction false} DeferredRunKeepsWindowInv(s: Settings, v: LoopVars, t: int, xs: seq<Sample>)
    requires Inv(v, t) && Monotone(t, xs) && WindowInv(v)
    ensures var r := Run(DeferWhileExited, s, v, xs);
      && WindowInv(r.final)
      && (forall k, i :: 0 <= k < |xs| && OutOfBoundsWrite(i) in r.ticks[k] ==> i >= SpeedSlots)
    decreases |xs|
  {
    if xs != [] {
      var tk := Tick(DeferWhileExited, s, v, xs[0]);
      TickKeepsInv(DeferWhileExited, s, v, t, xs[0]);
      DeferredTickKeepsWindowInv(s, v, xs[0]);
      DeferredTickStoresInBounds(s, v, t, xs[0]);
      DeferredRunKeepsWindowInv(s, tk.vars, xs[0].now, xs[1..]);
      var rest := Run(DeferWhileExited, s, tk.vars, xs[1..]);
      var r := Run(DeferWhileExited, s, v, xs);
      assert r.ticks == [tk.events] + rest.ticks;
      assert forall k | 1 <= k < |xs| :: r.ticks[k] == rest.ticks[k - 1];
    }
  }

  /** The held beam of the current state stays blocked in every sample. */
  predicate HeldThroughout(loc: Location, xs: seq<Sample>) {
    forall k :: 0 <= k < |xs| ==> !(if HeldByLaser1(loc) then xs[k].laser1Received else xs[k].laser2Received)
  }

  /** One iteration with the held beam still blocked: the state stays, a
      blockage warning comes only after more than `LaserBlockTime` seconds
      and restarts the timer, which otherwise is left alone. */
  lemma HeldTick(p: FlushPolicy, s: Settings, v: LoopVars, xs: seq<Sample>)
    requires BeamHeld(v.location) && HeldThroughout(v.location, xs) && xs != []
    ensures var tk := Tick(p, s, v, xs[0]);
      && tk.vars.location == v.location
      && HeldThroughout(v.location, xs[1..])
      && (BlockWarning in tk.events ==> xs[0].now - v.timeInState > LaserBlockTime)
      && tk.vars.timeInState == (if BlockWarning in tk.events then xs[0].now else v.timeInState)
  {
    var x := xs[0];
    HallwayProps.HeldBeamStep(s, v, x.laser1Received, x.laser2Received, x.now);
    HallwayProps.BlockWarningStep(s, v, x.laser1Received, x.laser2Received, x.now);
    TickWarnsAsStep(p, s, v, x);
    forall k | 0 <= k < |xs[1..]|
      ensures !(if HeldByLaser1(v.location) then xs[1..][k].laser1Received else xs[1..][k].laser2Received)
    {
      assert xs[1..][k] == xs[k + 1];
    }
  }

  /** The iterations after the first are a run from the first one's result. */
  lemma RunTail(p: FlushPolicy, s: Settings, v: LoopVars, xs: seq<Sample>, k: int)
    requires 1 <= k < |xs|
    ensures Run(p, s, v, xs).ticks[k] == Run(p, s, Tick(p, s, v, xs[0]).vars, xs[1..]).ticks[k - 1]
    ensures xs[1..][k - 1] == xs[k]
  {
  }

  /** A tick issues a blockage warning exactly when its state-machine step does. */
  lemma TickWarnsAsStep(p: FlushPolicy, s: Settings, v: LoopVars, x: Sample)
    ensures BlockWarning in Tick(p, s, v, x).events
            <==> BlockWarning in Step(s, v, x.laser1Received, x.laser2Received, x.now).events
  {
    var f := if FlushesNow(p, s, v, x.now) then Flush(v, x.now) else StepResult(v, []);
    assert BlockWarning !in f.events;
    HallwayProps.BlockWarningStep(s, f.vars, x.laser1Received, x.laser2Received, x.now);
    HallwayProps.BlockWarningStep(s, v, x.laser1Received, x.laser2Received, x.now);
  }

  /** While a beam stays blocked, every blockage warning comes more than
      `LaserBlockTime` seconds after the timer the run started with. */
  lemma {:induction false} WarningsAfterTimer(p: FlushPolicy, s: Settings, v: LoopVars, xs: seq<Sample>)
    requires BeamHeld(v.location) && HeldThroughout(v.location, xs)
    ensures var r := Run(p, s, v, xs);
      forall k :: 0 <= k < |xs| && BlockWarning in r.ticks[k] ==> xs[k].now - v.timeInState > LaserBlockTime
    decreases |xs|
  {
    if xs != [] {
      var tk := Tick(p, s, v, xs[0]);
      HeldTick(p, s, v, xs);
      WarningsAfterTimer(p, s, tk.vars, xs[1..]);
      var r := Run(p, s, v, xs);
      forall k | 1 <= k < |xs| && BlockWarning in r.ticks[k]
        ensures xs[k].now - v.timeInState > LaserBlockTime
      {
        RunTail(p, s, v, xs, k);
      }
    }
  }

  /** While a beam stays blocked, successive blockage warnings are more than
      `LaserBlockTime` seconds apart. */
  lemma {:induction false} BlockWarningsSpaced(p: FlushPolicy, s: Settings, v: LoopVars, xs: seq<Sample>)
    requires BeamHeld(v.location) && HeldThroughout(v.location, xs)
    ensures var r := Run(p, s, v, xs);
      forall i, j :: 0 <= i < j < |xs| && BlockWarning in r.ticks[i] && BlockWarning in r.ticks[j] ==>
        xs[j].now - xs[i].now > LaserBlockTime
    decreases |xs|
  {
    if xs != [] {
      var tk := Tick(p, s, v, xs[0]);
      HeldTick(p, s, v, xs);
      BlockWarningsSpaced(p, s, tk.vars, xs[1..]);
      if BlockWarning in tk.events {
        WarningsAfterTimer(p, s, tk.vars, xs[1..]);
      }
      var r := Run(p, s, v, xs);
      forall i, j | 0 <= i < j < |xs| && BlockWarning in r.ticks[i] && BlockWarning in r.ticks[j]
        ensures xs[j].now - xs[i].now > LaserBlockTime
      {
        RunTail(p, s, v, xs, j);
        if i > 0 {
          RunTail(p, s, v, xs, i);
        }
      }
    }
  }
}

/** Concrete runs of the loop: walks under and over the limit and an instant
    transit from any fresh idle state, a beam held for six seconds, and the
    iteration order from the initial state at clock 0 that makes the source
    store a speed at `objectSpeeds[-1]`. Each proof follows the run one
    iteration at a time. */
module Scenarios {
  import opened Hallway
  import opened StatsWindow
  import opened Monitor

  /** An idle machine with the warning latch set, whose window, opened at
      `t0`, has counted nothing. */
  predicate FreshIdle(v: LoopVars, t0: int) {
    && v.location == NooneInHall
    && v.warningIssued
    && v.startTime == t0
    && v.peoplePassedThrough == 0
    && v.numberOfSpeeders == 0
    && |v.objectSpeeds| == SpeedSlots
  }

  /** The iterations of a left-to-right walk, each within an open window. */
  lemma EnterLeftTick(p: FlushPolicy, s: Settings, v: LoopVars, x: Sample) returns (w: LoopVars)
    requires v.location == NooneInHall && !x.laser1Received && !FlushDue(s, v, x.now)
    ensures w == Enter(v, Laser1BrokenGoingIn, x.now) && Tick(p, s, v, x) == StepResult(w, [])
  {
    w := Enter(v, Laser1BrokenGoingIn, x.now);
  }

  lemma CrossInTick(p: FlushPolicy, s: Settings, v: LoopVars, x: Sample) returns (w: LoopVars)
    requires v.location == Laser1BrokenGoingIn && x.laser1Received && !FlushDue(s, v, x.now)
    requires x.now - v.timeInState <= LaserBlockTime
    ensures w == v.(location := InHallMoveRight) && Tick(p, s, v, x) == StepResult(w, [WarningLightOn])
  {
    w := v.(location := InHallMoveRight);
  }

  lemma ReachExitTick(p: FlushPolicy, s: Settings, v: LoopVars, x: Sample) returns (w: LoopVars)
    requires v.location == InHallMoveRight && v.warningIssued && x.laser1Received && !x.laser2Received
    requires !FlushDue(s, v, x.now)
    ensures w == v.(location := Laser2BrokenGoingOutCorrect, timeInState := x.now, enteringNewState := false)
    ensures Tick(p, s, v, x) == StepResult(w, [WarningLightOff])
  {
    w := v.(location := Laser2BrokenGoingOutCorrect, timeInState := x.now, enteringNewState := false);
  }

  lemma LeaveTick(p: FlushPolicy, s: Settings, v: LoopVars, x: Sample) returns (w: LoopVars)
    requires v.location == Laser2BrokenGoingOutCorrect && x.laser2Received && !FlushDue(s, v, x.now)
    requires x.now - v.timeInState <= LaserBlockTime
    ensures w == Complete(s, v, x.now) && Tick(p, s, v, x) == StepResult(w, [])
  {
    w := Complete(s, v, x.now);
  }

  /** The EXITED_HALL iteration of a speed within the limit, over it, or the sentinel. */
  lemma PassTick(p: FlushPolicy, s: Settings, v: LoopVars, x: Sample)
    requires v.location == ExitedHall && !FlushesNow(p, s, v, x.now)
    requires 0.0 <= v.objectSpeed <= s.speedLimit as real && 1 <= v.peoplePassedThrough <= |v.objectSpeeds|
    ensures Tick(p, s, v, x) == StepResult(
              v.(objectSpeed := 0.0, location := NooneInHall,
                 objectSpeeds := v.objectSpeeds[v.peoplePassedThrough - 1 := v.objectSpeed]),
              [Pass(v.objectSpeed)])
  {
  }

  lemma SpeederTick(p: FlushPolicy, s: Settings, v: LoopVars, x: Sample)
    requires v.location == ExitedHall && !FlushesNow(p, s, v, x.now)
    requires v.objectSpeed > s.speedLimit as real && 1 <= v.peoplePassedThrough <= |v.objectSpeeds|
    ensures Tick(p, s, v, x) == StepResult(
              v.(objectSpeed := 0.0, location := NooneInHall,
                 objectSpeeds := v.objectSpeeds[v.peoplePassedThrough - 1 := v.objectSpeed],
                 numberOfSpeeders := v.numberOfSpeeders + 1),
              [Speeder(v.objectSpeed)])
  {
  }

  lemma AnomalyTick(p: FlushPolicy, s: Settings, v: LoopVars, x: Sample)
    requires v.location == ExitedHall && !FlushesNow(p, s, v, x.now) && v.objectSpeed < 0.0
    ensures Tick(p, s, v, x) == StepResult(v.(objectSpeed := 0.0, location := NooneInHall), [Anomaly])
  {
  }

  /** `RunFollowsTicks` for five iterations. */
  lemma FiveTicks(p: FlushPolicy, s: Settings, v0: LoopVars, v1: LoopVars, v2: LoopVars, v3: LoopVars,
                  v4: LoopVars, v5: LoopVars, x0: Sample, x1: Sample, x2: Sample, x3: Sample, x4: Sample,
                  e0: seq<Event>, e1: seq<Event>, e2: seq<Event>, e3: seq<Event>, e4: seq<Event>)
    requires Tick(p, s, v0, x0) == StepResult(v1, e0) && Tick(p, s, v1, x1) == StepResult(v2, e1)
    requires Tick(p, s, v2, x2) == StepResult(v3, e2) && Tick(p, s, v3, x3) == StepResult(v4, e3)
    requires Tick(p, s, v4, x4) == StepResult(v5, e4)
    ensures Run(p, s, v0, [x0, x1, x2, x3, x4]) == RunResult(v5, [e0, e1, e2, e3, e4])
  {
    var vs, xs, es := [v0, v1, v2, v3, v4, v5], [x0, x1, x2, x3, x4], [e0, e1, e2, e3, e4];
    forall i | 0 <= i < |xs| ensures Tick(p, s, vs[i], xs[i]) == StepResult(vs[i + 1], es[i]) {
      if i == 0 {} else if i == 1 {} else if i == 2 {} else if i == 3 {} else {}
    }
    RunFollowsTicks(p, s, vs, xs, es);
  }

  /** A person walks left to right from a fresh idle state: laser 1 broken at
      `t0` and received 1 s later, laser 2 broken at `t0` + 3 s and received
      at `t0` + 4 s. Over 300 cm that is 4 s and 0.75 m/s, within a 1 m/s
      limit: one pass, stored in slot 0, no speeder. */
  lemma WalkUnderLimit(v: LoopVars, t0: int)
    requires FreshIdle(v, t0)
    ensures var xs := [Sample(false, true, t0), Sample(true, true, t0 + 1), Sample(true, false, t0 + 3),
                       Sample(true, true, t0 + 4), Sample(true, true, t0 + 5)];
      var r := Run(AsWritten, Settings(60, 1, 300), v, xs);
      && r.ticks == [[], [WarningLightOn], [WarningLightOff], [], [Pass(0.75)]]
      && r.final.location == NooneInHall
      && r.final.peoplePassedThrough == 1
      && r.final.numberOfSpeeders == 0
      && r.final.objectSpeeds == v.objectSpeeds[0 := 0.75]
  {
    var s, p := Settings(60, 1, 300), AsWritten;
    var x0, x1, x2, x3, x4 := Sample(false, true, t0), Sample(true, true, t0 + 1), Sample(true, false, t0 + 3),
                              Sample(true, true, t0 + 4), Sample(true, true, t0 + 5);
    var v1 := EnterLeftTick(p, s, v, x0);
    var v2 := CrossInTick(p, s, v1, x1);
    var v3 := ReachExitTick(p, s, v2, x2);
    var v4 := LeaveTick(p, s, v3, x3);
    assert v4.objectSpeed == 0.75;
    PassTick(p, s, v4, x4);
    var v5 := Tick(p, s, v4, x4).vars;
    FiveTicks(p, s, v, v1, v2, v3, v4, v5, x0, x1, x2, x3, x4, [], [WarningLightOn], [WarningLightOff], [], [Pass(0.75)]);
  }

  /** The same walk in 2 s is 1.5 m/s: over the limit, counted as a speeder. */
  lemma WalkOverLimit(v: LoopVars, t0: int)
    requires FreshIdle(v, t0)
    ensures var xs := [Sample(false, true, t0), Sample(true, true, t0 + 1), Sample(true, false, t0 + 1),
                       Sample(true, true, t0 + 2), Sample(true, true, t0 + 2)];
      var r := Run(AsWritten, Settings(60, 1, 300), v, xs);
      && r.ticks == [[], [WarningLightOn], [WarningLightOff], [], [Speeder(1.5)]]
      && r.final.location == NooneInHall
      && r.final.peoplePassedThrough == 1
      && r.final.numberOfSpeeders == 1
      && r.final.objectSpeeds == v.objectSpeeds[0 := 1.5]
  {
    var s, p := Settings(60, 1, 300), AsWritten;
    var x0, x1, x2, x3, x4 := Sample(false, true, t0), Sample(true, true, t0 + 1), Sample(true, false, t0 + 1),
                              Sample(true, true, t0 + 2), Sample(true, true, t0 + 2);
    var v1 := EnterLeftTick(p, s, v, x0);
    var v2 := CrossInTick(p, s, v1, x1);
    var v3 := ReachExitTick(p, s, v2, x2);
    var v4 := LeaveTick(p, s, v3, x3);
    assert v4.objectSpeed == 1.5;
    SpeederTick(p, s, v4, x4);
    var v5 := Tick(p, s, v4, x4).vars;
    FiveTicks(p, s, v, v1, v2, v3, v4, v5, x0, x1, x2, x3, x4, [], [WarningLightOn], [WarningLightOff], [], [Speeder(1.5)]);
  }

  /** A transit entered and left within the same second: the sentinel speed
      is reported as an anomaly, counted as a pass and not stored. */
  lemma InstantTransit(v: LoopVars, t0: int)
    requires FreshIdle(v, t0)
    ensures var xs := [Sample(false, true, t0), Sample(true, true, t0), Sample(true, false, t0),
                       Sample(true, true, t0), Sample(true, true, t0)];
      var r := Run(AsWritten, Settings(60, 1, 300), v, xs);
      && r.ticks == [[], [WarningLightOn], [WarningLightOff], [], [Anomaly]]
      && r.final.location == NooneInHall
      && r.final.peoplePassedThrough == 1
      && r.final.numberOfSpeeders == 0
      && r.final.objectSpeeds == v.objectSpeeds
  {
    var s, p := Settings(60, 1, 300), AsWritten;
    var x0, x1, x2, x3, x4 := Sample(false, true, t0), Sample(true, true, t0), Sample(true, false, t0),
                              Sample(true, true, t0), Sample(true, true, t0);
    var v1 := EnterLeftTick(p, s, v, x0);
    var v2 := CrossInTick(p, s, v1, x1);
    var v3 := ReachExitTick(p, s, v2, x2);
    var v4 := LeaveTick(p, s, v3, x3);
    assert v4.objectSpeed == -1.0;
    AnomalyTick(p, s, v4, x4);
    var v5 := Tick(p, s, v4, x4).vars;
    FiveTicks(p, s, v, v1, v2, v3, v4, v5, x0, x1, x2, x3, x4, [], [WarningLightOn], [WarningLightOff], [], [Anomaly]);
  }

  /** Laser 1 broken at `t0` and held, one iteration per second: the five
      iterations up to `t0` + 5 s change nothing, and since the timeout is
      strict the blockage warning comes at `t0` + 6 s, restarting the timer. */
  lemma BlockedSixSeconds(t0: int)
    ensures var s := Settings(60, 1, 300);
      var t := Tick(AsWritten, s, Init(t0), Sample(false, true, t0));
      var w := Tick(AsWritten, s, t.vars, Sample(false, true, t0 + 6));
      && t.events == []
      && t.vars.location == Laser1BrokenGoingIn
      && (forall now :: t0 < now <= t0 + 5 ==> Tick(AsWritten, s, t.vars, Sample(false, true, now)) == StepResult(t.vars, []))
      && w.events == [BlockWarning]
      && w.vars == t.vars.(timeInState := t0 + 6)
  {
  }

  /** The loop variables after laser 1 is broken at 0 s and received at 1 s
      and laser 2 broken at 2 s and received at 3 s (stats frequency 3 s). */
  function CompletedAtThree(p: FlushPolicy): LoopVars {
    var s := Settings(3, 0, 300);
    var t0 := Tick(p, s, Init(0), Sample(false, true, 0));
    var t1 := Tick(p, s, t0.vars, Sample(true, true, 1));
    var t2 := Tick(p, s, t1.vars, Sample(true, false, 2));
    Tick(p, s, t2.vars, Sample(true, true, 3)).vars
  }

  /** Under either policy that 1 m/s transit over 300 cm is counted at 3 s and
      waits in EXITED_HALL, with the window opened at 0 s still open. */
  lemma CompletedAtThreeState(p: FlushPolicy)
    ensures var v := CompletedAtThree(p);
      && v.location == ExitedHall
      && v.objectSpeed == 1.0
      && v.peoplePassedThrough == 1
      && v.numberOfSpeeders == 0
      && v.startTime == 0
      && v.objectSpeeds == Init(0).objectSpeeds
  {
    var s := Settings(3, 0, 300);
    var v1 := EnterLeftTick(p, s, Init(0), Sample(false, true, 0));
    var v2 := CrossInTick(p, s, v1, Sample(true, true, 1));
    var v3 := ReachExitTick(p, s, v2, Sample(true, false, 2));
    var v4 := LeaveTick(p, s, v3, Sample(true, true, 3));
  }

  /** As written: the window closes on the iteration right after the
      completion at 3 s. The counters are reset first, so the EXITED_HALL
      iteration stores at index -1 and leaves one speeder in a window that
      counts no pass. */
  lemma FlushRaceCounterexample()
    ensures var t := Tick(AsWritten, Settings(3, 0, 300), CompletedAtThree(AsWritten), Sample(true, true, 4));
      && OutOfBoundsWrite(-1) in t.events
      && t.vars.peoplePassedThrough == 0
      && t.vars.numberOfSpeeders == 1
      && t.vars.numberOfSpeeders > t.vars.peoplePassedThrough
  {
    CompletedAtThreeState(AsWritten);
    ExitedAfterWindow(CompletedAtThree(AsWritten));
  }

  /** The iteration at 4 s from a counted 1 m/s transit in a window opened
      at 0 s, under the source's policy. */
  lemma ExitedAfterWindow(v: LoopVars)
    requires v.location == ExitedHall && v.objectSpeed == 1.0
    requires v.peoplePassedThrough == 1 && v.numberOfSpeeders == 0 && v.startTime == 0
    requires |v.objectSpeeds| == SpeedSlots
    ensures var t := Tick(AsWritten, Settings(3, 0, 300), v, Sample(true, true, 4));
      && OutOfBoundsWrite(-1) in t.events
      && t.vars.peoplePassedThrough == 0
      && t.vars.numberOfSpeeders == 1
  {
    var f := Flush(v, 4);
    assert f.vars.peoplePassedThrough == 0 && f.vars.location == ExitedHall && f.vars.objectSpeed == 1.0;
  }

  /** Corrected: with the flush held back during EXITED_HALL the same run
      stores the 1 m/s speed in slot 0 of the window that counted it; the
      report of that window, one pass and one speeder, follows on the next
      iteration. */
  lemma FlushRaceDeferred()
    ensures var s := Settings(3, 0, 300);
      var t := Tick(DeferWhileExited, s, CompletedAtThree(DeferWhileExited), Sample(true, true, 4));
      var u := Tick(DeferWhileExited, s, t.vars, Sample(true, true, 4));
      && t.events == [Speeder(1.0)]
      && |u.events| > 0
      && u.events[0] == StatsFlush(0, 4, 1, 1, [1.0])
      && u.vars.peoplePassedThrough == 0
      && u.vars.numberOfSpeeders == 0
  {
    CompletedAtThreeState(DeferWhileExited);
    var s := Settings(3, 0, 300);
    var v := CompletedAtThree(DeferWhileExited);
    SpeederTick(DeferWhileExited, s, v, Sample(true, true, 4));
    var t := Tick(DeferWhileExited, s, v, Sample(true, true, 4));
    assert t.vars.location == NooneInHall && t.vars.peoplePassedThrough == 1 && t.vars.numberOfSpeeders == 1;
    assert t.vars.objectSpeeds[..1] == [1.0] && t.vars.startTime == 0;
    IdleFlushTick(DeferWhileExited, s, t.vars, Sample(true, true, 4));
  }

  /** An idle iteration with both beams received is just the report and reset. */
  lemma IdleFlushTick(p: FlushPolicy, s: Settings, v: LoopVars, x: Sample)
    requires v.location == NooneInHall && x.laser1Received && x.laser2Received && FlushesNow(p, s, v, x.now)
    ensures Tick(p, s, v, x) == Flush(v, x.now)
  {
  }
}

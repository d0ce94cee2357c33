/** Properties of one step of the hallway state machine, one lemma per group
    of `case` labels of the source's switch. */
module HallwayProps {
  import opened Hallway

  /** NOONE_IN_HALL: nothing happens while both beams are received; otherwise
      laser 1 takes priority, even when laser 2 is blocked as well, and the
      entry clocks are started. */
  lemma IdleStep(s: Settings, v: LoopVars, laser1: bool, laser2: bool, now: int)
    requires v.location == NooneInHall
    ensures var r := Step(s, v, laser1, laser2, now);
      && r.events == []
      && (laser1 && laser2 ==> r.vars == v)
      && (!laser1 ==> r.vars.location == Laser1BrokenGoingIn)
      && (laser1 && !laser2 ==> r.vars.location == Laser2BrokenGoingIn)
      && (!(laser1 && laser2) ==>
            && r.vars.enteringTime == now && r.vars.timeInState == now && r.vars.enteringNewState
            && r.vars == v.(location := r.vars.location, enteringTime := now,
                            timeInState := now, enteringNewState := true))
  {
  }

  /** LASERn_BROKEN_GOING_IN: once the broken beam is received again the
      person is inside, heading away from it, and the warning LED goes on;
      the entry time is kept for the travel time. */
  lemma EnteringStep(s: Settings, v: LoopVars, laser1: bool, laser2: bool, now: int)
    requires v.location == Laser1BrokenGoingIn || v.location == Laser2BrokenGoingIn
    ensures var r := Step(s, v, laser1, laser2, now);
      var received := if v.location == Laser1BrokenGoingIn then laser1 else laser2;
      var inside := if v.location == Laser1BrokenGoingIn then InHallMoveRight else InHallMoveLeft;
      && r.vars.location == (if received then inside else v.location)
      && (WarningLightOn in r.events <==> received)
      && r.vars.enteringTime == v.enteringTime
      && r.vars.objectSpeed == v.objectSpeed
      && r.vars.peoplePassedThrough == v.peoplePassedThrough
  {
  }

  /** IN_HALL_MOVE_LEFT: laser 1 blocked is the correct exit, laser 2 blocked
      is a reversal that clears the entry time. With both blocked the later
      test, the reversal, wins. */
  lemma MoveLeftStep(s: Settings, v: LoopVars, laser1: bool, laser2: bool, now: int)
    requires v.location == InHallMoveLeft
    ensures var r := Step(s, v, laser1, laser2, now);
      && (laser1 && laser2 ==>
            && r.vars.location == InHallMoveLeft && Reversal !in r.events
            && r.vars.timeInState == (if v.enteringNewState then now else v.timeInState))
      && (!laser1 && laser2 ==>
            && r.vars.location == Laser1BrokenGoingOutCorrect
            && r.vars.timeInState == now
            && r.vars.enteringTime == v.enteringTime
            && Reversal !in r.events && WarningLightOff in r.events)
      && (!laser2 ==>
            && r.vars.location == Laser2BrokenGoingOutIncorrect
            && r.vars.enteringTime == 0
            && r.vars.timeInState == now
            && r.vars.enteringNewState
            && Reversal in r.events && WarningLightOff in r.events)
  {
  }

  /** IN_HALL_MOVE_RIGHT mirrors MOVE_LEFT, except that the reversal does not
      restart the blockage timer, and with both beams blocked the later test,
      the correct exit, wins with the entry time already cleared to 0. */
  lemma MoveRightStep(s: Settings, v: LoopVars, laser1: bool, laser2: bool, now: int)
    requires v.location == InHallMoveRight
    ensures var r := Step(s, v, laser1, laser2, now);
      var timer := if v.enteringNewState then now else v.timeInState;
      && (laser1 && laser2 ==>
            r.vars.location == InHallMoveRight && r.vars.timeInState == timer && Reversal !in r.events)
      && (!laser1 && laser2 ==>
            && r.vars.location == Laser1BrokenGoingOutIncorrect
            && r.vars.enteringTime == 0
            && r.vars.timeInState == timer
            && Reversal in r.events && WarningLightOff in r.events)
      && (!laser2 ==>
            && r.vars.location == Laser2BrokenGoingOutCorrect
            && r.vars.timeInState == now
            && r.vars.enteringTime == (if laser1 then v.enteringTime else 0)
            && (Reversal in r.events <==> !laser1))
  {
  }

  /** LASERn_BROKEN_GOING_OUT_CORRECT with its beam received again: exactly
      one more person passed, the machine moves to EXITED_HALL and the travel
      time since entry gives the speed, the sentinel -1 when it is zero. */
  lemma CompletionStep(s: Settings, v: LoopVars, laser1: bool, laser2: bool, now: int)
    requires Completes(v.location, laser1, laser2)
    ensures var r := Step(s, v, laser1, laser2, now);
      && r.vars.location == ExitedHall
      && r.vars.peoplePassedThrough == v.peoplePassedThrough + 1
      && r.vars.numberOfSpeeders == v.numberOfSpeeders
      && r.vars.objectSpeeds == v.objectSpeeds
      && r.vars.objectSpeed == TravelSpeed(s.distance, now - v.enteringTime)
      && (now == v.enteringTime ==> r.vars.objectSpeed == -1.0)
      && (now > v.enteringTime ==>
            r.vars.objectSpeed * ((now - v.enteringTime) as real) * 100.0 == s.distance as real)
  {
  }

  /** The wrong-way exits never touch the counters, the speed or the stored
      speeds; their only way out is back to idle, once their beam is received. */
  lemma WrongWayStep(s: Settings, v: LoopVars, laser1: bool, laser2: bool, now: int)
    requires v.location == Laser1BrokenGoingOutIncorrect || v.location == Laser2BrokenGoingOutIncorrect
    ensures var r := Step(s, v, laser1, laser2, now);
      var received := if v.location == Laser1BrokenGoingOutIncorrect then laser1 else laser2;
      && r.vars.location == (if received then NooneInHall else v.location)
      && r.vars.peoplePassedThrough == v.peoplePassedThrough
      && r.vars.numberOfSpeeders == v.numberOfSpeeders
      && r.vars.objectSpeed == v.objectSpeed
      && r.vars.objectSpeeds == v.objectSpeeds
  {
  }

  /** The blockage warning: only beam-held states issue it, exactly when more
      than `LaserBlockTime` seconds have passed since `timeInState` (and, in
      LASER1_BROKEN_GOING_OUT_INCORRECT, only while `warningIssued` is clear);
      it restarts the timer, which otherwise stays put in those states. */
  lemma BlockWarningStep(s: Settings, v: LoopVars, laser1: bool, laser2: bool, now: int)
    ensures var r := Step(s, v, laser1, laser2, now);
      && (BlockWarning in r.events <==>
            && BeamHeld(v.location)
            && now - v.timeInState > LaserBlockTime
            && (v.location == Laser1BrokenGoingOutIncorrect ==> !v.warningIssued))
      && (BeamHeld(v.location) ==>
            r.vars.timeInState == (if BlockWarning in r.events then now else v.timeInState))
  {
  }

  /** A beam-held state stays where it is while its own beam stays blocked,
      whatever the other beam does. */
  lemma HeldBeamStep(s: Settings, v: LoopVars, laser1: bool, laser2: bool, now: int)
    requires BeamHeld(v.location)
    requires !(if HeldByLaser1(v.location) then laser1 else laser2)
    ensures Step(s, v, laser1, laser2, now).vars.location == v.location
  {
  }

  /** The state machine's own variables do not depend on the stats-window
      counters or the speeds array. */
  lemma StepIgnoresWindow(s: Settings, a: LoopVars, b: LoopVars, laser1: bool, laser2: bool, now: int)
    requires SameMachine(a, b)
    ensures SameMachine(Step(s, a, laser1, laser2, now).vars, Step(s, b, laser1, laser2, now).vars)
  {
    match a.location
    case ExitedHall =>
    case NooneInHall =>
    case InHallMoveLeft =>
    case InHallMoveRight =>
    case _ => HeldIgnoresWindow(s, a, b, laser1, laser2, now);
  }

  /** `StepIgnoresWindow` for the six beam-held states. */
  lemma HeldIgnoresWindow(s: Settings, a: LoopVars, b: LoopVars, laser1: bool, laser2: bool, now: int)
    requires SameMachine(a, b) && BeamHeld(a.location)
    ensures SameMachine(Step(s, a, laser1, laser2, now).vars, Step(s, b, laser1, laser2, now).vars)
  {
    match a.location
    case Laser1BrokenGoingIn =>
    case Laser1BrokenGoingOutIncorrect =>
    case Laser1BrokenGoingOutCorrect =>
    case Laser2BrokenGoingIn =>
    case Laser2BrokenGoingOutIncorrect =>
    case Laser2BrokenGoingOutCorrect =>
  }

  /** Outside EXITED_HALL neither do its events. */
  lemma StepEventsIgnoreWindow(s: Settings, a: LoopVars, b: LoopVars, laser1: bool, laser2: bool, now: int)
    requires SameMachine(a, b)
    ensures a.location != ExitedHall ==> Step(s, a, laser1, laser2, now).events == Step(s, b, laser1, laser2, now).events
  {
    match a.location
    case ExitedHall =>
    case NooneInHall =>
    case InHallMoveLeft =>
    case InHallMoveRight =>
    case Laser1BrokenGoingIn =>
    case Laser1BrokenGoingOutIncorrect =>
    case Laser1BrokenGoingOutCorrect =>
    case Laser2BrokenGoingIn =>
    case Laser2BrokenGoingOutIncorrect =>
    case Laser2BrokenGoingOutCorrect =>
  }

  /** EXITED_HALL ignores the sensors and the clock and always returns to idle
      with the speed cleared. The sentinel is reported and neither stored nor
      counted; a speed over the limit is stored at `peoplePassedThrough - 1`
      and counted; any other speed is only stored. */
  lemma ExitedStep(s: Settings, v: LoopVars, laser1: bool, laser2: bool, now: int,
                   laser1': bool, laser2': bool, now': int)
    requires v.location == ExitedHall
    ensures var r := Step(s, v, laser1, laser2, now);
      var index := v.peoplePassedThrough - 1;
      var stored := if 0 <= index < |v.objectSpeeds| then v.objectSpeeds[index := v.objectSpeed]
                    else v.objectSpeeds;
      var fault := if 0 <= index < |v.objectSpeeds| then [] else [OutOfBoundsWrite(index)];
      && r == Step(s, v, laser1', laser2', now')
      && r.vars.location == NooneInHall
      && r.vars.objectSpeed == 0.0
      && r.vars.peoplePassedThrough == v.peoplePassedThrough
      && (v.objectSpeed < 0.0 ==>
            && r.events == [Anomaly]
            && r.vars.objectSpeeds == v.objectSpeeds
            && r.vars.numberOfSpeeders == v.numberOfSpeeders)
      && (v.objectSpeed > s.speedLimit as real ==>
            && r.events == [Speeder(v.objectSpeed)] + fault
            && r.vars.objectSpeeds == stored
            && r.vars.numberOfSpeeders == v.numberOfSpeeders + 1)
      && (0.0 <= v.objectSpeed <= s.speedLimit as real ==>
            && r.events == [Pass(v.objectSpeed)] + fault
            && r.vars.objectSpeeds == stored
            && r.vars.numberOfSpeeders == v.numberOfSpeeders)
  {
  }

  /** The only out-of-range store of a step is EXITED_HALL's, at
      `peoplePassedThrough - 1`. */
  lemma StepStoresOnlyWhenExited(s: Settings, v: LoopVars, laser1: bool, laser2: bool, now: int)
    ensures forall i :: OutOfBoundsWrite(i) in Step(s, v, laser1, laser2, now).events ==>
              v.location == ExitedHall && i == v.peoplePassedThrough - 1 && !(0 <= i < |v.objectSpeeds|)
  {
    match v.location
    case ExitedHall =>
    case NooneInHall =>
    case InHallMoveLeft =>
    case InHallMoveRight =>
    case Laser1BrokenGoingIn =>
    case Laser1BrokenGoingOutIncorrect =>
    case Laser1BrokenGoingOutCorrect =>
    case Laser2BrokenGoingIn =>
    case Laser2BrokenGoingOutIncorrect =>
    case Laser2BrokenGoingOutCorrect =>
  }

  /** The speed-limit test on the exact speed agrees with the integer test
      `distance > speedLimit * 100 * travelTime` for a positive travel time. */
  lemma SpeederCrossMultiplied(distance: nat, speedLimit: nat, travelTime: int)
    requires travelTime > 0
    ensures TravelSpeed(distance, travelTime) > speedLimit as real
            <==> distance > speedLimit * 100 * travelTime
  {
    var x := TravelSpeed(distance, travelTime);
    var k := (travelTime as real) * 100.0;
    assert x * k == distance as real;
    assert (speedLimit * 100 * travelTime) as real == speedLimit as real * k;
    if x > speedLimit as real {
      assert x * k > speedLimit as real * k;
    } else {
      assert x * k <= speedLimit as real * k;
    }
  }
}

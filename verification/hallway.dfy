/** The hallway traversal state machine of the laser speedometer: the body of
    the `switch(currentLocation)` inside `measureSpeed`, as one pure step per
    loop iteration.

    Laser 1 is the left beam and laser 2 the right beam. A sensor reading is
    `true` when the photodiode receives its laser (status 1, or the truthy
    error status -1) and `false` when the beam is blocked (status 0).
    Time is whole seconds, one clock reading per loop iteration.
 */
module Hallway {

  /** Seconds a beam may stay blocked before a "blocking the laser" warning. */
  const LaserBlockTime: int := 5

  /** Seconds a person may stay between the beams before a "blocking the hallway" warning. */
  const MaxTimeInHall: int := 10

  /** Number of slots of the `objectSpeeds` array. */
  const SpeedSlots: nat := 1000

  /** The closed enum `objectLocation`. */
  datatype Location =
    | NooneInHall
    | InHallMoveLeft
    | InHallMoveRight
    | ExitedHall
    | Laser1BrokenGoingIn
    | Laser1BrokenGoingOutIncorrect
    | Laser1BrokenGoingOutCorrect
    | Laser2BrokenGoingIn
    | Laser2BrokenGoingOutIncorrect
    | Laser2BrokenGoingOutCorrect

  /** The constant parameters of `measureSpeed`, as `readConfig` produces them
      (the distance is in centimetres, the speed limit in metres per second). */
  datatype Settings = Settings(statsFrequency: nat, speedLimit: nat, distance: nat)

  /** The loop variables of `measureSpeed`. The two C `int` flags
      `enteringNewState` and `warningIssued` only ever hold 0 or 1. */
  datatype LoopVars = LoopVars(
    location: Location,
    enteringTime: int,
    timeInState: int,
    enteringNewState: bool,
    warningIssued: bool,
    objectSpeed: real,
    peoplePassedThrough: nat,
    numberOfSpeeders: nat,
    objectSpeeds: seq<real>,
    startTime: int)

  /** What one iteration makes visible: log messages, the warning LED and the
      stats report, in the order the source produces them. */
  datatype Event =
    | BlockWarning                 // "Someone is blocking the laser!"
    | HallwayWarning               // "Someone is blocking the hallway!"
    | Reversal                     // "A person turned around in the hallway ..."
    | WarningLightOn
    | WarningLightOff
    | Anomaly                      // zero travel time: "An extremely fast... thing"
    | Speeder(speed: real)         // over the limit, with the blink sequence
    | Pass(speed: real)            // within the limit
    | StatsFlush(windowStart: int, windowEnd: int, passed: nat, speeders: nat, samples: seq<real>)
    | OutOfBoundsWrite(index: int) // a store outside `objectSpeeds[0..1000)`

  datatype StepResult = StepResult(vars: LoopVars, events: seq<Event>)

  /** The loop variables just before the `while(1)` loop, all clocks read at `now`. */
  function Init(now: int): (v: LoopVars)
    ensures v.location == NooneInHall && v.warningIssued && !v.enteringNewState
    ensures v.peoplePassedThrough == 0 && v.numberOfSpeeders == 0 && v.objectSpeed == 0.0
    ensures |v.objectSpeeds| == SpeedSlots
    ensures forall i :: 0 <= i < |v.objectSpeeds| ==> v.objectSpeeds[i] == 0.0
    ensures v.startTime == now && v.enteringTime == now && v.timeInState == now
  {
    LoopVars(NooneInHall, now, now, false, true, 0.0, 0, 0, seq(SpeedSlots, _ => 0.0), now)
  }

  /** The speed in metres per second of a transit of `travelTime` seconds over
      `distance` centimetres, or the sentinel -1 when no time elapsed. */
  function TravelSpeed(distance: nat, travelTime: int): (speed: real)
    ensures travelTime == 0 ==> speed == -1.0
    ensures travelTime != 0 ==> speed * (travelTime as real) * 100.0 == distance as real
    ensures travelTime > 0 ==> speed >= 0.0
  {
    if travelTime == 0 then -1.0
    else (distance as real / 100.0) / (travelTime as real)
  }

  /** The states in which a beam is held blocked and the blockage timer runs. */
  predicate BeamHeld(loc: Location) {
    loc in {Laser1BrokenGoingIn, Laser2BrokenGoingIn,
            Laser1BrokenGoingOutCorrect, Laser2BrokenGoingOutCorrect,
            Laser1BrokenGoingOutIncorrect, Laser2BrokenGoingOutIncorrect}
  }

  /** Laser 1 is the held beam of the states named after it, laser 2 of the others. */
  predicate HeldByLaser1(loc: Location) {
    loc in {Laser1BrokenGoingIn, Laser1BrokenGoingOutCorrect, Laser1BrokenGoingOutIncorrect}
  }

  /** Whether this step finishes a correct traversal: an exiting beam is received again. */
  predicate Completes(loc: Location, laser1: bool, laser2: bool) {
    || (loc == Laser1BrokenGoingOutCorrect && laser1)
    || (loc == Laser2BrokenGoingOutCorrect && laser2)
  }

  /** Two sets of loop variables that agree on the state machine's own
      variables, whatever their stats-window counters and array. */
  predicate SameMachine(a: LoopVars, b: LoopVars) {
    && a.location == b.location
    && a.enteringTime == b.enteringTime
    && a.timeInState == b.timeInState
    && a.enteringNewState == b.enteringNewState
    && a.warningIssued == b.warningIssued
    && a.objectSpeed == b.objectSpeed
  }

  /** The blockage timer shared by every beam-held state: a warning once more
      than `LaserBlockTime` seconds have passed since `timeInState`, which then
      restarts. */
  function BlockCheck(a: StepResult, now: int): (r: StepResult)
    ensures r.vars == a.vars.(timeInState := r.vars.timeInState)
    ensures HallwayWarning in r.events <==> HallwayWarning in a.events
  {
    if now - a.vars.timeInState > LaserBlockTime then
      StepResult(a.vars.(timeInState := now), a.events + [BlockWarning])
    else a
  }

  /** The first iteration in a hall state starts its timer; then the one-shot
      hallway warning is tested. */
  function HallTimer(v: LoopVars, now: int): (r: StepResult)
    ensures r.vars == v.(timeInState := r.vars.timeInState, enteringNewState := false,
                         warningIssued := r.vars.warningIssued)
    ensures v.warningIssued ==> r.vars.warningIssued && HallwayWarning !in r.events
    ensures r.vars.timeInState == (if v.enteringNewState then now else v.timeInState)
    ensures r.events == (if now - r.vars.timeInState > MaxTimeInHall && !v.warningIssued
                         then [HallwayWarning] else [])
    ensures r.vars.warningIssued == (v.warningIssued || r.events != [])
  {
    var w := if v.enteringNewState then v.(timeInState := now, enteringNewState := false) else v;
    if now - w.timeInState > MaxTimeInHall && !w.warningIssued then
      StepResult(w.(warningIssued := true), [HallwayWarning])
    else StepResult(w, [])
  }

  /** Leaving idle: a beam was just broken. */
  function Enter(v: LoopVars, loc: Location, now: int): (r: LoopVars)
    ensures r.location == loc && r.enteringNewState && r.enteringTime == now && r.timeInState == now
    ensures r.warningIssued == v.warningIssued && r.objectSpeed == v.objectSpeed
    ensures r.peoplePassedThrough == v.peoplePassedThrough && r.numberOfSpeeders == v.numberOfSpeeders
    ensures r.objectSpeeds == v.objectSpeeds && r.startTime == v.startTime
  {
    v.(location := loc, enteringNewState := true, enteringTime := now, timeInState := now)
  }

  /** An exiting beam is received again: the transit is timed and counted. */
  function Complete(s: Settings, v: LoopVars, now: int): (r: LoopVars)
    ensures r.location == ExitedHall && r.peoplePassedThrough == v.peoplePassedThrough + 1
    ensures now == v.enteringTime ==> r.objectSpeed == -1.0
    ensures now != v.enteringTime ==>
              r.objectSpeed * ((now - v.enteringTime) as real) * 100.0 == s.distance as real
    ensures r.enteringTime == v.enteringTime && r.timeInState == v.timeInState
    ensures r.enteringNewState == v.enteringNewState && r.warningIssued == v.warningIssued
    ensures r.numberOfSpeeders == v.numberOfSpeeders && r.objectSpeeds == v.objectSpeeds
    ensures r.startTime == v.startTime
  {
    v.(objectSpeed := TravelSpeed(s.distance, now - v.enteringTime),
       peoplePassedThrough := v.peoplePassedThrough + 1,
       location := ExitedHall)
  }

  /** `objectSpeeds[index] = speed`, or an out-of-range store that leaves the array alone. */
  function Store(speeds: seq<real>, index: int, speed: real): (r: (seq<real>, seq<Event>))
    ensures |r.0| == |speeds|
    ensures forall k :: 0 <= k < |speeds| && k != index ==> r.0[k] == speeds[k]
    ensures 0 <= index < |speeds| ==> r.0[index] == speed && r.1 == []
    ensures !(0 <= index < |speeds|) ==> r.1 == [OutOfBoundsWrite(index)]
  {
    if 0 <= index < |speeds| then (speeds[index := speed], [])
    else (speeds, [OutOfBoundsWrite(index)])
  }

  /** The EXITED_HALL iteration: the speed measured one iteration earlier is
      classified, stored at `peoplePassedThrough - 1` unless it is the
      sentinel, and the machine returns to idle. The sensors are not read. */
  function Record(s: Settings, v: LoopVars): (r: StepResult)
    ensures r.vars.location == NooneInHall && r.vars.objectSpeed == 0.0
    ensures r.vars.enteringTime == v.enteringTime && r.vars.timeInState == v.timeInState
    ensures r.vars.enteringNewState == v.enteringNewState && r.vars.warningIssued == v.warningIssued
    ensures r.vars.peoplePassedThrough == v.peoplePassedThrough && r.vars.startTime == v.startTime
    ensures |r.vars.objectSpeeds| == |v.objectSpeeds|
    ensures |r.events| >= 1 && (r.events[0] == Anomaly <==> v.objectSpeed < 0.0)
    ensures v.objectSpeed < 0.0 ==> r.vars.objectSpeeds == v.objectSpeeds && r.events == [Anomaly]
    ensures forall i :: OutOfBoundsWrite(i) in r.events ==>
              i == v.peoplePassedThrough - 1 && !(0 <= i < |v.objectSpeeds|)
    ensures v.objectSpeed > s.speedLimit as real ==> r.vars.numberOfSpeeders == v.numberOfSpeeders + 1
    ensures !(v.objectSpeed > s.speedLimit as real) ==> r.vars.numberOfSpeeders == v.numberOfSpeeders
  {
    var idle := v.(objectSpeed := 0.0, location := NooneInHall);
    if v.objectSpeed < 0.0 then StepResult(idle, [Anomaly])
    else
      var (speeds, fault) := Store(v.objectSpeeds, v.peoplePassedThrough - 1, v.objectSpeed);
      if v.objectSpeed > s.speedLimit as real then
        StepResult(idle.(objectSpeeds := speeds, numberOfSpeeders := v.numberOfSpeeders + 1),
                   [Speeder(v.objectSpeed)] + fault)
      else
        StepResult(idle.(objectSpeeds := speeds), [Pass(v.objectSpeed)] + fault)
  }

  /** One evaluation of `switch(currentLocation)` with the sensor readings and
      the clock of this iteration. Within a case the `if` statements run in
      source order, so when both beams are blocked the later one wins. */
  function Step(s: Settings, v: LoopVars, laser1: bool, laser2: bool, now: int): (r: StepResult)
    ensures r.vars.startTime == v.startTime
    ensures |r.vars.objectSpeeds| == |v.objectSpeeds|
    ensures v.warningIssued ==> r.vars.warningIssued
    ensures HallwayWarning in r.events ==> !v.warningIssued
    ensures Completes(v.location, laser1, laser2) ==> r.vars.peoplePassedThrough == v.peoplePassedThrough + 1
    ensures !Completes(v.location, laser1, laser2) ==> r.vars.peoplePassedThrough == v.peoplePassedThrough
    ensures v.location == ExitedHall && v.objectSpeed > s.speedLimit as real ==>
              r.vars.numberOfSpeeders == v.numberOfSpeeders + 1
    ensures !(v.location == ExitedHall && v.objectSpeed > s.speedLimit as real) ==>
              r.vars.numberOfSpeeders == v.numberOfSpeeders
    ensures v.location != ExitedHall ==> r.vars.objectSpeeds == v.objectSpeeds
    ensures Completes(v.location, laser1, laser2) <==> r.vars.location == ExitedHall
  {
    match v.location
    case NooneInHall =>
      if laser1 && laser2 then StepResult(v, [])
      else if !laser1 then StepResult(Enter(v, Laser1BrokenGoingIn, now), [])
      else StepResult(Enter(v, Laser2BrokenGoingIn, now), [])

    case Laser1BrokenGoingIn =>
      var a := if laser1 then StepResult(v.(location := InHallMoveRight), [WarningLightOn])
               else StepResult(v, []);
      BlockCheck(a, now)

    case Laser2BrokenGoingIn =>
      var a := if laser2 then StepResult(v.(location := InHallMoveLeft), [WarningLightOn])
               else StepResult(v, []);
      BlockCheck(a, now)

    case InHallMoveLeft =>
      var a := HallTimer(v, now);
      var b := if !laser1 then
                 StepResult(a.vars.(location := Laser1BrokenGoingOutCorrect, timeInState := now),
                            a.events + [WarningLightOff])
               else a;
      if !laser2 then
        StepResult(b.vars.(location := Laser2BrokenGoingOutIncorrect, enteringTime := 0,
                           enteringNewState := true, timeInState := now),
                   b.events + [Reversal, WarningLightOff])
      else b

    case InHallMoveRight =>
      var a := HallTimer(v, now);
      var b := if !laser1 then
                 StepResult(a.vars.(location := Laser1BrokenGoingOutIncorrect, enteringTime := 0),
                            a.events + [Reversal, WarningLightOff])
               else a;
      if !laser2 then
        StepResult(b.vars.(location := Laser2BrokenGoingOutCorrect, timeInState := now),
                   b.events + [WarningLightOff])
      else b

    case Laser1BrokenGoingOutCorrect =>
      var a := if laser1 then StepResult(Complete(s, v, now), []) else StepResult(v, []);
      BlockCheck(a, now)

    case Laser2BrokenGoingOutCorrect =>
      var a := if laser2 then StepResult(Complete(s, v, now), []) else StepResult(v, []);
      BlockCheck(a, now)

    case Laser2BrokenGoingOutIncorrect =>
      var a := if laser2 then StepResult(v.(location := NooneInHall), []) else StepResult(v, []);
      BlockCheck(a, now)

    case Laser1BrokenGoingOutIncorrect =>
      // This state's blockage warning is additionally guarded by `!warningIssued`.
      var a := if laser1 then StepResult(v.(location := NooneInHall), []) else StepResult(v, []);
      if !a.vars.warningIssued then BlockCheck(a, now) else a

    case ExitedHall =>
      Record(s, v)
  }
}

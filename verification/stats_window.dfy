/** The statistics window of `measureSpeed`: the report-and-reset branch at the
    top of each loop iteration. */
module StatsWindow {
  import opened Hallway

  /** The report is due once more than `statsFrequency` seconds have passed
      since the window opened. */
  predicate FlushDue(s: Settings, v: LoopVars, now: int) {
    now - v.startTime > s.statsFrequency
  }

  /** The first `n` slots set to 0, the others kept. */
  function ZeroPrefix(a: seq<real>, n: nat): seq<real>
    requires n <= |a|
  {
    seq(n, _ => 0.0) + a[n..]
  }

  /** The report and reset: the window's counts and stored speeds are
      reported, the slots `[0, peoplePassedThrough)` are zeroed (each slot
      past the array end is an out-of-range store, reported in index order),
      the counters are cleared
      and a new window opens at `now`. The state machine's variables are not
      touched. The max/min/mean figures of the report are not modelled. */
  function Flush(v: LoopVars, now: int): (r: StepResult)
    ensures r.vars == v.(objectSpeeds := r.vars.objectSpeeds, peoplePassedThrough := 0,
                         numberOfSpeeders := 0, startTime := now)
    ensures |r.vars.objectSpeeds| == |v.objectSpeeds|
    ensures forall i :: 0 <= i < |v.objectSpeeds| ==>
              r.vars.objectSpeeds[i] == if i < v.peoplePassedThrough then 0.0 else v.objectSpeeds[i]
    ensures |r.events| >= 1 && r.events[0].StatsFlush?
    ensures r.events[0].windowStart == v.startTime && r.events[0].windowEnd == now
    ensures r.events[0].passed == v.peoplePassedThrough && r.events[0].speeders == v.numberOfSpeeders
    ensures r.events[0].samples <= v.objectSpeeds
    ensures |r.events[0].samples| == if v.peoplePassedThrough < |v.objectSpeeds| then v.peoplePassedThrough
                                     else |v.objectSpeeds|
    ensures |r.events| == 1 + (if v.peoplePassedThrough > |v.objectSpeeds|
                               then v.peoplePassedThrough - |v.objectSpeeds| else 0)
    ensures forall k :: 1 <= k < |r.events| ==> r.events[k] == OutOfBoundsWrite(|v.objectSpeeds| + k - 1)
    ensures forall i :: OutOfBoundsWrite(i) in r.events <==> |v.objectSpeeds| <= i < v.peoplePassedThrough
  {
    var n := v.peoplePassedThrough;
    var kept := if n < |v.objectSpeeds| then n else |v.objectSpeeds|;
    var fault := if n > |v.objectSpeeds| then seq(n - |v.objectSpeeds|, k => OutOfBoundsWrite(|v.objectSpeeds| + k))
                 else [];
    var r := StepResult(
      v.(objectSpeeds := ZeroPrefix(v.objectSpeeds, kept), peoplePassedThrough := 0,
         numberOfSpeeders := 0, startTime := now),
      [StatsFlush(v.startTime, now, n, v.numberOfSpeeders, v.objectSpeeds[..kept])] + fault);
    assert forall i | |v.objectSpeeds| <= i < n :: r.events[i - |v.objectSpeeds| + 1] == OutOfBoundsWrite(i);
    r
  }
}

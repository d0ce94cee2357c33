# Laser speedometer: hallway state machine and configuration reader

This project models two parts of `speedometer.c`, the monitor of a one-way hallway. Two laser beams cross the hallway a configured distance apart.

- **`measureSpeed`'s loop.** Each iteration first closes the statistics window if it is due, then runs one evaluation of the `switch(currentLocation)` state machine on that iteration's two beam readings. The model is:
  - `Hallway.Step`: one switch evaluation over an immutable record of the loop variables;
  - `StatsWindow.Flush`: the window's report-and-reset branch;
  - `Monitor.Tick` and `Monitor.Run`: one iteration, and a sequence of iterations.

  Each iteration returns abstract events in the order the source produces them: log messages, the warning LED, the stats report, and out-of-range stores into `objectSpeeds`. The speed is the exact real `(distance / 100) / travelTime`, or the sentinel -1 when no second elapsed.
- **`readConfig`.** The configuration file reader is a pure function over the buffers `fgets` returns (`ConfigReader.ReadConfig`). Its line-level reference is `ConfigSpec.Expected`: the k-th non-comment buffer holding an `=` fills the k-th output. `ConfigSpec.ReadConfigMatchesReference` proves that the two agree on every buffer sequence `fgets` can return.

The sensors and the clock are inputs. A beam reading is `true` when the photodiode receives its laser. Status 1 and the error status -1 both read as `true`: the source tests them as truthy. The clock is one whole-second reading per iteration.

Two consequences of the code's exact tests:

- **Blockage timeout.** The beam-held states test `now - timeInState > LASER_BLOCK_TIME` with `LASER_BLOCK_TIME` 5 (speedometer.c:61, 673). The test is strict, so a beam held from t0 warns first at t0+6 s, and the warning restarts the timer (`Scenarios.BlockedSixSeconds`).
- **Hallway warning.** The comment at speedometer.c:57 intends a warning once a person has stayed in the hall longer than `MAX_TIME_IN_HALL`, 10 s. That warning, at lines 715-724 and 806-815, can never fire. It is guarded by `!warningIssued`, and `warningIssued` starts at 1 (line 584) and is only ever set to 1 (lines 723, 814). The same guard at line 873 silences the blockage warning of LASER1_BROKEN_GOING_OUT_INCORRECT. `Monitor.RunKeepsInv` states that the latch stays set and the hallway warning never fires over any run. `HallwayProps.BlockWarningStep` states that this state warns only with the latch clear; the silence over a run is the combination of the two.

## Model

| member | source | states |
|---|---|---|
| `Hallway.Init` | speedometer.c:571-589 | The loop starts idle, with the latch `warningIssued` set, zero counters and speed, 1000 zeroed slots, and every clock at the start time. |
| `Hallway.TravelSpeed` | speedometer.c:755-760 | A zero travel time gives the sentinel -1. Otherwise speed × travelTime × 100 equals the distance in centimetres, and the speed is non-negative for a positive travel time. |
| `Hallway.BlockCheck` | speedometer.c:673-682 | The blockage test changes only `timeInState` and never adds a hallway warning. |
| `Hallway.HallTimer` | speedometer.c:709-724 | The first iteration in a hall state restarts `timeInState` at now; later ones keep it. The hallway warning is emitted exactly when more than 10 s have passed since that timer and the latch is clear, and then sets the latch. Nothing else changes. |
| `Hallway.Enter` | speedometer.c:648-659 | Leaving idle sets the new location, `enteringNewState`, and both entry clocks to now. It changes nothing else: latch, speed, counters, array and window start are kept. |
| `Hallway.Complete` | speedometer.c:751-764 | A completion moves to EXITED_HALL and counts one more pass. The speed is the sentinel -1 for a zero travel time, and otherwise satisfies speed × time × 100 = distance. Every other variable is kept. |
| `Hallway.Store` | speedometer.c:919-931 | The store keeps the array's length and every other slot. In range it writes the speed and reports nothing. Out of range it leaves the array alone and reports the index. |
| `Hallway.Record` | speedometer.c:886-936 | EXITED_HALL always returns to idle with speed 0 and keeps the clocks, flags, pass count and array length. The first event is an anomaly exactly for the sentinel, which changes nothing stored. Only an over-limit speed adds a speeder. An out-of-range store can only be at `peoplePassedThrough - 1` and outside the array. |
| `Hallway.Step` | speedometer.c:641-936 | One switch evaluation. The window start and array length are kept and the latch is monotone. A hallway warning fires only with the latch clear. `peoplePassedThrough` grows by one exactly on a completion, `numberOfSpeeders` by one exactly on an over-limit EXITED_HALL, and the array changes only in EXITED_HALL. The next state is EXITED_HALL iff this step completes a traversal. |
| `HallwayProps.IdleStep` | speedometer.c:643-662 | Idle stays put while both beams are received. Otherwise laser 1 wins, even when laser 2 is blocked too. Either entry sets `enteringTime`, `timeInState` and `enteringNewState` and changes nothing else. |
| `HallwayProps.EnteringStep` | speedometer.c:666-704 | LASERn_BROKEN_GOING_IN moves into the hall, away from beam n, exactly when beam n is received again. The warning LED goes on exactly then, and the entry time and counters are kept. |
| `HallwayProps.MoveLeftStep` | speedometer.c:706-749 | With both beams received it stays, its timer restarted on the first iteration in the state and kept after. Laser 1 blocked is the correct exit and keeps the entry time. Laser 2 blocked is a reversal: entry time 0, timer restarted, `enteringNewState` set. With both blocked the reversal wins. |
| `HallwayProps.MoveRightStep` | speedometer.c:797-838 | The mirror image, except the reversal does not restart the timer. With both blocked the correct exit wins, and its entry time was already cleared to 0. |
| `HallwayProps.CompletionStep` | speedometer.c:751-764 | An exit state whose beam is received again counts exactly one more pass and moves to EXITED_HALL. The speed is the sentinel for a zero travel time, and otherwise satisfies speed × time × 100 = distance. |
| `HallwayProps.WrongWayStep` | speedometer.c:779-795 | The two wrong-way states never touch the counters, the speed or the array. They leave only to idle, once their beam is received. |
| `HallwayProps.BlockWarningStep` | speedometer.c:666-884 | A blockage warning fires iff the state holds a beam, more than 5 s have passed since `timeInState`, and, in LASER1_BROKEN_GOING_OUT_INCORRECT, the latch is clear. A warning restarts the timer; otherwise the timer is left alone. |
| `HallwayProps.HeldBeamStep` | speedometer.c:666-704 | A beam-held state stays where it is while its own beam stays blocked. |
| `HallwayProps.StepIgnoresWindow` | speedometer.c:641-936 | The machine's own variables do not depend on the window counters or the array. |
| `HallwayProps.HeldIgnoresWindow` | speedometer.c:666-884 | The same, for the six beam-held states. |
| `HallwayProps.StepEventsIgnoreWindow` | speedometer.c:641-884 | Outside EXITED_HALL, the events do not depend on the window counters or the array either. |
| `HallwayProps.ExitedStep` | speedometer.c:886-936 | EXITED_HALL ignores the sensors and the clock and returns to idle with speed 0. The sentinel is reported, not stored and not counted. An over-limit speed is stored at `peoplePassedThrough - 1` and counted. Any other speed is only stored. An index outside the array is a reported fault. |
| `HallwayProps.StepStoresOnlyWhenExited` | speedometer.c:641-936 | A step reports an out-of-range store only in EXITED_HALL, at `peoplePassedThrough - 1`, and only for an index outside the array. |
| `HallwayProps.SpeederCrossMultiplied` | speedometer.c:903 | For a positive travel time, the speed-limit test on the exact speed is the integer test `distance > speedLimit * 100 * travelTime`. |
| `StatsWindow.Flush` | speedometer.c:599-629 | The report-and-reset keeps the machine's variables. It zeroes exactly the slots below `peoplePassedThrough`, clears both counters and opens the window at `now`. It reports the closed window's bounds, counts and stored speeds. With n > 1000 passes it then reports each of the n − 1000 out-of-range zeroing stores, at indices 1000 to n − 1, in order. |
| `Monitor.Tick` | speedometer.c:596-641 | The window closes when `StatsWindow.FlushDue` holds, more than `statsFrequency` seconds after it opened (line 599), and under the corrected policy not during EXITED_HALL. Closing the window never changes how the machine moves. With no flush due, the iteration is exactly the state-machine step. When a flush is due, the report comes first and the counters restart from at most one. The report carries the closed window's start and end and its pass and speeder counts. |
| `Monitor.Run` | speedometer.c:596 | The loop yields one event list per iteration. |
| `Monitor.RunFollowsTicks` | speedometer.c:596 | If iteration i takes state i to state i+1 with events i, the run ends in the last state and yields exactly those events. |
| `Monitor.InitInv` | speedometer.c:575-589 | The loop starts in the invariant and with consistent counters. |
| `Monitor.StepKeepsInv` | speedometer.c:641-936 | One state-machine step keeps the invariant under a clock that does not go backwards. It never fires the hallway warning, and a completion's travel time is never negative. |
| `Monitor.TickKeepsInv` | speedometer.c:596-936 | With a clock that does not go backwards, every iteration keeps the invariant: the latch is set, there are 1000 slots, no recorded time lies in the future, and the speed is 0 outside EXITED_HALL and -1 or non-negative in it. The hallway warning never fires, and a completion's travel time is never negative. |
| `Monitor.DeferredTickKeepsWindowInv` | speedometer.c:599-629 | With the flush held back during EXITED_HALL, the counters stay consistent: no more speeders than passes. |
| `Monitor.DeferredTickStoresInBounds` | speedometer.c:919 | With the deferred flush, an out-of-range store only happens past the array end, after more than 1000 passes in one window. It never happens at index -1. |
| `Monitor.RunKeepsInv` | speedometer.c:596-936 | Over any run with a non-decreasing clock, under either policy, the invariant holds and no hallway warning fires. |
| `Monitor.DeferredRunKeepsWindowInv` | speedometer.c:599-629 | With the flush held back during EXITED_HALL, over any run with a non-decreasing clock, speeders never outnumber passes and no store lands below the array. |
| `Monitor.HeldTick` | speedometer.c:673-682 | With its beam still blocked, a state stays put. A warning comes only after more than 5 s and restarts the timer. |
| `Monitor.RunTail` | speedometer.c:596 | Iteration k of a run is iteration k-1 of the run from the first iteration's result. |
| `Monitor.TickWarnsAsStep` | speedometer.c:599-641 | An iteration issues a blockage warning exactly when its state-machine step does. |
| `Monitor.WarningsAfterTimer` | speedometer.c:666-884 | While a beam stays blocked, every blockage warning comes more than 5 s after the timer the run started with. |
| `Monitor.BlockWarningsSpaced` | speedometer.c:666-884 | While a beam stays blocked, any two blockage warnings are more than 5 s apart. |
| `Scenarios.WalkUnderLimit` | speedometer.c:840-852 | From any fresh idle state at t0, a 4 s walk over 300 cm is 0.75 m/s. It is one pass within a 1 m/s limit, stored in slot 0, with no speeder. |
| `Scenarios.WalkOverLimit` | speedometer.c:903-920 | From any fresh idle state, the same walk in 2 s is 1.5 m/s. It is counted as a speeder and stored in slot 0. |
| `Scenarios.InstantTransit` | speedometer.c:887-902 | From any fresh idle state, a transit within one second gives the sentinel. It is reported as an anomaly, counted as a pass and not stored. |
| `Scenarios.EnterLeftTick` | speedometer.c:643-662 | In an open window, idle with laser 1 blocked enters LASER1_BROKEN_GOING_IN, starts the entry clocks and emits nothing. |
| `Scenarios.CrossInTick` | speedometer.c:666-684 | In an open window, LASER1_BROKEN_GOING_IN with laser 1 received within 5 s moves to IN_HALL_MOVE_RIGHT, changes nothing else and turns the LED on. |
| `Scenarios.ReachExitTick` | speedometer.c:797-838 | In an open window, IN_HALL_MOVE_RIGHT with only laser 2 blocked moves to LASER2_BROKEN_GOING_OUT_CORRECT, restarts the timer and turns the LED off. |
| `Scenarios.LeaveTick` | speedometer.c:840-852 | In an open window, LASER2_BROKEN_GOING_OUT_CORRECT with laser 2 received within 5 s completes the transit and emits nothing. |
| `Scenarios.PassTick` | speedometer.c:922-935 | EXITED_HALL with no flush and a speed within the limit stores it at `peoplePassedThrough - 1`, returns to idle and reports a pass. |
| `Scenarios.SpeederTick` | speedometer.c:903-920 | The same with a speed over the limit also counts a speeder and reports it. |
| `Scenarios.AnomalyTick` | speedometer.c:887-902 | The same with the sentinel stores nothing, counts nothing and reports an anomaly. |
| `Scenarios.IdleFlushTick` | speedometer.c:599-662 | An idle iteration with both beams received and a flush due is exactly the report and reset. |
| `Scenarios.BlockedSixSeconds` | speedometer.c:666-684 | Laser 1 held from t0 stays quiet up to t0+5 s, because the timeout is strict. The one warning comes at t0+6 s and restarts the timer. |
| `Scenarios.CompletedAtThreeState` | speedometer.c:643-852 | Laser 1 broken at 0 s and cleared at 1 s, then laser 2 broken at 2 s and cleared at 3 s: one 1 m/s pass is counted and waits in EXITED_HALL, in the window opened at 0 s. |
| `Scenarios.ExitedAfterWindow` | speedometer.c:599-629 | From that state under the source's policy, the next iteration flushes first. It then stores at index -1 and leaves one speeder with no pass. |
| `Scenarios.FlushRaceCounterexample` | speedometer.c:919 | As written: the flush at 4 s lands between the completion and its classification. This gives an out-of-range store at -1 and `numberOfSpeeders > peoplePassedThrough`. |
| `Scenarios.FlushRaceDeferred` | speedometer.c:599-629 | Corrected: the same run stores 1 m/s in slot 0. The next report, one pass and one speeder, covers the window that counted it. |
| `ConfigReader.Before` | speedometer.c:396 | The prefix before the first NUL (or other stop character) is a prefix, does not contain that character, and is followed by it when shorter. |
| `ConfigReader.CString` | speedometer.c:395-399 | The loops see the buffer up to its first NUL: a prefix with no NUL in it, followed by the NUL when shorter than the buffer. |
| `ConfigReader.AccumulateDigits` | speedometer.c:400-409 | The numeric loop never decreases the field and leaves it alone when no digit follows. |
| `ConfigReader.CopyName` | speedometer.c:412-425 | The file-name copy stops at the first newline or the end of the buffer. The name has no space, `=` or newline, and is no longer than the text it was copied from. |
| `ConfigReader.ScanLine` | speedometer.c:394-482 | The character loop fills fields only in counter order and never touches a field below the counter. Names stay clean. From the seventh `=` on, or with no `=` left, it changes nothing. |
| `ConfigReader.ReadLine` | speedometer.c:390-394 | A buffer starting with `#` changes nothing. |
| `ConfigReader.ReadLines` | speedometer.c:390-486 | Over the whole file the fields are filled in order, and every name is the caller's or a clean copy. |
| `ConfigReader.ReadConfig` | speedometer.c:362-486 | Each file name is the caller's buffer or a name free of spaces, `=` and newlines. The reset of the four numeric outputs (lines 370-379) is stated by `ConfigSpec.DefaultsDiscarded` and `ConfigSpec.ReadConfigMatchesReference`. |
| `ConfigSpec.AccumulateDigitsValue` | speedometer.c:400-409 | Appending digit by digit (`acc * 10 + d`) yields the decimal value of all the digits after the `=`, in order. |
| `ConfigSpec.CopyNameValue` | speedometer.c:412-425 | The copied name is the text up to the newline without spaces and `=`. The copy stops right at that newline. |
| `ConfigSpec.ScanSkips` | speedometer.c:480-481 | Characters before the first `=` are passed over. |
| `ConfigSpec.ScanFieldLine` | speedometer.c:396-482 | A field line of the `fgets` shape fills exactly the field the counter points at, with its line-level value. |
| `ConfigSpec.ReadLinesFill` | speedometer.c:390-486 | On `fgets`-shaped buffers the character loop equals the line-level reader over the field lines. |
| `ConfigSpec.FillPositions` | speedometer.c:396-482 | The line-level reader starting at counter k fills field j from field line j-k, when that line exists, and leaves it alone otherwise. |
| `ConfigSpec.NumberAtShift` | speedometer.c:396-482 | Filling numeric field k from the first field line and then reading the rest from counter k+1 gives each numeric field the same value as reading from k. |
| `ConfigSpec.NameAtShift` | speedometer.c:410-444 | The same holds for the file-name fields. |
| `ConfigSpec.ReadConfigMatchesReference` | speedometer.c:362-486 | On every buffer sequence `fgets` can return, the reader equals the line-level reference `ConfigSpec.Expected`. Its outputs come from the first six field lines. Timeout, statsFrequency, speedLimit and distance are the digits after the `=` of lines 1, 4, 5 and 6, or 0. The two names come from lines 2 and 3, or are the caller's buffers. |
| `ConfigSpec.ScanSameNumbers` | speedometer.c:396-482 | The character loop's numeric outputs depend only on the counter and the earlier numeric outputs, not on the names. |
| `ConfigSpec.ReadLinesSameNumbers` | speedometer.c:390-486 | The same holds over the whole file. |
| `ConfigSpec.DefaultsDiscarded` | speedometer.c:370-380 | The four numeric outputs are reset before reading. For any file, they do not depend on the values the caller passed in. |
| `ConfigSpec.NoFieldLinesReadsZero` | speedometer.c:390-486 | A file with no field line leaves the reader as it was. |
| `ConfigSpec.EmptyFileLosesDefaults` | speedometer.c:132-144 | With no field line, `main`'s defaults 60, 1 and 3 come back as 0, and the name buffers stay uninitialised. |
| `ConfigSpec.CommentSkipped` | speedometer.c:394 | A buffer starting with `#` can be dropped anywhere without changing the result. |
| `ConfigSpec.FieldLinesAppend` | speedometer.c:390-396 | The field lines of two files read one after the other are those of the first followed by those of the second. |
| `ConfigSpec.LaterLinesIgnored` | speedometer.c:396-482 | Once six field lines have been read, anything after them is ignored. |

## Left out

- `main`: argument handling, opening the configuration, log and stats files, and the watchdog device. This is process start-up and OS I/O.
- GPIO register access (`initializeGPIO`, `laserDiodeStatus`, `setToOutput`, `outputOn`, `outputOff`). This is hardware over a library that is not part of this model. Beam readings are inputs, and the LED appears only as the `WarningLightOn`/`WarningLightOff` events.
- The pre-loop polling until both lasers are seen (speedometer.c:519-536). It is a hardware retry with `sleep`.
- The `speedLimit < 0` exit (speedometer.c:548-557) and the zero-limit log message. The limit is never negative in this model, where the 32-bit `int` overflow of the digit loop (left out below) is not modelled; in the source a long digit string such as `speedLimit=3000000000` can wrap negative and reach that exit. The message is logging only.
- `getTime`, `strftime`, the `PRINT_MSG`/`PRINT_VALUE` macros, console output and the stats-file `fprintf`s. This is formatting and I/O. Each message is one abstract event.
- The watchdog keep-alive, the `usleep` calls and the LED blink loops. They are timing and hardware side effects.
- `computeStats`. It compares float pointers, writes through uninitialised pointers and divides by zero when no one passed. `StatsFlush` reports the counts and the stored speeds instead of max, min and mean.
- IEEE single-precision rounding of `distance / 100.0` and of the speed. Speeds are exact reals.
- Hallway.Step: `time(NULL)` is read several times per iteration in the source. The model reads the clock once per iteration.
- Hallway.TravelSpeed: the narrowing of the `time_t` travel time to `int` is not modelled. The clock is an unbounded integer.
- Hallway.Store: a store outside `objectSpeeds[0..1000)` is undefined behaviour in C and can overwrite neighbouring stack memory. The model leaves the array alone and reports an `OutOfBoundsWrite` event in place of that effect. StatsWindow.Flush does the same for its zeroing stores past the end.
- `exitingTime` is declared and never used, so it is omitted.
- ConfigReader.ReadConfig: numeric outputs are unbounded naturals. The 32-bit `int` overflow of the digit accumulation is not modelled.
- ConfigReader.ReadConfig: file names are unbounded strings. Overflowing the 50-byte buffers of `main` is not modelled.
- ConfigReader.ReadConfig: lines longer than 254 characters arrive as several `fgets` buffers. They are modelled by that buffer sequence, not by splitting a file.
- ConfigSpec.ReadConfigMatchesReference: stated for buffers whose only newline is the last character, as `fgets` returns them. With an inner newline the character loop can fill two fields from one buffer; the character-level model covers that case.

## Findings

| source | as written | input that shows it | evidently intended | confidence | as-written member | corrected member |
|---|---|---|---|---|---|---|
| speedometer.c:599-629 | The window can close on the iteration between a completion, which counts the pass, and the EXITED_HALL iteration, which classifies and stores it. The reset clears `peoplePassedThrough` first, so the store at line 919 or 931 goes to `objectSpeeds[-1]`, and the speeder lands in a window that counted no pass. | Stats frequency 3 s, distance 300 cm, limit 0: laser 1 broken at 0 s and received at 1 s, laser 2 broken at 2 s and received at 3 s; the iteration at 4 s flushes, then stores at index -1, leaving 1 speeder and 0 passes | Each transit is stored and counted in the window that counted its pass, so the store index is never negative and speeders never outnumber passes. The model holds the flush back during EXITED_HALL (`DeferWhileExited`). | not executed | `Scenarios.FlushRaceCounterexample` | `Monitor.DeferredRunKeepsWindowInv` |

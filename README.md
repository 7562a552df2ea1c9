# music-dices: a Dafny model of the dice installation's core logic

The music-dices installation couples handheld "sensor" devices (dice) with shared
displays. Each device classifies which face it rests on and reports face changes
("edges") to the server. The server relays them to the displays. Every dice plays a
looping sound fragment chosen by its face, phase-locked to a shared musical grid. The
server also collects per-device stillness reports and broadcasts a collective
`stop-all` fade-out.

The model has four parts, one per core file (plus a small `Optional` module):

- `DiceGrid` and `SharedDice` (`dice_grid.dfy`, `dice.dfy`) model src/client/shared/Dice.js.
  - `DiceGrid` holds the time grid as exact rationals: a sixteenth is 15/128 s and the
    pattern is 7.5 s, which is 64 sixteenths. It also holds the quantization of a
    shared-clock time up to the next sixteenth, and JavaScript's truncating `%`.
  - `SharedDice` defines class `Dice`. It owns at most one voice (a buffer source with
    its gain node). Every scheduling call it makes on the audio engine is appended to a
    command log (`schedule`). The clock-sync service is a pair of uninterpreted functions
    (`SyncClock`).
  - The pure functions `Stop` and `Start` specify `stopSound` and `startSound`. The
    methods are proved equal to them. The invariant `Consistent` (every voice but the
    active one has been stopped) is proved preserved.
- `ServerSensorExperience` (`server_sensor.dfy`) models src/server/SensorExperience.js.
  - It holds the stillness vector, the fade-out time, the number of connected clients and
    a log of broadcasts.
  - `setClientStill` is an imperative method with its counting and filling loops. It is
    proved equal to the transition function `AfterSetClientStill`. Lemmas about that
    function state the branch behaviour and what runs of reports do.
  - The vector follows JavaScript array semantics. An assignment past the end grows the
    array and leaves holes. A hole makes the sum NaN (`Count` returns `None`).
- `SensorClient` (`sensor_client.dfy`) models src/client/sensor/SensorExperience.js.
  - `Lowpass` updates its output array in place.
  - `Classify` maps the filtered vector to a face by strict maxima.
  - Edge changes are tracked (`Track`). The sensor client's mute and stop handlers act on
    its dice.
- `DisplayClient` (`display_client.dfy`) models src/client/display/DisplayExperience.js:
  three dice and a mute flag. Its handlers route `startSound`/`stopSound` to one dice or
  to all of them. Each handler's contract is stated in terms of `SharedDice.Start` and
  `SharedDice.Stop`.

Parameters stand in for the outside world:
- `now` is `audioContext.currentTime`.
- `SyncClock.getSyncTime` and `SyncClock.getAudioTime` are the clock-sync conversions.
- The low-pass coefficient `k` is a given real.
- Audio buffers are opaque handles.

## Behaviour worth knowing

The model follows the code in each case below.

- **Fade trigger.** The installation is meant to fade out once every device is still.
  The code instead tests whether the vector was all still *before* the update. If it was
  not, one still report sets every slot and broadcasts `stop-all`.
  - With three clients, after a not-still report has cleared the vector, a single still
    report from any device fades everything out (`OneStillReportFadesAll`).
  - A device that moves and then holds still re-triggers the fade
    (`MoveThenHoldRefades`).
  - While there are no more clients than slots, a run of in-range still reports fades at
    most once (`StillRunFadesAtMostOnce`).
  - With more clients than slots (four sensors on the three-slot vector), during a run of
    still reports (which never grows the vector) the count stays below the number of
    clients, so every still report broadcasts `stop-all` again
    (`MoreClientsThanSlotsFadeOnEveryStill`). A not-still report from past the end does
    grow the vector; once it has a slot per client, still reports are absorbed again
    (`GrowthLetsFourClientsSettle`).
- **Release gain.** A release that starts from the already-decayed amplitude would
  avoid a jump. The code's `stopSound` always sets the gain to 1 at the stop time and
  ramps it to 0 over 0.1 s. There is no continuity rule.
- **Classifier ties.** A tie between axes could be broken by priority (X, then Y,
  then Z). The code uses strict maxima, so a tie gives edge 0 (`TieYieldsNoEdge`).
- **Negative sync times.** JavaScript's `%` keeps the sign of the dividend: on a
  negative tick the pattern offset is negative (or zero). So ticks n and n + 64 give the
  same offset only when both lie on the same side of zero (`TickStartPeriodic`,
  `TickStartNotPeriodicAcrossZero`).
- **Missing detectors.** This revision of the sensor client has no strike or stillness
  detector. `onAcceleration` computes a magnitude and discards it, and the rotation
  rate only feeds a statistics pipeline. So among the gesture messages the
  sensor client sends only `edge`. The server's `start` and `still` handlers are modelled as the server
  defines them.

## Model

| member | source | states |
|---|---|---|
| DiceGrid.GridInClosedForm | src/client/shared/Dice.js:6-13 | a sixteenth is 15/128 s, the pattern is 7.5 s, and the pattern is exactly 64 sixteenths |
| DiceGrid.Ceil | src/client/shared/Dice.js:40 | `Math.ceil`: the result n satisfies n − 1 < x ≤ n |
| DiceGrid.Trunc | src/client/shared/Dice.js:43 | the implicit quotient of JavaScript's `%` rounds toward zero, for either sign |
| DiceGrid.PatternRemainder | src/client/shared/Dice.js:43 | `t % patternDuration` lies in [0, 7.5) for t ≥ 0 and in (−7.5, 0] for t ≤ 0, and differs from t by a whole number of patterns |
| DiceGrid.TickInPattern | src/client/shared/Dice.js:43 | JavaScript `n % 64` on ticks: in [0, 64) for n ≥ 0, in (−64, 0] for n ≤ 0, congruent to n |
| DiceGrid.NumSixteenthBeats | src/client/shared/Dice.js:40 | `numSixteenthBeats` is the tick n with (n − 1)·sixteenth < syncTime ≤ n·sixteenth |
| DiceGrid.QuantizedSyncTime | src/client/shared/Dice.js:40-41 | the quantized time is at or after the sync time and less than one sixteenth after it |
| DiceGrid.TickStartTime | src/client/shared/Dice.js:43 | the pattern offset of a start on tick n lies in [0, 7.5) for n ≥ 0 and in (−7.5, 0] for n ≤ 0 |
| DiceGrid.StartTime | src/client/shared/Dice.js:38-43 | `startTime` lies strictly within one pattern of zero, and in [0, 7.5) whenever the sync time is after −1 sixteenth |
| DiceGrid.QuantizedIsLeastTick | src/client/shared/Dice.js:40-41 | no multiple of a sixteenth at or after the sync time is earlier than the quantized time |
| DiceGrid.QuantizedOnTick | src/client/shared/Dice.js:40-41 | every sync time in ((n−1)·tick, n·tick] is quantized to tick n |
| DiceGrid.TickStartInTicks | src/client/shared/Dice.js:40-43 | the start offset of tick n is exactly `TickInPattern(n)` sixteenths |
| DiceGrid.StartTimeInPattern | src/client/shared/Dice.js:40-43 | on a non-negative tick, `startTime` lies in [0, patternDuration) and is a whole number (0..63) of sixteenths |
| DiceGrid.SameTickSameStart | src/client/shared/Dice.js:40-43 | two sync times that round up to the same tick give equal quantized times and equal start offsets |
| DiceGrid.TickStartPeriodic | src/client/shared/Dice.js:40-43 | ticks n and n + 64 give the same start offset when both are on the same side of zero |
| DiceGrid.TickStartNotPeriodicAcrossZero | src/client/shared/Dice.js:43 | tick −1 gets the negative offset −15/128 s while tick 63 starts one sixteenth before the pattern's end, so they differ |
| DiceGrid.WorkedExample | src/client/shared/Dice.js:38-43 | sync time 12.34 s is quantized to tick 106 = 12.421875 s, at offset 4.921875 s into the pattern |
| SharedDice.BufferFor | src/client/shared/Dice.js:58 | `buffers[edge − 1]` is a buffer exactly when 1 ≤ edge ≤ the number of buffers, and is then that buffer; otherwise the source gets no buffer |
| SharedDice.ReleaseCommands | src/client/shared/Dice.js:27-31 | the release addresses only its voice and includes that voice's source stop |
| SharedDice.AttackCommands | src/client/shared/Dice.js:52-60 | the attack addresses only its voice, never stops it, and ends with the source start at the given time and offset |
| SharedDice.Stop | src/client/shared/Dice.js:23-35 | `stopSound` leaves no active voice, keeps the voice count and the earlier schedule, and an active voice is stopped |
| SharedDice.QuantizedAudioTime | src/client/shared/Dice.js:38-42 | the scheduled audio time is the audio-clock image of a sync time at most one sixteenth after the request's sync time, not before it |
| SharedDice.Start | src/client/shared/Dice.js:37-67 | `startSound` installs a new voice numbered by the voice count with buffer `buffers[edge−1]`, looping; the count grows by one and the earlier schedule is kept |
| SharedDice.StopReleases | src/client/shared/Dice.js:23-35 | with an active voice, `stopSound(t)` schedules stop at t + 0.1, gain 1 at t and a ramp to 0 at t + 0.1, then leaves no voice; without one it changes nothing |
| SharedDice.StopIdempotent | src/client/shared/Dice.js:24-34 | two consecutive stops produce the same state and schedule as one |
| SharedDice.StartSchedules | src/client/shared/Dice.js:37-67 | `startSound(e)` releases the previous voice at the quantized audio time, then installs a fresh voice with buffer `buffers[e−1]` looping over [0, 7.5]; its gain is set to 0 now and at the quantized time and ramps to 1 by 0.003 s later; it starts at (quantized time, startTime) |
| SharedDice.StartCrossfades | src/client/shared/Dice.js:47-60 | the previous voice's release and the new voice's attack both begin at the quantized audio time |
| SharedDice.InitialConsistent | src/client/shared/Dice.js:16-21 | a new dice with no voice satisfies the one-voice invariant |
| SharedDice.StopConsistent | src/client/shared/Dice.js:27-34 | `stopSound` preserves the invariant and leaves no voice unreleased (not yet told to stop) |
| SharedDice.StartConsistent | src/client/shared/Dice.js:44-66 | `startSound` preserves the invariant, and afterwards exactly the newly created voice is unreleased |
| SharedDice.AtMostOneUnreleased | src/client/shared/Dice.js:19-20 | under the invariant, at most one voice has not been told to stop, and it is the active one |
| SharedDice.Dice.constructor | src/client/shared/Dice.js:16-21 | a dice keeps its sync service and buffers and starts with no voice and an empty schedule |
| SharedDice.Dice.StopSound | src/client/shared/Dice.js:23-35 | the new state is `Stop(old state, time)`, and the invariant is kept |
| SharedDice.Dice.StartSound | src/client/shared/Dice.js:37-67 | the new state is `Start(old state, sync, buffers, edge, now)`, and the invariant is kept |
| SharedDice.Dice.Attack | src/client/shared/Dice.js:49-66 | the start-playback block: the new voice is numbered by the old voice count, plays the given buffer, and loops over [0, 7.5]; the schedule grows by exactly the attack commands (gain value 0, gain 0 at `at`, ramp to 1 at `at` + 0.003, source start at `at` with the offset); the count grows by one |
| ServerSensorExperience.Count | src/server/SensorExperience.js:39-42 | the sum is a number iff the vector has no holes; it then is the number of still slots; it equals the length iff every slot is still and 0 iff none is |
| ServerSensorExperience.Initial | src/server/SensorExperience.js:14-15 | the server starts with three still slots, no clients, nothing sent, and all-still true |
| ServerSensorExperience.AllClientsStill | src/server/SensorExperience.js:39-42 | all-still holds iff the vector has no holes and at least as many still slots as clients |
| ServerSensorExperience.Filled | src/server/SensorExperience.js:49-50 | the fill loops keep the length and make every slot the given value |
| ServerSensorExperience.Assigned | src/server/SensorExperience.js:61 | `v[index] = still` sets that slot, keeps the others, and past the end grows the array with holes |
| ServerSensorExperience.AfterSetClientStill | src/server/SensorExperience.js:38-65 | a report never changes the fade-out time or the client count, broadcasts nothing or one `stop-all(fadeoutTime)`, never shrinks the vector, and keeps its length when `index` lies inside it |
| ServerSensorExperience.AfterEnter | src/server/SensorExperience.js:23-24 | a join adds one client and changes nothing else |
| ServerSensorExperience.AfterExit | src/server/SensorExperience.js:32-36 | a departure removes one client and sends `exit` to the displays, followed by at most one `stop-all` |
| ServerSensorExperience.AfterEdge | src/server/SensorExperience.js:75-79 | the `edge` relay adds exactly the forwarded message and changes nothing else |
| ServerSensorExperience.AfterStart | src/server/SensorExperience.js:81-86 | `start` adds exactly the relayed message (the not-still report never broadcasts) |
| ServerSensorExperience.AfterStill | src/server/SensorExperience.js:88-92 | a still report broadcasts nothing or one `stop-all`, and the reporting slot, if in the vector, is still afterwards |
| ServerSensorExperience.AfterFadeoutTime | src/server/SensorExperience.js:67-69 | only the fade-out time changes, to the new value |
| ServerSensorExperience.AfterStopAll | src/server/SensorExperience.js:71-73 | the vector becomes three still slots; nothing else changes and nothing is sent |
| ServerSensorExperience.StillReportFadesAll | src/server/SensorExperience.js:48-54 | a still report while not all were still makes every slot still and broadcasts exactly one `stop-all(fadeoutTime)` to sensors and displays |
| ServerSensorExperience.NotStillReportClearsAll | src/server/SensorExperience.js:55-59 | a not-still report while all were still clears every slot and broadcasts nothing |
| ServerSensorExperience.OtherReportWritesSlot | src/server/SensorExperience.js:60-62 | otherwise, for an index inside the vector, only slot `index` changes, to `still`, and nothing is broadcast |
| ServerSensorExperience.FadeOnlyOnStillReport | src/server/SensorExperience.js:44-62 | a not-still report never broadcasts; a still report broadcasts iff the vector before the update was not all still |
| ServerSensorExperience.UniformPreserved | src/server/SensorExperience.js:38-65 | with 1 to 3 clients and indices below 3, a three-slot uniform vector stays three slots, all equal to the reported value |
| ServerSensorExperience.OutOfRangeIndexLeavesHoles | src/server/SensorExperience.js:39-61 | a report from index 4 on a three-slot vector that takes the write branch (`still` equals the all-still test, so neither fill runs) grows it to five slots with a hole, after which the sum is NaN and all-still is false |
| ServerSensorExperience.AllStillAbsorbsStillReports | src/server/SensorExperience.js:38-65 | once every slot is still and there are no more clients than slots, in-range still reports change nothing |
| ServerSensorExperience.StillRunFadesAtMostOnce | src/server/SensorExperience.js:38-65 | while there are no more clients than slots, a run of in-range still reports broadcasts `stop-all` at most once |
| ServerSensorExperience.OneStillReportFadesAll | src/server/SensorExperience.js:44-54 | with three clients and a cleared vector, one still report from any device fades everything out |
| ServerSensorExperience.MoveThenHoldRefades | src/server/SensorExperience.js:44-59 | from all-still with three clients, a not-still then a still report from one device broadcasts `stop-all` once more |
| ServerSensorExperience.MoreClientsThanSlotsFadeOnEveryStill | src/server/SensorExperience.js:38-54 | with more clients than slots, every still report of a run broadcasts `stop-all` and the vector keeps its length |
| ServerSensorExperience.InRangeRunKeepsLength | src/server/SensorExperience.js:48-62 | any run of reports from indices inside the vector, still or not, with any client count, keeps the vector's length (three slots for indices 0..2) |
| ServerSensorExperience.GrowthLetsFourClientsSettle | src/server/SensorExperience.js:38-65 | with four clients on three still slots, a not-still report from index 3 adds a fourth slot, the next still report fades once and leaves four still slots, and a further still report changes nothing |
| ServerSensorExperience.RunCarriesFadeoutTime | src/server/SensorExperience.js:38-65 | a run of reports keeps the fade-out time, the client count and the earlier log, and every `stop-all` it sends carries the fade-out time in force before the run |
| ServerSensorExperience.FadeoutTimeCarriedThroughRun | src/server/SensorExperience.js:50-69 | after `onFadeoutTime(v)`, every `stop-all` sent by any later run of reports carries v |
| ServerSensorExperience.StopAllRearms | src/server/SensorExperience.js:71-73 | `onStopAll` resets the vector to three still slots without broadcasting; with at most three clients, the next in-range still report then changes nothing |
| ServerSensorExperience.FadeoutTimeCarried | src/server/SensorExperience.js:67-69 | after `onFadeoutTime(v)` with the vector not all still, the next still report broadcasts exactly one `stop-all` carrying v |
| ServerSensorExperience.ExitOfMovingClientFades | src/server/SensorExperience.js:32-36 | a departing client counts as still: with a cleared vector and another client left, the displays get `exit` and then everyone gets `stop-all` |
| ServerSensorExperience.SensorExperience.constructor | src/server/SensorExperience.js:14-15 | the vector starts as three still slots and the fade-out time as 7.5 s |
| ServerSensorExperience.SensorExperience.SetClientStill | src/server/SensorExperience.js:38-65 | the counting and filling loops compute exactly `AfterSetClientStill` |
| ServerSensorExperience.SensorExperience.CountStill | src/server/SensorExperience.js:39-42 | the counting loop returns `Count` of the vector: the number of still slots, or NaN (`None`) when the vector has a hole, and changes nothing |
| ServerSensorExperience.SensorExperience.Fill | src/server/SensorExperience.js:49-57 | each of the two index loops (lines 49-50 and 56-57) sets every slot, holes included, to `b`, keeps the length, and leaves the log, the fade-out time and the client count unchanged |
| ServerSensorExperience.SensorExperience.Enter | src/server/SensorExperience.js:23-24 | a joining client increases the client count |
| ServerSensorExperience.SensorExperience.Exit | src/server/SensorExperience.js:32-36 | the client count drops, `exit` goes to the displays, then the client reports still |
| ServerSensorExperience.SensorExperience.OnFadeoutTime | src/server/SensorExperience.js:67-69 | only the fade-out time changes |
| ServerSensorExperience.SensorExperience.OnStopAll | src/server/SensorExperience.js:71-73 | only the vector changes, to three still slots |
| ServerSensorExperience.SensorExperience.ClientOnEdge | src/server/SensorExperience.js:75-79 | only the relayed `edge` message is added |
| ServerSensorExperience.SensorExperience.ClientOnStart | src/server/SensorExperience.js:81-86 | the `start` relay, then a not-still report |
| ServerSensorExperience.SensorExperience.ClientOnStill | src/server/SensorExperience.js:88-92 | a still report |
| SensorClient.Smooth | src/client/sensor/SensorExperience.js:33-35 | one smoothing step lies 1 − k times as far from the input as the old output did (signed) |
| SensorClient.Smoothed | src/client/sensor/SensorExperience.js:33-35 | each of the three components becomes out + k·(in − out) |
| SensorClient.SmoothBetween | src/client/sensor/SensorExperience.js:33-35 | for 0 ≤ k ≤ 1 the new output lies between the old output and the input, 1 − k times as far from the input; k = 1 gives the input, k = 0 the old output |
| SensorClient.SmoothConverges | src/client/sensor/SensorExperience.js:30-37 | for 0 ≤ k ≤ 1, after n equal inputs the distance to the input is (1 − k)^n times the initial distance |
| SensorClient.Lowpass.constructor | src/client/sensor/SensorExperience.js:18-24 | the output starts at [0, 0, 0], with the given coefficient |
| SensorClient.Lowpass.Input | src/client/sensor/SensorExperience.js:30-38 | the output array is updated in place to the smoothed values and that same array is returned |
| SensorClient.Classify | src/client/sensor/SensorExperience.js:147-170 | the edge is in 0..6; it is nonzero iff one of abs(x), abs(y), abs(z) strictly exceeds the other two; +X→5, −X→2, +Y→1, −Y→6, +Z→3, −Z→4 |
| SensorClient.OppositeFaces | src/client/sensor/SensorExperience.js:152-170 | negating the vector maps edge e to 7 − e and keeps 0 at 0 |
| SensorClient.TieYieldsNoEdge | src/client/sensor/SensorExperience.js:150-170 | a tie for the largest magnitude gives edge 0 |
| SensorClient.Track | src/client/sensor/SensorExperience.js:172-182 | the stored edge becomes the new one; the sent log is unchanged iff the edge is the stored one, and otherwise grows by that edge |
| SensorClient.TrackSendsOnChange | src/client/sensor/SensorExperience.js:172-182 | an `edge` message is sent iff the edge differs from the stored one; the stored edge becomes the new one, so repeating it sends nothing |
| SensorClient.TrackKeepsNoRepeats | src/client/sensor/SensorExperience.js:172-182 | the sent edges never repeat twice in a row, and the last one sent is the stored edge |
| SensorClient.SensorExperience.constructor | src/client/sensor/SensorExperience.js:60-84 | edge 0, mute undefined, the filter at zero and a dice with no voice |
| SensorClient.SensorExperience.OnAccelerationIncludingGravity | src/client/sensor/SensorExperience.js:142-183 | the filter is updated and the classified edge is tracked: sent and stored only on change |
| SensorClient.SensorExperience.OnStop | src/client/sensor/SensorExperience.js:185-187 | the index argument is ignored and the dice is stopped at the current audio time |
| SensorClient.SensorExperience.OnMute | src/client/sensor/SensorExperience.js:189-196 | only a change of value acts; a change to muted stops the dice; the mute value is recorded |
| DisplayClient.DisplayExperience.constructor | src/client/display/DisplayExperience.js:30-31 | no dice and not muted |
| DisplayClient.DisplayExperience.Start | src/client/display/DisplayExperience.js:45-50 | three fresh dice are appended (so a new display has exactly three); dice i uses buffer set i and has no voice |
| DisplayClient.DisplayExperience.OnEdge | src/client/display/DisplayExperience.js:59-67 | unless muted, dice `index` (if it exists) starts edge e; every other dice, and every dice when muted or out of range, is unchanged |
| DisplayClient.DisplayExperience.OnStop | src/client/display/DisplayExperience.js:69-79 | with an index, only that dice (if it exists) is stopped; without one, every dice is stopped |
| DisplayClient.DisplayExperience.StopAllDices | src/client/display/DisplayExperience.js:76-77 | every dice is stopped and none has an active voice |
| DisplayClient.DisplayExperience.OnMute | src/client/display/DisplayExperience.js:81-90 | only a change of value acts; a change to muted stops every dice; a change to unmuted stops nothing |

## Left out

- Audio-engine exceptions. On a negative tick `StartTime` is negative, and the model's
  `Start` installs the voice anyway. Web Audio's `AudioBufferSourceNode.start` rejects a
  negative offset with a `RangeError`, which would leave the JavaScript dice with no
  voice, because `stopSound` has already cleared it.
- Handlers that this revision never wires up are modelled as written. The sensor's `onStop`
  is bound (src/client/sensor/SensorExperience.js:67) but never registered as a listener.
  The server declares no `fadeout-time` or `stop-all` shared parameter
  (src/server/index.js:35-37), so `onFadeoutTime` and `onStopAll` never fire.
- Floating point: every time and filter value is an exact real. The binary rounding of
  0.1 and 0.003, and NaN/Infinity from malformed sensor data, are not modelled.
- Network transport: `send`, `receive` and `broadcast` are reduced to appending to an
  outgoing log. The sensor client's `gyro-stats` messages are left out with the pipeline
  that produces them.
- Sensor processing that uses `Math.sqrt`, `Math.exp` or an external library:
  `Lowpass.setCutoff` (k is a parameter), `onRotationRate`, `onAcceleration` and the
  `waves-lfo` Slicer/MeanStddev gyro statistics.
- The audio engine: node creation, connection and the audible result of ramps. Only the
  scheduled calls are kept. `playbackRate = centToLinear(transpose)` is a foreign call;
  `transpose` is left at its default 0, for which the rate is 1.
- The clock-sync service: its two conversions are uninterpreted functions.
- View rendering, `window.location.reload` (`onReload`) and console printing
  (`getClientOnPrint`).
- Framework wiring: src/server/index.js, the client `index.js` files,
  src/server/DisplayExperience.js (empty handlers) and src/client/shared/audioFiles.js
  (a file list).
- Mismatched message names. The display listens for `stop` while the server sends
  `stop-all`, and `start` and `exit` have no display listener. Who receives which message
  is not modelled.
- Sensor client start-up: the model's constructor covers both `constructor` and
  `start`. The JavaScript dice is null until the view is shown, but the handlers are
  registered only after it exists.
- DisplayClient.DisplayExperience.Start: requires at least three loaded buffer sets.
  audioFiles.js lists three sets, and with fewer the JavaScript would fail later on
  `undefined[edge - 1]`.
- SensorClient.Lowpass.Input: requires three input components. The motion-input
  service always supplies a 3-vector.
- ServerSensorExperience.SensorExperience.Exit: requires a connected client. The
  framework calls `exit` only for a client that entered.

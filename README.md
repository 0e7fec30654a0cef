# Soil-moisture irrigation controller — Dafny model

A model of the firmware of an ESP32 irrigation controller (`src/main.cpp`).
The firmware reads a soil-moisture sensor through a 20-sample moving
average and converts the average to a moisture percentage. It runs a pump
through a relay when the soil is drier than a set point and a cooldown has
passed since the last irrigation. It counts the automatic irrigations of the
current day in non-volatile preferences. It also carries the time of the last
irrigation across reboots.

The model covers:

- the global state of the firmware, as the class `Irrigation.Controller` (one field per global);
- `setup()`, as the constructor `Controller.Setup`;
- one pass of `loop()`, as `Controller.Tick`;
- the web handlers `/set`, `/irrigate`, `/toggle_auto`, `/moisture` and `/next_irrigation`.

The pure logic underneath sits in its own modules:

- `CInt`: the 32-bit `unsigned long` / `long` arithmetic, with its wrap-around written out;
- `MovingAverage`: the ring-buffer filter and the percentage conversion;
- `DurableClock`: the rebasing of the last irrigation time at boot;
- `DailyCounter`: the day-rollover counter, as a fold over loop passes with an independent reference definition;
- `Store`: the preferences namespace `"rega"`, as a map;
- `Scheduler`: the sampling and irrigation guards and the countdown.

`Scenarios` drives a controller from power-on through three runs:

- a burst of loop passes on dry soil irrigates exactly once;
- a raised set point makes `/next_irrigation` answer zero;
- manual irrigations leave the daily count untouched.

It also runs `loop()` over any sequence of inputs (`RunLoop`), to connect the controller to the counter's reference definition.

The model does not read hardware or clocks. Their readings are parameters:

- `now`: the loop's `millis()` reading;
- `today`: the day of the year from `localtime_r`;
- `raw`: the `analogRead` value;
- `bootMillis`: `millis()` at the point where `setup()` rebases;
- `saveMillis`: the `millis()` reading taken inside `saveLastIrrigationTime`, which is a separate reading from the loop's.

The ghost fields `samples` (every sample taken in since power-on) and `pumpRuns` (every pump run) record the history. The contracts speak in terms of that history.

Notes on the code as written, which the model follows:

- Reboot reconciliation (`src/main.cpp:325`) keeps the time that had elapsed since the irrigation when it was saved, then adds the time since the `millis()` reading on that line. That reading comes after the Wi-Fi connection and the NTP synchronisation (`src/main.cpp:316-317`), which wait without bound. So the time between the save and the reboot is lost, whether the board was powered or not, and so is the time from power-on to that reading. `DurableClock.ElapsedAfterReboot` states exactly this, with `bootMillis` standing for the reading at line 325.
- The outlier test in `readSoilMoisture` (`src/main.cpp:88-93`) only reassigns a local variable that nothing reads afterwards. The sample enters the filter whatever its distance from the average. The model keeps the test, and its contract shows the test has no effect.
- The comment on the default cooldown (`src/main.cpp:21`) says 15 minutes. The value is 1080000 ms, which is 18 minutes. The model uses the value.
- Manual irrigation (`/irrigate`) runs the pump whatever the moisture, the cooldown or the automatic flag. It is never added to the daily count.

## Model

| member | source | states |
|---|---|---|
| CInt.ToU32 | src/main.cpp:213-225 | assigning a `long` to an `unsigned long` keeps the value modulo 2^32: it is unchanged in range and shifted by 2^32 when negative |
| CInt.Sub | src/main.cpp:347 | `unsigned long` subtraction: the plain difference when no borrow occurs, otherwise the difference plus 2^32 |
| CInt.Add | src/main.cpp:325 | `unsigned long` addition: the plain sum when it fits, otherwise the sum minus 2^32 |
| CInt.ToI32 | src/main.cpp:255 | `(long)x` of an `unsigned long` has the same 32 bits; values of 2^31 and above become negative |
| CInt.WrapI32 | src/main.cpp:255 | a `long` difference wraps modulo 2^32 and is exact when it fits |
| CInt.AddSubInverse | src/main.cpp:325 | unsigned addition and subtraction undo each other for every pair of values |
| MovingAverage.SumUpdate | src/main.cpp:76-80 | overwriting one slot changes the sum by the new value minus the old one, as `total` is kept |
| MovingAverage.SumBounds | src/main.cpp:35 | a buffer of ADC values sums to between 0 and its length times 4095 |
| MovingAverage.SumRotate | src/main.cpp:83 | reading the ring from any slot gives the same sum |
| MovingAverage.PushRotate | src/main.cpp:79-83 | overwriting the oldest slot and advancing the index drops the oldest sample and appends the new one, oldest first |
| MovingAverage.PushWindow | src/main.cpp:79-83 | if the ring holds the last 20 samples of a history, after the push it holds the last 20 of that history plus the new sample |
| MovingAverage.PushStep | src/main.cpp:76-86 | one push keeps every slot in ADC range and updates the sum incrementally; the new average is in range and equals the sum of the last 20 samples divided by 20 |
| MovingAverage.Filled | src/main.cpp:310-312 | the seeded buffer has 20 slots, each holding the first reading |
| MovingAverage.FilledFacts | src/main.cpp:308-314 | a seeded buffer reads the same from any slot and sums to 20 times the reading, so `total` and `average` start consistent |
| MovingAverage.Percent | src/main.cpp:97 | the moisture percentage is within 0..100: 100 at reading 0, 0 at reading 4095, and in general the truncation of the exact `100 - average/4095*100` |
| MovingAverage.PercentAntitone | src/main.cpp:97 | a higher filtered reading never gives a higher percentage |
| Store.GetInt | src/main.cpp:280-281 | `getInt` returns the stored value, or the default when the key is absent |
| Store.GetULong | src/main.cpp:320-321 | `getULong` returns the stored value when it is an `unsigned long`, and the default when the key is absent |
| Store.LoadPumpCount | src/main.cpp:278-283 | `loadPumpCount` reads back the stored count and day when their keys are present, and 0 and -1 when they are absent |
| Store.SavePumpCount | src/main.cpp:285-290 | after the save, loading gives back exactly the saved count and day; both keys are present; every other key is untouched |
| Store.SaveLastIrrigationTime | src/main.cpp:292-297 | after the save, both keys are present and both saved timestamps read back; the pump count and day read as before; every other key is untouched |
| DurableClock.Reconcile | src/main.cpp:319-325 | at boot, the elapsed time since the last irrigation reads as it did at the moment of the save, wrap-around included |
| DurableClock.ElapsedAfterReboot | src/main.cpp:319-325 | at any later time of the new epoch, the elapsed time is the elapsed time at the save plus the time since boot; nothing between the save and the reboot counts |
| DurableClock.ElapsedAfterRebootSavedAtOnce | src/main.cpp:325 | when the saved irrigation time equals the `millis()` reading stored with it, the elapsed time after a reboot is the time since the rebasing read. This is an idealised case: `/irrigate` comes nearest, while the automatic path saves a `millis()` taken after the pump has run |
| DailyCounter.Rollover | src/main.cpp:339-343 | the day check zeroes the count exactly when the stored day differs from today, and otherwise keeps it |
| DailyCounter.CountAfter | src/main.cpp:339-365 | the count after a run of loop passes, each pass being the day check and then the optional increment; started from a non-negative count it stays between 0 and the start plus the number of passes, and it is at least 1 right after a pass that irrigated |
| DailyCounter.CountAfterOne | src/main.cpp:339-365 | one loop pass yields the rolled-over count, plus one if the pass irrigated automatically |
| DailyCounter.CountTodayFirstPass | src/main.cpp:339-343 | on the first pass of a run, the count of the current day keeps the starting count only if the stored day is that pass's day |
| DailyCounter.CountTodaySameDay | src/main.cpp:339-343 | a pass on the same day as the pass before it adds its own irrigation to the count of the current day |
| DailyCounter.CountTodayNewDay | src/main.cpp:339-343 | a pass on a new day restarts the count of the current day from that pass alone |
| DailyCounter.CountAfterIsCountToday | src/main.cpp:339-365 | over any run of passes, the counter equals the number of automatic irrigations since the day last changed (plus the starting count if it never changed) |
| DailyCounter.CountMonotoneWithinDay | src/main.cpp:362-364 | within one day the count never decreases |
| Scheduler.SampleDue | src/main.cpp:347 | the sampling gate: at least `wait_time` ms since the last reading, the elapsed time taken across a wrap of `millis()` when `now` is below the last reading; a wait of 0 samples on every pass |
| Scheduler.AutoDue | src/main.cpp:356 | the three guards of automatic irrigation: enabled, drier than the set point, and strictly more than the cooldown elapsed (across a wrap of `millis()` too). A cooldown of 2^32 - 1 ms, which `/set` can store, never lets it fire |
| Scheduler.SecondsToNext | src/main.cpp:253-259 | the countdown is zero when automatic irrigation is off or the soil is wet enough. It is also zero whenever the loop's guard would irrigate, and at most a second before the cooldown ends. Otherwise it is the remaining cooldown in whole seconds |
| Scheduler.SecondsToNextAsWritten | src/main.cpp:255-258 | the handler as written returns a value in 0..2147483; it is zero when automatic irrigation is off or the soil is wet enough |
| Scheduler.AsWrittenAgreesBelow2To31 | src/main.cpp:255 | while the cooldown and the elapsed time fit in a signed 32-bit value, the handler as written gives the intended countdown |
| Scheduler.AsWrittenReportsWaitWhenDue | src/main.cpp:255-257 | with 2^31 + 2^30 ms elapsed, the loop's guard irrigates; the handler as written reports 1074821 s instead of 0 |
| Scheduler.AsWrittenOnceElapsedWraps | src/main.cpp:255-257 | with a cooldown below 2^31 ms and an elapsed time e of 2^31 ms or more, the guard at :356 fires and the intended countdown is 0. As written, the handler reports 0 for e up to 2^31 ms plus the cooldown (the signed subtraction overflows and wraps negative) and (cooldown + 2^32 - e) / 1000 s beyond that |
| Scheduler.AsWrittenOnLongCooldown | src/main.cpp:255-257 | with a cooldown of 2^31 ms or more and at least 2^31 ms of it still to run, the guard does not fire and the intended countdown is positive, but the handler as written reports 0 |
| Scheduler.AsWrittenZeroOnLongCooldown | src/main.cpp:255-257 | a cooldown of 3 * 10^9 ms and 1 s elapsed: the handler as written reports 0, the intended countdown is 2999999 s |
| Irrigation.Abs | src/main.cpp:90 | `abs` returns the value or its negation, never negative |
| Irrigation.Controller.Setup | src/main.cpp:300-325 | power-on and `setup()` leave the documented defaults and the filter seeded with the first reading (average equals that reading). The counters are loaded from the preferences, the last irrigation time is rebased onto this boot, and the filter invariant holds |
| Irrigation.Controller.AverageIsMeanOfLastSamples | src/main.cpp:76-86 | in every valid state, `average` is the integer mean of the last 20 samples taken in |
| Irrigation.Controller.ReadSoilMoisture | src/main.cpp:70-98 | the sample replaces the oldest slot and the index advances modulo 20. The window slides by one, and the history grows by the sample (outlier or not). `sensor_analog` is the new average, and the result is its percentage; the filter invariant is kept |
| Irrigation.Controller.SavePumpCount | src/main.cpp:285-290 | the preferences hold the in-memory count and day afterwards |
| Irrigation.Controller.SaveLastIrrigationTime | src/main.cpp:292-297 | the preferences hold the last irrigation time and the save's `millis()`; the stored count is unchanged |
| Irrigation.Controller.ActivatePump | src/main.cpp:105-109 | exactly one pump run of the given duration is recorded |
| Irrigation.Controller.CheckDay | src/main.cpp:339-343 | the stored day becomes today and the count rolls over; on a new day, the zeroed count and the day are saved, so the preferences mirror the counters |
| Irrigation.Controller.SampleIfDue | src/main.cpp:346-353 | the sensor is read if and only if `waitTime` ms have passed since the last reading (unsigned difference). A reading stores the raw value in the oldest slot of the buffer, advances the index modulo 20, and updates the average, the moisture and the time of the last reading. Otherwise the buffer, its index, the average, the history and the moisture stay as they were |
| Irrigation.Controller.IrrigateIfDue | src/main.cpp:355-365 | the pump runs if and only if the three guards hold. A run records `now` as the last irrigation, adds one to the count and saves the time and the count |
| Irrigation.Controller.Tick | src/main.cpp:331-366 | one pass of `loop`: the day check, the sample gate and the irrigation decision, in that order and on this pass's moisture. A sample replaces the oldest slot of the buffer and advances the index modulo 20. The count follows the day-rollover fold, the preferences hold the composed saves, and the filter invariant is kept |
| Irrigation.Controller.Set | src/main.cpp:213-227 | each parameter present replaces its field (unsigned fields modulo 2^32); absent ones leave their field unchanged |
| Irrigation.Controller.ManualIrrigate | src/main.cpp:229-235 | the pump runs once as a manual run; the last irrigation time is `now` and is saved; the daily count is not touched |
| Irrigation.Controller.ToggleAuto | src/main.cpp:237-241 | the automatic flag is negated and the response reports the new value |
| Irrigation.Controller.Moisture | src/main.cpp:249-251 | `/moisture` reports a percentage within 0..100 |
| Irrigation.Controller.NextIrrigation | src/main.cpp:253-259 | `/next_irrigation` (corrected) is zero when disabled, wet, or due. With automatic irrigation on and dry soil, zero means less than a second of cooldown is left. A positive answer is the remaining cooldown in whole seconds |
| Scenarios.SteadyInput | src/main.cpp:308-314 | a filter seeded with a reading, then fed the same reading, averages to that reading |
| Scenarios.DrySoilIrrigatesOnce | src/main.cpp:331-366 | on a new day, with the cooldown over at the first of 20 close passes and dry soil, exactly one pass reports an irrigation, the pump history is a single automatic 300 ms run, and the daily count is 1 |
| Scenarios.PassesWithinCooldown | src/main.cpp:356 | passes within the cooldown of the last irrigation never irrigate: no pass reports an irrigation, the pump does not run, and the count and the last irrigation time do not move |
| Scenarios.WetterThanSetPoint | src/main.cpp:217-218 | after `/set?set_point=50` and a sample at 50 % or wetter, `/next_irrigation` answers 0 |
| Scenarios.RunLoop | src/main.cpp:331-366 | over any sequence of loop passes, the stored day is the last pass's day. The daily count is the rollover fold over the passes' days and irrigations, which equals the number of automatic irrigations since the day last changed |
| Scenarios.ManualIrrigationsNotCounted | src/main.cpp:229-235 | two `/irrigate` requests each run the pump for 300 ms as manual runs, and change neither the daily count in memory nor the one in the preferences |

## Left out

- Wi-Fi connection, static IP, NTP synchronisation, the HTML page at `/`, OTA updates, the LED on pin 2, `pinMode` and all `Serial` output: these are I/O with no effect on the modelled state.
- `/reset`: it restarts the chip. A restart is modelled as building a new `Controller` with `Setup` from the same preferences.
- `millis()`, `analogRead`, `time`/`localtime_r`: their readings are parameters. The ADC reading is required to be within 0..4095, the range of the 12-bit converter.
- `delay` inside `activatePump` and `readSoilMoisture`: time is not modelled inside a step. A pump run is recorded as a `PumpRun` in the ghost history instead of two relay writes.
- `setup` driving the relay pin low (src/main.cpp:302-303): the model has no relay state, because a pump run is recorded only as a `PumpRun` in the ghost history.
- Concurrency: the web handlers run on the server's task beside `loop()`. Each handler and each loop pass is modelled as one atomic step.
- `String::toInt` parsing in `/set`: each parameter arrives already parsed as a 32-bit value. Malformed text becoming 0 is not modelled.
- `preferences.begin`/`end` and write failures: every write is modelled as succeeding atomically. `getInt` on a key saved with another type is not modelled, because each key is always used with one type.
- MovingAverage.Percent: computes `100 - average / 4095.0 * 100` exactly and truncates. Single-precision rounding of the C expression is not modelled. It could differ by one at the readings where the exact value is an integer (819, 1638, 2457, 3276).
- DailyCounter.CountAfter: the count is an unbounded integer. The firmware's 32-bit `int` would overflow only after 2^31 irrigations in one day.
- Irrigation.Controller.ReadSoilMoisture: the link between `average` and the last 20 samples is not in this method's contract. `Irrigation.Controller.AverageIsMeanOfLastSamples` derives it from the invariant for every valid state.
- Irrigation.Controller.NextIrrigation: uses the corrected countdown, not the handler as written; see Findings.

## Findings

| source | as written | input that shows it | evidently intended | confidence | as-written member | corrected member |
|---|---|---|---|---|---|---|
| src/main.cpp:255 | `(long)irrigation_wait_time - (long)(now - last_irrigation_time)` casts the unsigned elapsed time to a 32-bit `long`, and subtracts in 32-bit `long`. With a cooldown c below 2^31 ms and an elapsed time e with 2^31 + c < e < 2^32, the guard at :356 fires, but the handler reports (c + 2^32 - e) / 1000 s, from about 24.8 days down to about the cooldown. For 2^31 <= e <= 2^31 + c the signed subtraction overflows, which is undefined in C++; the two's-complement wrap assumed by the model gives a negative value, reported as 0. A cooldown of 2^31 ms or more set through `/set` errs the other way: the handler reports 0 while the guard will not fire for days (cooldown 3 * 10^9 ms, 1 s elapsed: 0 as written, 2999999 s intended) | automatic irrigation on, moisture 10 %, set point 18 %, cooldown 1080000 ms, `now - last_irrigation_time` = 2^31 + 2^30 ms: the loop's unsigned guard irrigates, the handler reports 1074821 s | report 0 whenever the loop's guard would irrigate, and the remaining cooldown otherwise, for every elapsed time | not executed | Scheduler.AsWrittenReportsWaitWhenDue | Scheduler.SecondsToNext |

/// The irrigation controller: the global state of the firmware and the
/// operations that update it, namely the sensor filter, the setup sequence,
/// one pass of the control loop and the handlers of the web interface. Each
/// handler runs as one atomic step.
module Irrigation {
  import opened CInt
  import opened Wrappers
  import opened MovingAverage
  import opened Store
  import opened Scheduler
  import opened DurableClock
  import opened DailyCounter

  /// One run of the pump: how long the relay was held on, and whether the
  /// control loop (rather than a manual request) started it.
  datatype PumpRun = PumpRun(duration: u32, automatic: bool)

  class Controller {
    // Configuration, writable through `/set` and `/toggle_auto`.
    var setPoint: i32
    var irrigateTime: u32
    var waitTime: u32
    var irrigationWaitTime: u32
    var automaticIrrigation: bool

    // Irrigation state.
    var lastIrrigationTime: u32
    var pumpCount24h: int
    var lastSavedDay: int
    var moisture: int
    var sensorAnalog: int
    /// The loop's static `last_read_time`.
    var lastReadTime: u32

    // The moving-average filter.
    const readings: array<int>
    var total: int
    var readIndex: int
    var average: int

    /// The non-volatile preferences.
    var store: Flash

    /// Every sample the filter has taken in since power-on, oldest first; the
    /// seed counts as `N` samples.
    ghost var samples: seq<int>
    /// Every run of the pump since power-on, oldest first.
    ghost var pumpRuns: seq<PumpRun>

    /// The filter's samples oldest first: slot `readIndex` is the oldest.
    ghost function Window(): seq<int>
      reads this`readIndex, readings
      requires 0 <= readIndex <= readings.Length
    {
      Rotate(readings[..], readIndex)
    }

    ghost predicate Valid()
      reads this`readIndex, this`total, this`average, this`moisture, this`samples, readings
    {
      readings.Length == N &&
      0 <= readIndex < N &&
      InAdcRange(readings[..]) &&
      total == Sum(readings[..]) &&
      average == total / N &&
      0 <= average <= MAX_ANALOG &&
      0 <= moisture <= 100 &&
      |samples| >= N &&
      Window() == samples[|samples| - N..]
    }

    /// The filter's average is the integer mean of the last `N` samples taken
    /// in, whatever slot the ring buffer has reached.
    lemma AverageIsMeanOfLastSamples()
      requires Valid()
      ensures average == Sum(samples[|samples| - N..]) / N
    {
      SumRotate(readings[..], readIndex);
    }

    /// The durable pump count and day mirror the ones in memory.
    ghost predicate CountersPersisted()
      reads this`store, this`pumpCount24h, this`lastSavedDay
    {
      LoadPumpCount(store) == (pumpCount24h, lastSavedDay)
    }

    /// Power-on followed by `setup`: the globals take their initial values,
    /// the preferences hold what an earlier run left there, every slot of the
    /// filter is seeded with the first reading (so the average starts there
    /// instead of ramping up from zero), the counters are loaded, and the
    /// time of the last irrigation is rebased onto this boot's `millis()`.
    /// Nothing reads the filter between power-on and the seeding, so its zero
    /// fill at power-on is not observable.
    constructor Setup(flash: Flash, initialReading: int, bootMillis: u32)
      requires 0 <= initialReading <= MAX_ANALOG
      ensures fresh(readings)
      ensures setPoint == 18 && irrigateTime == 300 && waitTime == 300
      ensures irrigationWaitTime == 1080000 && automaticIrrigation
      ensures moisture == 0 && sensorAnalog == 0 && lastReadTime == 0
      ensures readings[..] == Filled(initialReading) && readIndex == 0
      ensures average == initialReading && samples == Filled(initialReading)
      ensures store == flash && pumpRuns == []
      ensures (pumpCount24h, lastSavedDay) == LoadPumpCount(flash)
      ensures lastIrrigationTime == Reconcile(GetULong(flash, LAST_IRRIGATION_TIME, 0),
                                              GetULong(flash, LAST_MILLIS, 0), bootMillis)
      ensures CountersPersisted()
      ensures Valid()
    {
      setPoint, irrigateTime, waitTime := 18, 300, 300;
      irrigationWaitTime, automaticIrrigation := 1080000, true;
      moisture, sensorAnalog, lastReadTime := 0, 0, 0;
      store := flash;
      pumpRuns := [];
      readings := new int[N];
      readIndex := 0;
      total := initialReading * N;
      average := initialReading;
      samples := Filled(initialReading);
      // loadPumpCount
      pumpCount24h := GetInt(flash, PUMP_COUNT, 0);
      lastSavedDay := GetInt(flash, LAST_DAY, -1);
      // Reboot reconciliation of the time of the last irrigation.
      lastIrrigationTime := Reconcile(GetULong(flash, LAST_IRRIGATION_TIME, 0),
                                      GetULong(flash, LAST_MILLIS, 0), bootMillis);
      new;
      for i := 0 to N
        modifies readings
        invariant forall k :: 0 <= k < i ==> readings[k] == initialReading
      {
        readings[i] := initialReading;
      }
      assert readings[..] == Filled(initialReading);
      FilledFacts(initialReading, 0);
    }

    /// `readSoilMoisture`: push one raw sample into the filter and return the
    /// moisture percentage of the new average. The outlier test only replaces
    /// a local copy of the sample that nothing reads afterwards, so the new
    /// state and the result below do not depend on it.
    method ReadSoilMoisture(raw: int) returns (percent: int)
      requires Valid()
      requires 0 <= raw <= MAX_ANALOG
      modifies this`total, this`readIndex, this`average, this`sensorAnalog, this`samples, readings
      ensures Valid()
      ensures readings[..] == old(readings[..])[old(readIndex) := raw]
      ensures readIndex == (old(readIndex) + 1) % N
      ensures Window() == old(Window())[1..] + [raw]
      ensures samples == old(samples) + [raw]
      ensures sensorAnalog == average
      ensures percent == Percent(average) && 0 <= percent <= 100
    {
      ghost var before, history := readings[..], samples;
      PushStep(before, readIndex, raw, history);
      total := total - readings[readIndex];
      readings[readIndex] := raw;
      total := total + readings[readIndex];
      readIndex := (readIndex + 1) % N;
      average := total / N;
      var rawValue := raw;
      if Abs(rawValue - average) > OUTLIER_THRESHOLD {
        rawValue := average;
      }
      sensorAnalog := average;
      percent := Percent(average);
      samples := samples + [raw];
    }

    /// `savePumpCount`.
    method SavePumpCount()
      modifies this`store
      ensures store == Store.SavePumpCount(old(store), pumpCount24h, lastSavedDay)
      ensures CountersPersisted()
    {
      store := Store.SavePumpCount(store, pumpCount24h, lastSavedDay);
    }

    /// `saveLastIrrigationTime`, given the `millis()` reading it takes.
    method SaveLastIrrigationTime(millisNow: u32)
      modifies this`store
      ensures store == Store.SaveLastIrrigationTime(old(store), lastIrrigationTime, millisNow)
      ensures LoadPumpCount(store) == LoadPumpCount(old(store))
    {
      store := Store.SaveLastIrrigationTime(store, lastIrrigationTime, millisNow);
    }

    /// `activatePump`: the relay is switched on, held for `duration` ms and
    /// switched off again; only the completed run is recorded.
    method ActivatePump(duration: u32, automatic: bool)
      modifies this`pumpRuns
      ensures pumpRuns == old(pumpRuns) + [PumpRun(duration, automatic)]
    {
      pumpRuns := pumpRuns + [PumpRun(duration, automatic)];
    }

    /// The day check at the top of `loop`: a new day of the year zeroes the
    /// count, and the count and the day are saved together.
    method CheckDay(today: int)
      modifies this`pumpCount24h, this`lastSavedDay, this`store
      ensures lastSavedDay == today
      ensures pumpCount24h == Rollover(old(pumpCount24h), old(lastSavedDay), today)
      ensures store == if old(lastSavedDay) != today
                       then Store.SavePumpCount(old(store), 0, today)
                       else old(store)
      ensures old(CountersPersisted()) || old(lastSavedDay) != today ==> CountersPersisted()
    {
      if lastSavedDay != today {
        pumpCount24h := 0;
        lastSavedDay := today;
        SavePumpCount();
      }
    }

    /// The sampling step of `loop`: the sensor is read when `waitTime` ms have
    /// passed since the last reading.
    method SampleIfDue(now: u32, raw: int) returns (sampled: bool)
      requires Valid()
      requires 0 <= raw <= MAX_ANALOG
      modifies this`lastReadTime, this`moisture, this`total, this`readIndex, this`average,
               this`sensorAnalog, this`samples, readings
      ensures Valid()
      ensures sampled == SampleDue(now, old(lastReadTime), waitTime)
      ensures lastReadTime == if sampled then now else old(lastReadTime)
      ensures sampled ==> samples == old(samples) + [raw] && moisture == Percent(average)
                          && sensorAnalog == average
                          && readings[..] == old(readings[..])[old(readIndex) := raw]
                          && readIndex == (old(readIndex) + 1) % N
      ensures !sampled ==> samples == old(samples) && readings[..] == old(readings[..])
                           && readIndex == old(readIndex) && moisture == old(moisture) && sensorAnalog == old(sensorAnalog)
                           && average == old(average)
    {
      sampled := Sub(now, lastReadTime) >= waitTime;
      if sampled {
        lastReadTime := now;
        moisture := ReadSoilMoisture(raw);
      }
    }

    /// The automatic-irrigation step of `loop`: when all three guards hold,
    /// run the pump, record `now` as the last irrigation, save it, and count
    /// the irrigation.
    method IrrigateIfDue(now: u32, saveMillis: u32) returns (irrigated: bool)
      modifies this`pumpRuns, this`lastIrrigationTime, this`store, this`pumpCount24h
      ensures irrigated == AutoDue(automaticIrrigation, moisture, setPoint, now,
                                   old(lastIrrigationTime), irrigationWaitTime)
      ensures lastIrrigationTime == if irrigated then now else old(lastIrrigationTime)
      ensures pumpCount24h == old(pumpCount24h) + if irrigated then 1 else 0
      ensures pumpRuns == old(pumpRuns) + if irrigated then [PumpRun(irrigateTime, true)] else []
      ensures store == if irrigated
                       then Store.SavePumpCount(Store.SaveLastIrrigationTime(old(store), now, saveMillis),
                                                pumpCount24h, lastSavedDay)
                       else old(store)
      ensures old(CountersPersisted()) || irrigated ==> CountersPersisted()
    {
      irrigated := automaticIrrigation && moisture < setPoint
                   && Sub(now, lastIrrigationTime) > irrigationWaitTime;
      if irrigated {
        ActivatePump(irrigateTime, true);
        lastIrrigationTime := now;
        SaveLastIrrigationTime(saveMillis);
        pumpCount24h := pumpCount24h + 1;
        SavePumpCount();
      }
    }

    /// One pass of `loop`, at `millis()` reading `now` on day of the year
    /// `today`, with `raw` the ADC value read if the sensor is sampled and
    /// `saveMillis` the `millis()` reading taken when the irrigation time is saved.
    method Tick(now: u32, today: int, raw: int, saveMillis: u32) returns (sampled: bool, irrigated: bool)
      requires Valid()
      requires 0 <= raw <= MAX_ANALOG
      modifies this`pumpCount24h, this`lastSavedDay, this`store, this`lastReadTime, this`moisture
      modifies this`total, this`readIndex, this`average, this`sensorAnalog, this`samples, readings
      modifies this`pumpRuns, this`lastIrrigationTime
      ensures Valid()
      // Day rollover: the count restarts when the day changed, then counts this pass.
      ensures lastSavedDay == today
      ensures pumpCount24h == CountAfter(old(pumpCount24h), old(lastSavedDay), [Pass(today, irrigated)])
      // Sampling.
      ensures sampled == SampleDue(now, old(lastReadTime), waitTime)
      ensures lastReadTime == if sampled then now else old(lastReadTime)
      ensures sampled ==> samples == old(samples) + [raw] && moisture == Percent(average)
                          && sensorAnalog == average
                          && readings[..] == old(readings[..])[old(readIndex) := raw]
                          && readIndex == (old(readIndex) + 1) % N
      ensures !sampled ==> samples == old(samples) && readings[..] == old(readings[..])
                           && readIndex == old(readIndex) && moisture == old(moisture) && sensorAnalog == old(sensorAnalog)
                           && average == old(average)
      // Automatic irrigation, decided on the moisture of this pass.
      ensures irrigated == AutoDue(automaticIrrigation, moisture, setPoint, now,
                                   old(lastIrrigationTime), irrigationWaitTime)
      ensures lastIrrigationTime == if irrigated then now else old(lastIrrigationTime)
      ensures pumpRuns == old(pumpRuns) + if irrigated then [PumpRun(irrigateTime, true)] else []
      // Preferences.
      ensures store == (var afterDay := if old(lastSavedDay) != today
                                         then Store.SavePumpCount(old(store), 0, today)
                                         else old(store);
                        if irrigated
                        then Store.SavePumpCount(Store.SaveLastIrrigationTime(afterDay, now, saveMillis),
                                                 pumpCount24h, today)
                        else afterDay)
      ensures old(CountersPersisted()) || old(lastSavedDay) != today || irrigated ==> CountersPersisted()
    {
      CheckDay(today);
      sampled := SampleIfDue(now, raw);
      irrigated := IrrigateIfDue(now, saveMillis);
      CountAfterOne(old(pumpCount24h), old(lastSavedDay), Pass(today, irrigated));
    }

    /// `/set`: each configuration parameter present in the request replaces
    /// its field (the `unsigned long` fields take the parsed `long` modulo
    /// 2^32); absent ones leave their field as it was.
    method Set(newIrrigateTime: Option<i32>, newSetPoint: Option<i32>,
               newWaitTime: Option<i32>, newIrrigationWaitTime: Option<i32>)
      modifies this`irrigateTime, this`setPoint, this`waitTime, this`irrigationWaitTime
      ensures irrigateTime == if newIrrigateTime.Some? then ToU32(newIrrigateTime.value) else old(irrigateTime)
      ensures setPoint == if newSetPoint.Some? then newSetPoint.value else old(setPoint)
      ensures waitTime == if newWaitTime.Some? then ToU32(newWaitTime.value) else old(waitTime)
      ensures irrigationWaitTime == if newIrrigationWaitTime.Some?
                                    then ToU32(newIrrigationWaitTime.value)
                                    else old(irrigationWaitTime)
    {
      if newIrrigateTime.Some? {
        irrigateTime := ToU32(newIrrigateTime.value);
      }
      if newSetPoint.Some? {
        setPoint := newSetPoint.value;
      }
      if newWaitTime.Some? {
        waitTime := ToU32(newWaitTime.value);
      }
      if newIrrigationWaitTime.Some? {
        irrigationWaitTime := ToU32(newIrrigationWaitTime.value);
      }
    }

    /// `/irrigate`: run the pump whatever the moisture, the cooldown and the
    /// automatic flag, then record `now`, the `millis()` reading after the run,
    /// as the last irrigation. The daily count is not touched.
    method ManualIrrigate(now: u32, saveMillis: u32)
      modifies this`pumpRuns, this`lastIrrigationTime, this`store
      ensures lastIrrigationTime == now
      ensures pumpRuns == old(pumpRuns) + [PumpRun(irrigateTime, false)]
      ensures store == Store.SaveLastIrrigationTime(old(store), now, saveMillis)
      ensures LoadPumpCount(store) == LoadPumpCount(old(store))
    {
      ActivatePump(irrigateTime, false);
      lastIrrigationTime := now;
      SaveLastIrrigationTime(saveMillis);
    }

    /// `/toggle_auto`: flip the automatic flag and report its new value.
    method ToggleAuto() returns (enabled: bool)
      modifies this`automaticIrrigation
      ensures automaticIrrigation == !old(automaticIrrigation)
      ensures enabled == automaticIrrigation
    {
      automaticIrrigation := !automaticIrrigation;
      enabled := automaticIrrigation;
    }

    /// `/moisture`: the last computed moisture percentage.
    function Moisture(): (r: int)
      reads this, readings
      requires Valid()
      ensures 0 <= r <= 100
    {
      moisture
    }

    /// `/next_irrigation`: seconds until automatic irrigation is allowed again,
    /// at `millis()` reading `now`.
    function NextIrrigation(now: u32): (r: nat)
      reads this
      ensures !automaticIrrigation || moisture >= setPoint ==> r == 0
      ensures AutoDue(automaticIrrigation, moisture, setPoint, now, lastIrrigationTime, irrigationWaitTime) ==> r == 0
      ensures r == 0 && automaticIrrigation && moisture < setPoint
              ==> irrigationWaitTime < Sub(now, lastIrrigationTime) + 1000
      ensures r > 0 ==> 1000 * r <= irrigationWaitTime - Sub(now, lastIrrigationTime) < 1000 * r + 1000
    {
      SecondsToNext(automaticIrrigation, moisture, setPoint, now, lastIrrigationTime, irrigationWaitTime)
    }
  }

  function Abs(x: int): (r: nat)
    ensures r == x || r == -x
  {
    if x < 0 then -x else x
  }
}

/// Runs of the firmware from power-on, each on a controller of its own:
/// a dry soil irrigated once over a burst of loop passes, a raised set point
/// that silences the countdown, and manual irrigations that leave the daily
/// count alone.
module Scenarios {
  import opened CInt
  import opened Wrappers
  import opened MovingAverage
  import opened Store
  import opened DurableClock
  import opened DailyCounter
  import opened Irrigation

  /// A filter seeded with `raw` that samples `raw` once more still averages
  /// `raw`.
  lemma SteadyInput(c: Controller, raw: int)
    requires c.Valid()
    requires c.samples == Filled(raw) + [raw]
    ensures c.average == raw
  {
    c.AverageIsMeanOfLastSamples();
    assert c.samples[|c.samples| - N..] == Filled(raw);
    FilledFacts(raw, 0);
  }

  /// Boot on a new day of the year with the cooldown already over at the
  /// first pass, at `first`, then run nineteen more passes, at `later`, all
  /// within the cooldown of the first, on soil whose reading stays below the
  /// set point of 18%: the pump runs on the first pass only, for the default
  /// 300 ms, and the daily count ends at one.
  method DrySoilIrrigatesOnce(flash: Flash, raw: int, bootMillis: u32, first: u32, later: seq<u32>,
                              today: int, saveMillis: u32)
    returns (irrigations: nat, count: int, ghost runs: seq<PumpRun>)
    requires 0 <= raw <= MAX_ANALOG && Percent(raw) < 18
    requires LoadPumpCount(flash).1 != today
    requires Sub(first, Reconcile(GetULong(flash, LAST_IRRIGATION_TIME, 0),
                                  GetULong(flash, LAST_MILLIS, 0), bootMillis)) > 1080000
    requires |later| == 19
    requires forall k :: 0 <= k < |later| ==> Sub(later[k], first) <= 1080000
    ensures irrigations == 1 && count == 1
    ensures runs == [PumpRun(300, true)]
  {
    var c := new Controller.Setup(flash, raw, bootMillis);
    ghost var loaded := (c.pumpCount24h, c.lastSavedDay);
    var sampled, irrigated := c.Tick(first, today, raw, saveMillis);
    CountAfterOne(loaded.0, loaded.1, Pass(today, irrigated));
    if sampled {
      SteadyInput(c, raw);
    }
    assert irrigated;
    assert c.pumpRuns == [PumpRun(300, true)];
    irrigations := 0;
    if irrigated {
      irrigations := 1;
    }
    var fired := PassesWithinCooldown(c, later, today, raw, saveMillis);
    irrigations := irrigations + fired;
    count := c.pumpCount24h;
    runs := c.pumpRuns;
  }

  /// Passes of the loop on the day of the last one, each within the cooldown
  /// of the last irrigation, never irrigate: `fired`, the number of passes
  /// that report an irrigation, is zero, the pump does not run, and the daily
  /// count and the time of the last irrigation stay as they were.
  method PassesWithinCooldown(c: Controller, times: seq<u32>, today: int, raw: int, saveMillis: u32)
    returns (fired: nat)
    requires c.Valid() && 0 <= raw <= MAX_ANALOG
    requires c.lastSavedDay == today
    requires forall k :: 0 <= k < |times| ==> Sub(times[k], c.lastIrrigationTime) <= c.irrigationWaitTime
    modifies c, c.readings
    ensures fired == 0
    ensures c.Valid() && c.lastSavedDay == today
    ensures c.pumpCount24h == old(c.pumpCount24h) && c.lastIrrigationTime == old(c.lastIrrigationTime)
    ensures c.pumpRuns == old(c.pumpRuns)
  {
    fired := 0;
    for k := 0 to |times|
      invariant c.Valid() && c.lastSavedDay == today
      invariant c.pumpCount24h == old(c.pumpCount24h)
      invariant c.lastIrrigationTime == old(c.lastIrrigationTime)
      invariant c.irrigationWaitTime == old(c.irrigationWaitTime)
      invariant c.pumpRuns == old(c.pumpRuns)
      invariant fired == 0
    {
      var sampled, irrigated := c.Tick(times[k], today, raw, saveMillis);
      CountAfterOne(old(c.pumpCount24h), today, Pass(today, irrigated));
      fired := fired + if irrigated then 1 else 0;
    }
  }

  /// What the firmware reads during one pass of `loop`: `millis()`, the day of
  /// the year, the ADC value if the sensor is sampled, and the `millis()`
  /// reading taken if the irrigation time is saved.
  datatype LoopInput = LoopInput(now: u32, today: int, raw: int, saveMillis: u32)

  /// The runtime calling `loop` once per input: the passes it returns record
  /// each pass's day and whether it irrigated automatically, and the daily
  /// count follows the rollover fold over them, which is the number of
  /// automatic irrigations since the day last changed.
  method RunLoop(c: Controller, inputs: seq<LoopInput>) returns (passes: seq<Pass>)
    requires c.Valid()
    requires forall k :: 0 <= k < |inputs| ==> 0 <= inputs[k].raw <= MAX_ANALOG
    modifies c, c.readings
    ensures c.Valid()
    ensures |passes| == |inputs|
    ensures forall k :: 0 <= k < |inputs| ==> passes[k].day == inputs[k].today
    ensures c.lastSavedDay == DayAfter(old(c.lastSavedDay), passes)
    ensures c.pumpCount24h == CountAfter(old(c.pumpCount24h), old(c.lastSavedDay), passes)
    ensures c.pumpCount24h == CountToday(old(c.pumpCount24h), old(c.lastSavedDay), passes)
  {
    passes := [];
    for k := 0 to |inputs|
      invariant c.Valid()
      invariant |passes| == k
      invariant forall j :: 0 <= j < k ==> passes[j].day == inputs[j].today
      invariant c.lastSavedDay == DayAfter(old(c.lastSavedDay), passes)
      invariant c.pumpCount24h == CountAfter(old(c.pumpCount24h), old(c.lastSavedDay), passes)
    {
      var input := inputs[k];
      ghost var before := (c.pumpCount24h, c.lastSavedDay);
      var sampled, irrigated := c.Tick(input.now, input.today, input.raw, input.saveMillis);
      var p := Pass(input.today, irrigated);
      CountAfterOne(before.0, before.1, p);
      assert (passes + [p])[..|passes|] == passes;
      passes := passes + [p];
    }
    CountAfterIsCountToday(old(c.pumpCount24h), old(c.lastSavedDay), passes);
  }

  /// `/set?set_point=50`, then a pass of the loop that samples soil at 50%
  /// or wetter: `/next_irrigation` answers zero.
  method WetterThanSetPoint(flash: Flash, raw: int, bootMillis: u32, now: u32,
                            today: int, saveMillis: u32)
    returns (seconds: nat)
    requires 0 <= raw <= MAX_ANALOG && Percent(raw) >= 50
    requires now >= 300
    ensures seconds == 0
  {
    var c := new Controller.Setup(flash, raw, bootMillis);
    c.Set(None, Some(50), None, None);
    var sampled, irrigated := c.Tick(now, today, raw, saveMillis);
    SteadyInput(c, raw);
    seconds := c.NextIrrigation(now);
  }

  /// Two `/irrigate` requests: both run the pump, and neither the daily count
  /// in memory nor the one in the preferences moves.
  method ManualIrrigationsNotCounted(flash: Flash, raw: int, bootMillis: u32,
                                     first: u32, second: u32, saveMillis: u32)
    returns (countBefore: int, countAfter: int, storedBefore: (int, int), storedAfter: (int, int),
             ghost runs: seq<PumpRun>)
    requires 0 <= raw <= MAX_ANALOG
    ensures countAfter == countBefore && storedAfter == storedBefore
    ensures runs == [PumpRun(300, false), PumpRun(300, false)]
    ensures storedBefore == (countBefore, GetInt(flash, LAST_DAY, -1))
  {
    var c := new Controller.Setup(flash, raw, bootMillis);
    countBefore, storedBefore := c.pumpCount24h, LoadPumpCount(c.store);
    c.ManualIrrigate(first, saveMillis);
    c.ManualIrrigate(second, saveMillis);
    countAfter, storedAfter := c.pumpCount24h, LoadPumpCount(c.store);
    runs := c.pumpRuns;
  }
}

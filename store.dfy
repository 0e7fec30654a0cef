/// The "rega" namespace of the ESP32's non-volatile preferences, seen as a
/// map from key to value. Four keys are used: the daily pump count and the day
/// it belongs to (32-bit ints), and the time of the last irrigation with the
/// `millis()` reading at which it was saved (32-bit unsigned).
module Store {
  import opened CInt

  const PUMP_COUNT: string := "pump_count"
  const LAST_DAY: string := "last_day"
  const LAST_IRRIGATION_TIME: string := "last_irrigation_time"
  const LAST_MILLIS: string := "last_millis"

  type Flash = map<string, int>

  /// `getInt(key, default)`: the stored value, or the default when the key is absent.
  function GetInt(flash: Flash, key: string, default: int): (r: int)
    ensures key !in flash ==> r == default
    ensures key in flash ==> r == flash[key]
  {
    if key in flash then flash[key] else default
  }

  /// `getULong(key, default)`: the stored value, or the default when the key
  /// is absent or does not hold an unsigned 32-bit value.
  function GetULong(flash: Flash, key: string, default: u32): (r: u32)
    ensures key in flash && 0 <= flash[key] < TWO_32 ==> r == flash[key]
    ensures key !in flash ==> r == default
  {
    if key in flash && 0 <= flash[key] < TWO_32 then flash[key] else default
  }

  /// The pump count and stored day as `loadPumpCount` reads them back, with
  /// the defaults 0 and -1.
  function LoadPumpCount(flash: Flash): (r: (int, int))
    ensures PUMP_COUNT !in flash ==> r.0 == 0
    ensures LAST_DAY !in flash ==> r.1 == -1
    ensures PUMP_COUNT in flash ==> r.0 == flash[PUMP_COUNT]
    ensures LAST_DAY in flash ==> r.1 == flash[LAST_DAY]
  {
    (GetInt(flash, PUMP_COUNT, 0), GetInt(flash, LAST_DAY, -1))
  }

  /// `savePumpCount`: both counter keys are written together; every other key
  /// keeps its value.
  function SavePumpCount(flash: Flash, count: int, day: int): (r: Flash)
    ensures LoadPumpCount(r) == (count, day)
    ensures PUMP_COUNT in r && LAST_DAY in r
    ensures r - {PUMP_COUNT, LAST_DAY} == flash - {PUMP_COUNT, LAST_DAY}
  {
    flash[PUMP_COUNT := count][LAST_DAY := day]
  }

  /// `saveLastIrrigationTime`: the time of the last irrigation and the
  /// `millis()` reading of the save are written together; every other key
  /// keeps its value.
  function SaveLastIrrigationTime(flash: Flash, last: u32, millisNow: u32): (r: Flash)
    ensures GetULong(r, LAST_IRRIGATION_TIME, 0) == last
    ensures GetULong(r, LAST_MILLIS, 0) == millisNow
    ensures LAST_IRRIGATION_TIME in r && LAST_MILLIS in r
    ensures LoadPumpCount(r) == LoadPumpCount(flash)
    ensures r - {LAST_IRRIGATION_TIME, LAST_MILLIS} == flash - {LAST_IRRIGATION_TIME, LAST_MILLIS}
  {
    flash[LAST_IRRIGATION_TIME := last][LAST_MILLIS := millisNow]
  }
}

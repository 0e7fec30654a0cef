/// Carrying the time of the last irrigation across a reboot. The only clock is
/// `millis()`, which restarts at zero on every boot, so the firmware persists
/// the pair (time of the last irrigation, `millis()` at the moment of the save)
/// and rebases the first onto the new epoch at boot.
module DurableClock {
  import opened CInt

  /// The rebased `last_irrigation_time`: `savedLast + (bootMillis - savedMillis)`
  /// in `unsigned long` arithmetic. At boot, the time elapsed since the
  /// irrigation reads as it did at the moment of the save.
  function Reconcile(savedLast: u32, savedMillis: u32, bootMillis: u32): (r: u32)
    ensures Sub(bootMillis, r) == Sub(savedMillis, savedLast)
  {
    Add(savedLast, Sub(bootMillis, savedMillis))
  }

  /// At any later time `t` of the new epoch the elapsed time is the elapsed time
  /// recorded at the save plus the time since boot, modulo 2^32. Nothing of the
  /// time between the save and the reboot, powered or not, is counted.
  lemma ElapsedAfterReboot(savedLast: u32, savedMillis: u32, bootMillis: u32, t: u32)
    ensures Sub(t, Reconcile(savedLast, savedMillis, bootMillis))
         == Add(Sub(savedMillis, savedLast), Sub(t, bootMillis))
  {
  }

  /// When the save happened at the irrigation instant itself, the rebased
  /// elapsed time is exactly the time since boot.
  lemma ElapsedAfterRebootSavedAtOnce(saved: u32, bootMillis: u32, t: u32)
    ensures Sub(t, Reconcile(saved, saved, bootMillis)) == Sub(t, bootMillis)
  {
  }
}

/// The decisions of the control loop and the countdown reported to the web
/// page, on 32-bit `millis()` timestamps.
module Scheduler {
  import opened CInt

  /// The sensor is read when at least `waitTime` ms have passed since the last
  /// reading (unsigned subtraction, so the test survives the wrap of `millis()`).
  predicate SampleDue(now: u32, lastRead: u32, waitTime: u32): (r: bool)
    ensures lastRead <= now ==> (r <==> now - lastRead >= waitTime)
    ensures now < lastRead ==> (r <==> TWO_32 + now - lastRead >= waitTime)
    ensures waitTime == 0 ==> r
  {
    Sub(now, lastRead) >= waitTime
  }

  /// The three guards of automatic irrigation: enabled, soil drier than the
  /// set point, and strictly more than the cooldown elapsed since the last
  /// irrigation.
  predicate AutoDue(enabled: bool, moisture: int, setPoint: int, now: u32, last: u32, cooldown: u32): (r: bool)
    ensures r ==> enabled && moisture < setPoint
    ensures last <= now ==> (r <==> enabled && moisture < setPoint && now - last > cooldown)
    ensures now < last ==> (r <==> enabled && moisture < setPoint && TWO_32 + now - last > cooldown)
    ensures cooldown == TWO_32 - 1 ==> !r
  {
    enabled && moisture < setPoint && Sub(now, last) > cooldown
  }

  /// Seconds until automatic irrigation is allowed again, as the `/next_irrigation`
  /// handler means to report it: zero when automatic irrigation is off, the
  /// soil is wet enough or the cooldown is over, and otherwise the remaining
  /// cooldown in whole seconds. The remaining time is computed on unbounded
  /// integers, so it agrees with the loop's unsigned test for every elapsed time.
  function SecondsToNext(enabled: bool, moisture: int, setPoint: int, now: u32, last: u32, cooldown: u32): (r: nat)
    ensures !enabled || moisture >= setPoint ==> r == 0
    ensures AutoDue(enabled, moisture, setPoint, now, last, cooldown) ==> r == 0
    ensures r == 0 && enabled && moisture < setPoint ==> cooldown < Sub(now, last) + 1000
    ensures r > 0 ==> 1000 * r <= cooldown - Sub(now, last) < 1000 * r + 1000
  {
    var elapsed := Sub(now, last);
    if !enabled || moisture >= setPoint || elapsed >= cooldown then 0
    else (cooldown - elapsed) / 1000
  }

  /// The `/next_irrigation` handler as written: both operands are cast to a
  /// 32-bit `long` before the subtraction, the result is clamped at zero and
  /// divided by 1000.
  function SecondsToNextAsWritten(enabled: bool, moisture: int, setPoint: int, now: u32, last: u32, cooldown: u32): (r: int)
    ensures 0 <= r < TWO_31 / 1000 + 1
    ensures !enabled || moisture >= setPoint ==> r == 0
  {
    var timeLeft := WrapI32(ToI32(cooldown) - ToI32(Sub(now, last)));
    var gated := if !enabled || moisture >= setPoint then 0 else timeLeft;
    var clamped := if gated < 0 then 0 else gated;
    clamped / 1000
  }

  /// While the cooldown and the elapsed time both fit in a signed 32-bit value
  /// (under 24.8 days), the handler as written reports the intended countdown.
  lemma AsWrittenAgreesBelow2To31(enabled: bool, moisture: int, setPoint: int, now: u32, last: u32, cooldown: u32)
    requires cooldown < TWO_31 && Sub(now, last) < TWO_31
    ensures SecondsToNextAsWritten(enabled, moisture, setPoint, now, last, cooldown)
         == SecondsToNext(enabled, moisture, setPoint, now, last, cooldown)
  {
  }

  /// With the default cooldown of 18 minutes and 2^31 + 2^30 ms since the last
  /// irrigation, the loop irrigates at once, but the handler as written reads
  /// the elapsed time as -2^30 and reports a wait of 1074821 s (about 12 days).
  lemma AsWrittenReportsWaitWhenDue()
    ensures AutoDue(true, 10, 18, TWO_31 + 0x4000_0000, 0, 1080000)
    ensures SecondsToNextAsWritten(true, 10, 18, TWO_31 + 0x4000_0000, 0, 1080000) == 1074821
    ensures SecondsToNext(true, 10, 18, TWO_31 + 0x4000_0000, 0, 1080000) == 0
  {
  }

  /// Once the elapsed time reaches 2^31 ms (with a cooldown below 2^31 ms) the
  /// loop's guard fires, but the handler as written reads the elapsed time as
  /// negative. Up to 2^31 ms past the cooldown the signed subtraction
  /// overflows and the assumed wrap gives a negative value, clamped to 0;
  /// beyond that the handler reports the positive wait
  /// (cooldown + 2^32 - elapsed) / 1000, from about 24.8 days down to about
  /// the cooldown.
  lemma AsWrittenOnceElapsedWraps(moisture: int, setPoint: int, now: u32, last: u32, cooldown: u32)
    requires moisture < setPoint && cooldown < TWO_31 && Sub(now, last) >= TWO_31
    ensures AutoDue(true, moisture, setPoint, now, last, cooldown)
    ensures SecondsToNext(true, moisture, setPoint, now, last, cooldown) == 0
    ensures Sub(now, last) <= TWO_31 + cooldown
        ==> SecondsToNextAsWritten(true, moisture, setPoint, now, last, cooldown) == 0
    ensures Sub(now, last) > TWO_31 + cooldown
        ==> SecondsToNextAsWritten(true, moisture, setPoint, now, last, cooldown)
            == (cooldown + TWO_32 - Sub(now, last)) / 1000
  {
  }

  /// A cooldown of 2^31 ms or more, which `/set` can store, reads as negative
  /// in the handler as written: while it is still at least 2^31 ms ahead of
  /// the elapsed time, the handler reports 0 although the guard will not fire.
  lemma AsWrittenOnLongCooldown(moisture: int, setPoint: int, now: u32, last: u32, cooldown: u32)
    requires moisture < setPoint && Sub(now, last) < TWO_31 && cooldown - Sub(now, last) >= TWO_31
    ensures !AutoDue(true, moisture, setPoint, now, last, cooldown)
    ensures SecondsToNextAsWritten(true, moisture, setPoint, now, last, cooldown) == 0
    ensures SecondsToNext(true, moisture, setPoint, now, last, cooldown) == (cooldown - Sub(now, last)) / 1000 > 0
  {
  }

  /// A cooldown of 3 * 10^9 ms and 1 s since the last irrigation: the handler
  /// as written reports 0, the intended countdown is 2999999 s.
  lemma AsWrittenZeroOnLongCooldown()
    ensures !AutoDue(true, 10, 18, 1000, 0, 3000000000)
    ensures SecondsToNextAsWritten(true, 10, 18, 1000, 0, 3000000000) == 0
    ensures SecondsToNext(true, 10, 18, 1000, 0, 3000000000) == 2999999
  {
  }
}

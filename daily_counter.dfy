/// The per-day count of automatic irrigations. Each pass of the control loop
/// first compares the current day of the year with the day last stored and
/// zeroes the count when they differ, then adds one if the pass irrigated
/// automatically.
module DailyCounter {
  /// What one pass of the loop contributes: the day of the year it saw and
  /// whether it irrigated automatically.
  datatype Pass = Pass(day: int, fired: bool)

  /// The count after the day check of one pass.
  function Rollover(count: int, lastDay: int, today: int): (r: int)
    ensures lastDay == today ==> r == count
    ensures lastDay != today ==> r == 0
  {
    if lastDay != today then 0 else count
  }

  /// The stored day after a run of passes.
  function DayAfter(lastDay: int, passes: seq<Pass>): int
  {
    if passes == [] then lastDay else passes[|passes| - 1].day
  }

  /// The count after a run of passes, one day check and one optional
  /// increment per pass, as the loop performs them.
  function CountAfter(count: int, lastDay: int, passes: seq<Pass>): (r: int)
    ensures count >= 0 ==> 0 <= r <= count + |passes|
    ensures count >= 0 && passes != [] && passes[|passes| - 1].fired ==> r >= 1
  {
    if passes == [] then count
    else
      var before := passes[..|passes| - 1];
      var p := passes[|passes| - 1];
      Rollover(CountAfter(count, lastDay, before), DayAfter(lastDay, before), p.day)
        + (if p.fired then 1 else 0)
  }

  /// A single pass: the day check, then one more if the pass irrigated.
  lemma CountAfterOne(count: int, lastDay: int, p: Pass)
    ensures CountAfter(count, lastDay, [p]) == Rollover(count, lastDay, p.day) + (if p.fired then 1 else 0)
  {
    assert [p][..0] == [];
  }

  /// Number of automatic irrigations in a run of passes.
  function Fires(passes: seq<Pass>): nat
  {
    if passes == [] then 0
    else Fires(passes[..|passes| - 1]) + (if passes[|passes| - 1].fired then 1 else 0)
  }

  /// Index of the first pass of the final stretch of passes that saw the same
  /// day as the last one.
  function TodayStart(passes: seq<Pass>): (k: nat)
    requires passes != []
    ensures k < |passes|
    ensures forall j :: k <= j < |passes| ==> passes[j].day == passes[|passes| - 1].day
    ensures k > 0 ==> passes[k - 1].day != passes[|passes| - 1].day
  {
    if |passes| == 1 then 0
    else if passes[|passes| - 2].day != passes[|passes| - 1].day then |passes| - 1
    else TodayStart(passes[..|passes| - 1])
  }

  /// What the count should be: the automatic irrigations since the day last
  /// changed, plus the starting count when the day never changed.
  function CountToday(count: int, lastDay: int, passes: seq<Pass>): int
  {
    if passes == [] then count
    else
      var k := TodayStart(passes);
      (if k == 0 && lastDay == passes[0].day then count else 0) + Fires(passes[k..])
  }

  /// A single pass irrigates once or not at all.
  lemma FiresOne(p: Pass)
    ensures Fires([p]) == (if p.fired then 1 else 0)
  {
    assert [p][..0] == [];
  }

  /// The first pass of a run: the count survives only if the stored day is
  /// the day of that pass.
  lemma CountTodayFirstPass(count: int, lastDay: int, p: Pass)
    ensures CountAfter(count, lastDay, [p]) == CountToday(count, lastDay, [p])
  {
    CountAfterOne(count, lastDay, p);
    assert TodayStart([p]) == 0;
    assert [p][0..] == [p];
    FiresOne(p);
  }

  /// A pass on the same day as the one before it extends the current day by
  /// one pass.
  lemma CountTodaySameDay(count: int, lastDay: int, before: seq<Pass>, p: Pass)
    requires before != [] && before[|before| - 1].day == p.day
    ensures CountToday(count, lastDay, before + [p])
         == CountToday(count, lastDay, before) + (if p.fired then 1 else 0)
  {
    var passes := before + [p];
    var k := TodayStart(before);
    assert passes[..|passes| - 1] == before;
    assert TodayStart(passes) == k;
    var t := passes[k..];
    assert t[..|t| - 1] == before[k..];
    assert t[|t| - 1] == p;
    assert Fires(t) == Fires(before[k..]) + (if p.fired then 1 else 0);
    assert passes[0] == before[0];
  }

  /// A pass on a new day starts the count of that day from this pass alone.
  lemma CountTodayNewDay(count: int, lastDay: int, before: seq<Pass>, p: Pass)
    requires before != [] && before[|before| - 1].day != p.day
    ensures CountToday(count, lastDay, before + [p]) == (if p.fired then 1 else 0)
  {
    var passes := before + [p];
    assert passes[|passes| - 2] == before[|before| - 1];
    assert TodayStart(passes) == |passes| - 1;
    assert passes[|passes| - 1..] == [p];
    FiresOne(p);
  }

  /// The loop's counter counts exactly the automatic irrigations of the
  /// current day: it is reset once each time the day changes and never in
  /// between.
  lemma {:induction false} CountAfterIsCountToday(count: int, lastDay: int, passes: seq<Pass>)
    ensures CountAfter(count, lastDay, passes) == CountToday(count, lastDay, passes)
  {
    if passes != [] {
      var before := passes[..|passes| - 1];
      var p := passes[|passes| - 1];
      assert passes == before + [p];
      if before == [] {
        CountTodayFirstPass(count, lastDay, p);
      } else {
        CountAfterIsCountToday(count, lastDay, before);
        assert DayAfter(lastDay, before) == before[|before| - 1].day;
        if before[|before| - 1].day == p.day {
          CountTodaySameDay(count, lastDay, before, p);
        } else {
          CountTodayNewDay(count, lastDay, before, p);
        }
      }
    }
  }

  /// Within one day the count never decreases.
  lemma {:induction false} CountMonotoneWithinDay(count: int, lastDay: int, passes: seq<Pass>, p: Pass)
    requires p.day == DayAfter(lastDay, passes)
    ensures CountAfter(count, lastDay, passes + [p]) >= CountAfter(count, lastDay, passes)
  {
    assert (passes + [p])[..|passes|] == passes;
  }
}

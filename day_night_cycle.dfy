/**
 * The day-night sky: the period of the day chosen from the clock's hour,
 * whether the sun or the moon is shown, and how far along its arc it is.
 * The placement on screen (the sine and cosine of the progress) is not
 * modelled; the progress fractions are exact rationals.
 */
module DayNightCycle {

  datatype TimeOfDay = Dawn | Day | Dusk | Night

  /** A clock reading as `getHours()` and `getMinutes()` give it. */
  predicate ValidClock(hour: int, minute: int) {
    0 <= hour < 24 && 0 <= minute < 60
  }

  /** The hour classification in `updateTime`. */
  function TimeOfDayAt(hour: int): (t: TimeOfDay)
    ensures t == Dawn <==> 5 <= hour < 8
    ensures t == Day <==> 8 <= hour < 17
    ensures t == Dusk <==> 17 <= hour < 20
    ensures t == Night <==> hour < 5 || hour >= 20
  {
    if hour >= 5 && hour < 8 then Dawn
    else if hour >= 8 && hour < 17 then Day
    else if hour >= 17 && hour < 20 then Dusk
    else Night
  }

  /** What `getSunMoonPosition` shows, with its progress along the arc instead of screen coordinates. */
  datatype CelestialBody = Sun(dayProgress: real) | Moon(nightProgress: real)

  /** The minutes since midnight. */
  function TotalMinutes(hour: int, minute: int): int {
    hour * 60 + minute
  }

  /** `getSunMoonPosition`: the sun from 06:00 to 17:59, the moon otherwise. */
  function SunMoonPosition(hour: int, minute: int): (b: CelestialBody)
    ensures b.Sun? <==> 6 <= hour < 18
  {
    var totalMinutes := TotalMinutes(hour, minute);
    if hour >= 6 && hour < 18 then
      Sun((totalMinutes - 360) as real / (1080 - 360) as real)
    else
      var nightStart := if hour >= 18 then hour else hour + 24;
      Moon(((nightStart * 60 + minute) - 1080) as real / (1440 - 1080 + 300) as real)
  }

  /** While the sun is shown its progress runs from 0 at 06:00 up to, but not reaching, 1. */
  lemma DayProgressInUnit(hour: int, minute: int)
    requires ValidClock(hour, minute) && 6 <= hour < 18
    ensures 0.0 <= SunMoonPosition(hour, minute).dayProgress < 1.0
  {
    var t := TotalMinutes(hour, minute);
    assert 0 <= t - 360 < 720;
  }

  /** Later in the day means further along the sun's arc; the same time, the same point. */
  lemma DayProgressMonotone(h1: int, m1: int, h2: int, m2: int)
    requires ValidClock(h1, m1) && ValidClock(h2, m2)
    requires 6 <= h1 < 18 && 6 <= h2 < 18
    requires TotalMinutes(h1, m1) <= TotalMinutes(h2, m2)
    ensures SunMoonPosition(h1, m1).dayProgress <= SunMoonPosition(h2, m2).dayProgress
    ensures TotalMinutes(h1, m1) < TotalMinutes(h2, m2) ==>
              SunMoonPosition(h1, m1).dayProgress < SunMoonPosition(h2, m2).dayProgress
  {
  }

  /**
   * The moon's progress is never negative, and it passes 1 exactly for the
   * moon times after 05:00: the divisor covers 18:00 to 05:00 only.
   */
  lemma NightProgressRange(hour: int, minute: int)
    requires ValidClock(hour, minute) && !(6 <= hour < 18)
    ensures 0.0 <= SunMoonPosition(hour, minute).nightProgress
    ensures SunMoonPosition(hour, minute).nightProgress > 1.0 <==> hour < 6 && TotalMinutes(hour, minute) > 300
  {
    var p := SunMoonPosition(hour, minute).nightProgress;
    if hour >= 18 {
      assert 0 <= TotalMinutes(hour, minute) - 1080 < 360;
    } else {
      var n := TotalMinutes(hour + 24, minute) - 1080;
      assert n == TotalMinutes(hour, minute) + 360;
      assert p == n as real / 660.0;
      assert p > 1.0 <==> n > 660;
    }
  }

  /** At 05:xx the sky is already dawn while the moon is still up; at 17:xx it is dusk under the sun. */
  lemma PeriodAndBodyDisagree(minute: int)
    requires 0 <= minute < 60
    ensures TimeOfDayAt(5) == Dawn && SunMoonPosition(5, minute).Moon?
    ensures TimeOfDayAt(17) == Dusk && SunMoonPosition(17, minute).Sun?
  {
  }

  /** The stars are rendered only in the night period. */
  predicate StarsVisible(t: TimeOfDay) {
    t == Night
  }

  /** Stars are shown exactly before 05:00 and from 20:00, and never while the sun is up. */
  lemma StarsOnlyAtNight(hour: int, minute: int)
    requires ValidClock(hour, minute)
    ensures StarsVisible(TimeOfDayAt(hour)) <==> hour < 5 || hour >= 20
    ensures StarsVisible(TimeOfDayAt(hour)) ==> SunMoonPosition(hour, minute).Moon?
  {
  }
}

/**
 * The ambient weather layer: a three-state weather cycle advanced by a
 * timer, and the fixed-size rain-drop and sun-ray tables it renders.
 * The timer's ticks are explicit calls and every `Math.random()` value is a
 * parameter.
 */
module WeatherEffects {
  import opened JsMath

  datatype Weather = Clear | Rain | Mist

  /** The `weather` array of the interval callback. */
  const WeatherCycle: seq<Weather> := [Clear, Rain, Mist]

  /** `xs.indexOf(x)`: the first index holding `x`, or -1 when there is none. */
  function IndexOf<T(==)>(xs: seq<T>, x: T): (i: int)
    ensures -1 <= i < |xs|
    ensures i >= 0 ==> xs[i] == x && forall k :: 0 <= k < i ==> xs[k] != x
    ensures i == -1 <==> x !in xs
  {
    IndexFrom(xs, x, 0)
  }

  /** The first index at or after `from` holding `x`, or -1. */
  function IndexFrom<T(==)>(xs: seq<T>, x: T, from: nat): (i: int)
    requires from <= |xs|
    requires forall k :: 0 <= k < from ==> xs[k] != x
    ensures -1 <= i < |xs|
    ensures i >= 0 ==> from <= i && xs[i] == x && forall k :: 0 <= k < i ==> xs[k] != x
    ensures i == -1 <==> x !in xs
    decreases |xs| - from
  {
    if from == |xs| then -1
    else if xs[from] == x then from
    else IndexFrom(xs, x, from + 1)
  }

  /** The state the interval callback moves to: the next entry of the cycle, wrapping around. */
  function NextWeather(prev: Weather): (next: Weather)
    ensures next != prev
  {
    var currentIndex := IndexOf(WeatherCycle, prev);
    WeatherCycle[(currentIndex + 1) % |WeatherCycle|]
  }

  /** Every state is in the cycle, so `indexOf` never yields -1. */
  lemma IndexNeverMissing(w: Weather)
    ensures IndexOf(WeatherCycle, w) != -1
  {
    assert w in WeatherCycle;
  }

  /** Clear turns to rain, rain to mist, and mist back to clear. */
  lemma SuccessorTable()
    ensures NextWeather(Clear) == Rain
    ensures NextWeather(Rain) == Mist
    ensures NextWeather(Mist) == Clear
  {
    IndexNeverMissing(Clear);
    IndexNeverMissing(Rain);
    IndexNeverMissing(Mist);
  }

  /** Every step changes the weather, and three steps bring it back. */
  lemma CycleOfThree(w: Weather)
    ensures NextWeather(w) != w
    ensures NextWeather(NextWeather(NextWeather(w))) == w
  {
    SuccessorTable();
  }

  /** The weather after `n` ticks from `w`. */
  function Advanced(w: Weather, n: nat): Weather {
    if n == 0 then w else NextWeather(Advanced(w, n - 1))
  }

  /** The weather only depends on the number of ticks modulo three. */
  lemma {:induction false} AdvancedPeriodic(w: Weather, n: nat)
    ensures Advanced(w, n + 3) == Advanced(w, n)
  {
    if n == 0 {
      CycleOfThree(w);
      assert Advanced(w, 1) == NextWeather(w);
      assert Advanced(w, 2) == NextWeather(NextWeather(w));
    } else {
      AdvancedPeriodic(w, n - 1);
      assert Advanced(w, n + 3) == NextWeather(Advanced(w, n + 2));
    }
  }

  /** The weather state of the component. */
  class WeatherEffects {
    var currentWeather: Weather

    constructor ()
      ensures currentWeather == Clear
    {
      currentWeather := Clear;
    }

    /** One interval tick. */
    method Advance()
      modifies this`currentWeather
      ensures currentWeather == NextWeather(old(currentWeather))
      ensures currentWeather != old(currentWeather)
    {
      var weather := WeatherCycle;
      var currentIndex := IndexOf(weather, currentWeather);
      CycleOfThree(currentWeather);
      currentWeather := weather[(currentIndex + 1) % |weather|];
    }
  }

  /** A rain drop: horizontal position, start delay and fall duration. */
  datatype RainDrop = RainDrop(id: nat, left: real, delay: real, duration: real)

  /** The three draws of one rain drop, in call order. */
  datatype DropDraws = DropDraws(left: real, delay: real, duration: real)

  predicate ValidDropDraws(d: DropDraws) {
    IsUnit(d.left) && IsUnit(d.delay) && IsUnit(d.duration)
  }

  const RainDropCount := 80
  const SunRayCount := 8

  /** `rainDrops`: 80 drops with positions in [0, 100), delays in [0, 2) and durations in [1, 1.5). */
  function RainDrops(draws: seq<DropDraws>): (drops: seq<RainDrop>)
    requires |draws| == RainDropCount && forall i :: 0 <= i < |draws| ==> ValidDropDraws(draws[i])
    ensures |drops| == RainDropCount
    ensures forall i :: 0 <= i < |drops| ==> drops[i].id == i
    ensures forall i :: 0 <= i < |drops| ==>
              0.0 <= drops[i].left < 100.0 && 0.0 <= drops[i].delay < 2.0 && 1.0 <= drops[i].duration < 1.5
  {
    var drops := seq(RainDropCount, i requires 0 <= i < RainDropCount =>
      RainDrop(i, draws[i].left * 100.0, draws[i].delay * 2.0, 1.0 + draws[i].duration * 0.5));
    assert forall i :: 0 <= i < RainDropCount ==>
             ValidDropDraws(draws[i]) && drops[i].left == draws[i].left * 100.0
             && drops[i].delay == draws[i].delay * 2.0 && drops[i].duration == 1.0 + draws[i].duration * 0.5;
    drops
  }

  /** A sun ray: fan angle in degrees, opacity and start delay. */
  datatype SunRay = SunRay(id: nat, angle: real, opacity: real, delay: real)

  /** `sunRays`: 8 rays fanned 45 degrees apart from -22.5, with opacities in [0.1, 0.2) and staggered delays. */
  function SunRays(opacityDraws: seq<real>): (rays: seq<SunRay>)
    requires |opacityDraws| == SunRayCount && forall i :: 0 <= i < |opacityDraws| ==> IsUnit(opacityDraws[i])
    ensures |rays| == SunRayCount
    ensures forall i :: 0 <= i < |rays| ==> rays[i].id == i && rays[i].angle == (i * 45) as real - 22.5
    ensures forall i :: 0 <= i < |rays| ==> 0.1 <= rays[i].opacity < 0.2
    ensures forall i :: 0 <= i < |rays| ==> rays[i].delay == i as real * 0.2
  {
    var rays := seq(SunRayCount, i requires 0 <= i < SunRayCount =>
      SunRay(i, (i * 45) as real - 22.5, 0.1 + opacityDraws[i] * 0.1, i as real * 0.2));
    assert forall i :: 0 <= i < SunRayCount ==> IsUnit(opacityDraws[i]) && rays[i].opacity == 0.1 + opacityDraws[i] * 0.1;
    rays
  }

  /** Consecutive rays are 45 degrees apart and the fan spans -22.5 to 292.5 degrees. */
  lemma SunRayFan(opacityDraws: seq<real>, i: nat)
    requires |opacityDraws| == SunRayCount && forall k :: 0 <= k < |opacityDraws| ==> IsUnit(opacityDraws[k])
    requires i + 1 < SunRayCount
    ensures SunRays(opacityDraws)[i + 1].angle - SunRays(opacityDraws)[i].angle == 45.0
    ensures -22.5 <= SunRays(opacityDraws)[i].angle && SunRays(opacityDraws)[i + 1].angle <= 292.5
  {
  }
}

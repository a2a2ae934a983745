/** What the moving test aircraft share: angles in degrees, the trigonometry they are computed with,
    and the clock arithmetic of a dead-reckoning tick. */
module Kinematics {
  import opened Algebra
  import opened Basics

  const KT_TO_MPS := 0.514444
  const MAX_STEP_S := 30.0

  /** Sine and cosine of an angle in degrees, and `atan2(east, north)` in degrees. */
  datatype Trig = Trig(cos: real -> real, sin: real -> real, atan2: (real, real) -> real) {
    function Cos(a: real): real { cos(a) }

    function Sin(a: real): real { sin(a) }

    function Atan2(east: real, north: real): real { atan2(east, north) }

    /** On the unit circle, and opposite half a turn on. */
    ghost predicate Circle(a: real) {
      && Cos(a) * Cos(a) + Sin(a) * Sin(a) == 1.0
      && Cos(a + 180.0) == -Cos(a) && Sin(a + 180.0) == -Sin(a)
    }

    ghost predicate Sound() {
      && (forall a :: Circle(a))
      && (forall east, north :: -180.0 < Atan2(east, north) <= 180.0)
      && (forall east, north :: exists l :: Polar(l, Atan2(east, north), east, north))
    }

    /** Distance l in direction a is (east, north). */
    ghost predicate Polar(l: real, a: real, east: real, north: real) {
      l >= 0.0 && north == l * Cos(a) && east == l * Sin(a)
    }

    /** A compass bearing: `atan2` brought into [0, 360). */
    function Bearing(east: real, north: real): real {
      var b := Atan2(east, north);
      if b < 0.0 then b + 360.0 else b
    }
  }

  /** The trigonometry and the longitude scale positions move by. */
  datatype Sky = Sky(trig: Trig, scale: LonScale)

  /** Seconds since the last step; anything negative or above half a minute is replaced by the
      nominal tick. */
  function StepSeconds(last: int, now: int, tickMs: nat): (dt: real)
    requires tickMs <= 30000
    ensures 0.0 <= dt <= MAX_STEP_S
  {
    var dt := (now - last) as real / 1000.0;
    if dt < 0.0 || dt > MAX_STEP_S then tickMs as real / 1000.0 else dt
  }

  /** In milliseconds: the time since the last step, unless the clock went back or more than half a minute
      has passed; then a nominal tick, however late it is. */
  lemma StepMs(last: int, now: int, tickMs: nat)
    requires tickMs <= 30000
    ensures var ms := StepSeconds(last, now, tickMs) * 1000.0;
            && (last <= now <= last + 30000 ==> ms == (now - last) as real)
            && (now < last || now > last + 30000 ==> ms == tickMs as real)
  {
  }

  /** A coordinate moved by a distance, given degrees per metre. */
  function Moved(deg: real, metres: real, k: real): real { deg + metres * k }

  function Scaled(rho: real, x: real): real { rho * x }

  /** One scale over another. */
  function Ratio(k0: real, k1: real): real
    requires k1 != 0.0
  {
    k0 / k1
  }

  function Seconds(ms: int): real { ms as real / 1000.0 }

  function LastTick(start: int, ticks: seq<int>): int { if ticks == [] then start else ticks[|ticks| - 1] }

  /** Ticks in order, none more than half a minute after the one before. */
  ghost predicate OnSchedule(start: int, ticks: seq<int>) {
    forall i :: 0 <= i < |ticks| ==> LastTick(start, ticks[..i]) <= ticks[i] <= LastTick(start, ticks[..i]) + 30000
  }

  lemma SchedulePrefix(start: int, ticks: seq<int>)
    requires OnSchedule(start, ticks) && ticks != []
    ensures OnSchedule(start, ticks[..|ticks| - 1])
    ensures var last := LastTick(start, ticks[..|ticks| - 1]); last <= ticks[|ticks| - 1] <= last + 30000
  {
    var m := |ticks| - 1;
    forall i | 0 <= i < m
      ensures ticks[..m][..i] == ticks[..i] && ticks[..m][i] == ticks[i]
    {
    }
  }

  /** A `double` converted to an integer loses its fraction towards zero. */
  function Trunc(x: real): int {
    if x >= 0.0 then x.Floor else -(-x).Floor
  }

  // ---- angles -----------------------------------------------------------------------

  /** k whole turns in degrees. */
  function Turns(k: int): real { 360.0 * k as real }

  ghost predicate SameDirection(a: real, b: real) {
    exists k: int :: a == b + Turns(k)
  }

  /** The representative of a direction in (-180, 180]. */
  function Wrap(a: real): real {
    a + Turns(((180.0 - a) / 360.0).Floor)
  }

  lemma TurnsGap(j: int, k: int)
    ensures Turns(j) - Turns(k) == Turns(j - k)
    ensures -360.0 < Turns(j) - Turns(k) < 360.0 ==> j == k
  {
  }

  /** Wrap is the one number of its range with the same direction. */
  lemma WrapUnique(a: real, r: real)
    ensures r == Wrap(a) <==> -180.0 < r <= 180.0 && SameDirection(a, r)
  {
    var f := ((180.0 - a) / 360.0).Floor;
    assert f as real <= (180.0 - a) / 360.0 < f as real + 1.0;
    assert -180.0 < Wrap(a) <= 180.0;
    assert a == Wrap(a) + Turns(-f);
    if -180.0 < r <= 180.0 && SameDirection(a, r) {
      var k :| a == r + Turns(k);
      TurnsGap(k, -f);
    }
  }

  /** The two loops of `wrap_180` end on the wrapped angle, however many turns off they start. */
  method Wrap180(a: real) returns (r: real)
    ensures r == Wrap(a)
    ensures -180.0 < r <= 180.0 && SameDirection(a, r)
  {
    r := a;
    ghost var k: int := 0;
    while r > 180.0
      invariant a == r + Turns(k)
      invariant r > -180.0 || r == a
      decreases r
    {
      r := r - 360.0;
      k := k + 1;
    }
    while r <= -180.0
      invariant a == r + Turns(k) && r <= 180.0
      decreases -r
    {
      r := r + 360.0;
      k := k - 1;
    }
    WrapUnique(a, r);
  }

  /** `fmod(x, 360)`: the remainder keeps the sign of x. */
  function Fmod360(x: real): real {
    x - Turns(Trunc(x / 360.0))
  }

  lemma FmodRange(x: real)
    ensures SameDirection(Fmod360(x), x)
    ensures x >= 0.0 ==> 0.0 <= Fmod360(x) < 360.0
  {
    var k := Trunc(x / 360.0);
    assert Fmod360(x) == x + Turns(-k);
    if x >= 0.0 {
      assert k as real <= x / 360.0 < k as real + 1.0;
    }
  }

  /** The smaller angle between two headings. */
  function Gap(h: real, d: real): real { AbsReal(Wrap(d - h)) }

  function Clamp(x: real, m: real): real {
    if x > m then m else if x < -m then -m else x
  }

  /** One steering step towards `desired` with the turn limited to `most` degrees. */
  function Steer(h: real, desired: real, most: real): real {
    Fmod360(h + Clamp(Wrap(desired - h), most) + 360.0)
  }

  /** What is left of a distance after a step along it. */
  function Less(x: real, step: real): real { if x > step then x - step else 0.0 }

  /** A steering step keeps the heading on the compass, turns by no more than allowed, and takes
      exactly what was allowed off the gap. */
  lemma SteerGap(h: real, d: real, most: real)
    requires 0.0 <= h < 360.0 && most >= 0.0
    ensures 0.0 <= Steer(h, d, most) < 360.0
    ensures Gap(Steer(h, d, most), d) == Less(Gap(h, d), most)
    ensures Gap(h, Steer(h, d, most)) <= most
  {
    var w := Wrap(d - h);
    WrapUnique(d - h, w);
    var c := Clamp(w, most);
    var raw := h + c + 360.0;
    FmodRange(raw);
    var h2 := Steer(h, d, most);
    var j: int :| h2 == raw + Turns(j);
    var k: int :| d - h == w + Turns(k);
    assert d - h2 == (w - c) + Turns(k - j - 1);
    WrapUnique(d - h2, w - c);
    assert h2 - h == c + Turns(j + 1);
    WrapUnique(h2 - h, c);
  }

  function Sum(xs: seq<real>): real {
    if xs == [] then 0.0 else Sum(xs[..|xs| - 1]) + xs[|xs| - 1]
  }

  function SteerAll(h: real, d: real, steps: seq<real>): real {
    if steps == [] then h else Steer(SteerAll(h, d, steps[..|steps| - 1]), d, steps[|steps| - 1])
  }

  /** Over a whole run of ticks with the bearing held, the gap shrinks by the sum of the allowed
      turns: the heading arrives exactly when the sum reaches the initial gap, and then stays. */
  lemma {:induction false} SteerAllGap(h: real, d: real, steps: seq<real>)
    requires 0.0 <= h < 360.0 && forall i :: 0 <= i < |steps| ==> steps[i] >= 0.0
    ensures Sum(steps) >= 0.0
    ensures 0.0 <= SteerAll(h, d, steps) < 360.0
    ensures Gap(SteerAll(h, d, steps), d) == Less(Gap(h, d), Sum(steps))
    ensures 0.0 <= d < 360.0 ==> (SteerAll(h, d, steps) == d <==> Gap(h, d) <= Sum(steps))
  {
    hide Wrap, Fmod360, Steer;
    if steps != [] {
      var m := |steps| - 1;
      SteerAllGap(h, d, steps[..m]);
      SteerGap(SteerAll(h, d, steps[..m]), d, steps[m]);
    }
    if 0.0 <= d < 360.0 {
      GapZero(SteerAll(h, d, steps), d);
    }
  }

  lemma GapZero(h: real, d: real)
    requires 0.0 <= h < 360.0 && 0.0 <= d < 360.0
    ensures Gap(h, d) == 0.0 <==> h == d
  {
    WrapUnique(d - h, Wrap(d - h));
    if Wrap(d - h) == 0.0 {
      var k: int :| d - h == 0.0 + Turns(k);
      TurnsGap(k, 0);
    }
    if h == d {
      assert 0.0 == 0.0 + Turns(0);
      WrapUnique(0.0, 0.0);
    }
  }

  /** Whole turns change neither sine nor cosine. */
  lemma {:induction false} TurnsPeriod(trig: Trig, a: real, k: int)
    requires trig.Sound()
    ensures trig.Cos(a + Turns(k)) == trig.Cos(a) && trig.Sin(a + Turns(k)) == trig.Sin(a)
    decreases if k < 0 then -k else k
  {
    if k > 0 {
      TurnsPeriod(trig, a, k - 1);
      TurnOnce(trig, a + Turns(k - 1));
    } else if k < 0 {
      TurnsPeriod(trig, a, k + 1);
      TurnOnce(trig, a + Turns(k));
    }
  }

  lemma TurnOnce(trig: Trig, a: real)
    requires trig.Sound()
    ensures trig.Cos(a + 360.0) == trig.Cos(a) && trig.Sin(a + 360.0) == trig.Sin(a)
  {
    assert trig.Circle(a) && trig.Circle(a + 180.0);
    assert a + 180.0 + 180.0 == a + 360.0;
  }

  lemma BearingRange(trig: Trig, east: real, north: real)
    requires trig.Sound()
    ensures 0.0 <= trig.Bearing(east, north) < 360.0
  {
    assert -180.0 < trig.Atan2(east, north) <= 180.0;
  }

  lemma BearingPolar(trig: Trig, east: real, north: real) returns (l: real)
    requires trig.Sound()
    ensures trig.Polar(l, trig.Bearing(east, north), east, north)
  {
    var b := trig.Atan2(east, north);
    l :| trig.Polar(l, b, east, north);
    assert trig.Circle(b) && trig.Circle(b + 180.0);
    assert b + 180.0 + 180.0 == b + 360.0;
  }
}

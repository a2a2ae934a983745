/** Closest approach of two aircraft and the threat level drawn from it. */
module Approach {
  import opened Algebra
  import opened Basics
  import opened AircraftDbSpec

  const WARNING_SEP_M := 500.0
  const WARNING_TCA_S := 30.0
  const ADVISORY_SEP_M := 1000.0
  const ADVISORY_TCA_S := 60.0
  const CRASH_SEP_M := 100.0
  const CRASH_VERT_FT := 328
  const VERTICAL_SEP_FT := 1000
  const IMMINENT_TCA_S := 0.5
  const IMMINENT_RANGE_M := 300.0

  datatype Level = Clear | Advisory | Warning | Crash

  /** One aircraft as the detector snapshots it. */
  datatype SnapRow = SnapRow(
    icao: Icao, lat: real, lon: real, vNorth: real, vEast: real, altFt: int, vValid: bool, altValid: bool)

  /** The square root and the longitude scale the geometry is computed with. */
  datatype Geo = Geo(sqrt: real -> real, scale: LonScale) {
    ghost predicate Sound() {
      forall x :: x >= 0.0 ==> sqrt(x) >= 0.0 && sqrt(x) * sqrt(x) == x
    }

    function Length(x: real, y: real): real { sqrt(Norm2(x, y)) }
  }

  function Norm2(x: real, y: real): real { x * x + y * y }

  function Dot(x: real, y: real, u: real, v: real): real { x * u + y * v }

  /** A difference in degrees as metres, given degrees per metre. */
  function Metres(deg: real, k: real): real
    requires k != 0.0
  {
    deg / k
  }

  function At(x: real, v: real, t: real): real { x + v * t }

  /** Position and velocity of `b` relative to `a`, in metres east (x) and north (y). */
  datatype Rel = Rel(x: real, y: real, vx: real, vy: real) {
    function AfterTime(t: real): Rel { Rel(At(x, vx, t), At(y, vy, t), vx, vy) }
  }

  function Mid(x: real, y: real): real { 0.5 * (x + y) }

  function Relative(a: SnapRow, b: SnapRow, scale: LonScale): Rel {
    var latMid := Mid(a.lat, b.lat);
    Rel(Metres(b.lon - a.lon, DegPerMLon(scale, latMid)), Metres(b.lat - a.lat, DEG_PER_M_LAT),
        b.vEast - a.vEast, b.vNorth - a.vNorth)
  }

  /** `tca` None is the infinite time to closest approach. */
  datatype Approach = Approach(tca: Option<real>, minSep: real, curSep: real, diverging: bool, altDiffFt: int, altValid: bool)

  function Abs(n: int): nat { if n < 0 then -n else n }

  /** Time of closest approach of a pair in relative motion. */
  function Tca(r: Rel): real
    requires Norm2(r.vx, r.vy) != 0.0
  {
    -Dot(r.x, r.y, r.vx, r.vy) / Norm2(r.vx, r.vy)
  }

  /** The horizontal part: (time, separation at it, diverging). */
  function Horizontal(r: Rel, geo: Geo): (Option<real>, real, bool) {
    var cur := geo.Length(r.x, r.y);
    if Norm2(r.vx, r.vy) == 0.0 then (None, cur, false)
    else
      var t := Tca(r);
      if t <= 0.0 then (Some(0.0), cur, true)
      else (Some(t), geo.Length(At(r.x, r.vx, t), At(r.y, r.vy, t)), false)
  }

  function ClosestApproach(a: SnapRow, b: SnapRow, geo: Geo): Approach {
    var r := Relative(a, b, geo.scale);
    var (tca, sep, diverging) := Horizontal(r, geo);
    var both := a.altValid && b.altValid;
    Approach(tca, sep, geo.Length(r.x, r.y), diverging, if both then Abs(a.altFt - b.altFt) else 0, both)
  }

  function Classify(a: Approach): Level {
    if a.diverging || a.tca.None? then Clear
    else if a.minSep < WARNING_SEP_M && a.tca.value < WARNING_TCA_S then Warning
    else if a.minSep < ADVISORY_SEP_M && a.tca.value < ADVISORY_TCA_S then Advisory
    else Clear
  }

  /** Altitudes known on both sides and too far apart: the pair is clear whatever its geometry. */
  predicate VerticallyClear(a: SnapRow, b: SnapRow) {
    a.altValid && b.altValid && Abs(a.altFt - b.altFt) > VERTICAL_SEP_FT
  }

  /** The crash test's horizontal distance: it uses the first row's longitude scale. */
  function CrashRange(a: SnapRow, b: SnapRow, geo: Geo): real {
    var dn := Metres(b.lat - a.lat, DEG_PER_M_LAT);
    var de := Metres(b.lon - a.lon, DegPerMLon(geo.scale, a.lat));
    geo.Length(dn, de)
  }

  predicate CrashHit(a: SnapRow, b: SnapRow, app: Approach, geo: Geo) {
    var horiz := CrashRange(a, b, geo);
    var vertOk := !(a.altValid && b.altValid) || Abs(a.altFt - b.altFt) < CRASH_VERT_FT;
    var imminent := app.minSep < CRASH_SEP_M && app.tca.Some? && -IMMINENT_TCA_S < app.tca.value < IMMINENT_TCA_S
                    && !app.diverging && horiz < IMMINENT_RANGE_M;
    (horiz < CRASH_SEP_M || imminent) && vertOk
  }

  /** The level of a scanned pair: classification, vertical gate, crash upgrade. */
  function PairLevel(a: SnapRow, b: SnapRow, geo: Geo): Level {
    var app := ClosestApproach(a, b, geo);
    var lvl := Classify(app);
    if lvl != Clear && VerticallyClear(a, b) then Clear
    else if lvl == Warning && CrashHit(a, b, app, geo) then Crash
    else lvl
  }

  // ---- optimality -------------------------------------------------------------------

  /** |r + v t|^2 expanded around the start. */
  lemma NormAfter(r: Rel, t: real)
    ensures Norm2(At(r.x, r.vx, t), At(r.y, r.vy, t))
         == Norm2(r.x, r.y) + 2.0 * (t * Dot(r.x, r.y, r.vx, r.vy)) + Norm2(r.vx, r.vy) * (t * t)
  {
  }

  lemma NormSign(x: real, y: real)
    ensures Norm2(x, y) >= 0.0
    ensures Norm2(x, y) == 0.0 <==> x == 0.0 && y == 0.0
  {
    var x2, y2 := x * x, y * y;
    SquareSign(x, x2);
    SquareSign(y, y2);
  }

  /** The square is minimal at Tca over all times, and at the start if Tca is not ahead. */
  lemma SquareMinimal(r: Rel, t: real)
    requires Norm2(r.vx, r.vy) != 0.0
    ensures var s := Tca(r);
            Norm2(At(r.x, r.vx, s), At(r.y, r.vy, s)) <= Norm2(At(r.x, r.vx, t), At(r.y, r.vy, t))
    ensures Tca(r) <= 0.0 && t >= 0.0 ==> Norm2(r.x, r.y) <= Norm2(At(r.x, r.vx, t), At(r.y, r.vy, t))
  {
    var s, n, d := Tca(r), Norm2(r.vx, r.vy), Dot(r.x, r.y, r.vx, r.vy);
    NormSign(r.vx, r.vy);
    NormAfter(r, s);
    NormAfter(r, t);
    Quotient(-d, n);
    hide Norm2, Dot, Tca;
    ParabolaMinimal(n, d, s, t);
  }

  lemma ParabolaStrict(n: real, d: real, s: real, t: real)
    requires n > 0.0 && s * n == -d && t != s
    ensures 2.0 * (s * d) + n * (s * s) < 2.0 * (t * d) + n * (t * t)
    ensures s <= 0.0 && t > 0.0 ==> 0.0 < 2.0 * (t * d) + n * (t * t)
  {
    var gap2 := (t - s) * (t - s);
    SquareSign(t - s, gap2);
    ProductSign(n, gap2, n * gap2);
    assert 2.0 * (t * d) + n * (t * t) - (2.0 * (s * d) + n * (s * s)) == n * gap2 by {
      assert t * d == -(t * (s * n)) && s * d == -(s * (s * n));
      assert gap2 == t * t - 2.0 * (t * s) + s * s;
    }
    if s <= 0.0 && t > 0.0 {
      ProductSign(n, -s, d);
      ProductSign(t, d, t * d);
      SquareSign(t, t * t);
      ProductSign(n, t * t, n * (t * t));
    }
  }

  /** The parabola 2 d t + n t^2 with n > 0 has its minimum at s = -d/n. */
  lemma ParabolaMinimal(n: real, d: real, s: real, t: real)
    requires n > 0.0 && s * n == -d
    ensures 2.0 * (s * d) + n * (s * s) <= 2.0 * (t * d) + n * (t * t)
    ensures s <= 0.0 && t >= 0.0 ==> 0.0 <= 2.0 * (t * d) + n * (t * t)
  {
    if t != s {
      ParabolaStrict(n, d, s, t);
    }
    if t == 0.0 {
      assert t * d == 0.0 && n * (t * t) == 0.0;
    }
  }

  lemma LengthOrder(geo: Geo, x: real, y: real, u: real, v: real)
    requires geo.Sound() && Norm2(x, y) <= Norm2(u, v)
    ensures geo.Length(x, y) <= geo.Length(u, v)
  {
    NormSign(x, y);
    NormSign(u, v);
    RootOrder(geo.Length(x, y), geo.Length(u, v), Norm2(x, y), Norm2(u, v));
  }

  /** Separation of the pair t seconds ahead if both keep their velocities. */
  function SeparationAt(a: SnapRow, b: SnapRow, geo: Geo, t: real): real {
    var r := Relative(a, b, geo.scale);
    geo.Length(At(r.x, r.vx, t), At(r.y, r.vy, t))
  }

  lemma AtZero(x: real, v: real)
    ensures At(x, v, 0.0) == x
  {
  }

  /** The reported separation is the least the pair will ever have from now on, and it is attained
      at the reported time, which is never in the past (at once, when that time is infinite). */
  lemma ApproachOptimal(a: SnapRow, b: SnapRow, geo: Geo, t: real)
    requires geo.Sound() && t >= 0.0
    ensures var app := ClosestApproach(a, b, geo);
            && app.minSep <= SeparationAt(a, b, geo, t)
            && app.curSep == SeparationAt(a, b, geo, 0.0)
            && (app.tca.None? ==> app.minSep == SeparationAt(a, b, geo, 0.0))
            && (app.tca.Some? ==> app.tca.value >= 0.0 && app.minSep == SeparationAt(a, b, geo, app.tca.value))
  {
    var r := Relative(a, b, geo.scale);
    hide Relative, Classify;
    HorizontalOptimal(r, geo, t);
  }

  lemma HorizontalOptimal(r: Rel, geo: Geo, t: real)
    requires geo.Sound() && t >= 0.0
    ensures geo.Length(At(r.x, r.vx, 0.0), At(r.y, r.vy, 0.0)) == geo.Length(r.x, r.y)
    ensures var (tca, sep, _) := Horizontal(r, geo);
            var s := if tca.None? then 0.0 else tca.value;
            && s >= 0.0
            && sep == geo.Length(At(r.x, r.vx, s), At(r.y, r.vy, s))
            && sep <= geo.Length(At(r.x, r.vx, t), At(r.y, r.vy, t))
  {
    AtZero(r.x, r.vx);
    AtZero(r.y, r.vy);
    if Norm2(r.vx, r.vy) == 0.0 {
      NormSign(r.vx, r.vy);
      assert At(r.x, r.vx, t) == r.x && At(r.y, r.vy, t) == r.y;
    } else {
      hide Norm2, Tca, At, Geo.Length;
      SquareMinimal(r, t);
      var s := if Tca(r) <= 0.0 then 0.0 else Tca(r);
      LengthOrder(geo, At(r.x, r.vx, s), At(r.y, r.vy, s), At(r.x, r.vx, t), At(r.y, r.vy, t));
    }
  }

  // ---- what a level means -----------------------------------------------------------

  /** Nowhere in the future is the pair closer than at t. */
  ghost predicate ClosestAt(a: SnapRow, b: SnapRow, geo: Geo, t: real) {
    forall u :: u >= 0.0 ==> SeparationAt(a, b, geo, t) <= SeparationAt(a, b, geo, u)
  }

  /** The pair is yet to come closest, does so before the horizon, and then within the distance. */
  ghost predicate Meets(a: SnapRow, b: SnapRow, geo: Geo, within: real, horizon: real) {
    exists t :: 0.0 < t < horizon && SeparationAt(a, b, geo, t) < within && ClosestAt(a, b, geo, t)
  }

  predicate Moving(a: SnapRow, b: SnapRow) { a.vNorth != b.vNorth || a.vEast != b.vEast }

  /** The computed moment of closest approach of two aircraft in relative motion. */
  ghost function MeetTime(a: SnapRow, b: SnapRow, geo: Geo): real
    requires Moving(a, b)
  {
    NormSign(b.vEast - a.vEast, b.vNorth - a.vNorth);
    Tca(Relative(a, b, geo.scale))
  }

  /** Every other moment ahead is strictly farther apart. */
  lemma SquareStrict(r: Rel, t: real)
    requires Norm2(r.vx, r.vy) != 0.0 && t > 0.0 && t != Tca(r)
    ensures var s := if Tca(r) <= 0.0 then 0.0 else Tca(r);
            Norm2(At(r.x, r.vx, s), At(r.y, r.vy, s)) < Norm2(At(r.x, r.vx, t), At(r.y, r.vy, t))
  {
    var s, n, d := Tca(r), Norm2(r.vx, r.vy), Dot(r.x, r.y, r.vx, r.vy);
    NormSign(r.vx, r.vy);
    NormAfter(r, s);
    NormAfter(r, t);
    Quotient(-d, n);
    AtZero(r.x, r.vx);
    AtZero(r.y, r.vy);
    hide Norm2, Dot, Tca, At;
    ParabolaStrict(n, d, s, t);
  }

  lemma LengthStrict(geo: Geo, x: real, y: real, u: real, v: real)
    requires geo.Sound() && Norm2(x, y) < Norm2(u, v)
    ensures geo.Length(x, y) < geo.Length(u, v)
  {
    NormSign(x, y);
    NormSign(u, v);
    RootOrder(geo.Length(u, v), geo.Length(x, y), Norm2(u, v), Norm2(x, y));
  }

  /** A pair in relative motion comes closest at exactly one moment ahead, the computed one. */
  lemma ClosestUnique(a: SnapRow, b: SnapRow, geo: Geo, t: real)
    requires geo.Sound() && Moving(a, b) && t > 0.0
    ensures ClosestAt(a, b, geo, t) <==> MeetTime(a, b, geo) == t
  {
    var r := Relative(a, b, geo.scale);
    NormSign(r.vx, r.vy);
    hide Norm2, Tca, At, Geo.Length, Geo.Sound, Metres;
    if Tca(r) == t {
      forall u | u >= 0.0
        ensures SeparationAt(a, b, geo, t) <= SeparationAt(a, b, geo, u)
      {
        SquareMinimal(r, u);
        LengthOrder(geo, At(r.x, r.vx, t), At(r.y, r.vy, t), At(r.x, r.vx, u), At(r.y, r.vy, u));
      }
    } else {
      var s := if Tca(r) <= 0.0 then 0.0 else Tca(r);
      SquareStrict(r, t);
      LengthStrict(geo, At(r.x, r.vx, s), At(r.y, r.vy, s), At(r.x, r.vx, t), At(r.y, r.vy, t));
      assert SeparationAt(a, b, geo, s) < SeparationAt(a, b, geo, t);
    }
  }

  /** WARNING means the pair is going to come closest within 30 s and 500 m, ADVISORY within 60 s
      and 1000 m but not that; two aircraft at rest relative to each other are neither. */
  lemma ClassifyMeans(a: SnapRow, b: SnapRow, geo: Geo)
    requires geo.Sound()
    ensures var lvl := Classify(ClosestApproach(a, b, geo));
            && (lvl == Warning <==> Moving(a, b) && Meets(a, b, geo, WARNING_SEP_M, WARNING_TCA_S))
            && (lvl == Advisory <==> Moving(a, b) && Meets(a, b, geo, ADVISORY_SEP_M, ADVISORY_TCA_S)
                                     && !Meets(a, b, geo, WARNING_SEP_M, WARNING_TCA_S))
            && lvl != Crash
  {
    NormSign(b.vEast - a.vEast, b.vNorth - a.vNorth);
    if Moving(a, b) {
      MeetsAt(a, b, geo, WARNING_SEP_M, WARNING_TCA_S);
      MeetsAt(a, b, geo, ADVISORY_SEP_M, ADVISORY_TCA_S);
    }
    hide Norm2, Tca, At, Geo.Length, Geo.Sound, Metres, Meets;
  }

  /** Whether a moving pair meets can be read off the computed approach. */
  lemma MeetsAt(a: SnapRow, b: SnapRow, geo: Geo, within: real, horizon: real)
    requires geo.Sound() && Moving(a, b)
    ensures var t := MeetTime(a, b, geo);
            Meets(a, b, geo, within, horizon) <==> 0.0 < t < horizon && SeparationAt(a, b, geo, t) < within
  {
    hide MeetTime, SeparationAt, ClosestAt, Geo.Sound, Moving;
    var t := MeetTime(a, b, geo);
    if 0.0 < t {
      ClosestUnique(a, b, geo, t);
    }
    if Meets(a, b, geo, within, horizon) {
      var u :| 0.0 < u < horizon && SeparationAt(a, b, geo, u) < within && ClosestAt(a, b, geo, u);
      ClosestUnique(a, b, geo, u);
    }
  }

  // ---- symmetry ---------------------------------------------------------------------

  lemma NormFlip(x: real, y: real, u: real, v: real)
    requires u == -x && v == -y
    ensures Norm2(u, v) == Norm2(x, y)
  {
  }

  lemma MetresFlip(x: real, y: real, k: real)
    requires k != 0.0
    ensures Metres(y - x, k) == -Metres(x - y, k)
  {
    var q, p := (y - x) / k, (x - y) / k;
    Quotient(y - x, k);
    Quotient(x - y, k);
    Cancel(q, -p, k);
  }

  lemma RelativeFlip(a: SnapRow, b: SnapRow, scale: LonScale)
    ensures var r := Relative(a, b, scale); Relative(b, a, scale) == Rel(-r.x, -r.y, -r.vx, -r.vy)
  {
    assert Mid(b.lat, a.lat) == Mid(a.lat, b.lat);
    MetresFlip(a.lon, b.lon, DegPerMLon(scale, Mid(a.lat, b.lat)));
    MetresFlip(a.lat, b.lat, DEG_PER_M_LAT);
    hide Metres;
  }

  lemma TcaFlip(r: Rel)
    requires Norm2(r.vx, r.vy) != 0.0
    ensures Norm2(-r.vx, -r.vy) == Norm2(r.vx, r.vy)
    ensures Tca(Rel(-r.x, -r.y, -r.vx, -r.vy)) == Tca(r)
  {
    NormFlip(r.vx, r.vy, -r.vx, -r.vy);
    assert Dot(-r.x, -r.y, -r.vx, -r.vy) == Dot(r.x, r.y, r.vx, r.vy);
  }

  lemma HorizontalFlip(r: Rel, geo: Geo)
    ensures Horizontal(Rel(-r.x, -r.y, -r.vx, -r.vy), geo) == Horizontal(r, geo)
    ensures geo.Length(-r.x, -r.y) == geo.Length(r.x, r.y)
  {
    NormFlip(r.x, r.y, -r.x, -r.y);
    NormFlip(r.vx, r.vy, -r.vx, -r.vy);
    if Norm2(r.vx, r.vy) != 0.0 {
      TcaFlip(r);
      var t := Tca(r);
      assert At(-r.x, -r.vx, t) == -At(r.x, r.vx, t) && At(-r.y, -r.vy, t) == -At(r.y, r.vy, t);
      NormFlip(At(r.x, r.vx, t), At(r.y, r.vy, t), At(-r.x, -r.vx, t), At(-r.y, -r.vy, t));
      hide Norm2, Tca, At;
    }
  }

  /** Which aircraft is called `a` makes no difference to the approach. */
  lemma ApproachSymmetric(a: SnapRow, b: SnapRow, geo: Geo)
    ensures ClosestApproach(a, b, geo) == ClosestApproach(b, a, geo)
    ensures Classify(ClosestApproach(a, b, geo)) == Classify(ClosestApproach(b, a, geo))
  {
    hide Relative, Horizontal, Geo.Length;
    var r := Relative(a, b, geo.scale);
    RelativeFlip(a, b, geo.scale);
    HorizontalFlip(r, geo);
  }

  lemma LengthIs(geo: Geo, x: real, y: real, m: real)
    requires geo.Sound() && m >= 0.0
    ensures geo.Length(x, y) == m <==> Norm2(x, y) == Square(m)
  {
    NormSign(x, y);
    if Norm2(x, y) == Square(m) {
      SquareRoot(geo.Length(x, y), m);
    }
  }
}

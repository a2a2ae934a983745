/** Whether the ghost meets its target as it was asked to: what the detector announces at the spawn and
    at every later tick, for any longitude scale. */
module Appointment {
  import opened Algebra
  import opened Basics
  import opened AircraftDbSpec
  import opened Approach
  import opened Kinematics
  import opened Snapshot
  import opened Ghost
  import KalmanSpec

  // ---- the approach clock -----------------------------------------------------------

  lemma AtAfter(x: real, v: real, dt: real, t: real)
    ensures At(At(x, v, dt), v, t - dt) == At(x, v, t)
  {
  }

  lemma DotShift(r: Rel, dt: real)
    ensures Dot(At(r.x, r.vx, dt), At(r.y, r.vy, dt), r.vx, r.vy)
         == Dot(r.x, r.y, r.vx, r.vy) + dt * Norm2(r.vx, r.vy)
  {
    assert At(r.x, r.vx, dt) * r.vx == r.x * r.vx + dt * (r.vx * r.vx);
    assert At(r.y, r.vy, dt) * r.vy == r.y * r.vy + dt * (r.vy * r.vy);
  }

  lemma TcaShift(r: Rel, dt: real)
    requires Norm2(r.vx, r.vy) != 0.0
    ensures Tca(r.AfterTime(dt)) == Tca(r) - dt
  {
    var n, d := Norm2(r.vx, r.vy), Dot(r.x, r.y, r.vx, r.vy);
    var later := r.AfterTime(dt);
    DotShift(r, dt);
    hide Norm2, Dot, At;
    Quotient(-d, n);
    Quotient(-(d + dt * n), n);
    Cancel(-(d + dt * n) / n, -d / n - dt, n);
  }

  /** While any two aircraft keep their velocities, the time to closest approach runs down with the
      clock and the separation it announces stays; from the moment it has run out the pair is
      diverging. */
  lemma HorizontalShift(r: Rel, dt: real, geo: Geo)
    requires Norm2(r.vx, r.vy) != 0.0 && dt >= 0.0
    ensures dt < Tca(r) ==> Horizontal(r.AfterTime(dt), geo) == (Some(Tca(r) - dt), Horizontal(r, geo).1, false)
    ensures dt >= Tca(r) ==> Horizontal(r.AfterTime(dt), geo).0 == Some(0.0) && Horizontal(r.AfterTime(dt), geo).2
  {
    TcaShift(r, dt);
    hide Norm2, Tca, At, Geo.Length;
    AtAfter(r.x, r.vx, dt, Tca(r));
    AtAfter(r.y, r.vy, dt, Tca(r));
  }

  /** The pair's east-west offset x is what the course it was announced on makes it after e seconds, or
      the mirror image of that on a course due north or south. */
  predicate OnTrack(r: Rel, x: real, e: real) { x == At(r.x, r.vx, e) || (r.vx == 0.0 && x == -r.x) }

  /** The time left has been used up by the clock and by what the east-west error is worth. */
  predicate Diverged(r: Rel, x: real, e: real, t: real) {
    (t - e) * Norm2(r.vx, r.vy) <= (x - At(r.x, r.vx, e)) * r.vx
  }

  /** The pair e seconds on: north as flown, east wherever it is measured to be. */
  function Later(r: Rel, x: real, e: real): Rel { Rel(x, At(r.y, r.vy, e), r.vx, r.vy) }

  lemma LaterDot(r: Rel, x: real, e: real)
    ensures Dot(x, At(r.y, r.vy, e), r.vx, r.vy)
         == Dot(r.x, r.y, r.vx, r.vy) + e * Norm2(r.vx, r.vy) + (x - At(r.x, r.vx, e)) * r.vx
  {
    DotShift(r, e);
    var was, y := At(r.x, r.vx, e), At(r.y, r.vy, e);
    assert Dot(x, y, r.vx, r.vy) == Dot(was, y, r.vx, r.vy) + (x - was) * r.vx;
  }

  lemma LaterTca(r: Rel, x: real, e: real)
    requires Norm2(r.vx, r.vy) != 0.0
    ensures Tca(Later(r, x, e)) * Norm2(r.vx, r.vy)
         == (Tca(r) - e) * Norm2(r.vx, r.vy) - (x - At(r.x, r.vx, e)) * r.vx
  {
    var n, d, d2 := Norm2(r.vx, r.vy), Dot(r.x, r.y, r.vx, r.vy), Dot(x, At(r.y, r.vy, e), r.vx, r.vy);
    LaterDot(r, x, e);
    hide Dot, Norm2, At;
    Quotient(-d, n);
    Quotient(-d2, n);
    assert (Tca(r) - e) * n == Tca(r) * n - e * n;
  }

  lemma TimeExactly(t: real, s: real, n: real, gap: real, v: real)
    requires n > 0.0 && s * n == t * n - gap * v
    ensures s == t <==> gap == 0.0 || v == 0.0
    ensures s <= 0.0 <==> t * n <= gap * v
  {
    if gap == 0.0 || v == 0.0 {
      Cancel(s, t, n);
    } else if s == t {
      Cancel(gap, 0.0, v);
    }
    SignOf(s, n);
  }

  lemma SignOf(s: real, n: real)
    requires n > 0.0
    ensures s <= 0.0 <==> s * n <= 0.0
  {
    ProductSign(-s, n, -(s * n));
    ProductSign(s, n, s * n);
  }

  /** The separation at the meeting is the announced one just when the offsets there agree in size. */
  lemma DistanceExactly(r: Rel, x: real, e: real, t: real, miss: real, geo: Geo)
    requires geo.Sound() && geo.Length(At(r.x, r.vx, t), At(r.y, r.vy, t)) == miss
    requires x == At(r.x, r.vx, e) || r.vx == 0.0
    ensures var later := Later(r, x, e);
            geo.Length(At(later.x, r.vx, t - e), At(later.y, r.vy, t - e)) == miss <==> OnTrack(r, x, e)
  {
    AtAfter(r.y, r.vy, e, t);
    AtAfter(r.x, r.vx, e, t);
    hide Geo.Length, Geo.Sound;
    if r.vx == 0.0 {
      assert At(x, r.vx, t - e) == x && At(r.x, r.vx, t) == r.x == At(r.x, r.vx, e);
      SameSize(geo, r.x, x, At(r.y, r.vy, t));
    }
  }

  lemma SameSize(geo: Geo, x: real, u: real, y: real)
    requires geo.Sound()
    ensures geo.Length(u, y) == geo.Length(x, y) <==> u == x || u == -x
  {
    NormSign(x, y);
    NormSign(u, y);
    LengthIs(geo, u, y, geo.Length(x, y));
    LengthIs(geo, x, y, geo.Length(x, y));
    AbsOrder(u, x);
  }

  /** A pair announced to meet in t seconds at some distance: e seconds on, t - e at the same distance is
      announced exactly when it is on track, and it is diverging exactly from the time the east-west
      error allows. */
  lemma MeetingExactly(r: Rel, x: real, e: real, t: real, miss: real, geo: Geo)
    requires geo.Sound() && Horizontal(r, geo) == (Some(t), miss, false)
    ensures e < t ==> (Horizontal(Later(r, x, e), geo) == (Some(t - e), miss, false) <==> OnTrack(r, x, e))
    ensures Horizontal(Later(r, x, e), geo).2 <==> Diverged(r, x, e, t)
  {
    NormSign(r.vx, r.vy);
    LaterTime(r, x, e, t);
    hide Norm2, Tca, At, Geo.Length, Geo.Sound, OnTrack, Diverged;
    if Tca(Later(r, x, e)) == t - e {
      DistanceExactly(r, x, e, t, miss, geo);
    }
  }

  lemma LaterTime(r: Rel, x: real, e: real, t: real)
    requires Norm2(r.vx, r.vy) != 0.0 && Tca(r) == t
    ensures Tca(Later(r, x, e)) == t - e <==> x == At(r.x, r.vx, e) || r.vx == 0.0
    ensures Tca(Later(r, x, e)) <= 0.0 <==> Diverged(r, x, e, t)
    ensures OnTrack(r, x, e) ==> Tca(Later(r, x, e)) == t - e
  {
    NormSign(r.vx, r.vy);
    LaterTca(r, x, e);
    hide Norm2, At, Tca;
    TimeExactly(t - e, Tca(Later(r, x, e)), Norm2(r.vx, r.vy), x - At(r.x, r.vx, e), r.vx);
  }

  predicate AsOrdered(app: Approach, tca: real, miss: real) {
    app.tca == Some(tca) && app.minSep == miss && !app.diverging
  }

  lemma ApproachIs(a: SnapRow, b: SnapRow, geo: Geo, tca: real, miss: real)
    ensures AsOrdered(ClosestApproach(a, b, geo), tca, miss)
            <==> Horizontal(Relative(a, b, geo.scale), geo) == (Some(tca), miss, false)
    ensures ClosestApproach(a, b, geo).diverging == Horizontal(Relative(a, b, geo.scale), geo).2
  {
  }

  /** a2 is a, e seconds further along its course as far as latitude goes. */
  ghost predicate HoldsCourse(a: SnapRow, a2: SnapRow, e: real) {
    a2.vNorth == a.vNorth && a2.vEast == a.vEast && a2.lat == Moved(a.lat, Travelled(a.vNorth, e), DEG_PER_M_LAT)
  }

  lemma MovedGap(x: real, y: real, v: real, w: real, e: real, k: real)
    requires k != 0.0
    ensures Metres(Moved(y, Travelled(w, e), k) - Moved(x, Travelled(v, e), k), k) == At(Metres(y - x, k), w - v, e)
  {
    var gap, was := Metres(Moved(y, Travelled(w, e), k) - Moved(x, Travelled(v, e), k), k), Metres(y - x, k);
    Quotient(y - x, k);
    Quotient(Moved(y, Travelled(w, e), k) - Moved(x, Travelled(v, e), k), k);
    assert gap * k == (was + (w - v) * e) * k;
    Cancel(gap, was + (w - v) * e, k);
  }

  lemma RelativeLater(a: SnapRow, b: SnapRow, a2: SnapRow, b2: SnapRow, e: real, scale: LonScale)
    requires HoldsCourse(a, a2, e) && HoldsCourse(b, b2, e)
    ensures Relative(a2, b2, scale) == Later(Relative(a, b, scale), Relative(a2, b2, scale).x, e)
  {
    hide DegPerMLon, Metres, Moved, Travelled, At, Mid;
    MovedGap(a.lat, b.lat, a.vNorth, b.vNorth, e, DEG_PER_M_LAT);
  }

  lemma Announced(a: SnapRow, b: SnapRow, r: Rel, e: real, t: real, miss: real, geo: Geo)
    requires geo.Sound() && Horizontal(r, geo) == (Some(t), miss, false)
    requires Relative(a, b, geo.scale) == Later(r, Relative(a, b, geo.scale).x, e)
    ensures var x, app := Relative(a, b, geo.scale).x, ClosestApproach(a, b, geo);
            && (e < t ==> (AsOrdered(app, t - e, miss) <==> OnTrack(r, x, e)))
            && (app.diverging <==> Diverged(r, x, e, t))
            && (OnTrack(r, x, e) ==> (app.diverging <==> e >= t))
  {
    hide *;
    var x := Relative(a, b, geo.scale).x;
    ApproachIs(a, b, geo, t - e, miss);
    MeetingExactly(r, x, e, t, miss, geo);
    OnTrackDiverges(r, x, e, t, geo);
  }

  lemma OnTrackDiverges(r: Rel, x: real, e: real, t: real, geo: Geo)
    requires !Horizontal(r, geo).2 && Horizontal(r, geo).0 == Some(t)
    ensures OnTrack(r, x, e) ==> (Diverged(r, x, e, t) <==> e >= t)
  {
    if OnTrack(r, x, e) {
      NormSign(r.vx, r.vy);
      assert (x - At(r.x, r.vx, e)) * r.vx == 0.0;
      hide Norm2;
      SignOf(t - e, Norm2(r.vx, r.vy));
    }
  }

  /** Once a pair is announced to meet in t seconds at some distance and both hold their courses, the
      announcement e seconds later is t - e at the same distance exactly when the pair is measured on
      track. */
  lemma ApproachClock(a: SnapRow, b: SnapRow, a2: SnapRow, b2: SnapRow, t: real, miss: real, e: real, geo: Geo)
    requires geo.Sound() && HoldsCourse(a, a2, e) && HoldsCourse(b, b2, e)
    requires AsOrdered(ClosestApproach(a, b, geo), t, miss)
    ensures var r, x := Relative(a, b, geo.scale), Relative(a2, b2, geo.scale).x;
            && (e < t ==> (AsOrdered(ClosestApproach(a2, b2, geo), t - e, miss) <==> OnTrack(r, x, e)))
            && (ClosestApproach(a2, b2, geo).diverging
                <==> Diverged(r, x, e, t))
  {
    hide *;
    RelativeLater(a, b, a2, b2, e, geo.scale);
    ApproachIs(a, b, geo, t, miss);
    Announced(a2, b2, Relative(a, b, geo.scale), e, t, miss, geo);
  }

  // ---- the meeting ------------------------------------------------------------------

  /** The ghost relative to its target as ordered: head-on, closing at `closing`. */
  function Facing(range: real, miss: real, c: real, s: real, closing: real): Rel {
    Rel(Mix(range, s, miss, c), Mix(range, c, miss, -s), Scaled(-closing, s), Scaled(-closing, c))
  }

  lemma FacingSpeed(range: real, miss: real, c: real, s: real, w: real)
    requires Unit(c, s) && w > 0.0
    ensures var r := Facing(range, miss, c, s, w); Norm2(r.vx, r.vy) == Square(w) && Square(w) > 0.0
  {
    CircleScale(w, c, s);
    SquareSign(w, Square(w));
  }

  lemma FacingDot(range: real, miss: real, c: real, s: real, w: real)
    requires Unit(c, s)
    ensures var r := Facing(range, miss, c, s, w); Dot(r.x, r.y, r.vx, r.vy) == -Scaled(w, range)
  {
    MixBack(range, miss, c, s);
    var de, dn := Mix(range, s, miss, c), Mix(range, c, miss, -s);
    assert Dot(de, dn, Scaled(-w, s), Scaled(-w, c)) == -(w * Mix(dn, c, de, s));
  }

  lemma MeetRatio(n: real, d: real, w: real, t: real)
    requires w > 0.0 && n == Square(w) && n > 0.0 && d == -Scaled(w, Travelled(w, t))
    ensures -d / n == t
  {
    assert -d == t * n;
    Quotient(-d, n);
    Cancel(-d / n, t, n);
  }

  lemma AtMeeting(miss: real, c: real, s: real, w: real, tca: real)
    ensures At(Mix(Travelled(w, tca), s, miss, c), Scaled(-w, s), tca) == miss * c
    ensures At(Mix(Travelled(w, tca), c, miss, -s), Scaled(-w, c), tca) == -(miss * s)
  {
  }

  lemma CircleNorm(m: real, c: real, s: real, x: real, y: real)
    requires Unit(c, s) && x == m * c && y == -(m * s)
    ensures Norm2(x, y) == Square(m)
  {
    CircleScale(m, c, s);
  }

  /** Flown as ordered, they meet as ordered. */
  lemma FacingMeets(miss: real, c: real, s: real, w: real, tca: real, geo: Geo)
    requires geo.Sound() && Unit(c, s) && w > 0.0 && tca > 0.0 && miss >= 0.0
    ensures Horizontal(Facing(Travelled(w, tca), miss, c, s, w), geo) == (Some(tca), miss, false)
  {
    var r := Facing(Travelled(w, tca), miss, c, s, w);
    AtMeeting(miss, c, s, w, tca);
    hide Mix, At, Norm2, Dot, Square, Scaled, Travelled, Unit, Geo.Length, Geo.Sound;
    FacingSpeed(Travelled(w, tca), miss, c, s, w);
    FacingDot(Travelled(w, tca), miss, c, s, w);
    MeetRatio(Norm2(r.vx, r.vy), Dot(r.x, r.y, r.vx, r.vy), w, tca);
    CircleNorm(miss, c, s, At(r.x, r.vx, tca), At(r.y, r.vy, tca));
    LengthIs(geo, At(r.x, r.vx, tca), At(r.y, r.vy, tca), miss);
  }

  lemma ClosingSpeed(share: real)
    ensures Along(-share) - Along(share) == Scaled(-(2.0 * GhostSpeed()), share)
  {
  }

  function LonRatio(lat: real, mid: real, scale: LonScale): real { Ratio(DegPerMLon(scale, lat), DegPerMLon(scale, mid)) }

  lemma SpawnNorth(target: Aircraft, range: real, miss: real, trig: Trig)
    requires target.hdgValid
    ensures Metres(SpawnLat(target, range, miss, trig) - target.lat, DEG_PER_M_LAT)
         == Mix(range, trig.Cos(target.hdgDeg), miss, -trig.Sin(target.hdgDeg))
  {
    hide Metres, Moved, Mix;
    MovedMetres(target.lat, Mix(range, trig.Cos(target.hdgDeg), miss, -trig.Sin(target.hdgDeg)), DEG_PER_M_LAT, DEG_PER_M_LAT);
  }

  function SpawnedEast(target: Aircraft, range: real, miss: real, trig: Trig): real {
    Mix(range, trig.Sin(target.hdgDeg), miss, trig.Cos(target.hdgDeg))
  }

  lemma SpawnEast(target: Aircraft, range: real, miss: real, mid: real, sky: Sky)
    requires target.hdgValid
    ensures Metres(SpawnLon(target, range, miss, sky) - target.lon, DegPerMLon(sky.scale, mid))
         == Scaled(LonRatio(target.lat, mid, sky.scale), SpawnedEast(target, range, miss, sky.trig))
  {
    hide Metres, Moved, DegPerMLon, Mix, Scaled, Ratio;
    MovedMetres(target.lon, SpawnedEast(target, range, miss, sky.trig), DegPerMLon(sky.scale, target.lat),
                DegPerMLon(sky.scale, mid));
  }

  lemma SameMeridian(target: Aircraft, range: real, miss: real, sky: Sky)
    requires target.hdgValid
    ensures SpawnLon(target, range, miss, sky) == target.lon <==> SpawnedEast(target, range, miss, sky.trig) == 0.0
  {
    hide Metres, Moved, DegPerMLon, Mix, Scaled, Ratio;
    var k := DegPerMLon(sky.scale, target.lat);
    MovedMetres(target.lon, SpawnedEast(target, range, miss, sky.trig), k, k);
  }

  /** What a spawn against this target orders. */
  function Ordered(target: Aircraft, tcaS: real, missM: real, trig: Trig): Rel {
    Facing(Range(MeetingTime(tcaS)), MissDistance(missM), trig.Cos(target.hdgDeg), trig.Sin(target.hdgDeg), 2.0 * GhostSpeed())
  }

  lemma OrderedMeets(target: Aircraft, tcaS: real, missM: real, trig: Trig, geo: Geo)
    requires geo.Sound() && trig.Sound()
    ensures Horizontal(Ordered(target, tcaS, missM, trig), geo) == (Some(MeetingTime(tcaS)), MissDistance(missM), false)
  {
    hide Trig.Sound, Horizontal, Facing, Geo.Sound, Unit, Travelled, MeetingTime, MissDistance, GhostSpeed;
    OnCircle(trig, target.hdgDeg);
    FacingMeets(MissDistance(missM), trig.Cos(target.hdgDeg), trig.Sin(target.hdgDeg), 2.0 * GhostSpeed(),
                MeetingTime(tcaS), geo);
  }

  /** The spawned ghost, as the detector measures it against its target: as ordered but for the
      longitude, which was placed by one scale and is read by another. */
  lemma SpawnRelative(row: Row, other: Row, tcaS: real, missM: real, altFt: int, now: int, sky: Sky)
    requires sky.trig.Sound() && SameSpeed(row.ac)
    requires Shows(other, Spawn(row.ac, tcaS, missM, altFt, now, sky))
    ensures var r := Ordered(row.ac, tcaS, missM, sky.trig);
            var rho := LonRatio(row.ac.lat, Mid(row.ac.lat, other.ac.lat), sky.scale);
            Relative(SnapOf(row, sky), SnapOf(other, sky), sky.scale) == r.(x := Scaled(rho, r.x))
  {
    hide HeadOn, Metres, Moved, DegPerMLon, Mix, MeetingTime, MissDistance, GhostAltitude, Along, GhostSpeed,
      SnapOf, SpawnLat, SpawnLon, LonRatio, Range, Trig.Sound, Scaled, Mid;
    HeadOnTrig(row.ac, sky.trig);
    SnapCourse(row, sky);
    SnapCourse(other, sky);
    SpawnNorth(row.ac, Range(MeetingTime(tcaS)), MissDistance(missM), sky.trig);
    SpawnEast(row.ac, Range(MeetingTime(tcaS)), MissDistance(missM), Mid(row.ac.lat, other.ac.lat), sky);
    ClosingSpeed(sky.trig.Cos(row.ac.hdgDeg));
    ClosingSpeed(sky.trig.Sin(row.ac.hdgDeg));
  }

  lemma RatioOne(k0: real, k1: real)
    requires k0 > 0.0 && k1 > 0.0
    ensures Ratio(k0, k1) > 0.0
    ensures Ratio(k0, k1) == 1.0 <==> k0 == k1
  {
    var rho := Ratio(k0, k1);
    Quotient(k0, k1);
    FactorSign(k1, rho, k0);
    if k0 == k1 {
      Cancel(rho, 1.0, k1);
    }
  }

  lemma SameScale(lat: real, mid: real, scale: LonScale)
    requires DegPerMLon(scale, lat) > 0.0 && DegPerMLon(scale, mid) > 0.0
    ensures LonRatio(lat, mid, scale) > 0.0
    ensures LonRatio(lat, mid, scale) == 1.0 <==> DegPerMLon(scale, lat) == DegPerMLon(scale, mid)
  {
    hide DegPerMLon;
    RatioOne(DegPerMLon(scale, lat), DegPerMLon(scale, mid));
  }

  /** Placed by one scale and read by another, an offset is right only when the scales or the offset
      make no difference. */
  lemma ScaledOnTrack(r: Rel, rho: real)
    requires rho > 0.0
    ensures OnTrack(r, Scaled(rho, r.x), 0.0) <==> rho == 1.0 || r.x == 0.0
  {
    AtZero(r.x, r.vx);
    if r.x != 0.0 && Scaled(rho, r.x) == r.x {
      Cancel(rho, 1.0, r.x);
    }
    if r.x != 0.0 && Scaled(rho, r.x) == -r.x {
      Cancel(rho, -1.0, r.x);
    }
  }

  /** Against a target at its own speed the spawned ghost is on the collision course it was asked
      for, closest at exactly that time and that far off, if and only if the detector's longitude
      scale (taken midway) is the one the ghost was placed with (the target's), or the two are on
      one meridian. */
  lemma GhostAppointment(row: Row, other: Row, tcaS: real, missM: real, altFt: int, now: int, geo: Geo, sky: Sky)
    requires geo.Sound() && sky.trig.Sound() && geo.scale == sky.scale
    requires SameSpeed(row.ac) && Shows(other, Spawn(row.ac, tcaS, missM, altFt, now, sky))
    requires DegPerMLon(sky.scale, row.ac.lat) > 0.0
    requires DegPerMLon(sky.scale, Mid(row.ac.lat, other.ac.lat)) > 0.0
    ensures AsOrdered(ClosestApproach(SnapOf(row, sky), SnapOf(other, sky), geo), MeetingTime(tcaS), MissDistance(missM))
            <==> DegPerMLon(sky.scale, row.ac.lat) == DegPerMLon(sky.scale, Mid(row.ac.lat, other.ac.lat))
                 || other.ac.lon == row.ac.lon
  {
    hide *;
    var mid, r := Mid(row.ac.lat, other.ac.lat), Ordered(row.ac, tcaS, missM, sky.trig);
    var rho := LonRatio(row.ac.lat, mid, sky.scale);
    SpawnRelative(row, other, tcaS, missM, altFt, now, sky);
    SameScale(row.ac.lat, mid, sky.scale);
    OrderedMeets(row.ac, tcaS, missM, sky.trig, geo);
    MeetingExactly(r, Scaled(rho, r.x), 0.0, MeetingTime(tcaS), MissDistance(missM), geo);
    ScaledOnTrack(r, rho);
    ApproachIs(SnapOf(row, sky), SnapOf(other, sky), geo, MeetingTime(tcaS), MissDistance(missM));
    OrderedOffset(row, other, tcaS, missM, altFt, now, sky);
    LaterNow(r, Scaled(rho, r.x));
  }

  lemma LaterNow(r: Rel, x: real)
    ensures Later(r, x, 0.0) == r.(x := x)
  {
    AtZero(r.y, r.vy);
  }

  lemma OrderedOffset(row: Row, other: Row, tcaS: real, missM: real, altFt: int, now: int, sky: Sky)
    requires SameSpeed(row.ac) && Shows(other, Spawn(row.ac, tcaS, missM, altFt, now, sky))
    ensures other.ac.lon == row.ac.lon <==> Ordered(row.ac, tcaS, missM, sky.trig).x == 0.0
  {
    hide MeetingTime, MissDistance, GhostSpeed, Travelled, Mix, SpawnLon;
    SameMeridian(row.ac, Range(MeetingTime(tcaS)), MissDistance(missM), sky);
  }

  // ---- keeping the appointment ------------------------------------------------------

  function Coast(g: GhostState, ticks: seq<int>, sky: Sky): GhostState {
    if ticks == [] then g else KeepAlive(Coast(g, ticks[..|ticks| - 1], sky), ticks[|ticks| - 1], sky)
  }

  lemma MovedOn(x: real, v: real, e: real, dt: real, k: real)
    ensures Moved(Moved(x, Travelled(v, e), k), Travelled(v, dt), k) == Moved(x, Travelled(v, e + dt), k)
    ensures Moved(x, Travelled(v, 0.0), k) == x
  {
    assert Travelled(v, e + dt) == Travelled(v, e) + Travelled(v, dt);
  }

  /** Where a coasting ghost's latitude is at a time. */
  function LatAt(g: GhostState, now: int): real {
    Moved(g.lat, Travelled(g.vNorth, Seconds(now - g.lastStepMs)), DEG_PER_M_LAT)
  }

  function Elapsed(g: GhostState, ticks: seq<int>): real { Seconds(LastTick(g.lastStepMs, ticks) - g.lastStepMs) }

  function StepMs(g: GhostState, ticks: seq<int>): int
    requires ticks != []
  {
    ticks[|ticks| - 1] - LastTick(g.lastStepMs, ticks[..|ticks| - 1])
  }

  /** The ticks' seconds, each weighted by the longitude scale at the latitude it ends on. */
  function ScaledSeconds(g: GhostState, ticks: seq<int>, scale: LonScale): real {
    if ticks == [] then 0.0
    else
      var m := |ticks| - 1;
      ScaledSeconds(g, ticks[..m], scale) + Scaled(Seconds(StepMs(g, ticks)), DegPerMLon(scale, LatAt(g, ticks[m])))
  }

  lemma LonMovedOn(x: real, v: real, sum: real, dt: real, k: real)
    ensures Moved(x + Travelled(v, sum), Travelled(v, dt), k) == x + Travelled(v, sum + Scaled(dt, k))
  {
    assert Travelled(v, sum + Scaled(dt, k)) == Travelled(v, sum) + Travelled(v, Scaled(dt, k));
    assert Travelled(v, Scaled(dt, k)) == Travelled(v, dt) * k;
  }

  lemma NoneTravelled(x: real, v: real)
    ensures x + Travelled(v, 0.0) == x && Moved(x, Travelled(v, 0.0), DEG_PER_M_LAT) == x
  {
  }

  /** However the time is cut into ticks, the latitude is where the velocity takes it; the longitude
      depends on the cutting only through the scales at the latitudes ticked at. */
  lemma {:induction false} CoastStraight(g: GhostState, ticks: seq<int>, sky: Sky)
    requires g.active && OnSchedule(g.lastStepMs, ticks)
    ensures Elapsed(g, ticks) >= 0.0
    ensures var last := LastTick(g.lastStepMs, ticks);
            Coast(g, ticks, sky) == g.(lat := LatAt(g, last),
                                       lon := g.lon + Travelled(g.vEast, ScaledSeconds(g, ticks, sky.scale)),
                                       lastStepMs := last)
  {
    hide Moved, Travelled, DegPerMLon, Scaled, OnSchedule;
    if ticks == [] {
      NoneTravelled(g.lat, g.vNorth);
      NoneTravelled(g.lon, g.vEast);
    } else {
      var m := |ticks| - 1;
      SchedulePrefix(g.lastStepMs, ticks);
      CoastStraight(g, ticks[..m], sky);
      var dt := Seconds(StepMs(g, ticks));
      MovedOn(g.lat, g.vNorth, Elapsed(g, ticks[..m]), dt, DEG_PER_M_LAT);
      LonMovedOn(g.lon, g.vEast, ScaledSeconds(g, ticks[..m], sky.scale), dt, DegPerMLon(sky.scale, LatAt(g, ticks[m])));
    }
  }

  /** Every scale used on the way lies in a range. */
  ghost predicate ScalesWithin(g: GhostState, ticks: seq<int>, low: real, high: real, scale: LonScale) {
    forall i :: 0 <= i < |ticks| ==> low <= DegPerMLon(scale, LatAt(g, ticks[i])) <= high
  }

  /** So the longitude flown is that of a flat frame of some scale in between. */
  lemma {:induction false} DriftBetween(g: GhostState, ticks: seq<int>, low: real, high: real, scale: LonScale)
    requires OnSchedule(g.lastStepMs, ticks) && ScalesWithin(g, ticks, low, high, scale)
    ensures Scaled(Elapsed(g, ticks), low) <= ScaledSeconds(g, ticks, scale) <= Scaled(Elapsed(g, ticks), high)
  {
    hide DegPerMLon, LatAt, OnSchedule, Scaled;
    if ticks == [] {
      NothingScaled(low);
      NothingScaled(high);
    } else {
      var m := |ticks| - 1;
      SchedulePrefix(g.lastStepMs, ticks);
      forall i | 0 <= i < m
        ensures ticks[..m][i] == ticks[i]
      {
      }
      DriftBetween(g, ticks[..m], low, high, scale);
      var k, dt := DegPerMLon(scale, LatAt(g, ticks[m])), Seconds(StepMs(g, ticks));
      ScaledBetween(Elapsed(g, ticks[..m]), dt, low, k);
      ScaledBetween(Elapsed(g, ticks[..m]), dt, k, high);
      ScaledSum(Elapsed(g, ticks[..m]), dt, low);
      ScaledSum(Elapsed(g, ticks[..m]), dt, high);
    }
  }

  lemma NothingScaled(k: real)
    ensures Scaled(0.0, k) == 0.0
  {
  }

  lemma ScaledSum(e: real, dt: real, k: real)
    ensures Scaled(e + dt, k) == Scaled(e, k) + Scaled(dt, k)
  {
  }

  lemma ScaledBetween(e: real, dt: real, k: real, l: real)
    requires dt >= 0.0 && k <= l
    ensures Scaled(dt, k) <= Scaled(dt, l)
  {
    ProductSign(dt, l - k, Scaled(dt, l) - Scaled(dt, k));
  }

  lemma FirstReport(g: GhostState, now: int) returns (first: Row)
    ensures Shows(first, g)
  {
    first := Row(Observation(g, now), now, KalmanSpec.BLANK);
  }

  lemma SpawnCourse(target: Aircraft, tcaS: real, missM: real, altFt: int, now: int, sky: Sky)
    ensures var g := Spawn(target, tcaS, missM, altFt, now, sky);
            && g.active && g.lastStepMs == now
            && g.vNorth == Along(sky.trig.Cos(g.hdg)) && g.vEast == Along(sky.trig.Sin(g.hdg))
  {
  }

  lemma LatFlown(g: GhostState, first: Row, later: Row, ticks: seq<int>, sky: Sky)
    requires g.active && OnSchedule(g.lastStepMs, ticks)
    requires Shows(first, g) && Shows(later, Coast(g, ticks, sky))
    requires g.vNorth == Along(sky.trig.Cos(g.hdg)) && g.vEast == Along(sky.trig.Sin(g.hdg))
    ensures HoldsCourse(SnapOf(first, sky), SnapOf(later, sky), Elapsed(g, ticks))
  {
    hide *;
    CoastKeeps(g, ticks, sky);
    ShowsCourse(first, g, sky);
    ShowsCourse(later, Coast(g, ticks, sky), sky);
    LatIs(g, ticks);
    HoldsIt(SnapOf(first, sky), SnapOf(later, sky), Elapsed(g, ticks));
  }

  lemma CoastKeeps(g: GhostState, ticks: seq<int>, sky: Sky)
    requires g.active && OnSchedule(g.lastStepMs, ticks)
    ensures var h := Coast(g, ticks, sky);
            && h.lat == LatAt(g, LastTick(g.lastStepMs, ticks)) && h.vNorth == g.vNorth && h.vEast == g.vEast && h.hdg == g.hdg
            && h.lon == g.lon + Travelled(g.vEast, ScaledSeconds(g, ticks, sky.scale))
  {
    hide Coast, OnSchedule, ScaledSeconds, LatAt, Travelled;
    CoastStraight(g, ticks, sky);
  }

  lemma LatIs(g: GhostState, ticks: seq<int>)
    ensures LatAt(g, LastTick(g.lastStepMs, ticks)) == Moved(g.lat, Travelled(g.vNorth, Elapsed(g, ticks)), DEG_PER_M_LAT)
  {
  }

  lemma HoldsIt(a: SnapRow, a2: SnapRow, e: real)
    requires a2.vNorth == a.vNorth && a2.vEast == a.vEast && a2.lat == Moved(a.lat, Travelled(a.vNorth, e), DEG_PER_M_LAT)
    ensures HoldsCourse(a, a2, e)
  {
  }

  /** The detector's picture of a ghost on its course. */
  lemma ShowsCourse(row: Row, g: GhostState, sky: Sky)
    requires Shows(row, g) && g.vNorth == Along(sky.trig.Cos(g.hdg)) && g.vEast == Along(sky.trig.Sin(g.hdg))
    ensures var snap := SnapOf(row, sky);
            snap.lat == g.lat && snap.lon == g.lon && snap.vNorth == g.vNorth && snap.vEast == g.vEast
  {
    hide SnapOf, Along, Trig.Cos, Trig.Sin;
    SnapCourse(row, sky);
  }

  /** Over any run of keep-alive ticks, with the target holding its course, for every longitude scale:
      e seconds after the spawn the detector announces the meeting exactly e nearer, at the miss
      distance asked for, if and only if it measures the ghost on the ordered track; the pair is
      diverging exactly from the time the error of that measurement allows, which on track is the
      meeting. */
  lemma GhostKeepsAppointment(row: Row, target2: SnapRow, later: Row, tcaS: real, missM: real, altFt: int, now: int,
                              ticks: seq<int>, e: real, geo: Geo, sky: Sky)
    requires e == Seconds(LastTick(now, ticks) - now) && OnSchedule(now, ticks)
    requires geo.Sound() && sky.trig.Sound() && geo.scale == sky.scale && SameSpeed(row.ac)
    requires Shows(later, Coast(Spawn(row.ac, tcaS, missM, altFt, now, sky), ticks, sky))
    requires HoldsCourse(SnapOf(row, sky), target2, e)
    ensures var r := Ordered(row.ac, tcaS, missM, sky.trig);
            var t, x := MeetingTime(tcaS), Relative(target2, SnapOf(later, sky), geo.scale).x;
            var app := ClosestApproach(target2, SnapOf(later, sky), geo);
            && (e < t ==> (AsOrdered(app, t - e, MissDistance(missM)) <==> OnTrack(r, x, e)))
            && (app.diverging <==> Diverged(r, x, e, t))
            && (OnTrack(r, x, e) ==> (app.diverging <==> e >= t))
  {
    hide *;
    LaterOrdered(row, target2, later, tcaS, missM, altFt, now, ticks, e, sky);
    OrderedMeets(row.ac, tcaS, missM, sky.trig, geo);
    Announced(target2, SnapOf(later, sky), Ordered(row.ac, tcaS, missM, sky.trig), e, MeetingTime(tcaS),
              MissDistance(missM), geo);
  }

  /** What the detector measures later on is the ordered motion, but for the east-west offset. */
  lemma LaterOrdered(row: Row, target2: SnapRow, later: Row, tcaS: real, missM: real, altFt: int, now: int,
                     ticks: seq<int>, e: real, sky: Sky)
    requires e == Seconds(LastTick(now, ticks) - now) && OnSchedule(now, ticks)
    requires sky.trig.Sound() && SameSpeed(row.ac)
    requires Shows(later, Coast(Spawn(row.ac, tcaS, missM, altFt, now, sky), ticks, sky))
    requires HoldsCourse(SnapOf(row, sky), target2, e)
    ensures var now2 := Relative(target2, SnapOf(later, sky), sky.scale);
            now2 == Later(Ordered(row.ac, tcaS, missM, sky.trig), now2.x, e)
  {
    hide *;
    var g := Spawn(row.ac, tcaS, missM, altFt, now, sky);
    var first := FirstReport(g, now);
    SpawnCourse(row.ac, tcaS, missM, altFt, now, sky);
    ElapsedIs(g, ticks, now);
    LatFlown(g, first, later, ticks, sky);
    SpawnRelative(row, first, tcaS, missM, altFt, now, sky);
    RelativeLater(SnapOf(row, sky), SnapOf(first, sky), target2, SnapOf(later, sky), e, sky.scale);
    LaterSame(Ordered(row.ac, tcaS, missM, sky.trig), Relative(SnapOf(row, sky), SnapOf(first, sky), sky.scale),
              Relative(target2, SnapOf(later, sky), sky.scale).x, e);
  }

  lemma ElapsedIs(g: GhostState, ticks: seq<int>, now: int)
    requires g.lastStepMs == now
    ensures Elapsed(g, ticks) == Seconds(LastTick(now, ticks) - now)
  {
  }

  lemma LaterSame(r: Rel, r2: Rel, x: real, e: real)
    requires r2 == r.(x := r2.x)
    ensures Later(r2, x, e) == Later(r, x, e)
  {
  }

  /** The east-west offset to be measured once the ticks are flown, worked out beforehand: from the order,
      the ghost's ticks and the scale at the latitudes it will tick at, and `drift`, the target's own
      seconds weighted the same way. */
  function Foreseen(target: Aircraft, tcaS: real, missM: real, altFt: int, now: int, ticks: seq<int>, drift: real, sky: Sky): real {
    var g, v := Spawn(target, tcaS, missM, altFt, now, sky), Along(sky.trig.Cos(target.hdgDeg));
    var last := LastTick(now, ticks);
    var ahead := Moved(target.lat, Travelled(v, Seconds(last - now)), DEG_PER_M_LAT);
    Metres(DegreesApart(Ordered(target, tcaS, missM, sky.trig).x, DegPerMLon(sky.scale, target.lat),
                        Along(sky.trig.Sin(target.hdgDeg)), ScaledSeconds(g, ticks, sky.scale) + drift),
           DegPerMLon(sky.scale, Mid(ahead, LatAt(g, last))))
  }

  /** Degrees of longitude from target to ghost: as placed, less what both have flown towards each other. */
  function DegreesApart(x: real, k: real, v: real, seconds: real): real { Scaled(k, x) - Travelled(v, seconds) }

  lemma ApartAfter(lon: real, x: real, k: real, v: real, s: real, drift: real)
    ensures (Moved(lon, x, k) + Travelled(-v, s)) - (lon + Travelled(v, drift)) == DegreesApart(x, k, v, s + drift)
  {
    assert Travelled(v, s + drift) == Travelled(v, s) + Travelled(v, drift);
    assert Travelled(-v, s) == -Travelled(v, s);
  }

  lemma SpawnLonIs(target: Aircraft, tcaS: real, missM: real, altFt: int, now: int, sky: Sky)
    requires sky.trig.Sound() && SameSpeed(target)
    ensures var g := Spawn(target, tcaS, missM, altFt, now, sky);
            && g.lon == Moved(target.lon, Ordered(target, tcaS, missM, sky.trig).x, DegPerMLon(sky.scale, target.lat))
            && g.vEast == -Along(sky.trig.Sin(target.hdgDeg))
  {
    HeadOnTrig(target, sky.trig);
    AlongBack(sky.trig.Sin(target.hdgDeg));
    hide Trig.Sound, HeadOn, Along, MeetingTime, MissDistance, Travelled, Mix, DegPerMLon, Moved;
  }

  lemma LonApart(a: SnapRow, b: SnapRow, scale: LonScale)
    ensures Relative(a, b, scale).x == Metres(b.lon - a.lon, DegPerMLon(scale, Mid(a.lat, b.lat)))
  {
  }

  /** What is measured then is what was foreseen. */
  lemma Foresee(row: Row, target2: SnapRow, later: Row, tcaS: real, missM: real, altFt: int, now: int,
                ticks: seq<int>, drift: real, sky: Sky)
    requires OnSchedule(now, ticks) && sky.trig.Sound() && SameSpeed(row.ac)
    requires Shows(later, Coast(Spawn(row.ac, tcaS, missM, altFt, now, sky), ticks, sky))
    requires HoldsCourse(SnapOf(row, sky), target2, Seconds(LastTick(now, ticks) - now))
    requires target2.lon == row.ac.lon + Travelled(target2.vEast, drift)
    ensures Relative(target2, SnapOf(later, sky), sky.scale).x
         == Foreseen(row.ac, tcaS, missM, altFt, now, ticks, drift, sky)
  {
    hide *;
    var g, r := Spawn(row.ac, tcaS, missM, altFt, now, sky), Ordered(row.ac, tcaS, missM, sky.trig);
    var v, e := Along(sky.trig.Sin(row.ac.hdgDeg)), Seconds(LastTick(now, ticks) - now);
    SpawnCourse(row.ac, tcaS, missM, altFt, now, sky);
    SpawnLonIs(row.ac, tcaS, missM, altFt, now, sky);
    CoastKeeps(g, ticks, sky);
    ShowsCourse(later, Coast(g, ticks, sky), sky);
    SnapCourse(row, sky);
    HoldsSpeed(SnapOf(row, sky), target2, e);
    HoldsLat(SnapOf(row, sky), target2, e);
    LonApart(target2, SnapOf(later, sky), sky.scale);
    ApartAfter(row.ac.lon, r.x, DegPerMLon(sky.scale, row.ac.lat), v, ScaledSeconds(g, ticks, sky.scale), drift);
    ForeseenIs(row.ac, tcaS, missM, altFt, now, ticks, drift, sky);
  }

  lemma HoldsLat(a: SnapRow, a2: SnapRow, e: real)
    requires HoldsCourse(a, a2, e)
    ensures a2.lat == Moved(a.lat, Travelled(a.vNorth, e), DEG_PER_M_LAT)
  {
  }

  lemma ForeseenIs(target: Aircraft, tcaS: real, missM: real, altFt: int, now: int, ticks: seq<int>, drift: real, sky: Sky)
    ensures var g, last := Spawn(target, tcaS, missM, altFt, now, sky), LastTick(now, ticks);
            var ahead := Moved(target.lat, Travelled(Along(sky.trig.Cos(target.hdgDeg)), Seconds(last - now)), DEG_PER_M_LAT);
            Foreseen(target, tcaS, missM, altFt, now, ticks, drift, sky)
            == Metres(DegreesApart(Ordered(target, tcaS, missM, sky.trig).x, DegPerMLon(sky.scale, target.lat),
                                   Along(sky.trig.Sin(target.hdgDeg)), ScaledSeconds(g, ticks, sky.scale) + drift),
                      DegPerMLon(sky.scale, Mid(ahead, LatAt(g, last))))
  {
    hide Metres, DegreesApart, Ordered, DegPerMLon, Along, ScaledSeconds, Moved, Travelled, Seconds, Mid, LatAt, Spawn, LastTick,
      Trig.Cos, Trig.Sin;
  }

  /** So whether the appointment will be kept can be told at the spawn, for every longitude scale. */
  lemma GhostForeseen(row: Row, target2: SnapRow, later: Row, tcaS: real, missM: real, altFt: int, now: int,
                      ticks: seq<int>, e: real, drift: real, geo: Geo, sky: Sky)
    requires e == Seconds(LastTick(now, ticks) - now) && OnSchedule(now, ticks)
    requires geo.Sound() && sky.trig.Sound() && geo.scale == sky.scale && SameSpeed(row.ac)
    requires Shows(later, Coast(Spawn(row.ac, tcaS, missM, altFt, now, sky), ticks, sky))
    requires HoldsCourse(SnapOf(row, sky), target2, e) && target2.lon == row.ac.lon + Travelled(target2.vEast, drift)
    ensures var r, x := Ordered(row.ac, tcaS, missM, sky.trig), Foreseen(row.ac, tcaS, missM, altFt, now, ticks, drift, sky);
            var t, app := MeetingTime(tcaS), ClosestApproach(target2, SnapOf(later, sky), geo);
            && (e < t ==> (AsOrdered(app, t - e, MissDistance(missM)) <==> OnTrack(r, x, e)))
            && (app.diverging <==> Diverged(r, x, e, t))
  {
    hide *;
    Foresee(row, target2, later, tcaS, missM, altFt, now, ticks, drift, sky);
    GhostKeepsAppointment(row, target2, later, tcaS, missM, altFt, now, ticks, e, geo, sky);
  }

  /** A frame in which metres do not depend on where they are measured. */
  ghost predicate Flat(scale: LonScale, k: real) {
    forall lat :: DegPerMLon(scale, lat) == k
  }

  lemma FlatAt(scale: LonScale, k: real, lat: real)
    requires Flat(scale, k)
    ensures DegPerMLon(scale, lat) == k
  {
  }

  lemma FlatDrift(g: GhostState, ticks: seq<int>, k: real, scale: LonScale)
    requires OnSchedule(g.lastStepMs, ticks) && Flat(scale, k)
    ensures ScaledSeconds(g, ticks, scale) == Scaled(Elapsed(g, ticks), k)
  {
    hide LatAt, OnSchedule, Scaled, ScaledSeconds, DegPerMLon;
    DriftBetween(g, ticks, k, k, scale);
  }

  lemma MovedScaled(x: real, v: real, e: real, k: real)
    ensures x + Travelled(v, Scaled(e, k)) == Moved(x, Travelled(v, e), k)
  {
  }

  /** In such a frame both are on track for as long as they fly: the appointment is kept to the second. */
  lemma FlatOnTrack(row: Row, target2: SnapRow, later: Row, tcaS: real, missM: real, altFt: int, now: int,
                    ticks: seq<int>, e: real, k: real, sky: Sky)
    requires e == Seconds(LastTick(now, ticks) - now) && OnSchedule(now, ticks)
    requires sky.trig.Sound() && SameSpeed(row.ac) && k > 0.0 && Flat(sky.scale, k)
    requires Shows(later, Coast(Spawn(row.ac, tcaS, missM, altFt, now, sky), ticks, sky))
    requires HoldsCourse(SnapOf(row, sky), target2, e)
    requires target2.lon == Moved(row.ac.lon, Travelled(target2.vEast, e), k)
    ensures OnTrack(Ordered(row.ac, tcaS, missM, sky.trig), Relative(target2, SnapOf(later, sky), sky.scale).x, e)
  {
    hide *;
    var g := Spawn(row.ac, tcaS, missM, altFt, now, sky);
    var first := FirstReport(g, now);
    var a, b, b2 := SnapOf(row, sky), SnapOf(first, sky), SnapOf(later, sky);
    SpawnCourse(row.ac, tcaS, missM, altFt, now, sky);
    ElapsedIs(g, ticks, now);
    CoastKeeps(g, ticks, sky);
    ShowsCourse(first, g, sky);
    ShowsCourse(later, Coast(g, ticks, sky), sky);
    SnapCourse(row, sky);
    HoldsSpeed(a, target2, e);
    FlatDrift(g, ticks, k, sky.scale);
    MovedScaled(g.lon, g.vEast, e, k);
    FlatEast(a, b, sky.scale, k);
    FlatEast(target2, b2, sky.scale, k);
    MovedGap(a.lon, b.lon, a.vEast, b.vEast, e, k);
    SpawnRelative(row, first, tcaS, missM, altFt, now, sky);
    FlatAt(sky.scale, k, row.ac.lat);
    FlatAt(sky.scale, k, Mid(row.ac.lat, first.ac.lat));
    SameScale(row.ac.lat, Mid(row.ac.lat, first.ac.lat), sky.scale);
    OnceScaled(Ordered(row.ac, tcaS, missM, sky.trig).x);
    OnTrackAt(Ordered(row.ac, tcaS, missM, sky.trig), e);
  }

  lemma HoldsSpeed(a: SnapRow, a2: SnapRow, e: real)
    requires HoldsCourse(a, a2, e)
    ensures a2.vNorth == a.vNorth && a2.vEast == a.vEast
  {
  }

  lemma FlatEast(a: SnapRow, b: SnapRow, scale: LonScale, k: real)
    requires k != 0.0 && Flat(scale, k)
    ensures Relative(a, b, scale).x == Metres(b.lon - a.lon, k)
    ensures Relative(a, b, scale).vx == b.vEast - a.vEast
  {
    FlatAt(scale, k, Mid(a.lat, b.lat));
    hide Metres, Flat, DegPerMLon;
  }

  lemma OnceScaled(x: real)
    ensures Scaled(1.0, x) == x
  {
  }

  lemma OnTrackAt(r: Rel, e: real)
    ensures OnTrack(r, At(r.x, r.vx, e), e)
  {
  }

  /** Flying at each other along one meridian they are on track whatever the longitude scale. */
  lemma MeridianOnTrack(row: Row, target2: SnapRow, later: Row, tcaS: real, missM: real, altFt: int, now: int,
                        ticks: seq<int>, e: real, sky: Sky)
    requires e == Seconds(LastTick(now, ticks) - now) && OnSchedule(now, ticks)
    requires sky.trig.Sound() && SameSpeed(row.ac) && sky.trig.Sin(row.ac.hdgDeg) == 0.0 && MissDistance(missM) == 0.0
    requires Shows(later, Coast(Spawn(row.ac, tcaS, missM, altFt, now, sky), ticks, sky))
    requires HoldsCourse(SnapOf(row, sky), target2, e) && target2.lon == row.ac.lon
    ensures OnTrack(Ordered(row.ac, tcaS, missM, sky.trig), Relative(target2, SnapOf(later, sky), sky.scale).x, e)
  {
    hide *;
    var g, r := Spawn(row.ac, tcaS, missM, altFt, now, sky), Ordered(row.ac, tcaS, missM, sky.trig);
    SpawnCourse(row.ac, tcaS, missM, altFt, now, sky);
    CoastKeeps(g, ticks, sky);
    MeridianSpawn(row.ac, tcaS, missM, altFt, now, sky);
    ShowsCourse(later, Coast(g, ticks, sky), sky);
    NoneEast(target2, SnapOf(later, sky), sky.scale);
    OnTrackAt(r, e);
    StillThere(r, e);
  }

  lemma NoneEast(a: SnapRow, b: SnapRow, scale: LonScale)
    requires a.lon == b.lon
    ensures Relative(a, b, scale).x == 0.0
  {
  }

  lemma StillThere(r: Rel, e: real)
    requires r.x == 0.0 && r.vx == 0.0
    ensures At(r.x, r.vx, e) == 0.0
  {
  }

  lemma MeridianSpawn(target: Aircraft, tcaS: real, missM: real, altFt: int, now: int, sky: Sky)
    requires sky.trig.Sound() && SameSpeed(target) && sky.trig.Sin(target.hdgDeg) == 0.0 && MissDistance(missM) == 0.0
    ensures var g, r := Spawn(target, tcaS, missM, altFt, now, sky), Ordered(target, tcaS, missM, sky.trig);
            && g.lon == target.lon && g.vEast == 0.0 && r.x == 0.0 && r.vx == 0.0
            && forall s :: g.lon + Travelled(g.vEast, s) == target.lon
  {
    HeadOnTrig(target, sky.trig);
    hide Trig.Sound, HeadOn, GhostSpeed, MeetingTime, Trig.Cos, Trig.Sin;
    SameMeridian(target, Range(MeetingTime(tcaS)), MissDistance(missM), sky);
  }

  // ---- an appointment missed --------------------------------------------------------

  /** South of the equator a metre east is worth more degrees the farther south, as 1/(111000 cos). */
  ghost predicate Widening(scale: LonScale) {
    forall p, q :: -90.0 < p < q <= 0.0 ==> DegPerMLon(scale, p) > DegPerMLon(scale, q) > 0.0
  }

  /** 250 kt due east over Brisbane. */
  const EASTBOUND := NO_AIRCRAFT.(lat := -27.4975, lon := 153.0137, velValid := true, velKt := GHOST_SPEED_KT,
                                  hdgValid := true, hdgDeg := 90.0)

  /** A ghost ordered to pass it 500 m off in 23 s is not announced so even at the spawn: it is placed by
      the target's longitude scale and measured by that 250 m further south. */
  lemma EastboundMissed(row: Row, other: Row, altFt: int, now: int, geo: Geo, sky: Sky)
    requires geo.Sound() && sky.trig.Sound() && geo.scale == sky.scale && Widening(sky.scale)
    requires sky.trig.Cos(90.0) == 0.0 && sky.trig.Sin(90.0) == 1.0
    requires row.ac == EASTBOUND && Shows(other, Spawn(row.ac, 23.0, 500.0, altFt, now, sky))
    ensures !AsOrdered(ClosestApproach(SnapOf(row, sky), SnapOf(other, sky), geo), 23.0, 500.0)
  {
    hide *;
    EastboundSpawn(other, altFt, now, sky);
    var p, q := Mid(EASTBOUND.lat, other.ac.lat), EASTBOUND.lat;
    ScalesDiffer(sky.scale, p, q);
    GhostAppointment(row, other, 23.0, 500.0, altFt, now, geo, sky);
  }

  lemma ScalesDiffer(scale: LonScale, p: real, q: real)
    requires Widening(scale) && -90.0 < p < q <= 0.0
    ensures DegPerMLon(scale, p) > DegPerMLon(scale, q) > 0.0
  {
  }

  lemma EastboundSpawn(other: Row, altFt: int, now: int, sky: Sky)
    requires sky.trig.Cos(90.0) == 0.0 && sky.trig.Sin(90.0) == 1.0
    requires Shows(other, Spawn(EASTBOUND, 23.0, 500.0, altFt, now, sky))
    ensures SameSpeed(EASTBOUND) && MeetingTime(23.0) == 23.0 && MissDistance(500.0) == 500.0
    ensures other.ac.lon != EASTBOUND.lon && -90.0 < Mid(EASTBOUND.lat, other.ac.lat) < EASTBOUND.lat <= 0.0
  {
    hide DegPerMLon, Trig.Cos, Trig.Sin, HeadOn, Along;
    assert SpawnedEast(EASTBOUND, Range(23.0), 500.0, sky.trig) == Range(23.0);
    SameMeridian(EASTBOUND, Range(23.0), 500.0, sky);
    hide SpawnLon;
  }
}

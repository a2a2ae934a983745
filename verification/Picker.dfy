/** Which way the simulator is told to divert from a threat. */
module Picker {
  import opened Algebra
  import opened Basics
  import opened AircraftDbSpec
  import opened Kinematics
  import opened Approach
  import opened TrackerSpec

  const LEVEL_BAND_FT := 300
  const REAR_DEG := 160.0

  // ---- angles -----------------------------------------------------------------------

  /** What the two wrapping loops leave of an angle: its representative in [-180, 180]. */
  function Settled(a: real): real {
    if a > 180.0 then Wrap(a) else if a < -180.0 then -Wrap(-a) else a
  }

  lemma MirrorDirection(a: real, r: real, k: int)
    requires a == r + Turns(k)
    ensures SameDirection(a, r) && SameDirection(-a, -r)
  {
    assert -a == -r + Turns(-k);
  }

  /** It points the same way, and inside the range it is the only one that does. */
  lemma SettledUnique(a: real, r: real)
    ensures -180.0 <= Settled(a) <= 180.0 && SameDirection(a, Settled(a))
    ensures -180.0 < r < 180.0 && SameDirection(a, r) ==> r == Settled(a)
  {
    WrapUnique(a, Wrap(a));
    WrapUnique(-a, Wrap(-a));
    var k: int :| -a == Wrap(-a) + Turns(k);
    MirrorDirection(-a, Wrap(-a), k);
    MirrorDirection(a, a, 0);
    if -180.0 < r < 180.0 && SameDirection(a, r) {
      var j: int :| a == r + Turns(j);
      MirrorDirection(a, r, j);
      WrapUnique(a, r);
      WrapUnique(-a, -r);
      hide Wrap;
      if -180.0 <= a <= 180.0 {
        TurnsGap(j, 0);
      }
    }
  }

  /** The two loops. */
  method Settle(a: real) returns (r: real)
    ensures r == Settled(a)
    ensures -180.0 <= r <= 180.0 && SameDirection(a, r)
  {
    hide Wrap;
    r := a;
    ghost var k: int := 0;
    while r > 180.0
      invariant a == r + Turns(k)
      invariant r > -180.0 || r == a
      decreases r
    {
      r := r - 360.0;
      k := k + 1;
    }
    MirrorDirection(a, r, k);
    WrapUnique(a, r);
    while r < -180.0
      invariant a == r + Turns(k)
      invariant a > 180.0 ==> r == Wrap(a)
      invariant a <= 180.0 ==> r == a || r < 180.0
      decreases -r
    {
      WrapUnique(a, Wrap(a));
      r := r + 360.0;
      k := k - 1;
    }
    MirrorDirection(a, r, k);
    WrapUnique(-a, -r);
  }

  // ---- the choice -------------------------------------------------------------------

  function BearingFrom(sim: SnapRow, threat: SnapRow, trig: Trig, scale: LonScale): real {
    trig.Bearing(Metres(threat.lon - sim.lon, DegPerMLon(scale, sim.lat)), Metres(threat.lat - sim.lat, DEG_PER_M_LAT))
  }

  function CourseOf(row: SnapRow, trig: Trig): real { trig.Bearing(row.vEast, row.vNorth) }

  /** From the simulator's course round to the threat, clockwise. */
  function Aside(sim: SnapRow, threat: SnapRow, trig: Trig, scale: LonScale): real {
    BearingFrom(sim, threat, trig, scale) - CourseOf(sim, trig)
  }

  /** Both altitudes known and more than 300 ft apart. */
  predicate OffLevel(sim: SnapRow, threat: SnapRow) {
    sim.altValid && threat.altValid && Abs(threat.altFt - sim.altFt) > LEVEL_BAND_FT
  }

  function PickDiversion(sim: SnapRow, threat: SnapRow, trig: Trig, scale: LonScale): Diversion {
    if OffLevel(sim, threat) then (if threat.altFt > sim.altFt then Descend else Climb)
    else
      var rel := Settled(Aside(sim, threat, trig, scale));
      if AbsReal(rel) > REAR_DEG || rel == 0.0 then Climb else if rel > 0.0 then Left else Right
  }

  method Choose(sim: SnapRow, threat: SnapRow, trig: Trig, scale: LonScale) returns (d: Diversion)
    ensures d == PickDiversion(sim, threat, trig, scale)
  {
    hide Settled, Metres, DegPerMLon, Trig.Atan2;
    var dn := Metres(threat.lat - sim.lat, DEG_PER_M_LAT);
    var de := Metres(threat.lon - sim.lon, DegPerMLon(scale, sim.lat));
    var bearing := trig.Atan2(de, dn);
    if bearing < 0.0 { bearing := bearing + 360.0; }
    var course := trig.Atan2(sim.vEast, sim.vNorth);
    if course < 0.0 { course := course + 360.0; }
    var rel := Settle(bearing - course);
    if sim.altValid && threat.altValid {
      var dz := threat.altFt - sim.altFt;
      if dz > LEVEL_BAND_FT { return Descend; }
      if dz < -LEVEL_BAND_FT { return Climb; }
    }
    if AbsReal(rel) > REAR_DEG { return Climb; }
    if rel > 0.0 { return Left; }
    if rel < 0.0 { return Right; }
    d := Climb;
  }

  /** The two angles. Some distance along the bearing, at the scale of the simulator's latitude, ends on
      the threat; the simulator moves at some speed along its course. Both are compass angles. */
  lemma AnglesMean(sim: SnapRow, threat: SnapRow, trig: Trig, scale: LonScale)
    requires trig.Sound()
    ensures var b, c := BearingFrom(sim, threat, trig, scale), CourseOf(sim, trig);
            && 0.0 <= b < 360.0 && 0.0 <= c < 360.0
            && (exists l :: l >= 0.0 && EndsOn(sim, threat, trig, scale, b, l))
            && exists v :: v >= 0.0 && MovesAlong(sim, trig, c, v)
  {
    hide Trig.Sound, Trig.Bearing;
    var de, dn := Metres(threat.lon - sim.lon, DegPerMLon(scale, sim.lat)), Metres(threat.lat - sim.lat, DEG_PER_M_LAT);
    BearingRange(trig, de, dn);
    BearingRange(trig, sim.vEast, sim.vNorth);
    var l := BearingPolar(trig, de, dn);
    var v := BearingPolar(trig, sim.vEast, sim.vNorth);
    PolarEnds(sim, threat, trig, scale, trig.Bearing(de, dn), l);
    assert MovesAlong(sim, trig, CourseOf(sim, trig), v);
  }

  ghost predicate EndsOn(sim: SnapRow, threat: SnapRow, trig: Trig, scale: LonScale, b: real, l: real) {
    && threat.lat == sim.lat + (l * trig.Cos(b)) / 111000.0
    && threat.lon == sim.lon + (l * trig.Sin(b)) * scale(sim.lat)
  }

  ghost predicate MovesAlong(sim: SnapRow, trig: Trig, c: real, v: real) {
    sim.vNorth == v * trig.Cos(c) && sim.vEast == v * trig.Sin(c)
  }

  lemma PolarEnds(sim: SnapRow, threat: SnapRow, trig: Trig, scale: LonScale, b: real, l: real)
    requires trig.Polar(l, b, Metres(threat.lon - sim.lon, DegPerMLon(scale, sim.lat)), Metres(threat.lat - sim.lat, DEG_PER_M_LAT))
    ensures EndsOn(sim, threat, trig, scale, b, l)
  {
    hide Metres, Trig.Cos, Trig.Sin;
    MetresBack(threat.lat - sim.lat, DEG_PER_M_LAT);
    MetresBack(threat.lon - sim.lon, DegPerMLon(scale, sim.lat));
    InDegrees(l * trig.Cos(b));
  }

  lemma MetresBack(d: real, k: real)
    requires k != 0.0
    ensures Metres(d, k) * k == d
  {
    Quotient(d, k);
  }

  lemma InDegrees(m: real)
    ensures m * DEG_PER_M_LAT == m / 111000.0
  {
  }

  /** Turning from course c by r degrees, to the right if positive, faces bearing b. */
  ghost predicate Faces(c: real, b: real, r: real) { SameDirection(b, c + r) }

  ghost predicate FacesRight(c: real, b: real, most: real) { exists r :: 0.0 < r <= most && Faces(c, b, r) }

  ghost predicate FacesLeft(c: real, b: real, most: real) { exists r :: -most <= r < 0.0 && Faces(c, b, r) }

  /** The simulator is sent away from the threat: down from one more than 300 ft above, up from one as
      far below; else left if turning right by up to 160 degrees would face it, right if turning left by
      up to that would, and up otherwise. Whatever the geometry it is never sent back to base or into a
      hold. */
  lemma PickMeans(sim: SnapRow, threat: SnapRow, trig: Trig, scale: LonScale)
    ensures var d, b, c := PickDiversion(sim, threat, trig, scale), BearingFrom(sim, threat, trig, scale), CourseOf(sim, trig);
            var above := sim.altValid && threat.altValid && threat.altFt > sim.altFt + 300;
            var below := sim.altValid && threat.altValid && threat.altFt < sim.altFt - 300;
            && (d == Descend <==> above)
            && (d == Left <==> !above && !below && FacesRight(c, b, 160.0))
            && (d == Right <==> !above && !below && FacesLeft(c, b, 160.0))
            && d != Rtb && d != Hold
  {
    hide BearingFrom, CourseOf, Settled, Faces;
    var b, c := BearingFrom(sim, threat, trig, scale), CourseOf(sim, trig);
    var rel := Settled(Aside(sim, threat, trig, scale));
    AsideFaces(b, c, rel);
    forall r | -160.0 <= r <= 160.0 && Faces(c, b, r)
      ensures r == rel
    {
      AsideIs(b, c, r);
      SettledUnique(b - c, r);
    }
  }

  lemma AsideIs(b: real, c: real, r: real)
    requires Faces(c, b, r)
    ensures SameDirection(b - c, r)
  {
    var k: int :| b == (c + r) + Turns(k);
    assert b - c == r + Turns(k);
  }

  lemma AsideFaces(b: real, c: real, rel: real)
    requires rel == Settled(b - c)
    ensures Faces(c, b, rel)
  {
    SettledUnique(b - c, rel);
    var k: int :| b - c == rel + Turns(k);
    assert b == (c + rel) + Turns(k);
  }
}

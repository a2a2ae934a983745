/** When a pair is at which level, from positions, velocities and altitudes alone. */
module PairLevels {
  import opened Algebra
  import opened Basics
  import opened AircraftDbSpec
  import opened Approach

  /** The square of the distance of two coordinates differences, longitude at k degrees a metre. */
  function GroundSquare(dLat: real, dLon: real, k: real): real
    requires k != 0.0
  {
    Square(dLon / k) + Square(dLat * 111000.0)
  }

  /** Where b is from a, t seconds ahead, in metres; longitudes at k degrees a metre. */
  function EastAhead(a: SnapRow, b: SnapRow, k: real, t: real): real
    requires k != 0.0
  {
    (b.lon - a.lon) / k + (b.vEast - a.vEast) * t
  }

  function NorthAhead(a: SnapRow, b: SnapRow, t: real): real { (b.lat - a.lat) * 111000.0 + (b.vNorth - a.vNorth) * t }

  /** The separation ahead is that of two points in straight motion; longitudes are scaled at the latitude
      midway. */
  lemma SeparationIs(a: SnapRow, b: SnapRow, geo: Geo, t: real)
    requires geo.Sound()
    ensures var k := geo.scale((a.lat + b.lat) / 2.0);
            && SeparationAt(a, b, geo, t) >= 0.0
            && Square(SeparationAt(a, b, geo, t)) == Square(EastAhead(a, b, k, t)) + Square(NorthAhead(a, b, t))
  {
    RelativeParts(a, b, geo.scale);
    Ahead(a, b, geo.scale, t);
    SeparationParts(a, b, geo, t);
    hide *;
    LengthSquare(geo, EastAhead(a, b, geo.scale((a.lat + b.lat) / 2.0), t), NorthAhead(a, b, t));
  }

  lemma Ahead(a: SnapRow, b: SnapRow, scale: LonScale, t: real)
    ensures var r := Relative(a, b, scale);
            At(r.x, r.vx, t) == EastAhead(a, b, scale((a.lat + b.lat) / 2.0), t) && At(r.y, r.vy, t) == NorthAhead(a, b, t)
  {
    RelativeParts(a, b, scale);
    hide Relative;
  }

  lemma SeparationParts(a: SnapRow, b: SnapRow, geo: Geo, t: real)
    ensures var r := Relative(a, b, geo.scale); SeparationAt(a, b, geo, t) == geo.Length(At(r.x, r.vx, t), At(r.y, r.vy, t))
  {
  }

  lemma RelativeParts(a: SnapRow, b: SnapRow, scale: LonScale)
    ensures Relative(a, b, scale)
         == Rel((b.lon - a.lon) / scale((a.lat + b.lat) / 2.0), (b.lat - a.lat) * 111000.0, b.vEast - a.vEast, b.vNorth - a.vNorth)
  {
    assert Mid(a.lat, b.lat) == (a.lat + b.lat) / 2.0;
    NorthMetres(b.lat - a.lat);
    LonMetres(b.lon - a.lon, scale, (a.lat + b.lat) / 2.0);
    hide Metres, DegPerMLon;
  }

  lemma LonMetres(d: real, scale: LonScale, lat: real)
    ensures Metres(d, DegPerMLon(scale, lat)) == d / scale(lat)
  {
  }

  lemma NorthMetres(d: real)
    ensures Metres(d, DEG_PER_M_LAT) == d * 111000.0
  {
    Quotient(d, DEG_PER_M_LAT);
    Cancel(d / DEG_PER_M_LAT, d * 111000.0, DEG_PER_M_LAT);
  }

  lemma LengthSquare(geo: Geo, x: real, y: real)
    requires geo.Sound()
    ensures geo.Length(x, y) >= 0.0 && Square(geo.Length(x, y)) == Square(x) + Square(y)
  {
    NormSign(x, y);
  }

  /** What the crash test measures. */
  lemma RangeIs(a: SnapRow, b: SnapRow, geo: Geo, h: real)
    requires geo.Sound() && h > 0.0
    ensures CrashRange(a, b, geo) < h <==> GroundSquare(b.lat - a.lat, b.lon - a.lon, geo.scale(a.lat)) < Square(h)
  {
    NorthMetres(b.lat - a.lat);
    LonMetres(b.lon - a.lon, geo.scale, a.lat);
    RangeParts(a, b, geo);
    hide Metres, DegPerMLon, CrashRange, Geo.Sound, Square;
    LengthBelow(geo, (b.lat - a.lat) * 111000.0, (b.lon - a.lon) / geo.scale(a.lat), h);
  }

  lemma RangeParts(a: SnapRow, b: SnapRow, geo: Geo)
    ensures CrashRange(a, b, geo)
         == geo.Length(Metres(b.lat - a.lat, DEG_PER_M_LAT), Metres(b.lon - a.lon, DegPerMLon(geo.scale, a.lat)))
  {
    hide Metres, DegPerMLon, Geo.Length;
  }

  lemma LengthBelow(geo: Geo, x: real, y: real, h: real)
    requires geo.Sound() && h > 0.0
    ensures geo.Length(x, y) < h <==> Square(x) + Square(y) < Square(h)
  {
    LengthSquare(geo, x, y);
    RootOrder(h, geo.Length(x, y), Square(h), Square(x) + Square(y));
  }

  /** The computed approach is the meeting, if there is one ahead. */
  lemma ApproachIsMeeting(a: SnapRow, b: SnapRow, geo: Geo)
    requires geo.Sound()
    ensures var app := ClosestApproach(a, b, geo);
            && app.curSep == SeparationAt(a, b, geo, 0.0)
            && (!Moving(a, b) ==> app.tca.None? && !app.diverging && app.minSep == app.curSep)
            && (Moving(a, b) ==>
                  var t := MeetTime(a, b, geo);
                  if t > 0.0 then app.tca == Some(t) && app.minSep == SeparationAt(a, b, geo, t) && !app.diverging
                  else app.tca == Some(0.0) && app.diverging && app.minSep == app.curSep)
            && app.altValid == (a.altValid && b.altValid)
            && app.altDiffFt == if a.altValid && b.altValid then Abs(a.altFt - b.altFt) else 0
  {
    NormSign(b.vEast - a.vEast, b.vNorth - a.vNorth);
    var r := Relative(a, b, geo.scale);
    AtZero(r.x, r.vx);
    AtZero(r.y, r.vy);
    hide Norm2, Tca, At, Geo.Length, Geo.Sound, Metres;
  }

  /** Closing within a distance in less than a time. */
  ghost predicate Closes(a: SnapRow, b: SnapRow, geo: Geo, within: real, horizon: real) {
    Moving(a, b) && Meets(a, b, geo, within, horizon)
  }

  /** Altitudes unknown on a side, or less than so many feet apart. */
  predicate MayBeLevel(a: SnapRow, b: SnapRow, feet: int) {
    a.altValid && b.altValid ==> -feet < a.altFt - b.altFt < feet
  }

  /** Within 100 m of each other, or within 300 m and meeting within 100 m in less than half a second. */
  ghost predicate AtHand(a: SnapRow, b: SnapRow, geo: Geo) {
    var d2 := GroundSquare(b.lat - a.lat, b.lon - a.lon, geo.scale(a.lat));
    d2 < Square(100.0) || (d2 < Square(300.0) && Closes(a, b, geo, 100.0, 0.5))
  }

  /** A pair is CRASH exactly if it is going to meet within 500 m and 30 s, may be within 328 ft in
      altitude and is at hand; WARNING if it is going to meet so, may be within 1000 ft and is no CRASH;
      ADVISORY if it is going to meet within 1000 m and 60 s only and may be within 1000 ft. Distances at
      hand take the longitude scale of the first aircraft. */
  lemma LevelMeans(a: SnapRow, b: SnapRow, geo: Geo)
    requires geo.Sound()
    ensures var lvl, warn, hit := PairLevel(a, b, geo), Closes(a, b, geo, 500.0, 30.0), MayBeLevel(a, b, 328) && AtHand(a, b, geo);
            && (lvl == Crash <==> warn && hit)
            && (lvl == Warning <==> warn && MayBeLevel(a, b, 1001) && !hit)
            && (lvl == Advisory <==> Closes(a, b, geo, 1000.0, 60.0) && !warn && MayBeLevel(a, b, 1001))
  {
    hide Meets, Moving, MeetTime, SeparationAt, ClosestApproach, Classify, CrashRange, GroundSquare, CrashHit, Geo.Sound, Square;
    RangeIs(a, b, geo, 100.0);
    RangeIs(a, b, geo, 300.0);
    ApproachIsMeeting(a, b, geo);
    ClassifyMeans(a, b, geo);
    if Moving(a, b) {
      MeetsAt(a, b, geo, 100.0, 0.5);
      if Meets(a, b, geo, 500.0, 30.0) {
        AheadIsMeeting(a, b, geo);
      }
    }
    HitMeans(a, b, ClosestApproach(a, b, geo), geo);
  }

  /** A warning is ahead. */
  lemma AheadIsMeeting(a: SnapRow, b: SnapRow, geo: Geo)
    requires geo.Sound() && Moving(a, b) && Meets(a, b, geo, 500.0, 30.0)
    ensures MeetTime(a, b, geo) > 0.0
  {
    hide Meets, MeetTime, SeparationAt;
    MeetsAt(a, b, geo, 500.0, 30.0);
  }

  lemma HitMeans(a: SnapRow, b: SnapRow, app: Approach, geo: Geo)
    ensures CrashHit(a, b, app, geo) <==>
              MayBeLevel(a, b, 328)
              && (CrashRange(a, b, geo) < 100.0
                  || (CrashRange(a, b, geo) < 300.0 && app.minSep < 100.0 && app.tca.Some? && -0.5 < app.tca.value < 0.5
                      && !app.diverging))
  {
    hide CrashRange;
  }
}

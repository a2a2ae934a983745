/** When the level of a pair depends on which aircraft is scanned first. The approach does not; the
    crash test does, because it scales longitude at the first aircraft's latitude. */
module LevelSymmetry {
  import opened Algebra
  import opened Basics
  import opened AircraftDbSpec
  import opened Approach

  /** For every pair at latitudes p and q the scan order makes no difference. */
  ghost predicate SymmetricAt(p: real, q: real, geo: Geo) {
    forall a: SnapRow, b: SnapRow :: a.lat == p && b.lat == q ==> PairLevel(a, b, geo) == PairLevel(b, a, geo)
  }

  function Northing(p: real, q: real): real { Metres(q - p, DEG_PER_M_LAT) }

  /** The longitude scales agree in size, or the latitudes alone put the pair out of the crash test's
      reach. */
  predicate SameReach(p: real, q: real, scale: LonScale) {
    || AbsReal(DegPerMLon(scale, p)) == AbsReal(DegPerMLon(scale, q))
    || AbsReal(Northing(p, q)) >= IMMINENT_RANGE_M
  }

  // ---- the crash test's two ranges --------------------------------------------------

  /** The square of the crash range. */
  function Reach2(n: real, e: real): real { Square(n) + Square(e) }

  lemma RangeSquare(a: SnapRow, b: SnapRow, geo: Geo, h: real)
    requires geo.Sound() && h >= 0.0
    ensures var r2 := Reach2(Northing(a.lat, b.lat), Metres(b.lon - a.lon, DegPerMLon(geo.scale, a.lat)));
            (CrashRange(a, b, geo) < h <==> r2 < Square(h))
  {
    hide Metres, DegPerMLon, Northing, Reach2, CrashRange, Geo.Sound, Square;
    RangeLength(a, b, geo);
    LengthBelow(geo, Northing(a.lat, b.lat), Metres(b.lon - a.lon, DegPerMLon(geo.scale, a.lat)), h);
  }

  lemma LengthBelow(geo: Geo, n: real, e: real, h: real)
    requires geo.Sound() && h >= 0.0
    ensures geo.Length(n, e) < h <==> Reach2(n, e) < Square(h)
  {
    NormSign(n, e);
    RootOrder(h, geo.Length(n, e), Square(h), Norm2(n, e));
  }

  lemma RangeLength(a: SnapRow, b: SnapRow, geo: Geo)
    ensures CrashRange(a, b, geo) == geo.Length(Northing(a.lat, b.lat), Metres(b.lon - a.lon, DegPerMLon(geo.scale, a.lat)))
  {
    hide Metres, DegPerMLon, Geo.Length;
  }

  lemma MetresSquare(d: real, k: real, l: real)
    requires k != 0.0 && l != 0.0
    ensures Square(Metres(-d, k)) == Square(Metres(d, k))
    ensures Square(k) == Square(l) ==> Square(Metres(d, k)) == Square(Metres(d, l))
    ensures Square(Metres(d, k)) * Square(k) == Square(d)
  {
    MetresTimes(d, k);
    MetresTimes(d, l);
    MetresTimes(-d, k);
    var x, y, z := Metres(d, k), Metres(d, l), Metres(-d, k);
    hide Metres;
    Cancel(z, -x, k);
    assert Square(x) * Square(k) == Square(d) && Square(y) * Square(l) == Square(d);
    SquareSign(k, Square(k));
    if Square(k) == Square(l) {
      Cancel(Square(x), Square(y), Square(k));
    }
  }

  lemma MetresTimes(d: real, k: real)
    requires k != 0.0
    ensures Metres(d, k) * k == d
  {
    Quotient(d, k);
  }

  // ---- sufficient -------------------------------------------------------------------

  /** Equal squared ranges give equal levels. */
  lemma SameRanges(a: SnapRow, b: SnapRow, geo: Geo)
    requires CrashRange(a, b, geo) == CrashRange(b, a, geo)
             || (CrashRange(a, b, geo) >= IMMINENT_RANGE_M && CrashRange(b, a, geo) >= IMMINENT_RANGE_M)
    ensures PairLevel(a, b, geo) == PairLevel(b, a, geo)
  {
    ApproachSymmetric(a, b, geo);
    hide ClosestApproach, Classify, CrashRange;
  }

  lemma NorthingFlip(p: real, q: real)
    ensures Square(Northing(q, p)) == Square(Northing(p, q))
  {
    MetresSquare(q - p, DEG_PER_M_LAT, DEG_PER_M_LAT);
    assert p - q == -(q - p);
  }

  lemma ReachSuffices(a: SnapRow, b: SnapRow, geo: Geo)
    requires geo.Sound() && SameReach(a.lat, b.lat, geo.scale)
    ensures PairLevel(a, b, geo) == PairLevel(b, a, geo)
  {
    var k, l := DegPerMLon(geo.scale, a.lat), DegPerMLon(geo.scale, b.lat);
    var n, m := Northing(a.lat, b.lat), Northing(b.lat, a.lat);
    NorthingFlip(a.lat, b.lat);
    MetresSquare(b.lon - a.lon, k, l);
    MetresSquare(b.lon - a.lon, l, k);
    assert a.lon - b.lon == -(b.lon - a.lon);
    AbsOrder(k, l);
    hide Metres, DegPerMLon, Northing, PairLevel, CrashRange;
    if AbsReal(k) == AbsReal(l) {
      EqualRanges(a, b, geo);
    } else {
      FarEnough(a, b, geo, n, Metres(b.lon - a.lon, k));
      FarEnough(b, a, geo, m, Metres(a.lon - b.lon, l));
    }
    SameRanges(a, b, geo);
  }

  lemma EqualRanges(a: SnapRow, b: SnapRow, geo: Geo)
    requires geo.Sound()
    requires Square(Northing(a.lat, b.lat)) == Square(Northing(b.lat, a.lat))
    requires Square(Metres(b.lon - a.lon, DegPerMLon(geo.scale, a.lat)))
          == Square(Metres(a.lon - b.lon, DegPerMLon(geo.scale, b.lat)))
    ensures CrashRange(a, b, geo) == CrashRange(b, a, geo)
  {
    RangeLength(a, b, geo);
    RangeLength(b, a, geo);
    hide Metres, DegPerMLon, Northing, CrashRange;
    SameLength(geo, Northing(a.lat, b.lat), Metres(b.lon - a.lon, DegPerMLon(geo.scale, a.lat)),
               Northing(b.lat, a.lat), Metres(a.lon - b.lon, DegPerMLon(geo.scale, b.lat)));
  }

  lemma SameLength(geo: Geo, x: real, y: real, u: real, v: real)
    requires Square(x) == Square(u) && Square(y) == Square(v)
    ensures geo.Length(x, y) == geo.Length(u, v)
  {
    assert Norm2(x, y) == Norm2(u, v);
  }

  lemma FarEnough(a: SnapRow, b: SnapRow, geo: Geo, n: real, e: real)
    requires geo.Sound() && n == Northing(a.lat, b.lat) && e == Metres(b.lon - a.lon, DegPerMLon(geo.scale, a.lat))
    requires Square(n) >= Square(IMMINENT_RANGE_M)
    ensures CrashRange(a, b, geo) >= IMMINENT_RANGE_M
  {
    SquareSign(e, Square(e));
    hide Metres, DegPerMLon, Northing, CrashRange, Square;
    RangeSquare(a, b, geo, IMMINENT_RANGE_M);
  }

  // ---- necessary --------------------------------------------------------------------

  /** At latitudes p and q, dlon degrees apart, on a head-on course that meets in t seconds; altitudes
      unknown. */
  function HeadOnB(q: real, dlon: real, r: Rel, t: real): SnapRow
    requires t != 0.0
  {
    SnapRow("b", q, dlon, -(r.y / t), -(r.x / t), 0, true, false)
  }

  function HeadOnA(p: real): SnapRow { SnapRow("a", p, 0.0, 0.0, 0.0, 0, true, false) }

  function Apart(p: real, q: real, dlon: real, scale: LonScale): Rel {
    Rel(Metres(dlon, DegPerMLon(scale, Mid(p, q))), Northing(p, q), 0.0, 0.0)
  }

  lemma HeadOnRel(p: real, q: real, dlon: real, t: real, scale: LonScale)
    requires t != 0.0
    ensures var r := Apart(p, q, dlon, scale);
            Relative(HeadOnA(p), HeadOnB(q, dlon, r, t), scale) == Rel(r.x, r.y, -(r.x / t), -(r.y / t))
  {
    hide Metres, DegPerMLon;
  }

  lemma HeadOnMeets(x: real, y: real, t: real, geo: Geo)
    requires geo.Sound() && t > 0.0 && (x != 0.0 || y != 0.0)
    ensures Horizontal(Rel(x, y, -(x / t), -(y / t)), geo) == (Some(t), 0.0, false)
  {
    var vx, vy := -(x / t), -(y / t);
    Quotient(x, t);
    Quotient(y, t);
    assert x == -(vx * t) && y == -(vy * t);
    HeadOnTca(x, y, vx, vy, t);
    NormSign(0.0, 0.0);
    hide Tca, At, Norm2, Geo.Length;
    LengthIs(geo, 0.0, 0.0, 0.0);
  }

  lemma HeadOnTca(x: real, y: real, vx: real, vy: real, t: real)
    requires x == -(vx * t) && y == -(vy * t) && (x != 0.0 || y != 0.0)
    ensures Norm2(vx, vy) != 0.0 && Tca(Rel(x, y, vx, vy)) == t
    ensures At(x, vx, t) == 0.0 && At(y, vy, t) == 0.0
  {
    NormSign(vx, vy);
    var n, d := Norm2(vx, vy), -Dot(x, y, vx, vy);
    assert d == t * n;
    hide Norm2, Dot;
    Quotient(d, n);
    Cancel(d / n, t, n);
  }

  /** Such a pair is a crash or a warning by its range alone: below 100 m when it meets in 10 s, below
      300 m when it meets in a quarter of a second. */
  lemma LevelByRange(a: SnapRow, b: SnapRow, geo: Geo, t: real)
    requires var app := ClosestApproach(a, b, geo); app.tca == Some(t) && app.minSep == 0.0 && !app.diverging
    requires !a.altValid && (t == 10.0 || t == 0.25)
    ensures PairLevel(a, b, geo) == if CrashRange(a, b, geo) < Reach(t) then Crash else Warning
  {
    hide ClosestApproach, CrashRange;
  }

  function Reach(t: real): real { if t == 10.0 then CRASH_SEP_M else IMMINENT_RANGE_M }

  /** The longitude difference that puts the range exactly at h for one scale k puts it below h for any
      scale of larger size. */
  lemma ReachSplits(n: real, k: real, l: real, w: real, h: real)
    requires k != 0.0 && l != 0.0 && w > 0.0 && Square(n) + Square(w) == Square(h) && Square(k) < Square(l)
    ensures Reach2(n, Metres(k * w, k)) == Square(h)
    ensures Reach2(n, Metres(k * w, l)) < Square(h)
  {
    var u := Metres(k * w, l);
    MetresTimes(k * w, k);
    MetresTimes(k * w, l);
    Cancel(Metres(k * w, k), w, k);
    assert Square(u) * Square(l) == Square(k) * Square(w) by {
      assert Square(u * l) == Square(u) * Square(l);
      assert Square(k * w) == Square(k) * Square(w);
    }
    SquareSign(w, Square(w));
    SquareSign(k, Square(k));
    hide Square, Metres;
    SmallerFactor(Square(u), Square(l), Square(k), Square(w));
  }

  lemma SmallerFactor(u: real, l: real, k: real, w: real)
    requires u * l == k * w && k < l && w > 0.0 && k > 0.0
    ensures u < w
  {
    if u >= w {
      ProductSign(u - w, l, (u - w) * l);
      ProductSign(l - k, w, (l - k) * w);
      assert false;
    }
  }

  /** The threshold that tells the two ranges apart, by how far apart the latitudes are. */
  function Threshold(n: real): real { if AbsReal(n) < CRASH_SEP_M then CRASH_SEP_M else IMMINENT_RANGE_M }

  function MeetIn(n: real): real { if AbsReal(n) < CRASH_SEP_M then 10.0 else 0.25 }

  /** How far apart in longitude a range of exactly the threshold leaves the pair, in metres. */
  function Easting(n: real, geo: Geo): real { geo.sqrt(Square(Threshold(n)) - Square(n)) }

  lemma EastingLength(n: real, geo: Geo)
    requires geo.Sound() && AbsReal(n) < IMMINENT_RANGE_M
    ensures Easting(n, geo) > 0.0 && Square(n) + Square(Easting(n, geo)) == Square(Threshold(n))
  {
    AbsOrder(Threshold(n), n);
    var gap := Square(Threshold(n)) - Square(n);
    assert gap > 0.0;
  }

  function Degrees(k: real, w: real): real { k * w }

  /** The pair that tells the scales apart: head on, k the smaller of the two. */
  function Split(p: real, q: real, k: real, geo: Geo): SnapRow {
    var n := Northing(p, q);
    var dlon := Degrees(k, Easting(n, geo));
    HeadOnB(q, dlon, Apart(p, q, dlon, geo.scale), MeetIn(n))
  }

  lemma ApartEast(p: real, q: real, dlon: real, scale: LonScale)
    requires dlon != 0.0
    ensures Apart(p, q, dlon, scale).x != 0.0
  {
    MetresTimes(dlon, DegPerMLon(scale, Mid(p, q)));
    hide Metres, DegPerMLon;
  }

  lemma HeadOnApproach(p: real, q: real, dlon: real, t: real, geo: Geo)
    requires geo.Sound() && dlon != 0.0 && t > 0.0
    ensures var app := ClosestApproach(HeadOnA(p), HeadOnB(q, dlon, Apart(p, q, dlon, geo.scale), t), geo);
            app.tca == Some(t) && app.minSep == 0.0 && !app.diverging
  {
    var r := Apart(p, q, dlon, geo.scale);
    ApartEast(p, q, dlon, geo.scale);
    HeadOnRel(p, q, dlon, t, geo.scale);
    hide *;
    MeetingApproach(HeadOnA(p), HeadOnB(q, dlon, r, t), r.x, r.y, t, geo);
  }

  lemma MeetingApproach(a: SnapRow, b: SnapRow, x: real, y: real, t: real, geo: Geo)
    requires geo.Sound() && t > 0.0 && x != 0.0
    requires Relative(a, b, geo.scale) == Rel(x, y, -(x / t), -(y / t))
    ensures var app := ClosestApproach(a, b, geo); app.tca == Some(t) && app.minSep == 0.0 && !app.diverging
  {
    HeadOnMeets(x, y, t, geo);
    hide Relative, Horizontal, Geo.Sound, Geo.Length;
  }

  lemma SplitMeets(p: real, q: real, k: real, geo: Geo)
    requires geo.Sound() && AbsReal(Northing(p, q)) < IMMINENT_RANGE_M && k != 0.0
    ensures var app := ClosestApproach(HeadOnA(p), Split(p, q, k, geo), geo);
            app.tca == Some(MeetIn(Northing(p, q))) && app.minSep == 0.0 && !app.diverging
  {
    hide ClosestApproach, Northing, Easting, Apart, HeadOnA, HeadOnB, Geo.Sound;
    var n := Northing(p, q);
    var w := Easting(n, geo);
    EastingLength(n, geo);
    ProductNonzero(k, w);
    hide Degrees;
    HeadOnApproach(p, q, Degrees(k, w), MeetIn(n), geo);
  }

  lemma ProductNonzero(x: real, y: real)
    requires x != 0.0 && y != 0.0
    ensures Degrees(x, y) != 0.0
  {
  }

  /** Whichever scale is the smaller, one range is the threshold exactly and the other falls short. */
  lemma SplitRanges(p: real, q: real, k: real, l: real, geo: Geo)
    requires geo.Sound() && AbsReal(Northing(p, q)) < IMMINENT_RANGE_M && k != 0.0 && l != 0.0 && Square(k) < Square(l)
    ensures var n, dlon, h := Northing(p, q), Degrees(k, Easting(Northing(p, q), geo)), Threshold(Northing(p, q));
            && Reach2(n, Metres(dlon, k)) >= Square(h) && Reach2(Northing(q, p), Metres(-dlon, k)) >= Square(h)
            && Reach2(n, Metres(dlon, l)) < Square(h) && Reach2(Northing(q, p), Metres(-dlon, l)) < Square(h)
  {
    var n := Northing(p, q);
    var dlon := Degrees(k, Easting(n, geo));
    EastingLength(n, geo);
    NorthingFlip(p, q);
    MetresSquare(dlon, k, k);
    MetresSquare(dlon, l, l);
    hide Northing, Easting, Metres, Threshold, Square;
    ReachSplits(n, k, l, Easting(n, geo), Threshold(n));
  }

  /** At latitudes whose scales differ in size, and that are within the crash test's reach, some pair
      is a crash in one scan order and a warning in the other. */
  lemma FailingPair(p: real, q: real, geo: Geo)
    requires geo.Sound() && !SameReach(p, q, geo.scale)
    ensures exists a: SnapRow, b: SnapRow ::
      a.lat == p && b.lat == q && {PairLevel(a, b, geo), PairLevel(b, a, geo)} == {Crash, Warning}
  {
    var k, l := DegPerMLon(geo.scale, p), DegPerMLon(geo.scale, q);
    AbsOrder(k, l);
    AbsOrder(l, k);
    var s, g := if AbsReal(k) < AbsReal(l) then k else l, if AbsReal(k) < AbsReal(l) then l else k;
    SplitRanges(p, q, s, g, geo);
    SplitMeets(p, q, s, geo);
    SplitLevels(p, q, s, geo);
  }

  lemma SplitLevels(p: real, q: real, k: real, geo: Geo)
    requires geo.Sound() && AbsReal(Northing(p, q)) < IMMINENT_RANGE_M && k != 0.0
    ensures var a, b, h := HeadOnA(p), Split(p, q, k, geo), Threshold(Northing(p, q));
            var dlon := Degrees(k, Easting(Northing(p, q), geo));
            && a.lat == p && b.lat == q
            && PairLevel(a, b, geo) == (if Reach2(Northing(p, q), Metres(dlon, DegPerMLon(geo.scale, p))) < Square(h)
                                        then Crash else Warning)
            && PairLevel(b, a, geo) == (if Reach2(Northing(q, p), Metres(-dlon, DegPerMLon(geo.scale, q))) < Square(h)
                                        then Crash else Warning)
  {
    hide ClosestApproach, PairLevel, CrashRange, Northing, Metres, Easting, Apart, Reach2, DegPerMLon;
    var a, b, n := HeadOnA(p), Split(p, q, k, geo), Northing(p, q);
    SplitMeets(p, q, k, geo);
    ApproachSymmetric(a, b, geo);
    LevelByRange(a, b, geo, MeetIn(n));
    LevelByRange(b, a, geo, MeetIn(n));
    RangeSquare(a, b, geo, Threshold(n));
    RangeSquare(b, a, geo, Threshold(n));
  }

  /** The threat level of every pair at two latitudes is the same in both scan orders exactly when the
      longitude scales there agree in size or the latitudes alone are at least 300 m apart. */
  lemma SymmetricExactly(p: real, q: real, geo: Geo)
    requires geo.Sound()
    ensures SymmetricAt(p, q, geo) <==> SameReach(p, q, geo.scale)
  {
    hide PairLevel, SameReach;
    if SameReach(p, q, geo.scale) {
      forall a: SnapRow, b: SnapRow | a.lat == p && b.lat == q
        ensures PairLevel(a, b, geo) == PairLevel(b, a, geo)
      {
        ReachSuffices(a, b, geo);
      }
    } else {
      FailingPair(p, q, geo);
    }
  }
}

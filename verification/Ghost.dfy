/** The ghost aircraft: spawned head-on against a target so as to meet it at a chosen time and miss
    distance, then dead-reckoned. */
module Ghost {
  import opened Algebra
  import opened Basics
  import opened AircraftDbSpec
  import opened Approach
  import opened Kinematics
  import opened Snapshot
  import TrackerSpec

  const GHOST_SPEED_KT := 250.0
  const GHOST_TCA_S := 23.0
  const GHOST_TICK_MS := 3000
  const GHOST_ALT_FT := 5000

  datatype GhostState = GhostState(
    active: bool, lat: real, lon: real, hdg: real, altFt: int, vNorth: real, vEast: real, lastStepMs: int)

  // ---- spawning ---------------------------------------------------------------------

  /** Times and distances a caller leaves out. */
  function MeetingTime(tcaS: real): (t: real)
    ensures t > 0.0
  {
    if tcaS <= 0.0 then GHOST_TCA_S else tcaS
  }

  function MissDistance(missM: real): (m: real)
    ensures m >= 0.0
  {
    if missM < 0.0 then 0.0 else missM
  }

  function GhostAltitude(target: Aircraft, altFt: int): int {
    if altFt >= 0 then altFt else if target.altValid then target.altFt else GHOST_ALT_FT
  }

  function TargetHeading(target: Aircraft): real { if target.hdgValid then target.hdgDeg else 0.0 }

  function GhostSpeed(): (v: real)
    ensures v > 0.0
  {
    GHOST_SPEED_KT * KT_TO_MPS
  }

  /** x along one axis plus y along the other. */
  function Mix(x: real, c: real, y: real, s: real): real { x * c + y * s }

  function Travelled(speed: real, t: real): real { speed * t }

  /** Metres closed head-on in the time given. */
  function Range(tca: real): real { Travelled(2.0 * GhostSpeed(), tca) }

  /** Where the ghost starts: `range` along the target's heading plus `miss` to the right of it. */
  function SpawnLat(target: Aircraft, range: real, miss: real, trig: Trig): real {
    var h := TargetHeading(target);
    Moved(target.lat, Mix(range, trig.Cos(h), miss, -trig.Sin(h)), DEG_PER_M_LAT)
  }

  function SpawnLon(target: Aircraft, range: real, miss: real, sky: Sky): real {
    var h := TargetHeading(target);
    Moved(target.lon, Mix(range, sky.trig.Sin(h), miss, sky.trig.Cos(h)), DegPerMLon(sky.scale, target.lat))
  }

  function HeadOn(target: Aircraft): real { Fmod360(TargetHeading(target) + 180.0) }

  function Along(share: real): real { GhostSpeed() * share }

  function Spawn(target: Aircraft, tcaS: real, missM: real, altFt: int, now: int, sky: Sky): GhostState {
    var range, miss, hdg := Range(MeetingTime(tcaS)), MissDistance(missM), HeadOn(target);
    GhostState(true, SpawnLat(target, range, miss, sky.trig), SpawnLon(target, range, miss, sky), hdg,
               GhostAltitude(target, altFt), Along(sky.trig.Cos(hdg)), Along(sky.trig.Sin(hdg)), now)
  }

  function NextLat(lat: real, v: real, dt: real): real { Moved(lat, Travelled(v, dt), DEG_PER_M_LAT) }

  /** The longitude step uses the latitude just reached. */
  function NextLon(lat: real, lon: real, v: real, dt: real, scale: LonScale): real {
    Moved(lon, Travelled(v, dt), DegPerMLon(scale, lat))
  }

  /** One keep-alive tick. */
  function KeepAlive(g: GhostState, now: int, sky: Sky): GhostState {
    if !g.active then g
    else
      var dt := StepSeconds(g.lastStepMs, now, GHOST_TICK_MS);
      var lat := NextLat(g.lat, g.vNorth, dt);
      g.(lat := lat, lon := NextLon(lat, g.lon, g.vEast, dt, sky.scale), lastStepMs := now)
  }

  /** What the table is told of the ghost. */
  function Observation(g: GhostState, now: int): Aircraft {
    NO_AIRCRAFT.(icao := TrackerSpec.GHOST, source := Fict, lat := g.lat, lon := g.lon, ts := now as real / 1000.0,
                 altValid := true, velValid := true, hdgValid := true,
                 altFt := g.altFt, velKt := GHOST_SPEED_KT, hdgDeg := g.hdg)
  }

  /** The ghost as the firmware holds it. */
  class Ghost {
    var active: bool
    var lat: real
    var lon: real
    var hdg: real
    var altFt: int
    var vNorth: real
    var vEast: real
    var lastStepMs: int

    ghost function State(): GhostState
      reads this
    {
      GhostState(active, lat, lon, hdg, altFt, vNorth, vEast, lastStepMs)
    }

    method Start(target: Aircraft, tcaS: real, missM: real, alt: int, now: int, sky: Sky) returns (obs: Aircraft)
      modifies this
      ensures State() == Spawn(target, tcaS, missM, alt, now, sky)
      ensures obs == Observation(State(), now)
    {
      hide HeadOn, Along, SpawnLat, SpawnLon, Range, MeetingTime, MissDistance, GhostAltitude;
      SetCourse(target, alt, sky.trig);
      Place(target, tcaS, missM, sky);
      lastStepMs := now;
      obs := Record(now);
      active := true;
    }

    method SetCourse(target: Aircraft, alt: int, trig: Trig)
      modifies this`altFt, this`hdg, this`vNorth, this`vEast
      ensures altFt == GhostAltitude(target, alt) && hdg == HeadOn(target)
      ensures vNorth == Along(trig.Cos(hdg)) && vEast == Along(trig.Sin(hdg))
      ensures trig.Sound() ==> Opposing(vNorth, vEast, TargetHeading(target), trig)
    {
      hide Fmod360, Along, Opposing, Trig.Sound;
      altFt := alt;
      if alt < 0 {
        altFt := if target.altValid then target.altFt else GHOST_ALT_FT;
      }
      var targetHdg := if target.hdgValid then target.hdgDeg else 0.0;
      hdg := Fmod360(targetHdg + 180.0);
      vNorth := Along(trig.Cos(hdg));
      vEast := Along(trig.Sin(hdg));
      HeadOnOpposes(target, trig);
    }

    method Place(target: Aircraft, tcaS: real, missM: real, sky: Sky)
      modifies this`lat, this`lon
      ensures lat == SpawnLat(target, Range(MeetingTime(tcaS)), MissDistance(missM), sky.trig)
      ensures lon == SpawnLon(target, Range(MeetingTime(tcaS)), MissDistance(missM), sky)
      ensures sky.trig.Sound() ==>
                Bears(target, lat, lon, Range(MeetingTime(tcaS)), MissDistance(missM), sky)
    {
      hide SpawnLat, SpawnLon, Range, Bears, Trig.Sound;
      var tca := if tcaS <= 0.0 then GHOST_TCA_S else tcaS;
      var miss := if missM < 0.0 then 0.0 else missM;
      lat := SpawnLat(target, Range(tca), miss, sky.trig);
      lon := SpawnLon(target, Range(tca), miss, sky);
      SpawnBears(target, Range(tca), miss, sky);
    }

    method Record(now: int) returns (obs: Aircraft)
      ensures obs == Observation(State(), now)
    {
      obs := NO_AIRCRAFT.(icao := TrackerSpec.GHOST, source := Fict, lat := lat, lon := lon, ts := now as real / 1000.0,
                          altValid := true, velValid := true, hdgValid := true,
                          altFt := altFt, velKt := GHOST_SPEED_KT, hdgDeg := hdg);
    }

    method KeepAliveTick(now: int, sky: Sky) returns (obs: Option<Aircraft>)
      modifies this
      ensures State() == KeepAlive(old(State()), now, sky)
      ensures obs == if active then Some(Observation(State(), now)) else None
    {
      hide NextLat, NextLon, StepSeconds, Observation;
      obs := None;
      if !active { return; }
      var dt := StepSeconds(lastStepMs, now, GHOST_TICK_MS);
      lastStepMs := now;
      lat := NextLat(lat, vNorth, dt);
      lon := NextLon(lat, lon, vEast, dt, sky.scale);
      var record := Record(now);
      obs := Some(record);
    }

    method Stop()
      modifies this`active
      ensures State() == old(State()).(active := false)
    {
      active := false;
    }
  }

  // ---- what a spawn amounts to ------------------------------------------------------

  /** A velocity of 250 kt straight against a heading. */
  ghost predicate Opposing(vNorth: real, vEast: real, hdg: real, trig: Trig) {
    && vNorth == -Along(trig.Cos(hdg)) && vEast == -Along(trig.Sin(hdg))
    && Norm2(vEast, vNorth) == Square(GhostSpeed())
  }

  /** Measured from the target at its own longitude scale, a position is so many metres ahead along
      its heading and so many to the right. */
  ghost predicate Bears(target: Aircraft, lat: real, lon: real, ahead: real, right: real, sky: Sky) {
    var h := TargetHeading(target);
    var dn := Metres(lat - target.lat, DEG_PER_M_LAT);
    var de := Metres(lon - target.lon, DegPerMLon(sky.scale, target.lat));
    Mix(dn, sky.trig.Cos(h), de, sky.trig.Sin(h)) == ahead && Mix(de, sky.trig.Cos(h), dn, -sky.trig.Sin(h)) == right
  }

  lemma OnCircle(trig: Trig, a: real)
    requires trig.Sound()
    ensures trig.Circle(a) && Unit(trig.Cos(a), trig.Sin(a))
  {
  }

  lemma HeadOnTrig(target: Aircraft, trig: Trig)
    requires trig.Sound()
    ensures trig.Cos(HeadOn(target)) == -trig.Cos(TargetHeading(target))
    ensures trig.Sin(HeadOn(target)) == -trig.Sin(TargetHeading(target))
  {
    var h := TargetHeading(target);
    assert trig.Circle(h);
    var k := -Trunc((h + 180.0) / 360.0);
    assert HeadOn(target) == (h + 180.0) + Turns(k);
    TurnsPeriod(trig, h + 180.0, k);
  }

  lemma HeadOnOpposes(target: Aircraft, trig: Trig)
    ensures trig.Sound() ==>
              Opposing(Along(trig.Cos(HeadOn(target))), Along(trig.Sin(HeadOn(target))), TargetHeading(target), trig)
  {
    if trig.Sound() {
      var h := TargetHeading(target);
      HeadOnTrig(target, trig);
      OnCircle(trig, h);
      CircleScale(GhostSpeed(), trig.Cos(h), trig.Sin(h));
      hide HeadOn, Trig.Sound, GhostSpeed;
      AlongBack(trig.Cos(h));
      AlongBack(trig.Sin(h));
    }
  }

  lemma AlongBack(share: real)
    ensures Along(-share) == -Along(share)
  {
  }

  lemma MovedMetres(deg: real, metres: real, k0: real, k1: real)
    requires k0 != 0.0 && k1 != 0.0
    ensures Metres(Moved(deg, metres, k0) - deg, k1) == Scaled(Ratio(k0, k1), metres)
    ensures k0 == k1 ==> Scaled(Ratio(k0, k1), metres) == metres
    ensures Moved(deg, metres, k0) == deg <==> metres == 0.0
  {
    var q, p := Metres(Moved(deg, metres, k0) - deg, k1), Ratio(k0, k1);
    Quotient(metres * k0, k1);
    Quotient(k0, k1);
    assert q * k1 == (p * metres) * k1;
    Cancel(q, p * metres, k1);
  }

  /** Turning a pair of offsets and turning it back. */
  lemma MixBack(range: real, miss: real, c: real, s: real)
    requires Unit(c, s)
    ensures Mix(Mix(range, c, miss, -s), c, Mix(range, s, miss, c), s) == range
    ensures Mix(Mix(range, s, miss, c), c, Mix(range, c, miss, -s), -s) == miss
  {
    assert Mix(Mix(range, c, miss, -s), c, Mix(range, s, miss, c), s) == range * (c * c + s * s);
    assert Mix(Mix(range, s, miss, c), c, Mix(range, c, miss, -s), -s) == miss * (c * c + s * s);
  }

  lemma MovedBack(deg: real, metres: real, k: real)
    requires k != 0.0
    ensures Metres(Moved(deg, metres, k) - deg, k) == metres
  {
    MovedMetres(deg, metres, k, k);
  }

  lemma SpawnBears(target: Aircraft, range: real, miss: real, sky: Sky)
    ensures sky.trig.Sound() ==>
              Bears(target, SpawnLat(target, range, miss, sky.trig), SpawnLon(target, range, miss, sky), range, miss, sky)
  {
    hide SpawnLat, SpawnLon, Bears, Trig.Sound;
    if sky.trig.Sound() {
      OnCircle(sky.trig, TargetHeading(target));
      SpawnAhead(target, range, miss, sky);
    }
  }

  lemma SpawnAhead(target: Aircraft, range: real, miss: real, sky: Sky)
    requires Unit(sky.trig.Cos(TargetHeading(target)), sky.trig.Sin(TargetHeading(target)))
    ensures Bears(target, SpawnLat(target, range, miss, sky.trig), SpawnLon(target, range, miss, sky), range, miss, sky)
  {
    hide Mix, Metres, Moved, DegPerMLon, Unit, TargetHeading;
    var c, s := sky.trig.Cos(TargetHeading(target)), sky.trig.Sin(TargetHeading(target));
    MixBack(range, miss, c, s);
    MovedBack(target.lat, Mix(range, c, miss, -s), DEG_PER_M_LAT);
    MovedBack(target.lon, Mix(range, s, miss, c), DegPerMLon(sky.scale, target.lat));
  }

  /** What a caller leaves out: 23 s to the meeting, no miss distance, and the target's own altitude if it
      is known, else 5000 ft. What it gives is taken. The two close at 500 kt. */
  lemma SpawnDefaults(target: Aircraft, tcaS: real, missM: real, altFt: int, now: int, sky: Sky)
    ensures var g := Spawn(target, tcaS, missM, altFt, now, sky);
            && g.active && g.lastStepMs == now
            && (!target.hdgValid ==> g.hdg == 180.0)
            && (altFt >= 0 ==> g.altFt == altFt)
            && (altFt < 0 ==> g.altFt == if target.altValid then target.altFt else 5000)
            && Range(MeetingTime(tcaS)) == (500.0 * 0.514444) * (if tcaS > 0.0 then tcaS else 23.0)
            && MissDistance(missM) == (if missM >= 0.0 then missM else 0.0)
            && g.lat == SpawnLat(target, Range(MeetingTime(tcaS)), MissDistance(missM), sky.trig)
            && g.lon == SpawnLon(target, Range(MeetingTime(tcaS)), MissDistance(missM), sky)
  {
    hide SpawnLat, SpawnLon, Along;
  }

  // ---- the ghost the detector sees --------------------------------------------------

  /** The row's latest report is the ghost in state g. */
  ghost predicate Shows(row: Row, g: GhostState) {
    && row.ac.lat == g.lat && row.ac.lon == g.lon
    && row.ac.velValid && row.ac.velKt == GHOST_SPEED_KT && row.ac.hdgValid && row.ac.hdgDeg == g.hdg
  }

  /** A row of the ghost's own report, made now. */
  ghost predicate Signed(row: Row, g: GhostState, now: int) {
    && row.ac.icao == "gh05t1" && row.ac.source == Fict && row.ac.ts * 1000.0 == now as real && row.lastSeen == now
    && row.ac.altValid && row.ac.altFt == g.altFt
  }

  /** It is, after any upsert of the ghost's observation. */
  lemma UpsertShows(g: GhostState, now: int, row: Row, t: Tuning, scale: LonScale)
    ensures var first, next := FirstRow(Observation(g, now), now, t, scale), NextRow(row, Observation(g, now), now, t, scale);
            Shows(first, g) && Signed(first, g, now) && Shows(next, g) && Signed(next, g, now)
  {
  }

  /** A target reporting the ghost's own speed. */
  predicate SameSpeed(target: Aircraft) {
    target.velValid && target.hdgValid && target.velKt == GHOST_SPEED_KT
  }

  /** A report at the ghost's speed gives the detector that velocity. */
  lemma SnapCourse(row: Row, sky: Sky)
    requires SameSpeed(row.ac)
    ensures var snap := SnapOf(row, sky);
            && snap.lat == row.ac.lat && snap.lon == row.ac.lon
            && snap.vNorth == Along(sky.trig.Cos(row.ac.hdgDeg)) && snap.vEast == Along(sky.trig.Sin(row.ac.hdgDeg))
  {
  }
}

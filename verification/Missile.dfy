/** The guided test aircraft: launch, pursuit ticks, self-destruction. */
module Missile {
  import opened Algebra
  import opened Basics
  import opened AircraftDbSpec
  import opened Kinematics
  import A = Approach
  import S = Snapshot

  const MISSILE_ICAO: Icao := "m1s51l"
  const CLIMB_FT_PER_S := 2000.0
  const MISSILE_TICK_MS := 500
  const LAUNCH_LAT := -27.4975
  const LAUNCH_LON := 153.0137
  const LAUNCH_ALT_FT := 0
  const DEFAULT_TTL_S := 60.0
  const DEFAULT_TURN_RATE := 15.0
  const DEFAULT_SPEED_KT := 500.0

  datatype Flight = Flight(
    active: bool, lat: real, lon: real, hdg: real, speedKt: real, turnRate: real, altFt: int,
    launchMs: int, expireMs: int, lastStepMs: int)

  /** One firing of the worker: the clock and the first simulator aircraft in the table. */
  datatype Tick = Tick(now: int, target: Option<Aircraft>)

  // ---- the target -------------------------------------------------------------------

  function FirstSim(rows: seq<Row>): Option<Aircraft> {
    if rows == [] then None
    else if rows[0].ac.source == BleSim then Some(rows[0].ac)
    else FirstSim(rows[1..])
  }

  /** The table walk stops at the first simulator aircraft, if there is one. */
  method FindTarget(rows: seq<Row>) returns (target: Option<Aircraft>)
    ensures target == FirstSim(rows)
    ensures target.None? <==> forall r :: r in rows ==> r.ac.source != BleSim
    ensures target.Some? ==> exists i :: 0 <= i < |rows| && rows[i].ac == target.value && target.value.source == BleSim
                                      && forall j :: 0 <= j < i ==> rows[j].ac.source != BleSim
  {
    target := None;
    var i := 0;
    while i < |rows|
      invariant i <= |rows|
      invariant FirstSim(rows) == FirstSim(rows[i..])
      invariant forall j :: 0 <= j < i ==> rows[j].ac.source != BleSim
    {
      if rows[i].ac.source == BleSim {
        return Some(rows[i].ac);
      }
      assert rows[i..][1..] == rows[i + 1..];
      i := i + 1;
    }
  }

  // ---- one tick ---------------------------------------------------------------------

  /** Metres north and east from a position to the target, scaled at the position's latitude. */
  function NorthTo(lat: real, target: Aircraft): real { A.Metres(target.lat - lat, DEG_PER_M_LAT) }

  function EastTo(lat: real, lon: real, target: Aircraft, scale: LonScale): real {
    A.Metres(target.lon - lon, DegPerMLon(scale, lat))
  }

  function BearingTo(lat: real, lon: real, target: Aircraft, sky: Sky): real {
    sky.trig.Bearing(EastTo(lat, lon, target, sky.scale), NorthTo(lat, target))
  }

  function ClimbStep(dt: real): int { Trunc(CLIMB_FT_PER_S * dt) }

  function Climb(alt: int, target: int, step: int): int {
    if alt < target - step then alt + step
    else if alt > target + step then alt - step
    else target
  }

  /** Degrees a turn rate allows in a tick. */
  function TurnLimit(rate: real, dt: real): real { rate * dt }

  /** Turn and climb towards the target of a tick. */
  function Guide(f: Flight, target: Aircraft, dt: real, sky: Sky): Flight {
    var desired := BearingTo(f.lat, f.lon, target, sky);
    f.(hdg := Steer(f.hdg, desired, TurnLimit(f.turnRate, dt)),
       altFt := if target.altValid then Climb(f.altFt, target.altFt, ClimbStep(dt)) else f.altFt)
  }

  function Speed(speedKt: real): real { speedKt * KT_TO_MPS }

  /** Metres flown along one axis. */
  function Leg(speed: real, share: real, dt: real): real { speed * share * dt }

  function NextLat(lat: real, speed: real, hdg: real, dt: real, trig: Trig): real {
    Moved(lat, Leg(speed, trig.Cos(hdg), dt), DEG_PER_M_LAT)
  }

  function NextLon(lat: real, lon: real, speed: real, hdg: real, dt: real, sky: Sky): real {
    Moved(lon, Leg(speed, sky.trig.Sin(hdg), dt), DegPerMLon(sky.scale, lat))
  }

  /** Dead-reckon; the longitude step uses the latitude just reached. */
  function Advance(f: Flight, dt: real, sky: Sky): Flight {
    var lat := NextLat(f.lat, Speed(f.speedKt), f.hdg, dt, sky.trig);
    f.(lat := lat, lon := NextLon(lat, f.lon, Speed(f.speedKt), f.hdg, dt, sky))
  }

  function Observation(f: Flight, now: int): Aircraft {
    NO_AIRCRAFT.(icao := MISSILE_ICAO, source := Fict, lat := f.lat, lon := f.lon, ts := now as real / 1000.0,
                 altValid := true, velValid := true, hdgValid := true,
                 altFt := f.altFt, velKt := f.speedKt, hdgDeg := f.hdg)
  }

  function Pursue(f: Flight, t: Tick, sky: Sky): Flight {
    var dt := StepSeconds(f.lastStepMs, t.now, MISSILE_TICK_MS);
    var g := f.(lastStepMs := t.now);
    Advance(if t.target.Some? then Guide(g, t.target.value, dt, sky) else g, dt, sky)
  }

  /** The worker: nothing once inactive, self-destruction from the expiry time on. */
  function Work(f: Flight, t: Tick, sky: Sky): Flight {
    if !f.active then f
    else if t.now >= f.expireMs then f.(active := false)
    else Pursue(f, t, sky)
  }

  function OrDefault(x: real, default: real): real { if x <= 0.0 then default else x }

  /** The self-destruction time. */
  function Expiry(now: int, ttl: real): int { now + Trunc(OrDefault(ttl, DEFAULT_TTL_S) * 1000.0) }

  /** A launch always takes a missile in flight down; it puts up a new one only with a target. */
  function Launched(f: Flight, t: Tick, ttl: real, turnRate: real, speedKt: real, sky: Sky): Flight {
    if t.target.None? then f.(active := false)
    else
      Flight(true, LAUNCH_LAT, LAUNCH_LON, BearingTo(LAUNCH_LAT, LAUNCH_LON, t.target.value, sky),
             OrDefault(speedKt, DEFAULT_SPEED_KT), OrDefault(turnRate, DEFAULT_TURN_RATE), LAUNCH_ALT_FT,
             t.now, Expiry(t.now, ttl), t.now)
  }

  /** From here, l metres on this bearing end on the target. */
  ghost predicate Reaches(lat: real, lon: real, bearing: real, l: real, target: Aircraft, sky: Sky) {
    && target.lat == Moved(lat, Scaled(l, sky.trig.Cos(bearing)), DEG_PER_M_LAT)
    && target.lon == Moved(lon, Scaled(l, sky.trig.Sin(bearing)), DegPerMLon(sky.scale, lat))
  }

  method Desired(lat: real, lon: real, target: Aircraft, sky: Sky) returns (bearing: real)
    ensures bearing == BearingTo(lat, lon, target, sky)
    ensures sky.trig.Sound() ==> 0.0 <= bearing < 360.0 && exists l :: l >= 0.0 && Reaches(lat, lon, bearing, l, target, sky)
  {
    hide EastTo, NorthTo, Reaches, Trig.Sound;
    var dn, de := NorthTo(lat, target), EastTo(lat, lon, target, sky.scale);
    bearing := sky.trig.Atan2(de, dn);
    if bearing < 0.0 { bearing := bearing + 360.0; }
    BearingReaches(lat, lon, target, sky);
  }

  method NextHeading(hdg: real, desired: real, maxStep: real) returns (next: real)
    ensures next == Steer(hdg, desired, maxStep)
  {
    var delta := Wrap180(desired - hdg);
    if delta > maxStep {
      delta := maxStep;
    } else if delta < -maxStep {
      delta := -maxStep;
    }
    next := Fmod360(hdg + delta + 360.0);
  }

  method NextAltitude(altFt: int, target: int, dt: real) returns (next: int)
    ensures next == Climb(altFt, target, ClimbStep(dt))
    ensures dt >= 0.0 ==> AltGap(next, target) == LessInt(AltGap(altFt, target), ClimbStep(dt))
    ensures dt >= 0.0 ==> altFt <= next <= target || target <= next <= altFt
  {
    var step := Trunc(CLIMB_FT_PER_S * dt);
    if altFt < target - step {
      next := altFt + step;
    } else if altFt > target + step {
      next := altFt - step;
    } else {
      next := target;
    }
  }

  /** The missile as the firmware holds it. */
  class Missile {
    var active: bool
    var lat: real
    var lon: real
    var hdg: real
    var speedKt: real
    var turnRate: real
    var altFt: int
    var launchMs: int
    var expireMs: int
    var lastStepMs: int

    ghost function State(): Flight
      reads this
    {
      Flight(active, lat, lon, hdg, speedKt, turnRate, altFt, launchMs, expireMs, lastStepMs)
    }

    /** What the table is told, if anything. */
    method Record(now: int) returns (obs: Aircraft)
      ensures obs == Observation(State(), now)
    {
      obs := NO_AIRCRAFT.(icao := MISSILE_ICAO, source := Fict, lat := lat, lon := lon, ts := now as real / 1000.0,
                          altValid := true, velValid := true, hdgValid := true,
                          altFt := altFt, velKt := speedKt, hdgDeg := hdg);
    }

    method SteerTo(target: Aircraft, dt: real, sky: Sky)
      modifies this`hdg, this`altFt
      ensures State() == Guide(old(State()), target, dt, sky)
    {
      hide BearingTo, Steer, Climb, ClimbStep, TurnLimit;
      var desired := Desired(lat, lon, target, sky);
      hdg := NextHeading(hdg, desired, TurnLimit(turnRate, dt));
      if target.altValid {
        altFt := NextAltitude(altFt, target.altFt, dt);
      }
    }

    /** The longitude step uses the latitude just reached. */
    method DeadReckon(dt: real, sky: Sky)
      modifies this`lat, this`lon
      ensures State() == Advance(old(State()), dt, sky)
    {
      hide NextLat, NextLon, Speed;
      var speed := Speed(speedKt);
      lat := NextLat(lat, speed, hdg, dt, sky.trig);
      lon := NextLon(lat, lon, speed, hdg, dt, sky);
    }

    method Worker(t: Tick, sky: Sky) returns (obs: Option<Aircraft>)
      modifies this
      ensures State() == Work(old(State()), t, sky)
      ensures obs == if active then Some(Observation(State(), t.now)) else None
    {
      hide Advance, Guide, StepSeconds, Observation;
      obs := None;
      if !active { return; }
      if t.now >= expireMs {
        active := false;
        return;
      }
      var dt := StepSeconds(lastStepMs, t.now, MISSILE_TICK_MS);
      lastStepMs := t.now;
      if t.target.Some? {
        SteerTo(t.target.value, dt, sky);
      }
      DeadReckon(dt, sky);
      var record := Record(t.now);
      obs := Some(record);
    }

    method Place(t: Tick, ttl: real, rate: real, speed: real, sky: Sky)
      requires t.target.Some?
      modifies this
      ensures State() == Launched(old(State()), t, ttl, rate, speed, sky)
    {
      hide BearingTo, Expiry, OrDefault;
      var bearing := Desired(LAUNCH_LAT, LAUNCH_LON, t.target.value, sky);
      lat, lon, altFt := LAUNCH_LAT, LAUNCH_LON, LAUNCH_ALT_FT;
      speedKt := OrDefault(speed, DEFAULT_SPEED_KT);
      turnRate := OrDefault(rate, DEFAULT_TURN_RATE);
      hdg := bearing;
      launchMs, lastStepMs := t.now, t.now;
      expireMs := Expiry(t.now, ttl);
      active := true;
    }

    /** Zero and -ENOENT are the two outcomes; a refused launch still ends the flight in progress. */
    method Launch(t: Tick, ttl: real, rate: real, speed: real, sky: Sky) returns (ok: bool, obs: Option<Aircraft>)
      modifies this
      ensures State() == Launched(old(State()), t, ttl, rate, speed, sky)
      ensures ok == t.target.Some? == active
      ensures obs == if ok then Some(Observation(State(), t.now)) else None
    {
      hide BearingTo, Expiry, OrDefault, Observation;
      active := false;
      if t.target.None? { return false, None; }
      Place(t, ttl, rate, speed, sky);
      var record := Record(t.now);
      ok, obs := true, Some(record);
    }

    /** -EALREADY when nothing is in flight. */
    method Cancel() returns (ok: bool)
      modifies this`active
      ensures State() == old(State()).(active := false)
      ensures ok == old(active)
    {
      ok := active;
      active := false;
    }
  }

  // ---- what the detector sees -------------------------------------------------------

  /** What the detector draws from a row: the missile's position and altitude, and a velocity that flown
      for dt leads from one position to another. */
  ghost predicate SeenFlying(row: Row, at: Flight, from: Flight, to: Flight, dt: real, sky: Sky) {
    var seen := S.SnapOf(row, sky);
    && seen.lat == at.lat && seen.lon == at.lon && seen.altValid && seen.altFt == at.altFt && seen.vValid
    && to.lat == Moved(from.lat, seen.vNorth * dt, DEG_PER_M_LAT)
    && to.lon == Moved(from.lon, seen.vEast * dt, DegPerMLon(sky.scale, to.lat))
  }

  /** The report a tick sends shows the missile where the tick left it, with exactly the velocity of the
      step the tick flew, its turn included. */
  lemma SeenAsFlown(f: Flight, t: Tick, row: Row, sky: Sky)
    requires f.active && t.now < f.expireMs && Reports(row, Work(f, t, sky))
    ensures var g := Work(f, t, sky); SeenFlying(row, g, f, g, StepSeconds(f.lastStepMs, t.now, MISSILE_TICK_MS), sky)
  {
    hide Work, Reports, SeenFlying, Advance, StepSeconds, Steered;
    var g, dt := Work(f, t, sky), StepSeconds(f.lastStepMs, t.now, MISSILE_TICK_MS);
    var h := Steered(f, t, dt, sky);
    WorkMoves(f, t, sky);
    ReportFlies(row, g, h, dt, sky);
    SeenSame(row, g, h, f, g, dt, sky);
  }

  /** And that of the step to come if the next tick has no target to turn to. */
  lemma SeenToFly(g: Flight, next: Tick, row: Row, sky: Sky)
    requires g.active && next.now < g.expireMs && next.target.None? && Reports(row, g)
    ensures SeenFlying(row, g, g, Work(g, next, sky), StepSeconds(g.lastStepMs, next.now, MISSILE_TICK_MS), sky)
  {
    hide Work, Reports, SeenFlying, Advance, StepSeconds, Steered;
    var dt := StepSeconds(g.lastStepMs, next.now, MISSILE_TICK_MS);
    WorkMoves(g, next, sky);
    ReportFlies(row, g, g, dt, sky);
    SeenSame(row, g, g, g, Work(g, next, sky), dt, sky);
  }

  /** The missile of a tick after its turn, before its step. */
  function Steered(f: Flight, t: Tick, dt: real, sky: Sky): Flight {
    var g := f.(lastStepMs := t.now);
    if t.target.Some? then Guide(g, t.target.value, dt, sky) else g
  }

  /** A tick's step is the advance of the steered missile. */
  lemma WorkMoves(f: Flight, t: Tick, sky: Sky)
    requires f.active && t.now < f.expireMs
    ensures var g, dt := Work(f, t, sky), StepSeconds(f.lastStepMs, t.now, MISSILE_TICK_MS);
            var h := Steered(f, t, dt, sky);
            && g == Advance(h, dt, sky) && h.lat == f.lat && h.lon == f.lon
            && g.active && g.expireMs == f.expireMs && g.lastStepMs == t.now
            && g.hdg == h.hdg && g.speedKt == h.speedKt && g.altFt == h.altFt
            && (t.target.None? ==> h == f.(lastStepMs := t.now) && g.lat == Advance(f, dt, sky).lat && g.lon == Advance(f, dt, sky).lon)
  {
    hide NextLat, NextLon, Speed, Steer, Climb, ClimbStep, BearingTo, TurnLimit, StepSeconds;
  }

  lemma SeenSame(row: Row, at: Flight, h: Flight, from: Flight, to: Flight, dt: real, sky: Sky)
    requires SeenFlying(row, at, h, Advance(h, dt, sky), dt, sky)
    requires from.lat == h.lat && from.lon == h.lon && to.lat == Advance(h, dt, sky).lat && to.lon == Advance(h, dt, sky).lon
    ensures SeenFlying(row, at, from, to, dt, sky)
  {
    hide Advance, Moved, DegPerMLon, S.SnapOf;
  }

  ghost predicate Reports(row: Row, f: Flight) {
    && row.ac.lat == f.lat && row.ac.lon == f.lon && row.ac.velValid && row.ac.hdgValid && row.ac.altValid
    && row.ac.velKt == f.speedKt && row.ac.hdgDeg == f.hdg && row.ac.altFt == f.altFt
  }

  /** A row of the missile's own report, made now. */
  ghost predicate Signed(row: Row, now: int) {
    row.ac.icao == "m1s51l" && row.ac.source == Fict && row.ac.ts * 1000.0 == now as real && row.lastSeen == now
  }

  lemma RowReports(f: Flight, now: int, row: Row, t: Tuning, scale: LonScale)
    ensures var first, next := FirstRow(Observation(f, now), now, t, scale), NextRow(row, Observation(f, now), now, t, scale);
            Reports(first, f) && Signed(first, now) && Reports(next, f) && Signed(next, now)
  {
  }

  /** The reported speed and heading are those any missile h of the same speed and heading flies by. */
  lemma ReportFlies(row: Row, g: Flight, h: Flight, dt: real, sky: Sky)
    requires Reports(row, g) && h.hdg == g.hdg && h.speedKt == g.speedKt
    ensures SeenFlying(row, g, h, Advance(h, dt, sky), dt, sky)
  {
    SnapMotion(row, g, sky);
    hide Moved, DegPerMLon, S.SnapOf, Reports, Speed;
    LegIs(Speed(g.speedKt), sky.trig.Cos(g.hdg), dt);
    LegIs(Speed(g.speedKt), sky.trig.Sin(g.hdg), dt);
  }

  lemma LegIs(speed: real, share: real, dt: real)
    ensures Leg(speed, share, dt) == Scaled(speed, share) * dt
  {
  }

  lemma SnapMotion(row: Row, f: Flight, sky: Sky)
    requires Reports(row, f)
    ensures var seen := S.SnapOf(row, sky);
            && seen.lat == f.lat && seen.lon == f.lon && seen.altValid && seen.altFt == f.altFt && seen.vValid
            && seen.vNorth == Scaled(Speed(f.speedKt), sky.trig.Cos(f.hdg))
            && seen.vEast == Scaled(Speed(f.speedKt), sky.trig.Sin(f.hdg))
  {
  }

  // ---- whole flights ----------------------------------------------------------------

  function Fly(f: Flight, ticks: seq<Tick>, sky: Sky): Flight {
    if ticks == [] then f else Work(Fly(f, ticks[..|ticks| - 1], sky), ticks[|ticks| - 1], sky)
  }

  predicate Steerable(f: Flight) { 0.0 <= f.hdg < 360.0 && f.turnRate > 0.0 && f.speedKt > 0.0 }

  lemma BearingReaches(lat: real, lon: real, target: Aircraft, sky: Sky)
    ensures var b := BearingTo(lat, lon, target, sky);
            sky.trig.Sound() ==> 0.0 <= b < 360.0 && exists l :: l >= 0.0 && Reaches(lat, lon, b, l, target, sky)
  {
    hide Reaches, Trig.Sound, Trig.Bearing, EastTo, NorthTo;
    if sky.trig.Sound() {
      var de, dn := EastTo(lat, lon, target, sky.scale), NorthTo(lat, target);
      BearingRange(sky.trig, de, dn);
      var l := BearingPolar(sky.trig, de, dn);
      PolarReaches(lat, lon, sky.trig.Bearing(de, dn), l, target, sky);
    }
  }

  lemma PolarReaches(lat: real, lon: real, b: real, l: real, target: Aircraft, sky: Sky)
    requires sky.trig.Polar(l, b, EastTo(lat, lon, target, sky.scale), NorthTo(lat, target))
    ensures Reaches(lat, lon, b, l, target, sky)
  {
    PolarShares(sky.trig, l, b, EastTo(lat, lon, target, sky.scale), NorthTo(lat, target));
    hide A.Metres, Moved, DegPerMLon, Scaled, Trig.Polar;
    MovedTo(lat, target.lat, DEG_PER_M_LAT);
    MovedTo(lon, target.lon, DegPerMLon(sky.scale, lat));
  }

  lemma PolarShares(trig: Trig, l: real, b: real, east: real, north: real)
    requires trig.Polar(l, b, east, north)
    ensures north == Scaled(l, trig.Cos(b)) && east == Scaled(l, trig.Sin(b))
  {
  }

  lemma MovedTo(here: real, there: real, k: real)
    requires k != 0.0
    ensures Moved(here, A.Metres(there - here, k), k) == there
  {
    var m := A.Metres(there - here, k);
    Quotient(there - here, k);
    assert m * k == there - here;
  }

  /** A launch with a target starts steerable, climbing from the ground, pointed at the target, and
      lives for the time it was given. */
  lemma LaunchedSound(f: Flight, t: Tick, ttl: real, turnRate: real, speedKt: real, sky: Sky)
    requires sky.trig.Sound() && t.target.Some?
    ensures var g := Launched(f, t, ttl, turnRate, speedKt, sky);
            && g.active && Steerable(g) && g.expireMs >= t.now
            && Gap(g.hdg, BearingTo(g.lat, g.lon, t.target.value, sky)) == 0.0
            && (ttl > 0.0 ==> g.expireMs as real <= t.now as real + 1000.0 * ttl < g.expireMs as real + 1.0)
            && (ttl <= 0.0 ==> g.expireMs == t.now + 60000)
            && g.speedKt == (if speedKt > 0.0 then speedKt else 500.0) && g.turnRate == (if turnRate > 0.0 then turnRate else 15.0)
            && g.altFt == 0 && g.lat == -27.4975 && g.lon == 153.0137 && g.launchMs == g.lastStepMs == t.now
  {
    var g := Launched(f, t, ttl, turnRate, speedKt, sky);
    var target := t.target.value;
    BearingRange(sky.trig, EastTo(g.lat, g.lon, target, sky.scale), NorthTo(g.lat, target));
    GapZero(g.hdg, g.hdg);
  }

  /** The heading stays on the compass for as long as the missile is flown, targets or none. */
  lemma {:induction false} FlySteerable(f: Flight, ticks: seq<Tick>, sky: Sky)
    requires Steerable(f)
    ensures Steerable(Fly(f, ticks, sky))
  {
    if ticks != [] {
      var m := |ticks| - 1;
      FlySteerable(f, ticks[..m], sky);
      WorkSteerable(Fly(f, ticks[..m], sky), ticks[m], sky);
    }
  }

  lemma WorkSteerable(f: Flight, t: Tick, sky: Sky)
    requires Steerable(f)
    ensures Steerable(Work(f, t, sky))
  {
    var dt := StepSeconds(f.lastStepMs, t.now, MISSILE_TICK_MS);
    TurnLimitSign(f.turnRate, dt);
    hide Steer, BearingTo, Climb, Advance, StepSeconds, TurnLimit, Gap;
    if f.active && t.now < f.expireMs && t.target.Some? {
      SteerGap(f.hdg, BearingTo(f.lat, f.lon, t.target.value, sky), TurnLimit(f.turnRate, dt));
    }
    AdvanceKeeps();
  }

  lemma AdvanceKeeps()
    ensures forall f, dt, sky ::
              Advance(f, dt, sky) == f.(lat := Advance(f, dt, sky).lat, lon := Advance(f, dt, sky).lon)
  {
  }

  /** The missile is still flying exactly when it was and every tick so far came before its expiry. */
  lemma {:induction false} FlyUntilExpiry(f: Flight, ticks: seq<Tick>, sky: Sky)
    ensures Fly(f, ticks, sky).active <==> f.active && forall i :: 0 <= i < |ticks| ==> ticks[i].now < f.expireMs
    ensures Fly(f, ticks, sky).expireMs == f.expireMs
  {
    hide Steer, Climb, Advance, BearingTo, StepSeconds;
    AdvanceKeeps();
    if ticks != [] {
      var m := |ticks| - 1;
      FlyUntilExpiry(f, ticks[..m], sky);
      assert ticks == ticks[..m] + [ticks[m]];
    }
  }

  // ---- turning ----------------------------------------------------------------------

  /** A tick with a target takes exactly what the turn rate allows in its time off the angle between the
      heading and the bearing it finds, from either side. */
  lemma PursueTurns(f: Flight, t: Tick, sky: Sky)
    requires f.active && t.now < f.expireMs && t.target.Some? && Steerable(f)
    ensures var dt, b := StepSeconds(f.lastStepMs, t.now, MISSILE_TICK_MS), BearingTo(f.lat, f.lon, t.target.value, sky);
            Gap(Work(f, t, sky).hdg, b) == Less(Gap(f.hdg, b), TurnLimit(f.turnRate, dt))
  {
    var dt, b := StepSeconds(f.lastStepMs, t.now, MISSILE_TICK_MS), BearingTo(f.lat, f.lon, t.target.value, sky);
    TurnLimitSign(f.turnRate, dt);
    SteerGap(f.hdg, b, TurnLimit(f.turnRate, dt));
    hide Steer, BearingTo, Climb, ClimbStep, Advance, StepSeconds, TurnLimit, Gap;
    AdvanceKeeps();
  }

  /** Every tick so far found its target on the same bearing. */
  ghost predicate OnBearingHeld(f: Flight, ticks: seq<Tick>, b: real, sky: Sky) {
    forall i :: 0 <= i < |ticks| ==>
      ticks[i].target.Some?
      && var g := Fly(f, ticks[..i], sky); BearingTo(g.lat, g.lon, ticks[i].target.value, sky) == b
  }

  lemma HeldPrefix(f: Flight, ticks: seq<Tick>, b: real, sky: Sky)
    requires OnBearingHeld(f, ticks, b, sky) && ticks != []
    ensures var m := |ticks| - 1;
            && OnBearingHeld(f, ticks[..m], b, sky) && ticks[m].target.Some?
            && var g := Fly(f, ticks[..m], sky); BearingTo(g.lat, g.lon, ticks[m].target.value, sky) == b
  {
    hide Fly, BearingTo;
    var m := |ticks| - 1;
    forall i | 0 <= i < m
      ensures ticks[..m][..i] == ticks[..i] && ticks[..m][i] == ticks[i]
    {
    }
  }

  /** While the bearing is held the angle off it depends only on the time flown, however that is cut into
      ticks: it is what it was, less the turn rate times the seconds, down to zero. */
  lemma {:induction false} FlyTurns(f: Flight, ticks: seq<Tick>, b: real, sky: Sky)
    requires OnSchedule(f.lastStepMs, Times(ticks)) && OnBearingHeld(f, ticks, b, sky)
    requires f.active && Steerable(f) && forall i :: 0 <= i < |ticks| ==> ticks[i].now < f.expireMs
    ensures var g := Fly(f, ticks, sky);
            var elapsed := LastTick(f.lastStepMs, Times(ticks)) - f.lastStepMs;
            && elapsed >= 0 && g.lastStepMs == LastTick(f.lastStepMs, Times(ticks)) && g.turnRate == f.turnRate
            && Gap(g.hdg, b) == Less(Gap(f.hdg, b), TurnLimit(f.turnRate, Seconds(elapsed)))
  {
    hide Steer, BearingTo, Climb, Advance, ClimbStep, OnSchedule, Times, TurnLimit, Gap, OnBearingHeld, Work, StepSeconds;
    if ticks == [] {
      GapSign(f.hdg, b);
      TurnLimitZero(f.turnRate, Gap(f.hdg, b));
      assert LastTick(f.lastStepMs, Times(ticks)) == f.lastStepMs;
    } else {
      var m := |ticks| - 1;
      var before, last := Fly(f, ticks[..m], sky), ticks[m];
      FlyUntilExpiry(f, ticks[..m], sky);
      FlySteerable(f, ticks[..m], sky);
      SchedulePrefix(f.lastStepMs, Times(ticks));
      assert Times(ticks)[..m] == Times(ticks[..m]);
      HeldPrefix(f, ticks, b, sky);
      FlyTurns(f, ticks[..m], b, sky);
      PursueTurns(before, last, sky);
      WorkKeeps(before, last, sky);
      StepExact(before.lastStepMs, last.now);
      TurnLimitSum(f.turnRate, Seconds(before.lastStepMs - f.lastStepMs), Seconds(last.now - before.lastStepMs), Gap(f.hdg, b));
    }
  }

  lemma WorkKeeps(f: Flight, t: Tick, sky: Sky)
    requires f.active && t.now < f.expireMs
    ensures Work(f, t, sky).lastStepMs == t.now && Work(f, t, sky).turnRate == f.turnRate
  {
    hide Steer, BearingTo, Climb, Advance, StepSeconds, TurnLimit, ClimbStep;
    AdvanceKeeps();
  }

  lemma StepExact(last: int, now: int)
    requires last <= now <= last + 30000
    ensures StepSeconds(last, now, MISSILE_TICK_MS) == Seconds(now - last)
  {
  }

  lemma GapSign(h: real, b: real)
    ensures Gap(h, b) >= 0.0
  {
  }

  lemma TurnLimitZero(rate: real, gap: real)
    requires gap >= 0.0
    ensures TurnLimit(rate, 0.0) == 0.0 && Less(gap, TurnLimit(rate, 0.0)) == gap
  {
  }

  lemma TurnLimitSum(rate: real, s: real, t: real, gap: real)
    requires rate >= 0.0 && s >= 0.0 && t >= 0.0
    ensures Less(Less(gap, TurnLimit(rate, s)), TurnLimit(rate, t)) == Less(gap, TurnLimit(rate, s + t))
  {
    TurnLimitSign(rate, s);
    TurnLimitSign(rate, t);
    assert TurnLimit(rate, s + t) == TurnLimit(rate, s) + TurnLimit(rate, t);
    hide TurnLimit;
  }

  // ---- climbing ---------------------------------------------------------------------

  function AltGap(alt: int, target: int): nat { if alt < target then target - alt else alt - target }

  function LessInt(x: int, step: int): int { if x > step then x - step else 0 }

  /** A climb step takes exactly the step off the altitude gap, from above or below. */
  lemma ClimbGap(alt: int, target: int, step: nat)
    ensures AltGap(Climb(alt, target, step), target) == LessInt(AltGap(alt, target), step)
  {
  }

  /** At 2000 ft/s the step is two feet a millisecond, with nothing lost to truncation. */
  lemma ClimbStepExact(last: int, now: int)
    requires last <= now <= last + 30000
    ensures ClimbStep(StepSeconds(last, now, MISSILE_TICK_MS)) == 2 * (now - last)
  {
    var dt := StepSeconds(last, now, MISSILE_TICK_MS);
    assert dt == (now - last) as real / 1000.0;
    assert CLIMB_FT_PER_S * dt == (2 * (now - last)) as real;
  }

  function Times(ticks: seq<Tick>): (times: seq<int>)
    ensures |times| == |ticks| && forall i :: 0 <= i < |ticks| ==> times[i] == ticks[i].now
  {
    if ticks == [] then [] else Times(ticks[..|ticks| - 1]) + [ticks[|ticks| - 1].now]
  }

  ghost predicate OnLevel(ticks: seq<Tick>, altFt: int) {
    forall i :: 0 <= i < |ticks| ==>
      ticks[i].target.Some? && ticks[i].target.value.altValid && ticks[i].target.value.altFt == altFt
  }

  /** While a target keeps its altitude the gap to it depends only on the time flown, however that
      is cut into ticks: it is what it was, less two feet a millisecond, down to zero. So the missile
      is on the target's level exactly from half a millisecond per foot of initial gap on. */
  lemma {:induction false} FlyClimbs(f: Flight, ticks: seq<Tick>, altFt: int, sky: Sky)
    requires OnSchedule(f.lastStepMs, Times(ticks)) && OnLevel(ticks, altFt)
    requires f.active && forall i :: 0 <= i < |ticks| ==> ticks[i].now < f.expireMs
    ensures var g, elapsed := Fly(f, ticks, sky), LastTick(f.lastStepMs, Times(ticks)) - f.lastStepMs;
            && elapsed >= 0 && g.lastStepMs == LastTick(f.lastStepMs, Times(ticks))
            && AltGap(g.altFt, altFt) == LessInt(AltGap(f.altFt, altFt), 2 * elapsed)
            && (ticks != [] ==> (g.altFt == altFt <==> AltGap(f.altFt, altFt) <= 2 * elapsed))
  {
    hide Steer, BearingTo, Climb, Advance, StepSeconds, ClimbStep, OnSchedule, Times, TurnLimit;
    if ticks != [] {
      var m := |ticks| - 1;
      var before := Fly(f, ticks[..m], sky);
      FlyUntilExpiry(f, ticks[..m], sky);
      SchedulePrefix(f.lastStepMs, Times(ticks));
      assert Times(ticks)[..m] == Times(ticks[..m]);
      FlyClimbs(f, ticks[..m], altFt, sky);
      ClimbStepExact(before.lastStepMs, ticks[m].now);
      ClimbGap(before.altFt, altFt, 2 * (ticks[m].now - before.lastStepMs));
      AdvanceKeeps();
    }
  }

  // ---- moving -----------------------------------------------------------------------

  function North(f: Flight, g: Flight): real { (g.lat - f.lat) / DEG_PER_M_LAT }

  function East(f: Flight, g: Flight, sky: Sky): real { (g.lon - f.lon) / DegPerMLon(sky.scale, g.lat) }

  /** Whatever the heading, the step flown is speed times time long. */
  lemma AdvanceLength(f: Flight, dt: real, sky: Sky)
    requires sky.trig.Sound()
    ensures var g := Advance(f, dt, sky);
            var d := Leg(Speed(f.speedKt), 1.0, dt);
            A.Norm2(East(f, g, sky), North(f, g)) == Square(d)
  {
    hide North, East, Advance, Speed, Leg;
    var speed, c, s := Speed(f.speedKt), sky.trig.Cos(f.hdg), sky.trig.Sin(f.hdg);
    assert sky.trig.Circle(f.hdg);
    AdvanceLegs(f, dt, sky);
    LegScaled(speed, c, dt);
    LegScaled(speed, s, dt);
    CircleScale(Leg(speed, 1.0, dt), c, s);
  }

  lemma AdvanceLegs(f: Flight, dt: real, sky: Sky)
    ensures var g := Advance(f, dt, sky);
            && North(f, g) == Leg(Speed(f.speedKt), sky.trig.Cos(f.hdg), dt)
            && East(f, g, sky) == Leg(Speed(f.speedKt), sky.trig.Sin(f.hdg), dt)
  {
    hide Leg, DegPerMLon, Speed;
    var g := Advance(f, dt, sky);
    DivBack(Leg(Speed(f.speedKt), sky.trig.Cos(f.hdg), dt), DEG_PER_M_LAT);
    DivBack(Leg(Speed(f.speedKt), sky.trig.Sin(f.hdg), dt), DegPerMLon(sky.scale, g.lat));
  }

  lemma DivBack(x: real, k: real)
    requires k != 0.0
    ensures (x * k) / k == x
  {
    Quotient(x * k, k);
    Cancel((x * k) / k, x, k);
  }

  /** Moving by a distance takes it off the distance left. */
  lemma MoveLeft(target: real, deg: real, metres: real, k: real)
    requires k != 0.0
    ensures A.Metres(target - Moved(deg, metres, k), k) == A.Metres(target - deg, k) - metres
  {
    var left, was := A.Metres(target - Moved(deg, metres, k), k), A.Metres(target - deg, k);
    Quotient(target - Moved(deg, metres, k), k);
    Quotient(target - deg, k);
    assert left * k == (was - metres) * k;
    Cancel(left, was - metres, k);
  }

  /** Once the turn a tick allows covers the angle off the target, the tick flies straight at it. Of a
      stationary target's offset the north part shrinks by the step's and so does the east part, which
      is then measured by the scale at the new latitude: rho is the old scale over the new. What is left
      is |l - step| exactly when that makes no difference, or the rescaled overshoot mirrors it. */
  lemma PursuitCloses(f: Flight, target: Aircraft, l: real, dt: real, sky: Sky)
    requires sky.trig.Sound() && Steerable(f) && dt >= 0.0
    requires l >= 0.0 && Square(l) == A.Norm2(EastTo(f.lat, f.lon, target, sky.scale), NorthTo(f.lat, target))
    requires Gap(f.hdg, BearingTo(f.lat, f.lon, target, sky)) <= TurnLimit(f.turnRate, dt)
    ensures var g := Advance(Guide(f, target, dt, sky), dt, sky);
            var d, b := Leg(Speed(f.speedKt), 1.0, dt), BearingTo(f.lat, f.lon, target, sky);
            var left := A.Norm2(EastTo(g.lat, g.lon, target, sky.scale), NorthTo(g.lat, target));
            var rl := Scaled(Ratio(DegPerMLon(sky.scale, f.lat), DegPerMLon(sky.scale, g.lat)), l);
            && left == Square(Scaled(rl - d, sky.trig.Sin(b))) + Square(Scaled(l - d, sky.trig.Cos(b)))
            && (left == Square(l - d)
                <==> target.lon == f.lon || DegPerMLon(sky.scale, f.lat) == DegPerMLon(sky.scale, g.lat) || rl == 2.0 * d - l)
  {
    hide *;
    OnBearing(f, target, dt, sky);
    GuidedTo(f, target, dt, sky);
    TowardsTarget(f.lat, f.lon, Speed(f.speedKt), target, l, dt, sky);
  }

  lemma GuidedTo(f: Flight, target: Aircraft, dt: real, sky: Sky)
    ensures var h := Guide(f, target, dt, sky);
            var g, lat := Advance(h, dt, sky), NextLat(f.lat, Speed(f.speedKt), h.hdg, dt, sky.trig);
            g.lat == lat && g.lon == NextLon(lat, f.lon, Speed(f.speedKt), h.hdg, dt, sky)
  {
    hide NextLat, NextLon, Speed, Steer, Climb, BearingTo, TurnLimit, ClimbStep;
  }

  lemma TurnLimitSign(rate: real, dt: real)
    requires rate >= 0.0 && dt >= 0.0
    ensures TurnLimit(rate, dt) >= 0.0
  {
    ProductSign(rate, dt, TurnLimit(rate, dt));
  }

  lemma OnBearing(f: Flight, target: Aircraft, dt: real, sky: Sky)
    requires sky.trig.Sound() && Steerable(f) && dt >= 0.0
    requires Gap(f.hdg, BearingTo(f.lat, f.lon, target, sky)) <= TurnLimit(f.turnRate, dt)
    ensures Guide(f, target, dt, sky).hdg == BearingTo(f.lat, f.lon, target, sky)
  {
    hide EastTo, NorthTo, Steer, Gap, TurnLimit, Climb, ClimbStep, Trig.Bearing;
    var b, most := BearingTo(f.lat, f.lon, target, sky), TurnLimit(f.turnRate, dt);
    TurnLimitSign(f.turnRate, dt);
    BearingRange(sky.trig, EastTo(f.lat, f.lon, target, sky.scale), NorthTo(f.lat, target));
    SteerGap(f.hdg, b, most);
    GapZero(Steer(f.hdg, b, most), b);
  }

  lemma TowardsTarget(lat: real, lon: real, speed: real, target: Aircraft, l: real, dt: real, sky: Sky)
    requires sky.trig.Sound()
    requires l >= 0.0 && Square(l) == A.Norm2(EastTo(lat, lon, target, sky.scale), NorthTo(lat, target))
    ensures var b := BearingTo(lat, lon, target, sky);
            var lat2 := NextLat(lat, speed, b, dt, sky.trig);
            var lon2 := NextLon(lat2, lon, speed, b, dt, sky);
            var d, k, k2 := Leg(speed, 1.0, dt), DegPerMLon(sky.scale, lat), DegPerMLon(sky.scale, lat2);
            var left, rl := A.Norm2(EastTo(lat2, lon2, target, sky.scale), NorthTo(lat2, target)), Scaled(Ratio(k, k2), l);
            && left == Square(Scaled(rl - d, sky.trig.Sin(b))) + Square(Scaled(l - d, sky.trig.Cos(b)))
            && (left == Square(l - d) <==> target.lon == lon || k == k2 || rl == 2.0 * d - l)
  {
    hide *;
    var b := BearingTo(lat, lon, target, sky);
    var lat2 := NextLat(lat, speed, b, dt, sky.trig);
    var k, k2 := DegPerMLon(sky.scale, lat), DegPerMLon(sky.scale, lat2);
    var l2 := ToTarget(lat, lon, target, sky);
    PolarLength(sky.trig, b, l, l2, EastTo(lat, lon, target, sky.scale), NorthTo(lat, target));
    NorthAfter(lat, speed, b, target, dt, sky.trig);
    EastAfter(lat, lat2, lon, speed, b, target, dt, sky);
    SameLon(lat, lon, target, sky.scale);
    LegScaled(speed, sky.trig.Cos(b), dt);
    LegScaled(speed, sky.trig.Sin(b), dt);
    LeftOver(l, Leg(speed, 1.0, dt), sky.trig.Cos(b), sky.trig.Sin(b), k, k2);
    var d, rl := Leg(speed, 1.0, dt), Scaled(Ratio(k, k2), l);
    LeftIs(l, d, sky.trig.Cos(b), sky.trig.Sin(b), Ratio(k, k2));
    NormSquares(Scaled(rl - d, sky.trig.Sin(b)), Scaled(l - d, sky.trig.Cos(b)));
  }

  /** The direction's length is the distance. */
  lemma PolarLength(trig: Trig, b: real, l: real, l2: real, east: real, north: real)
    requires trig.Circle(b) && trig.Polar(l2, b, east, north) && l >= 0.0 && Square(l) == A.Norm2(east, north)
    ensures l == l2 && north == Scaled(l, trig.Cos(b)) && east == Scaled(l, trig.Sin(b)) && Unit(trig.Cos(b), trig.Sin(b))
  {
    CircleScale(l2, trig.Cos(b), trig.Sin(b));
    SquareRoot(l, l2);
  }

  lemma SameLon(lat: real, lon: real, target: Aircraft, scale: LonScale)
    ensures target.lon == lon <==> EastTo(lat, lon, target, scale) == 0.0
  {
    Quotient(target.lon - lon, DegPerMLon(scale, lat));
    hide DegPerMLon;
  }

  /** Offsets after the step, from the shares of distance and step. */
  lemma LeftIs(l: real, d: real, c: real, s: real, rho: real)
    ensures Scaled(rho, Scaled(l, s)) - Scaled(d, s) == Scaled(Scaled(rho, l) - d, s)
    ensures Scaled(l, c) - Scaled(d, c) == Scaled(l - d, c)
  {
  }

  lemma LegScaled(speed: real, share: real, dt: real)
    ensures Leg(speed, share, dt) == Scaled(Leg(speed, 1.0, dt), share)
  {
  }

  lemma NormSquares(x: real, y: real)
    ensures A.Norm2(x, y) == Square(x) + Square(y)
  {
  }

  lemma LeftOver(l: real, d: real, c: real, s: real, k: real, k2: real)
    requires Unit(c, s) && k != 0.0 && k2 != 0.0
    ensures var rl := Scaled(Ratio(k, k2), l);
            Square(Scaled(rl - d, s)) + Square(Scaled(l - d, c)) == Square(l - d)
            <==> Scaled(l, s) == 0.0 || k == k2 || rl == 2.0 * d - l
  {
    var rho := Ratio(k, k2);
    var rl := Scaled(rho, l);
    LeftExactly(rl - d, l - d, c, s);
    Quotient(k, k2);
    if k == k2 {
      Cancel(rho, 1.0, k2);
    }
    if rl == l && l != 0.0 {
      Cancel(rho, 1.0, l);
    }
  }

  /** Of two shares one rescaled, the length is kept only if the share or its size is. */
  lemma LeftExactly(u: real, v: real, c: real, s: real)
    requires Unit(c, s)
    ensures Square(Scaled(u, s)) + Square(Scaled(v, c)) == Square(v) <==> s == 0.0 || u == v || u == -v
  {
    CircleScale(v, c, s);
    assert Square(Scaled(u, s)) - Square(Scaled(v, s)) == (u - v) * (u + v) * Square(s);
    if Square(Scaled(u, s)) == Square(Scaled(v, s)) && s != 0.0 {
      SquareSign(s, Square(s));
      Cancel((u - v) * (u + v), 0.0, Square(s));
    }
  }

  lemma ToTarget(lat: real, lon: real, target: Aircraft, sky: Sky) returns (l: real)
    requires sky.trig.Sound()
    ensures var b := BearingTo(lat, lon, target, sky);
            && sky.trig.Circle(b)
            && sky.trig.Polar(l, b, EastTo(lat, lon, target, sky.scale), NorthTo(lat, target))
  {
    l := BearingPolar(sky.trig, EastTo(lat, lon, target, sky.scale), NorthTo(lat, target));
  }

  lemma NorthAfter(lat: real, speed: real, hdg: real, target: Aircraft, dt: real, trig: Trig)
    ensures NorthTo(NextLat(lat, speed, hdg, dt, trig), target) == NorthTo(lat, target) - Leg(speed, trig.Cos(hdg), dt)
  {
    hide A.Metres, Moved, Leg;
    MoveLeft(target.lat, lat, Leg(speed, trig.Cos(hdg), dt), DEG_PER_M_LAT);
  }

  lemma EastAfter(lat: real, lat2: real, lon: real, speed: real, hdg: real, target: Aircraft, dt: real, sky: Sky)
    ensures EastTo(lat2, NextLon(lat2, lon, speed, hdg, dt, sky), target, sky.scale)
         == Scaled(Ratio(DegPerMLon(sky.scale, lat), DegPerMLon(sky.scale, lat2)), EastTo(lat, lon, target, sky.scale))
            - Leg(speed, sky.trig.Sin(hdg), dt)
  {
    hide A.Metres, DegPerMLon, Moved, Leg, Scaled, Ratio;
    MoveLeft(target.lon, lon, Leg(speed, sky.trig.Sin(hdg), dt), DegPerMLon(sky.scale, lat2));
    Rescaled(target.lon - lon, DegPerMLon(sky.scale, lat), DegPerMLon(sky.scale, lat2));
  }

  lemma Rescaled(deg: real, k: real, k2: real)
    requires k != 0.0 && k2 != 0.0
    ensures A.Metres(deg, k2) == Scaled(Ratio(k, k2), A.Metres(deg, k))
  {
    var x, y := A.Metres(deg, k2), A.Metres(deg, k);
    Quotient(deg, k);
    Quotient(deg, k2);
    Quotient(k, k2);
    assert Scaled(Ratio(k, k2), y) * k2 == y * k;
    Cancel(x, Scaled(Ratio(k, k2), y), k2);
  }
}

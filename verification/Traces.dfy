/** Concrete snapshots on which the detector does not do what its comments say, for every sound
    geometry. All aircraft fly along one meridian, so the longitude scale plays no part. */
module Traces {
  import opened Algebra
  import opened Basics
  import opened AircraftDbSpec
  import opened Approach
  import opened TrackerSpec
  import opened TrackerRuns
  import opened TrackerEntries
  import opened CrashLock
  import opened PairFrames
  import opened Encounters
  import opened Alerts
  import opened Diversions
  import opened Terminal
  import opened Picker
  import opened Detector

  // ---- geometry on a meridian -------------------------------------------------------

  /** Metres north from a to b. */
  function Ahead(a: SnapRow, b: SnapRow): real { Metres(b.lat - a.lat, DEG_PER_M_LAT) }

  lemma MeridianRelative(a: SnapRow, b: SnapRow, scale: LonScale)
    requires a.lon == b.lon && a.vEast == b.vEast
    ensures Relative(a, b, scale) == Rel(0.0, Ahead(a, b), 0.0, b.vNorth - a.vNorth)
  {
    NoMetres(DegPerMLon(scale, Mid(a.lat, b.lat)));
    hide Metres, DegPerMLon;
  }

  lemma NoMetres(k: real)
    requires k != 0.0
    ensures Metres(0.0, k) == 0.0
  {
  }

  lemma MeridianTca(y: real, v: real, t: real)
    requires v != 0.0 && y == -(v * t)
    ensures Norm2(0.0, v) != 0.0 && Tca(Rel(0.0, y, 0.0, v)) == t
    ensures At(0.0, 0.0, t) == 0.0 && At(y, v, t) == 0.0
  {
    var n, d := Norm2(0.0, v), -Dot(0.0, y, 0.0, v);
    assert n == v * v && d == t * n;
    SquareSign(v, n);
    hide Norm2, Dot;
    Quotient(d, n);
    Cancel(d / n, t, n);
  }

  /** Closing along the meridian: a collision t seconds ahead. */
  lemma MeetOnMeridian(a: SnapRow, b: SnapRow, geo: Geo, t: real)
    requires geo.Sound() && a.lon == b.lon && a.vEast == b.vEast && 0.0 < t < WARNING_TCA_S
    requires b.vNorth != a.vNorth && Ahead(a, b) == -((b.vNorth - a.vNorth) * t)
    ensures Classify(ClosestApproach(a, b, geo)) == Warning
    ensures ClosestApproach(a, b, geo).tca == Some(t)
  {
    hide Ahead, Relative, Tca, Norm2, At, Geo.Length, Geo.Sound;
    MeridianRelative(a, b, geo.scale);
    MeridianTca(Ahead(a, b), b.vNorth - a.vNorth, t);
    LengthZero(geo);
  }

  lemma LengthZero(geo: Geo)
    requires geo.Sound()
    ensures geo.Length(0.0, 0.0) == 0.0
  {
    LengthIs(geo, 0.0, 0.0, 0.0);
  }

  /** Drawing apart along the meridian. */
  lemma PartOnMeridian(a: SnapRow, b: SnapRow, geo: Geo, t: real)
    requires a.lon == b.lon && a.vEast == b.vEast && t >= 0.0
    requires b.vNorth != a.vNorth && Ahead(a, b) == (b.vNorth - a.vNorth) * t
    ensures PairLevel(a, b, geo) == Clear
  {
    hide Ahead, Relative, Tca, Norm2, At, Geo.Length;
    MeridianRelative(a, b, geo.scale);
    MeridianTca(Ahead(a, b), b.vNorth - a.vNorth, -t);
  }

  lemma MeridianRange(a: SnapRow, b: SnapRow, geo: Geo, m: real)
    requires geo.Sound() && a.lon == b.lon && m >= 0.0 && (Ahead(a, b) == m || Ahead(a, b) == -m)
    ensures CrashRange(a, b, geo) == m
  {
    var y := Ahead(a, b);
    NoMetres(DegPerMLon(geo.scale, a.lat));
    assert Norm2(y, 0.0) == Square(m);
    hide Ahead, Metres, DegPerMLon, Norm2, Square, Geo.Sound, Geo.Length;
    LengthIs(geo, y, 0.0, m);
    RangeIs(a, b, geo);
  }

  lemma RangeIs(a: SnapRow, b: SnapRow, geo: Geo)
    requires a.lon == b.lon && Metres(0.0, DegPerMLon(geo.scale, a.lat)) == 0.0
    ensures CrashRange(a, b, geo) == geo.Length(Ahead(a, b), 0.0)
  {
    hide Metres, DegPerMLon, Geo.Length;
  }

  // ---- scans of two and three aircraft ----------------------------------------------

  lemma ScanTwo(a: SnapRow, b: SnapRow, env: Env)
    requires a.vValid && b.vValid
    ensures ScanOf([a, b], env) == [Observe(a, b, env, 0)]
  {
    hide Observe;
    var rows := [a, b];
    assert InnerScan(rows, env, 0, 1, 0) == [];
    assert InnerScan(rows, env, 0, 2, 0) == [Observe(a, b, env, 0)];
    assert OuterScan(rows, env, 0) == [];
    assert OuterScan(rows, env, 1) == [Observe(a, b, env, 0)];
    assert InnerScan(rows, env, 1, 2, 1) == [];
  }

  lemma ScanThree(a: SnapRow, b: SnapRow, c: SnapRow, env: Env)
    requires a.vValid && b.vValid && c.vValid
    ensures ScanOf([a, b, c], env) == [Observe(a, b, env, 0), Observe(a, c, env, 1), Observe(b, c, env, 2)]
  {
    hide Observe;
    var rows := [a, b, c];
    var x, y, z := Observe(a, b, env, 0), Observe(a, c, env, 1), Observe(b, c, env, 2);
    assert InnerScan(rows, env, 0, 1, 0) == [];
    assert InnerScan(rows, env, 0, 2, 0) == [x];
    assert InnerScan(rows, env, 0, 3, 0) == [x, y];
    assert OuterScan(rows, env, 0) == [];
    assert OuterScan(rows, env, 1) == [x, y];
    assert InnerScan(rows, env, 1, 2, 2) == [];
    assert InnerScan(rows, env, 1, 3, 2) == [z];
    assert OuterScan(rows, env, 2) == [x, y, z];
    assert InnerScan(rows, env, 2, 3, 3) == [];
  }

  // ---- the crash lock ends on the next tick -----------------------------------------

  const HIT_A := SnapRow("a", 0.0, 0.0, 0.0, 0.0, 0, true, false)
  /** 50 m north of it and closing at 10 m/s, then stopped. */
  const HIT_B := SnapRow("b", 50.0 / 111000.0, 0.0, -10.0, 0.0, 0, true, false)
  const HIT_B_STOPPED := HIT_B.(vNorth := 0.0)

  lemma HitLevels(geo: Geo)
    requires geo.Sound()
    ensures PairLevel(HIT_A, HIT_B, geo) == Crash && PairLevel(HIT_A, HIT_B_STOPPED, geo) == Clear
  {
    assert Ahead(HIT_A, HIT_B) == 50.0;
    MeetOnMeridian(HIT_A, HIT_B, geo, 5.0);
    MeridianRange(HIT_A, HIT_B, geo, 50.0);
    MatchedVelocitiesAreClear(HIT_A, HIT_B_STOPPED, geo);
    hide Classify, ClosestApproach, CrashRange, Geo.Sound;
  }

  const HIT := Key("a", "b")

  lemma OneSighting(g: Sighting)
    requires StrLe(g.key.lo, g.key.hi)
    ensures FromScan([g])
    ensures Hit([g], g.key) == if g.level == Clear then None else Some(g)
    ensures g.level != Clear ==> Newcomers([], [g]) == [g]
  {
    assert [g][..0] == [];
  }

  lemma HitScan(a: SnapRow, b: SnapRow, env: Env)
    requires a.icao == "a" && b.icao == "b" && a.vValid && b.vValid
    ensures var g := Observe(a, b, env, 0);
            ScanOf([a, b], env) == [g] && g.key == HIT && g.level == PairLevel(a, b, env.geo) && g.now == env.Now(0)
  {
    hide PairLevel, ClosestApproach, SimOf, Env.Now;
    ScanTwo(a, b, env);
    assert StrLe("a", "b");
  }

  /** Two aircraft collide and stop. The pair is in its crash lock until 15 s later, and the next tick
      CLEARs and drops it. */
  lemma LockBreaks(before: Env, after: Env)
    requires before.geo.Sound() && after.geo.Sound() && before.Now(0) <= after.Now(0) < before.Now(0) + CRASH_LOCK_MS
    ensures var ticks := [ScanOf([HIT_A, HIT_B], before), ScanOf([HIT_A, HIT_B_STOPPED], after)];
            var crashed, next := RunTicks(Start(), ticks[..1]), RunTicks(Start(), ticks);
            var e := EntryOf(crashed.pairs, HIT);
            && e.Some? && e.value.level == Crash && e.value.crashUntil == before.Now(0) + CRASH_LOCK_MS
            && Locked(e.value, after.Now(0))
            && EntryOf(next.pairs, HIT) == None
            && EventsOf(next.log, HIT) == EventsOf(crashed.log, HIT) + [ClearFrame(e.value)]
  {
    hide PairLevel, Tick, FromScan, Hit, EventsOf, Observe, ScanOf, Env.Now, Geo.Sound, EntryOf, RunTicks;
    HitLevels(before.geo);
    HitLevels(after.geo);
    HitScan(HIT_A, HIT_B, before);
    HitScan(HIT_A, HIT_B_STOPPED, after);
    CrashThenClear(Observe(HIT_A, HIT_B, before, 0), Observe(HIT_A, HIT_B_STOPPED, after, 0));
  }

  lemma CrashThenClear(g: Sighting, h: Sighting)
    requires g.key == HIT == h.key && g.level == Crash && h.level == Clear && h.now < g.now + CRASH_LOCK_MS
    ensures var crashed, next := RunTicks(Start(), [[g], [h]][..1]), RunTicks(Start(), [[g], [h]]);
            var e := EntryOf(crashed.pairs, HIT);
            && e.Some? && e.value.level == Crash && e.value.crashUntil == g.now + CRASH_LOCK_MS
            && EntryOf(next.pairs, HIT) == None
            && EventsOf(next.log, HIT) == EventsOf(crashed.log, HIT) + [ClearFrame(e.value)]
  {
    hide Tick, FromScan, Hit, Newcomers, EventsOf, TableInv;
    var ticks := [[g], [h]];
    assert StrLe("a", "b");
    OneSighting(g);
    OneSighting(h);
    assert ticks[..1] == [[g]] && [[g]][..0] == [];
    NothingTracked();
    TransitionArmsLock(Start(), [g], HIT, g);
    RunTicksTable(Start(), [[g]]);
    var e := EntryOf(RunTicks(Start(), [[g]]).pairs, HIT).value;
    LockedTick(RunTicks(Start(), [[g]]), [h], HIT, e);
  }

  lemma NothingTracked()
    ensures TableInv(Start().pairs) && Start().pairs == [] && forall key :: EntryOf(Start().pairs, key) == None
  {
  }

  // ---- the terminal frame is sent again ---------------------------------------------

  /** Two kilometres north and closing at 100 m/s. */
  const HIT_B_AFAR := HIT_B.(lat := 2000.0 / 111000.0, vNorth := -100.0)

  lemma AfarLevel(geo: Geo)
    requires geo.Sound()
    ensures PairLevel(HIT_A, HIT_B_AFAR, geo) == Warning
  {
    assert Ahead(HIT_A, HIT_B_AFAR) == 2000.0;
    hide Ahead, PairLevel, Geo.Sound;
    WarnOnMeridian(HIT_A, HIT_B_AFAR, geo, 20.0, 2000.0);
  }

  /** Two aircraft collide, stop, and collide again, whatever the clock says: the terminal frame goes out
      twice. Likewise if in between, with the lock run out, they are a warning: then both lie in one
      encounter. */
  lemma CrashTwice(first: Env, second: Env, third: Env)
    requires first.geo.Sound() && second.geo.Sound() && third.geo.Sound()
    ensures var stopped := [DoTick(ScanOf([HIT_A, HIT_B], first)), DoTick(ScanOf([HIT_A, HIT_B_STOPPED], second)),
                            DoTick(ScanOf([HIT_A, HIT_B], third))];
            Crashes(RunActions(stopped).log, HIT) >= 2
    ensures var afar := [DoTick(ScanOf([HIT_A, HIT_B], first)), DoTick(ScanOf([HIT_A, HIT_B_AFAR], second)),
                         DoTick(ScanOf([HIT_A, HIT_B], third))];
            first.Now(0) + CRASH_LOCK_MS <= second.Now(0) && first.Now(0) + CRASH_LOCK_MS <= third.Now(0) ==>
              Crashes(RunActions(afar).log, HIT) >= 2
  {
    hide PairLevel, Tick, FromScan, Observe, ScanOf, Env.Now, Geo.Sound, RunActions, Crashes;
    HitLevels(first.geo);
    HitLevels(third.geo);
    HitLevels(second.geo);
    AfarLevel(second.geo);
    HitScan(HIT_A, HIT_B, first);
    HitScan(HIT_A, HIT_B_STOPPED, second);
    HitScan(HIT_A, HIT_B_AFAR, second);
    HitScan(HIT_A, HIT_B, third);
    var g, h := Observe(HIT_A, HIT_B, first, 0), Observe(HIT_A, HIT_B, third, 0);
    TwoEdges(g, Observe(HIT_A, HIT_B_STOPPED, second, 0), h);
    if first.Now(0) + CRASH_LOCK_MS <= second.Now(0) && first.Now(0) + CRASH_LOCK_MS <= third.Now(0) {
      TwoEdges(g, Observe(HIT_A, HIT_B_AFAR, second, 0), h);
    }
  }

  lemma TwoEdges(g: Sighting, mid: Sighting, h: Sighting)
    requires g.key == mid.key == h.key == HIT && g.level == h.level == Crash
    requires mid.level == Clear || (mid.level == Warning && mid.now >= g.now + CRASH_LOCK_MS && h.now >= g.now + CRASH_LOCK_MS)
    ensures Crashes(RunActions([DoTick([g]), DoTick([mid]), DoTick([h])]).log, HIT) >= 2
  {
    hide RunActions, Tick, FromScan, TableInv, Hit, Newcomers, Crashes;
    var actions := [DoTick([g]), DoTick([mid]), DoTick([h])];
    assert StrLe("a", "b");
    OneSighting(g);
    OneSighting(mid);
    OneSighting(h);
    NothingTracked();
    ThreeStates(actions);
    RunKeepsTable(actions[..1]);
    TickEntry(Start(), [g], HIT);
    TickEntry(RunActions(actions[..1]), [mid], HIT);
    assert EdgeAt(actions, 0, HIT) && EdgeAt(actions, 2, HIT);
    OnceExactly(actions, HIT);
  }

  lemma ThreeStates(actions: seq<Action>)
    requires |actions| == 3 && actions[0].DoTick? && actions[1].DoTick?
    ensures RunActions(actions[..0]) == Start() && RunActions(actions[..1]) == Tick(Start(), actions[0].obs)
    ensures RunActions(actions[..2]) == Tick(RunActions(actions[..1]), actions[1].obs)
  {
    hide Tick;
    assert actions[..2][..1] == actions[..1] && actions[..1][..0] == actions[..0] == [];
    RunSnoc(actions[..2]);
    RunSnoc(actions[..1]);
  }

  // ---- the simulator is told another pair's diversion -------------------------------

  /** The simulator, at rest at 2500 ft; one aircraft 2 km north of it and 800 ft above, one 3 km south
      and 800 ft below, both heading for it and too far apart in altitude to concern each other. */
  const SIM := SnapRow("s", 0.0, 0.0, 0.0, 0.0, 2500, true, true)
  const NORTHERN := SnapRow("a", 2000.0 / 111000.0, 0.0, -100.0, 0.0, 3300, true, true)
  const TURNED := NORTHERN.(vNorth := 100.0)
  const SOUTHERN := SnapRow("b", -3000.0 / 111000.0, 0.0, 150.0, 0.0, 1700, true, true)

  const PAIR_A := Key("a", "s")
  const PAIR_B := Key("b", "s")

  lemma ThreatLevels(geo: Geo)
    requires geo.Sound()
    ensures PairLevel(NORTHERN, SIM, geo) == Warning && PairLevel(TURNED, SIM, geo) == Clear
    ensures PairLevel(SOUTHERN, SIM, geo) == Warning
    ensures PairLevel(NORTHERN, SOUTHERN, geo) == Clear && PairLevel(TURNED, SOUTHERN, geo) == Clear
  {
    hide PairLevel, Geo.Sound;
    NorthernLevels(geo);
    SouthernLevel(geo);
    ClearByHeight(NORTHERN, SOUTHERN, geo);
    ClearByHeight(TURNED, SOUTHERN, geo);
  }

  lemma NorthernLevels(geo: Geo)
    requires geo.Sound()
    ensures PairLevel(NORTHERN, SIM, geo) == Warning && PairLevel(TURNED, SIM, geo) == Clear
  {
    assert Ahead(NORTHERN, SIM) == -2000.0 && Ahead(TURNED, SIM) == -2000.0;
    hide Ahead, PairLevel, Geo.Sound;
    WarnOnMeridian(NORTHERN, SIM, geo, 20.0, 2000.0);
    PartOnMeridian(TURNED, SIM, geo, 20.0);
  }

  lemma SouthernLevel(geo: Geo)
    requires geo.Sound()
    ensures PairLevel(SOUTHERN, SIM, geo) == Warning
  {
    assert Ahead(SOUTHERN, SIM) == 3000.0;
    hide Ahead, PairLevel, Geo.Sound;
    WarnOnMeridian(SOUTHERN, SIM, geo, 20.0, 3000.0);
  }

  lemma ClearByHeight(a: SnapRow, b: SnapRow, geo: Geo)
    requires VerticallyClear(a, b)
    ensures PairLevel(a, b, geo) == Clear
  {
    hide ClosestApproach, CrashHit;
  }

  /** Closing along the meridian from afar, half a second or more ahead, is a warning. */
  lemma WarnOnMeridian(a: SnapRow, b: SnapRow, geo: Geo, t: real, m: real)
    requires geo.Sound() && a.lon == b.lon && a.vEast == b.vEast && !VerticallyClear(a, b)
    requires 0.0 < t < WARNING_TCA_S && b.vNorth != a.vNorth && Ahead(a, b) == -((b.vNorth - a.vNorth) * t)
    requires m >= IMMINENT_RANGE_M && (Ahead(a, b) == m || Ahead(a, b) == -m)
    ensures PairLevel(a, b, geo) == Warning
  {
    hide Ahead, ClosestApproach, Classify, CrashRange, Geo.Sound;
    MeetOnMeridian(a, b, geo, t);
    MeridianRange(a, b, geo, m);
  }

  /** What a tick reads at one moment when "s" is the simulator. */
  ghost predicate Moment(env: Env, at: int) {
    env.geo.Sound() && (forall n :: env.Now(n) == at) && forall n, icao :: env.IsSim(n, icao) == (icao == "s")
  }

  function Sight(key: Key, level: Level, app: Approach, now: int, pick: Diversion): Sighting {
    Sighting(key, level, app, now, Some(SimSide(key.lo, pick)))
  }

  /** One tick's sightings: the two threats clear of each other, A at some level, B a warning. */
  ghost predicate Threats(obs: seq<Sighting>, a: Level, at: int, p: Diversion, q: Diversion) {
    && |obs| == 3 && FromScan(obs)
    && obs[0].level == Clear && obs[0].key == Key("a", "b")
    && obs[1] == Sight(PAIR_A, a, obs[1].app, at, p)
    && obs[2] == Sight(PAIR_B, Warning, obs[2].app, at, q)
  }

  lemma ThreatScan(a: SnapRow, env: Env, at: int)
    requires Moment(env, at) && (a == NORTHERN || a == TURNED)
    ensures Threats(ScanOf([a, SOUTHERN, SIM], env), if a == NORTHERN then Warning else Clear, at,
                    Descend, Climb)
  {
    hide PairLevel, ClosestApproach, Env.Pick, FromScan, Env.Now, Env.IsSim, Geo.Sound, OuterScan, Picker.PickDiversion;
    PicksByHeight(a, env);
    ThreatLevels(env.geo);
    ScanThree(a, SOUTHERN, SIM, env);
    assert env.Now(1) == at && env.Now(2) == at;
    assert !env.IsSim(1, "a") && env.IsSim(1, "s") && !env.IsSim(2, "b") && env.IsSim(2, "s");
    assert StrLe("a", "b") && StrLe("a", "s") && StrLe("b", "s");
    ScanIsFromScan([a, SOUTHERN, SIM], env);
  }

  /** The altitudes decide: down from the northern one, up from the southern one. */
  lemma PicksByHeight(a: SnapRow, env: Env)
    requires a == NORTHERN || a == TURNED
    ensures env.Pick(SIM, a) == Descend && env.Pick(SIM, SOUTHERN) == Climb
  {
    PickMeans(SIM, a, env.trig, env.geo.scale);
    hide Settled, Aside;
  }

  lemma FoldThree(s: Scan, x: Sighting, y: Sighting, z: Sighting)
    requires s.Ok()
    ensures Fold(s, [x, y, z]) == Step(Step(Step(s, x), y), z)
  {
    hide Step;
    assert [x, y, z][..2] == [x, y] && [x, y][..1] == [x] && [x][..0] == [];
    assert Fold(s, [x]) == Step(Fold(s, []), x);
    assert Fold(s, [x, y]) == Step(Fold(s, [x]), y);
  }

  function Fresh(g: Sighting, d: Diversion): TrackedPair { TrackedPair(g.key, g.level, Some(d), g.now, 0) }

  lemma StepBirth(s: Scan, g: Sighting)
    requires s.Ok() && FindPair(s.pairs, g.key) < 0 && |s.pairs| < MAX_TRACKED && g.level == Warning && g.sim.Some?
    ensures var s', n := Step(s, g), |s.pairs|;
            && s'.pairs == s.pairs + [Fresh(g, g.sim.value.pick)] && s'.seen == s.seen + [true]
            && s'.slots == s.slots[n := g.sim.value.pick]
  {
    hide TouchEvents;
  }

  /** Both pairs appear: A is given p, B is given q. */
  lemma BothAppear(obs: seq<Sighting>, at: int, p: Diversion, q: Diversion)
    requires Threats(obs, Warning, at, p, q)
    ensures var st := Tick(Start(), obs);
            && st.pairs == [Fresh(obs[1], p), Fresh(obs[2], q)]
            && st.slots[0] == p && st.slots[1] == q
  {
    hide Step, Fold, FromScan, Sweep, Fresh;
    var s0 := Start().Begin();
    assert obs == [obs[0], obs[1], obs[2]];
    FoldThree(s0, obs[0], obs[1], obs[2]);
    StepClear(s0, obs[0]);
    BothBorn(s0, obs[1], obs[2]);
    SweepAllSeen(Step(Step(s0, obs[1]), obs[2]), 2);
  }

  lemma BothBorn(s: Scan, x: Sighting, y: Sighting)
    requires s.Ok() && s.pairs == [] && s.seen == [] && x.key != y.key
    requires x.level == y.level == Warning && x.sim.Some? && y.sim.Some?
    ensures var s2 := Step(Step(s, x), y);
            && s2.pairs == [Fresh(x, x.sim.value.pick), Fresh(y, y.sim.value.pick)] && s2.seen == [true, true]
            && s2.slots[0] == x.sim.value.pick && s2.slots[1] == y.sim.value.pick
  {
    hide Step;
    StepBirth(s, x);
    OnlyKey(Step(s, x).pairs, y.key);
    StepBirth(Step(s, x), y);
  }

  lemma OnlyKey(pairs: seq<TrackedPair>, key: Key)
    requires |pairs| == 1 && pairs[0].key != key
    ensures FindPair(pairs, key) == -1
  {
  }

  lemma {:induction false} SweepAllSeen(s: Scan, i: nat)
    requires i <= |s.pairs| && i <= |s.seen| && forall j :: 0 <= j < i ==> s.seen[j]
    ensures Sweep(s.pairs, s.seen, s.log, i) == (s.pairs, s.log)
  {
    if i > 0 {
      SweepAllSeen(s, i - 1);
    }
  }

  /** Only B is still a threat, and not due another frame: it moves into A's place as it is. Its slot
      stays behind. */
  lemma OnlyBStays(st: State, obs: seq<Sighting>, x: Sighting, y: Sighting, at: int, p: Diversion, q: Diversion,
                   p': Diversion, q': Diversion)
    requires st.Ok() && st.pairs == [Fresh(x, p), Fresh(y, q)] && x.key == PAIR_A && y.key == PAIR_B && x.level == y.level == Warning
    requires Threats(obs, Clear, at, p', q') && at - y.now <= BLE_GAP_MS && at > 0
    ensures Tick(st, obs).pairs == [Fresh(y, q)] && Tick(st, obs).slots == st.slots
  {
    var s0 := st.Begin();
    assert obs == [obs[0], obs[1], obs[2]];
    hide Fold, FromScan, TouchEvents, Sweep, Filter, Step;
    FoldThree(s0, obs[0], obs[1], obs[2]);
    StepClear(s0, obs[0]);
    StepClear(s0, obs[1]);
    StepSame(s0, obs[2]);
    var s1 := Step(s0, obs[2]);
    SweepIsFilter(s1.pairs, s1.seen, s1.log, 2);
    SecondOnly(s1.pairs, s1.seen);
  }

  /** A sighting that changes nothing but the mark. */
  lemma StepSame(s: Scan, g: Sighting)
    requires s.Ok() && |s.pairs| == |s.seen| == 2 && s.pairs[0].key != g.key && s.pairs[1].key == g.key && s.seen == [false, false]
    requires g.level == s.pairs[1].level == Warning && g.now - s.pairs[1].lastBle <= BLE_GAP_MS && s.pairs[1].crashUntil <= g.now
    ensures Step(s, g).pairs == s.pairs && Step(s, g).slots == s.slots && Step(s, g).seen == [false, true]
  {
    hide TouchEvents;
    assert FindPair(s.pairs, g.key) == 1;
  }

  lemma SecondOnly(pairs: seq<TrackedPair>, seen: seq<bool>)
    requires |pairs| == 2 && seen == [false, true]
    ensures pairs[..2] == pairs && seen[..2] == seen && pairs[2..] == []
    ensures Filter(pairs, seen) == [pairs[1]]
  {
    assert Filter(pairs[..1], seen[..1]) == [];
  }

  /** Later than three seconds after: B is sent what is in the slot, and its JSON frame shows its own. */
  lemma LaterSend(st: State, obs: seq<Sighting>, y: Sighting, at: int, p: Diversion, q: Diversion, p': Diversion, q': Diversion)
    requires st.Ok() && st.pairs == [Fresh(y, q)] && y.key == PAIR_B && y.level == Warning && st.slots[0] == p
    requires Threats(obs, Clear, at, p', q') && at - y.now > BLE_GAP_MS && at > 0 && TableInv(st.pairs)
    ensures EntryOf(st.pairs, PAIR_B) == Some(Fresh(y, q)) && SlotOf(st.pairs, st.slots, PAIR_B) == Some(p)
    ensures Hit(obs, PAIR_B) == Some(obs[2])
    ensures Json(PAIR_B, Warning, obs[2].app, Some(q)) in Tick(st, obs).log
    ensures BleDiversion(PAIR_B, "b", p, at) in Tick(st, obs).log
  {
    hide FromScan, Tick, TableInv, EventsOf;
    var d := TickEvents(st, obs, PAIR_B);
    var evs := TouchEvents(Fresh(y, q), obs[2], false, p);
    assert evs[0] == Json(PAIR_B, Warning, obs[2].app, Some(q)) && evs[1] == BleDiversion(PAIR_B, "b", p, at);
    EventsIn(Tick(st, obs).log, PAIR_B, evs[0]);
    EventsIn(Tick(st, obs).log, PAIR_B, evs[1]);
  }

  lemma {:induction false} EventsIn(log: seq<Event>, key: Key, e: Event)
    requires e in EventsOf(log, key)
    ensures e in log
  {
    if e != log[|log| - 1] {
      EventsIn(log[..|log| - 1], key, e);
    }
  }

  /** Three snapshots of three aircraft. The northern one turns away; more than three seconds after
      the first the simulator, told to climb away from the southern one below it, is told to descend,
      which was picked against the northern one; the JSON frame of the same tick still says climb. */
  lemma DiversionsDisagree(first: Env, second: Env, third: Env, t1: int, t2: int, t3: int)
    requires Moment(first, t1) && Moment(second, t2) && Moment(third, t3)
    requires 0 < t1 <= t2 <= t1 + BLE_GAP_MS < t3
    ensures var log := RunActions([DoTick(ScanOf([NORTHERN, SOUTHERN, SIM], first)),
                                   DoTick(ScanOf([TURNED, SOUTHERN, SIM], second)),
                                   DoTick(ScanOf([TURNED, SOUTHERN, SIM], third))]).log;
            && (exists app :: Json(PAIR_B, Warning, app, Some(Climb)) in log)
            && BleDiversion(PAIR_B, "b", Descend, t3) in log
            && !OneVoice(log, PAIR_B)
  {
    hide ScanOf, Moment, Tick, OneVoice, RunActions;
    ThreatScan(NORTHERN, first, t1);
    ThreatScan(TURNED, second, t2);
    ThreatScan(TURNED, third, t3);
    ThreeTicks(ScanOf([NORTHERN, SOUTHERN, SIM], first), ScanOf([TURNED, SOUTHERN, SIM], second),
               ScanOf([TURNED, SOUTHERN, SIM], third), t1, t2, t3, Descend, Climb);
  }

  lemma ThreeTicks(o1: seq<Sighting>, o2: seq<Sighting>, o3: seq<Sighting>, t1: int, t2: int, t3: int, p: Diversion, q: Diversion)
    requires Threats(o1, Warning, t1, p, q) && Threats(o2, Clear, t2, p, q) && Threats(o3, Clear, t3, p, q)
    requires 0 < t1 <= t2 <= t1 + BLE_GAP_MS < t3 && p != q
    ensures var log := RunActions([DoTick(o1), DoTick(o2), DoTick(o3)]).log;
            && (exists app :: Json(PAIR_B, Warning, app, Some(q)) in log)
            && BleDiversion(PAIR_B, "b", p, t3) in log
            && !OneVoice(log, PAIR_B)
  {
    var actions := [DoTick(o1), DoTick(o2), DoTick(o3)];
    hide RunActions, Tick, OneVoice, Landed, TableInv, Undropped, Lately;
    assert actions[..2] == [DoTick(o1), DoTick(o2)];
    RunSnoc(actions);
    AfterTwo(o1, o2, t1, t2, p, q);
    RunKeepsTable(actions[..2]);
    LaterSend(RunActions(actions[..2]), o3, o1[2], t3, p, q, p, q);
    SlotLanded(actions[..2], PAIR_B);
    RunVoice(actions, PAIR_B);
    TicksOnly(actions, PAIR_B);
    SinceStart(actions, PAIR_B);
    assert MisspeaksAt(actions, 2, PAIR_B);
    NotSpoken(actions, 2, PAIR_B);
  }

  lemma NotSpoken(actions: seq<Action>, n: nat, key: Key)
    requires n < |actions| && MisspeaksAt(actions, n, key) && Undropped(actions, key)
    ensures !WellSpoken(actions, key, Since(actions, key))
  {
    hide MisspeaksAt, Since, Undropped;
    SinceStart(actions, key);
  }

  /** Ticks alone drop nothing. */
  lemma TicksOnly(actions: seq<Action>, key: Key)
    requires forall a :: a in actions ==> a.DoTick?
    ensures Undropped(actions, key)
  {
    hide RunActions;
    forall n: nat | n < |actions|
      ensures !Drops(RunActions(actions[..n]), actions[n], key)
    {
      assert actions[n] in actions;
    }
  }

  lemma AfterTwo(o1: seq<Sighting>, o2: seq<Sighting>, t1: int, t2: int, p: Diversion, q: Diversion)
    requires Threats(o1, Warning, t1, p, q) && Threats(o2, Clear, t2, p, q) && 0 < t1 <= t2 <= t1 + BLE_GAP_MS
    ensures var st := RunActions([DoTick(o1), DoTick(o2)]); st.pairs == [Fresh(o1[2], q)] && st.slots[0] == p
  {
    var actions := [DoTick(o1), DoTick(o2)];
    assert actions[..1] == [DoTick(o1)] && [DoTick(o1)][..0] == [];
    RunSnoc(actions);
    RunSnoc([DoTick(o1)]);
    assert RunActions([]) == Start();
    hide RunActions, Tick, FromScan, Fresh;
    BothAppear(o1, t1, p, q);
    OnlyBStays(RunActions([DoTick(o1)]), o2, o1[1], o1[2], t2, p, q, p, q);
  }

  // ---- the simulator is told a diversion no frame shows -----------------------------

  /** Two sightings of a pair, a warning both times, the first without a simulator side. */
  ghost predicate LateSim(g: Sighting, h: Sighting) {
    && g.key == h.key == PAIR_B && g.level == h.level == Warning
    && g.sim.None? && h.sim.Some? && h.now >= 0
  }

  lemma LateScan(first: Env, second: Env, t2: int)
    requires first.geo.Sound() && (forall n, icao :: !first.IsSim(n, icao)) && Moment(second, t2) && t2 >= 0
    ensures var g, h := Observe(SOUTHERN, SIM, first, 0), Observe(SOUTHERN, SIM, second, 0);
            ScanOf([SOUTHERN, SIM], first) == [g] && ScanOf([SOUTHERN, SIM], second) == [h] && LateSim(g, h) && h.now == t2
  {
    hide PairLevel, ClosestApproach, Env.Pick, Env.Now, Env.IsSim, Geo.Sound, ScanOf;
    SouthernLevel(first.geo);
    SouthernLevel(second.geo);
    ScanTwo(SOUTHERN, SIM, first);
    ScanTwo(SOUTHERN, SIM, second);
    assert StrLe("b", "s");
    assert second.Now(0) == t2 && second.IsSim(0, "s") && !second.IsSim(0, "b");
    assert !first.IsSim(0, "s") && !first.IsSim(0, "b");
  }

  /** After the first the pair is tracked without a diversion, and no frame was sent. */
  lemma BornAlone(g: Sighting, h: Sighting)
    requires LateSim(g, h)
    ensures EntryOf(Tick(Start(), [g]).pairs, PAIR_B) == Some(Born(g))
    ensures FromScan([g]) && FromScan([h]) && Hit([h], PAIR_B) == Some(h)
    ensures !Locked(Born(g), h.now) && Born(g).diversion == None
    ensures SendDue(Born(g), h, false) <==> h.now > BLE_GAP_MS
  {
    hide Tick, FromScan, Hit, Newcomers, TableInv;
    assert StrLe("b", "s");
    OneSighting(g);
    OneSighting(h);
    NothingTracked();
    TickEntry(Start(), [g], PAIR_B);
  }

  /** Two snapshots of one warning pair, more than three seconds into the run; by the second one of the
      two reports as the simulator. It is told the diversion left in the pair's slot, and the JSON frame
      shows none: in the detector as it is, and with both arrays shifted. */
  lemma LateSimulator(first: Env, second: Env, t2: int)
    requires first.geo.Sound() && (forall n, icao :: !first.IsSim(n, icao)) && Moment(second, t2) && t2 > BLE_GAP_MS
    ensures var ticks := [ScanOf([SOUTHERN, SIM], first), ScanOf([SOUTHERN, SIM], second)];
            && !OneVoice(RunActions([DoTick(ticks[0]), DoTick(ticks[1])]).log, PAIR_B)
            && !OneVoice(RunBoth(ticks).log, PAIR_B)
  {
    hide ScanOf, Moment, Env.IsSim, RunActions, RunBoth, Tick, OneVoice, Observe, Geo.Sound, LateSim;
    LateScan(first, second, t2);
    LateTicks(Observe(SOUTHERN, SIM, first, 0), Observe(SOUTHERN, SIM, second, 0));
  }

  lemma LateTicks(g: Sighting, h: Sighting)
    requires LateSim(g, h) && h.now > BLE_GAP_MS
    ensures !OneVoice(RunActions([DoTick([g]), DoTick([h])]).log, PAIR_B)
    ensures !OneVoice(RunBoth([[g], [h]]).log, PAIR_B)
  {
    hide RunActions, RunBoth, Tick, OneVoice, Landed, TableInv, FromScan, Hit, EntryOf, Locked, SendDue, LateSim, Born, Undropped, Lately;
    var actions, ticks := [DoTick([g]), DoTick([h])], [[g], [h]];
    BornAlone(g, h);
    FirstTick([g]);
    assert actions[..1] == [DoTick([g])] && ticks[..1] == [[g]];
    assert actions[1].obs == [h];
    RunVoice(actions, PAIR_B);
    TicksOnly(actions, PAIR_B);
    SinceStart(actions, PAIR_B);
    RunBothVoice(ticks, PAIR_B);
    assert MisspeaksAt(actions, 1, PAIR_B);
    NotSpoken(actions, 1, PAIR_B);
    assert OrphanAt(ticks, 1, PAIR_B);
  }

  lemma FirstTick(obs: seq<Sighting>)
    requires FromScan(obs)
    ensures RunActions([DoTick(obs)]).pairs == Tick(Start(), obs).pairs == RunBoth([obs]).pairs
  {
    hide Tick, FromScan, TableInv, Coherent;
    assert [obs][..0] == [] && [DoTick(obs)][..0] == [];
    RunSnoc([DoTick(obs)]);
    RunBothCoherent([obs]);
    assert RunActions([]) == Start() == RunBoth([]);
  }

  /** The same two snapshots in the first three seconds of uptime. The second tick processes the pair,
      unlocked and with a simulator side, and sends it nothing: the time stamp it never set counts as a
      send at zero. */
  lemma SilentSimulator(first: Env, second: Env, t2: int)
    requires first.geo.Sound() && (forall n, icao :: !first.IsSim(n, icao)) && Moment(second, t2) && 0 <= t2 <= BLE_GAP_MS
    ensures var actions := [DoTick(ScanOf([SOUTHERN, SIM], first)), DoTick(ScanOf([SOUTHERN, SIM], second))];
            var h, e := Hit(actions[1].obs, PAIR_B), EntryOf(RunActions(actions[..1]).pairs, PAIR_B);
            && h.Some? && h.value.sim.Some? && h.value.now == t2 && e.Some? && !Locked(e.value, t2)
            && LastSend(RunActions(actions).log, PAIR_B) == None
  {
    hide *;
    LateScan(first, second, t2);
    SilentTicks(Observe(SOUTHERN, SIM, first, 0), Observe(SOUTHERN, SIM, second, 0));
  }

  lemma SilentTicks(g: Sighting, h: Sighting)
    requires LateSim(g, h) && h.now <= BLE_GAP_MS
    ensures var actions := [DoTick([g]), DoTick([h])];
            var e := EntryOf(RunActions(actions[..1]).pairs, PAIR_B);
            && Hit(actions[1].obs, PAIR_B) == Some(h) && h.sim.Some? && e.Some? && !Locked(e.value, h.now)
            && LastSend(RunActions(actions).log, PAIR_B) == None
  {
    hide RunActions, Tick, TableInv, FromScan, Hit, EntryOf, Locked, SendDue, Born, LastSend, Throttle;
    var actions := [DoTick([g]), DoTick([h])];
    assert actions[..1] == [DoTick([g])] && actions[1].obs == [h];
    BornAlone(g, h);
    FirstTick([g]);
    var st := RunActions([DoTick([g])]);
    RunKeepsTable([DoTick([g])]);
    FirstSilent(g);
    assert st.log[0..] == st.log && Tick(st, [h]).log[0..] == Tick(st, [h]).log;
    TickThrottle(st, [h], PAIR_B, 0);
    RunSnoc(actions);
  }

  lemma FirstSilent(g: Sighting)
    requires g.key == PAIR_B && g.level == Warning && g.sim.None?
    ensures var st := RunActions([DoTick([g])]); Throttle(st.pairs, st.log, PAIR_B) && LastSend(st.log, PAIR_B) == None
  {
    assert RunActions([]) == Start();
    hide Tick, TableInv, FromScan, Hit, EntryOf, Locked, SendDue, Born, Throttle, RunActions;
    assert StrLe("b", "s");
    OneSighting(g);
    NothingTracked();
    NothingThrottled();
    assert [DoTick([g])][..0] == [];
    RunSnoc([DoTick([g])]);
    TickThrottle(Start(), [g], PAIR_B, 0);
    assert Start().log[0..] == Start().log && Tick(Start(), [g]).log[0..] == Tick(Start(), [g]).log;
  }

  lemma NothingThrottled()
    ensures Throttle(Start().pairs, Start().log[0..], PAIR_B) && LastSend(Start().log[0..], PAIR_B) == None
  {
  }
}

/** What the detector sees of the aircraft table, and the two run together: the table's distinct
    identifiers are what makes every tick scan distinct pairs. */
module Snapshot {
  import opened Basics
  import opened AircraftDbSpec
  import opened AircraftDbRuns
  import opened Approach
  import opened Kinematics
  import opened KalmanSpec
  import opened KalmanNumbers
  import K = KalmanSpec
  import Algebra
  import opened TrackerSpec
  import opened TrackerRuns
  import opened Encounters
  import opened Detector

  /** Metres per second north and east, and whether they are known: the reported speed and heading
      if both are there, else the filter's velocity from its second update on. */
  function Velocity(row: Row, sky: Sky): (real, real, bool) {
    if row.ac.velValid && row.ac.hdgValid then
      var speed := row.ac.velKt * KT_TO_MPS;
      (speed * sky.trig.Cos(row.ac.hdgDeg), speed * sky.trig.Sin(row.ac.hdgDeg), true)
    else if row.kf.initialised && row.kf.updates >= 2 then
      (Metres(row.kf.x[2], DEG_PER_M_LAT), Metres(row.kf.x[3], DegPerMLon(sky.scale, row.ac.lat)), true)
    else (0.0, 0.0, false)
  }

  function SnapOf(row: Row, sky: Sky): SnapRow {
    var (north, east, known) := Velocity(row, sky);
    SnapRow(row.ac.icao, row.ac.lat, row.ac.lon, north, east,
            if row.ac.altValid then row.ac.altFt else 0, known, row.ac.altValid)
  }

  /** The snapshot velocity, where neither speed nor heading is missing, is that speed along that heading;
      else, from the filter's second update on, the one its own prediction moves by, whatever the time
      ahead. Longitude goes by the scale at the reported latitude. Otherwise it is unknown. */
  lemma VelocityMeans(row: Row, dt: real, q: real, sky: Sky)
    ensures var snap, reported, filtered := SnapOf(row, sky), row.ac.velValid && row.ac.hdgValid, row.kf.initialised && row.kf.updates >= 2;
            && snap.icao == row.ac.icao && snap.lat == row.ac.lat && snap.lon == row.ac.lon
            && snap.altValid == row.ac.altValid && snap.altFt == (if row.ac.altValid then row.ac.altFt else 0)
            && (snap.vValid <==> reported || filtered) && (!snap.vValid ==> snap.vNorth == snap.vEast == 0.0)
            && (reported ==> snap.vNorth == (row.ac.velKt * 0.514444) * sky.trig.Cos(row.ac.hdgDeg)
                             && snap.vEast == (row.ac.velKt * 0.514444) * sky.trig.Sin(row.ac.hdgDeg))
            && (!reported && filtered ==>
                  var s := PredictState(row.kf, dt, q, sky.scale);
                  s.x[0] == FlownTo(row.kf.x[0], snap.vNorth, 1.0 / 111000.0, dt)
                  && s.x[1] == FlownTo(row.kf.x[1], snap.vEast, sky.scale(row.ac.lat), dt))
  {
    FilterFlies(row, dt, q, sky);
    hide PredictState, Trig.Cos, Trig.Sin, FlownTo, Metres, DegPerMLon;
  }

  /** A coordinate after dt at v metres a second, at k degrees a metre. */
  function FlownTo(x: real, v: real, k: real, dt: real): real { x + (v * k) * dt }

  lemma FilterFlies(row: Row, dt: real, q: real, sky: Sky)
    ensures row.kf.initialised ==>
              var s := PredictState(row.kf, dt, q, sky.scale);
              s.x[0] == FlownTo(row.kf.x[0], Metres(row.kf.x[2], DEG_PER_M_LAT), 1.0 / 111000.0, dt)
              && s.x[1] == FlownTo(row.kf.x[1], Metres(row.kf.x[3], DegPerMLon(sky.scale, row.ac.lat)), sky.scale(row.ac.lat), dt)
  {
    hide PredictState, Metres, K.Step, FlownTo, DegPerMLon;
    if row.kf.initialised {
      PredictSteps(row.kf, dt, q, sky.scale);
      FlownBack(row.kf.x[0], row.kf.x[2], DEG_PER_M_LAT, 1.0 / 111000.0, dt);
      FlownBack(row.kf.x[1], row.kf.x[3], DegPerMLon(sky.scale, row.ac.lat), sky.scale(row.ac.lat), dt);
      SameScales(sky.scale, row.ac.lat);
    }
  }

  lemma SameScales(scale: LonScale, lat: real)
    ensures DEG_PER_M_LAT == 1.0 / 111000.0 && DegPerMLon(scale, lat) == scale(lat)
  {
  }

  lemma FlownBack(x: real, v: real, k: real, k2: real, dt: real)
    requires k != 0.0
    ensures k2 == k ==> FlownTo(x, Metres(v, k), k2, dt) == K.Step(x, v, dt)
  {
    Algebra.Quotient(v, k);
  }

  function SnapRows(rows: seq<Row>, sky: Sky): (snap: seq<SnapRow>)
    ensures |snap| == |rows|
    ensures forall i :: 0 <= i < |rows| ==> snap[i] == SnapOf(rows[i], sky)
  {
    if rows == [] then [] else SnapRows(rows[..|rows| - 1], sky) + [SnapOf(rows[|rows| - 1], sky)]
  }

  /** The snapshot buffer holds as many rows as the table can, so a well-formed table fits. */
  method TakeSnapshot(db: Db, sky: Sky) returns (snap: seq<SnapRow>)
    requires WellFormed(db)
    ensures snap == SnapRows(db.rows, sky) && DistinctRows(snap)
  {
    hide SnapOf;
    snap := [];
    var i := 0;
    while i < |db.rows| && |snap| < MAX_ENTRIES
      invariant i <= |db.rows| && snap == SnapRows(db.rows[..i], sky)
    {
      assert db.rows[..i + 1][..i] == db.rows[..i];
      snap := snap + [SnapOf(db.rows[i], sky)];
      i := i + 1;
    }
    assert db.rows[..i] == db.rows;
    SnapDistinct(db.rows, sky);
  }

  lemma SnapDistinct(rows: seq<Row>, sky: Sky)
    requires DistinctKeys(rows)
    ensures DistinctRows(SnapRows(rows, sky))
  {
    hide Velocity;
  }

  // ---- the table and the detector together -------------------------------------------

  /** A step of the whole: the table changes, or the detector ticks on what the table holds, or one
      of the detector's other entry points runs. */
  datatype SystemStep =
    | TableStep(step: DbStep)
    | DetectorTick(env: Env)
    | OtherAction(action: Action)

  function TableSteps(steps: seq<SystemStep>): seq<DbStep> {
    if steps == [] then []
    else
      var before, s := TableSteps(steps[..|steps| - 1]), steps[|steps| - 1];
      if s.TableStep? then before + [s.step] else before
  }

  function DetectorActions(steps: seq<SystemStep>, sky: Sky): seq<Action> {
    if steps == [] then []
    else
      var init, s := steps[..|steps| - 1], steps[|steps| - 1];
      match s
      case TableStep(_) => DetectorActions(init, sky)
      case DetectorTick(env) =>
        var db := RunDb(TableSteps(init), sky.scale);
        DetectorActions(init, sky) + [DoTick(ScanOf(SnapRows(db.rows, sky), env))]
      case OtherAction(a) => if a.DoTick? then DetectorActions(init, sky) else DetectorActions(init, sky) + [a]
  }

  /** However upserts, reaper passes, clears and ticks interleave, every tick of the detector scans
      distinct aircraft; the run properties proved for such ticks hold of the whole system. */
  lemma {:induction false} SystemScans(steps: seq<SystemStep>, sky: Sky)
    ensures FromScans(DetectorActions(steps, sky))
  {
    hide SnapRows, ScanOf, FromScan, WellFormed;
    if steps != [] {
      var init, s := steps[..|steps| - 1], steps[|steps| - 1];
      SystemScans(init, sky);
      if s.DetectorTick? {
        var db := RunDb(TableSteps(init), sky.scale);
        TickScan(TableSteps(init), s.env, sky);
      }
    }
  }

  lemma TickScan(steps: seq<DbStep>, env: Env, sky: Sky)
    ensures FromScan(ScanOf(SnapRows(RunDb(steps, sky.scale).rows, sky), env))
  {
    hide SnapRows, ScanOf, FromScan, DistinctRows;
    RunWellFormed(steps, sky.scale);
    SnapDistinct(RunDb(steps, sky.scale).rows, sky);
    ScanIsFromScan(SnapRows(RunDb(steps, sky.scale).rows, sky), env);
  }

  /** The frame protocol for the whole system: each pair's frames form a prefix of
      (non-CLEAR+ CLEAR)*, and a tracked pair's encounter is open. The open encounters are exactly the
      tracked pairs and those a ghost start dropped or a manual trigger reported and that have not been
      tracked since; so exactly the tracked pairs, where neither ever happened. */
  lemma SystemProtocol(steps: seq<SystemStep>, sky: Sky, key: Key)
    ensures var actions := DetectorActions(steps, sky);
            var st := RunActions(actions);
            && TableInv(st.pairs) && Protocol(st.pairs, st.log, key, false)
            && (OpenAfter(st.log, key)
                <==> Tracked(st.pairs, key) || exists n: nat | n < |actions| :: Orphaned(actions, n, key))
            && (Undropped(actions, key) && Untriggered(actions, key) ==> Protocol(st.pairs, st.log, key, true))
  {
    hide RunActions, Protocol, FromScans, TableInv, Undropped, Untriggered, Orphaned, OpenAfter, Tracked;
    SystemScans(steps, sky);
    RunProtocol(DetectorActions(steps, sky), key);
    RunOpen(DetectorActions(steps, sky), key);
    RunKeepsTable(DetectorActions(steps, sky));
  }
}

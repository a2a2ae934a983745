/** Any run of table operations from an empty table: upserts, reaper passes and clears. */
module AircraftDbRuns {
  import opened Basics
  import opened KalmanSpec
  import opened KalmanRuns
  import opened KalmanNumbers
  import opened AircraftDbSpec
  import K = Kinematics

  datatype DbStep =
    | DoUpsert(src: Aircraft, now: int, tuning: Tuning)
    | DoReap(now: int)
    | DoClear

  const EMPTY := Db([], NO_STATS)

  function DoStep(db: Db, s: DbStep, scale: LonScale): Db {
    match s
    case DoUpsert(src, now, t) => Upsert(db, src, now, t, scale).0
    case DoReap(now) => Reap(db, now)
    case DoClear => EMPTY
  }

  function RunDb(steps: seq<DbStep>, scale: LonScale): Db {
    if steps == [] then EMPTY
    else DoStep(RunDb(steps[..|steps| - 1], scale), steps[|steps| - 1], scale)
  }

  /** The table stays well formed over every run; in particular inserts - staleEvicts always
      equals the number of rows since the last clear. */
  lemma {:induction false} RunWellFormed(steps: seq<DbStep>, scale: LonScale)
    ensures WellFormed(RunDb(steps, scale))
  {
    hide WellFormed, Upsert, Reap;
    if steps == [] {
      EmptyWellFormed();
    } else {
      var db := RunDb(steps[..|steps| - 1], scale);
      RunWellFormed(steps[..|steps| - 1], scale);
      match steps[|steps| - 1] {
        case DoUpsert(src, now, t) => UpsertIsMapUpdate(db, src, now, t, scale);
        case DoReap(now) => ReapKeepsLive(db, now);
        case DoClear => EmptyWellFormed();
      }
    }
  }

  lemma EmptyWellFormed()
    ensures WellFormed(EMPTY)
  {
  }

  // ---- every row's filter is a run of the filter ------------------------------------

  /** The measurements a row has fused since it was inserted. */
  datatype Track = Track(lat: real, lon: real, ops: seq<Op>) {
    function Filter(scale: LonScale): KState { Run(InitState(lat, lon), ops, scale) }

    /** Successful upserts since insertion: each contributes exactly one measurement. */
    function Upserts(): nat { Updates(ops) }
  }

  function Track1(src: Aircraft, t: Tuning): Track {
    Track(src.lat, src.lon, [Op.Update(src.lat, src.lon, t.r)])
  }

  function TrackNext(k: Track, lastSeen: int, src: Aircraft, now: int, t: Tuning): Track {
    k.(ops := k.ops + [Op.Predict(Elapsed(lastSeen, now), t.q)] + [Op.Update(src.lat, src.lon, t.r)])
  }

  /** Rows paired with their measurement histories, as the run builds them. */
  function RunTracks(steps: seq<DbStep>, scale: LonScale): seq<Track>
  {
    if steps == [] then []
    else
      var prior := steps[..|steps| - 1];
      var db, tracks := RunDb(prior, scale), RunTracks(prior, scale);
      match steps[|steps| - 1]
      case DoUpsert(src, now, t) =>
        var k := Find(db.rows, src.icao);
        if src.icao == "" || |tracks| != |db.rows| then tracks
        else if k >= 0 then tracks[k := TrackNext(tracks[k], db.rows[k].lastSeen, src, now, t)]
        else if |db.rows| >= MAX_ENTRIES then tracks
        else tracks + [Track1(src, t)]
      case DoReap(now) => KeepTracks(db.rows, tracks, now)
      case DoClear => []
  }

  function KeepTracks(rows: seq<Row>, tracks: seq<Track>, now: int): seq<Track> {
    if rows == [] || |tracks| != |rows| then []
    else
      var last := |rows| - 1;
      KeepTracks(rows[..last], tracks[..last], now) + if Live(rows[last], now) then [tracks[last]] else []
  }

  /** The row's filter is the run of its track, and the row publishes a prediction exactly when
      its (32-bit) measurement count has reached three: the position the filter itself would
      predict at the horizon. */
  ghost predicate Faithful(row: Row, k: Track, scale: LonScale) {
    && row.kf == k.Filter(scale)
    && row.kf.updates == Add32(0, k.Upserts())
    && (row.ac.predValid <==> row.kf.updates >= PRED_MIN_UPDATES)
    && (row.ac.predValid ==> (row.ac.predLat, row.ac.predLon) == PredictAhead(row.kf, PRED_HORIZON_S))
  }

  ghost predicate AllFaithful(rows: seq<Row>, tracks: seq<Track>, scale: LonScale) {
    && |tracks| == |rows|
    && forall i :: 0 <= i < |rows| ==> Faithful(rows[i], tracks[i], scale)
  }

  /** No producer sets the prediction flag itself. */
  ghost predicate Unpredicted(steps: seq<DbStep>) {
    forall s :: s in steps && s.DoUpsert? ==> !s.src.predValid
  }

  lemma FirstFaithful(src: Aircraft, now: int, t: Tuning, scale: LonScale)
    requires !src.predValid
    ensures Faithful(FirstRow(src, now, t, scale), Track1(src, t), scale)
  {
    hide InitState, UpdateState, PredictAhead, LatVar, LonVar;
    var op, k := Op.Update(src.lat, src.lon, t.r), Track1(src, t);
    assert [op] == [] + [op];
    RunAppend(InitState(src.lat, src.lon), [], op, scale);
    CovarianceSound(src.lat, src.lon, [op], t.r, scale);
  }

  lemma NextFaithful(row: Row, k: Track, src: Aircraft, now: int, t: Tuning, scale: LonScale)
    requires Faithful(row, k, scale) && !src.predValid
    ensures Faithful(NextRow(row, src, now, t, scale), TrackNext(k, row.lastSeen, src, now, t), scale)
  {
    hide InitState, UpdateState, PredictState, PredictAhead, Elapsed;
    var p, u := Op.Predict(Elapsed(row.lastSeen, now), t.q), Op.Update(src.lat, src.lon, t.r);
    RunAppend(InitState(k.lat, k.lon), k.ops, p, scale);
    RunAppend(InitState(k.lat, k.lon), k.ops + [p], u, scale);
    CovarianceSound(k.lat, k.lon, k.ops + [p] + [u], t.r, scale);
  }

  lemma {:induction false} KeepFaithful(rows: seq<Row>, tracks: seq<Track>, now: int, scale: LonScale)
    requires AllFaithful(rows, tracks, scale)
    ensures AllFaithful(Keep(rows, now), KeepTracks(rows, tracks, now), scale)
  {
    hide Faithful, Live;
    if rows != [] {
      var last := |rows| - 1;
      KeepFaithful(rows[..last], tracks[..last], now, scale);
    }
  }

  /** Over every run, every row's filter has seen exactly the upserts since its insertion. Hence
      it is a healthy filter, no update was skipped, and the prediction is published exactly
      from the third upsert on (until the 32-bit count wraps). */
  lemma {:induction false} RunFaithful(steps: seq<DbStep>, scale: LonScale)
    requires Unpredicted(steps)
    ensures AllFaithful(RunDb(steps, scale).rows, RunTracks(steps, scale), scale)
  {
    hide Faithful, FirstRow, NextRow, Keep, KeepTracks;
    if steps != [] {
      var prior := steps[..|steps| - 1];
      RunFaithful(prior, scale);
      var db, tracks := RunDb(prior, scale), RunTracks(prior, scale);
      match steps[|steps| - 1] {
        case DoUpsert(src, now, t) =>
          assert steps[|steps| - 1] in steps;
          var k := Find(db.rows, src.icao);
          if k >= 0 {
            NextFaithful(db.rows[k], tracks[k], src, now, t, scale);
          } else {
            FirstFaithful(src, now, t, scale);
          }
        case DoReap(now) => KeepFaithful(db.rows, tracks, now, scale);
        case DoClear =>
      }
    }
  }

  /** So each row in any run holds a healthy filter, whatever noise the next fix carries. */
  lemma RunHealthy(steps: seq<DbStep>, r: Positive, scale: LonScale)
    requires Unpredicted(steps)
    ensures |RunTracks(steps, scale)| == |RunDb(steps, scale).rows|
    ensures forall i :: 0 <= i < |RunDb(steps, scale).rows| ==>
              var row := RunDb(steps, scale).rows[i];
              && Healthy(row.kf, r, scale)
              && (row.ac.predValid <==> Add32(0, RunTracks(steps, scale)[i].Upserts()) >= PRED_MIN_UPDATES)
  {
    hide Healthy, Run, InitState, RunDb, RunTracks;
    RunFaithful(steps, scale);
    forall i | 0 <= i < |RunDb(steps, scale).rows|
      ensures Healthy(RunDb(steps, scale).rows[i].kf, r, scale)
    {
      var k := RunTracks(steps, scale)[i];
      CovarianceSound(k.lat, k.lon, k.ops, r, scale);
    }
  }

  // ---- staleness --------------------------------------------------------------------

  /** Uptime of the last timed step, and of the last reaper pass; both start at boot. */
  function Clock(steps: seq<DbStep>): int {
    if steps == [] then 0
    else
      match steps[|steps| - 1]
      case DoUpsert(_, now, _) => now
      case DoReap(now) => now
      case DoClear => Clock(steps[..|steps| - 1])
  }

  function LastReap(steps: seq<DbStep>): int {
    if steps == [] then 0
    else if steps[|steps| - 1].DoReap? then steps[|steps| - 1].now
    else LastReap(steps[..|steps| - 1])
  }

  /** Time never runs backwards and the reaper is never more than its tick late. */
  ghost predicate Timely(steps: seq<DbStep>) {
    steps == [] ||
    var prior, s := steps[..|steps| - 1], steps[|steps| - 1];
    Timely(prior) && (s.DoClear? || Clock(prior) <= s.now <= LastReap(prior) + REAPER_TICK_MS)
  }

  lemma {:induction false} SeenSinceReap(steps: seq<DbStep>, scale: LonScale)
    requires Timely(steps)
    ensures LastReap(steps) <= Clock(steps)
    ensures forall row :: row in RunDb(steps, scale).rows ==> LastReap(steps) - row.lastSeen <= STALE_MS
  {
    hide FirstRow, NextRow;
    if steps != [] {
      var prior, s := steps[..|steps| - 1], steps[|steps| - 1];
      SeenSinceReap(prior, scale);
      if s.DoReap? {
        KeepLive(RunDb(prior, scale).rows, s.now);
      }
    }
  }

  /** Step i is an upsert of the key that the table took. */
  ghost predicate Accepts(steps: seq<DbStep>, i: int, key: Icao, scale: LonScale) {
    && 0 <= i < |steps| && steps[i].DoUpsert? && steps[i].src.icao == key
    && var rc := Upsert(RunDb(steps[..i], scale), steps[i].src, steps[i].now, steps[i].tuning, scale).1;
       rc == Inserted || rc == Updated
  }

  /** It is the key's last, and since then there was no clear and no reaper pass over 10 s later. */
  ghost predicate Survives(steps: seq<DbStep>, i: int, key: Icao, scale: LonScale) {
    && Accepts(steps, i, key, scale)
    && forall j :: i < j < |steps| ==>
         && !steps[j].DoClear? && !Accepts(steps, j, key, scale)
         && (steps[j].DoReap? ==> steps[j].now - steps[i].now <= STALE_MS)
  }

  /** Over every run, timely or not: a key is in the table exactly when an accepted upsert of it
      survives, and its row bears that upsert's time. */
  lemma PresentExactly(steps: seq<DbStep>, key: Icao, scale: LonScale)
    ensures key in AsMap(RunDb(steps, scale).rows) <==> exists i :: Survives(steps, i, key, scale)
    ensures forall i :: Survives(steps, i, key, scale) ==> BearsTime(steps, i, key, scale)
  {
    hide AsMap, RunDb, Survives;
    forall i | Survives(steps, i, key, scale)
      ensures BearsTime(steps, i, key, scale)
    {
      SurvivorPresent(steps, i, key, scale);
    }
    if key in AsMap(RunDb(steps, scale).rows) {
      var i := FindSurvivor(steps, key, scale);
    }
  }

  ghost predicate BearsTime(steps: seq<DbStep>, i: int, key: Icao, scale: LonScale) {
    var m := AsMap(RunDb(steps, scale).rows);
    key in m && 0 <= i < |steps| && steps[i].DoUpsert? && m[key].lastSeen == steps[i].now
  }

  lemma {:induction false} SurvivorPresent(steps: seq<DbStep>, i: int, key: Icao, scale: LonScale)
    requires Survives(steps, i, key, scale)
    ensures BearsTime(steps, i, key, scale)
  {
    var m := |steps| - 1;
    PresentStep(steps, key, scale);
    AcceptsUpsert(steps, i, key, scale);
    if i < m {
      SurvivesStep(steps, i, key, scale);
      hide AsMap, RunDb, Survives, Accepts;
      SurvivorPresent(steps[..m], i, key, scale);
    }
  }

  lemma AcceptsUpsert(steps: seq<DbStep>, i: int, key: Icao, scale: LonScale)
    requires Survives(steps, i, key, scale)
    ensures 0 <= i < |steps| && steps[i].DoUpsert? && Accepts(steps, i, key, scale)
  {
  }

  lemma {:induction false} FindSurvivor(steps: seq<DbStep>, key: Icao, scale: LonScale) returns (i: int)
    requires key in AsMap(RunDb(steps, scale).rows)
    ensures Survives(steps, i, key, scale)
  {
    hide AsMap, RunDb, Survives, Accepts;
    if steps == [] {
      NothingYet(scale);
      assert false;
    } else {
      i := |steps| - 1;
      PresentStep(steps, key, scale);
      LastSurvives(steps, key, scale);
      if !Accepts(steps, i, key, scale) {
        i := FindSurvivor(steps[..i], key, scale);
        AcceptsUpsert(steps[..|steps| - 1], i, key, scale);
        SurvivorPresent(steps[..|steps| - 1], i, key, scale);
        SurvivesStep(steps, i, key, scale);
      }
    }
  }

  lemma NothingYet(scale: LonScale)
    ensures AsMap(RunDb([], scale).rows) == map[] && AsMap(EMPTY.rows) == map[]
  {
  }

  /** The last step leaves the survivor i of the steps before it alone. */
  ghost predicate Spares(steps: seq<DbStep>, i: int, key: Icao, scale: LonScale)
    requires 0 <= i < |steps|
  {
    var m := |steps| - 1;
    && !steps[m].DoClear? && !Accepts(steps, m, key, scale)
    && (steps[m].DoReap? && steps[i].DoUpsert? ==> steps[m].now - steps[i].now <= STALE_MS)
  }

  lemma AcceptsPrior(steps: seq<DbStep>, i: int, key: Icao, scale: LonScale)
    requires 0 <= i < |steps| - 1
    ensures Accepts(steps[..|steps| - 1], i, key, scale) == Accepts(steps, i, key, scale)
  {
    assert steps[..|steps| - 1][..i] == steps[..i];
  }

  lemma SurvivesStep(steps: seq<DbStep>, i: int, key: Icao, scale: LonScale)
    requires 0 <= i < |steps| - 1
    ensures Survives(steps, i, key, scale) <==> Survives(steps[..|steps| - 1], i, key, scale) && Spares(steps, i, key, scale)
  {
    hide Accepts;
    var prior, m := steps[..|steps| - 1], |steps| - 1;
    forall j | 0 <= j < m
      ensures Accepts(prior, j, key, scale) == Accepts(steps, j, key, scale) && prior[j] == steps[j]
    {
      AcceptsPrior(steps, j, key, scale);
    }
    IsUpsert(steps, i, key, scale);
  }

  lemma IsUpsert(steps: seq<DbStep>, i: int, key: Icao, scale: LonScale)
    ensures Accepts(steps, i, key, scale) ==> 0 <= i < |steps| && steps[i].DoUpsert?
  {
  }

  lemma LastSurvives(steps: seq<DbStep>, key: Icao, scale: LonScale)
    requires steps != []
    ensures Survives(steps, |steps| - 1, key, scale) <==> Accepts(steps, |steps| - 1, key, scale)
  {
    hide Accepts;
  }

  /** What one step does to the key. */
  lemma PresentStep(steps: seq<DbStep>, key: Icao, scale: LonScale)
    requires steps != []
    ensures var m := |steps| - 1;
            var was, rows := AsMap(RunDb(steps[..m], scale).rows), AsMap(RunDb(steps, scale).rows);
            if Accepts(steps, m, key, scale) then key in rows && rows[key].lastSeen == steps[m].now
            else if steps[m].DoClear? then key !in rows
            else if steps[m].DoReap? then
              && (key in rows <==> key in was && steps[m].now - was[key].lastSeen <= STALE_MS)
              && (key in rows ==> rows[key] == was[key])
            else (key in rows <==> key in was) && (key in rows ==> rows[key] == was[key])
  {
    hide Upsert, Reap, WellFormed, AsMap, FirstRow, NextRow;
    var m := |steps| - 1;
    var db := RunDb(steps[..m], scale);
    RunWellFormed(steps[..m], scale);
    match steps[m] {
      case DoUpsert(src, now, t) => UpsertIsMapUpdate(db, src, now, t, scale);
      case DoReap(now) => ReapKeepsLive(db, now);
      case DoClear => NothingYet(scale);
    }
  }

  lemma {:induction false} TimesOrdered(steps: seq<DbStep>, i: int)
    requires Timely(steps) && 0 <= i < |steps| && !steps[i].DoClear?
    ensures steps[i].now <= Clock(steps)
  {
    var prior := steps[..|steps| - 1];
    if i < |steps| - 1 {
      TimesOrdered(prior, i);
    }
  }

  /** At any moment before the next reaper pass is overdue, a key in the table was upserted, and the
      upsert accepted, within the last 12 seconds; and one so upserted within the last 10 seconds and
      not cleared since is in the table. */
  lemma StaleBound(steps: seq<DbStep>, now: int, scale: LonScale)
    requires Timely(steps) && Clock(steps) <= now <= LastReap(steps) + REAPER_TICK_MS
    ensures forall row :: row in RunDb(steps, scale).rows ==>
              exists i :: Accepts(steps, i, row.ac.icao, scale) && row.lastSeen == steps[i].now
                          && now - steps[i].now <= STALE_MS + REAPER_TICK_MS
    ensures forall i, key :: Accepts(steps, i, key, scale) && now - steps[i].now <= STALE_MS
                             && (forall j :: i < j < |steps| ==> !steps[j].DoClear?)
                             ==> key in AsMap(RunDb(steps, scale).rows)
  {
    hide Upsert, Reap, WellFormed, AsMap, Survives, RunDb, Timely, Clock, LastReap;
    SeenSinceReap(steps, scale);
    forall row | row in RunDb(steps, scale).rows
      ensures exists i :: Accepts(steps, i, row.ac.icao, scale) && row.lastSeen == steps[i].now
                          && now - steps[i].now <= STALE_MS + REAPER_TICK_MS
    {
      RowUpserted(steps, row, scale);
    }
    forall i, key | Accepts(steps, i, key, scale) && now - steps[i].now <= STALE_MS
                    && (forall j :: i < j < |steps| ==> !steps[j].DoClear?)
      ensures key in AsMap(RunDb(steps, scale).rows)
    {
      FreshStays(steps, i, key, now, scale);
    }
  }

  lemma RowUpserted(steps: seq<DbStep>, row: Row, scale: LonScale)
    requires row in RunDb(steps, scale).rows
    ensures exists i :: Accepts(steps, i, row.ac.icao, scale) && row.lastSeen == steps[i].now
  {
    hide Upsert, Reap, AsMap, Accepts, RunDb;
    var rows, key := RunDb(steps, scale).rows, row.ac.icao;
    RunWellFormed(steps, scale);
    AsMapRows(rows);
    var k :| 0 <= k < |rows| && rows[k] == row;
    PresentExactly(steps, key, scale);
    var i :| Survives(steps, i, key, scale);
    AcceptsUpsert(steps, i, key, scale);
    hide Survives;
  }

  /** The last accepted upsert is no older than this one, so no reaper pass before `now` takes it. */
  lemma FreshStays(steps: seq<DbStep>, i: int, key: Icao, now: int, scale: LonScale)
    requires Timely(steps) && Clock(steps) <= now && Accepts(steps, i, key, scale) && now - steps[i].now <= STALE_MS
    requires forall j :: i < j < |steps| ==> !steps[j].DoClear?
    ensures key in AsMap(RunDb(steps, scale).rows)
  {
    hide Upsert, Reap, AsMap, RunDb;
    var k := LastAccepted(steps, i, |steps|, key, scale);
    InOrder(steps, i, k);
    forall j | k < j < |steps| && steps[j].DoReap?
      ensures steps[j].now <= now
    {
      TimesOrdered(steps, j);
    }
    PresentExactly(steps, key, scale);
    hide Accepts;
    assert Survives(steps, k, key, scale);
  }

  lemma {:induction false} LastAccepted(steps: seq<DbStep>, i: int, n: int, key: Icao, scale: LonScale) returns (k: int)
    requires i < n && Accepts(steps, i, key, scale)
    ensures i <= k < n && Accepts(steps, k, key, scale) && forall j :: k < j < n ==> !Accepts(steps, j, key, scale)
    decreases n - i
  {
    hide Accepts;
    k := n - 1;
    if !Accepts(steps, k, key, scale) {
      k := LastAccepted(steps, i, k, key, scale);
    }
  }

  lemma {:induction false} InOrder(steps: seq<DbStep>, i: int, k: int)
    requires Timely(steps) && 0 <= i <= k < |steps| && !steps[i].DoClear? && !steps[k].DoClear?
    ensures steps[i].now <= steps[k].now
  {
    var prior := steps[..|steps| - 1];
    if k < |steps| - 1 {
      InOrder(prior, i, k);
    } else if i < k {
      TimesOrdered(prior, i);
    }
  }

  // ---- counting a row's measurements by the steps -----------------------------------

  /** Step i puts the key into the table. */
  ghost predicate Inserts(steps: seq<DbStep>, i: int, key: Icao, scale: LonScale) {
    && Accepts(steps, i, key, scale)
    && Upsert(RunDb(steps[..i], scale), steps[i].src, steps[i].now, steps[i].tuning, scale).1 == Inserted
  }

  /** How many upserts of the key the table took from step i on. */
  ghost function Taken(steps: seq<DbStep>, i: nat, key: Icao, scale: LonScale): nat {
    if |steps| <= i then 0
    else
      var m := |steps| - 1;
      Taken(steps[..m], i, key, scale) + if Accepts(steps, m, key, scale) then 1 else 0
  }

  /** The seconds a track has been predicted over. */
  function Predicted(ops: seq<Op>): real {
    if ops == [] then 0.0
    else
      var m := |ops| - 1;
      Predicted(ops[..m]) + if ops[m].Predict? then ops[m].dt else 0.0
  }

  /** The upserts of the key taken from step i on came at later and later times. */
  ghost predicate Increasing(steps: seq<DbStep>, i: int, key: Icao, scale: LonScale) {
    forall j, k :: i <= j < k && Accepts(steps, j, key, scale) && Accepts(steps, k, key, scale) ==> steps[j].now < steps[k].now
  }

  /** Since step i put the key in and until step j last refreshed it, the row's track has fused as many
      measurements as upserts were taken, and been predicted over the time between them. */
  ghost predicate Accounts(steps: seq<DbStep>, i: nat, j: nat, row: Row, k: Track, scale: LonScale) {
    var key := row.ac.icao;
    && Inserts(steps, i, key, scale) && (forall l: nat | l > i :: !Inserts(steps, l, key, scale))
    && i <= j && Accepts(steps, j, key, scale) && row.lastSeen == steps[j].now
    && k.Upserts() == Taken(steps, i, key, scale)
    && (Increasing(steps, i, key, scale) ==> Predicted(k.ops) == K.Seconds(row.lastSeen - steps[i].now))
  }

  ghost predicate Counted(steps: seq<DbStep>, row: Row, k: Track, scale: LonScale) {
    exists i: nat, j: nat :: Accounts(steps, i, j, row, k, scale)
  }

  ghost predicate AllCounted(steps: seq<DbStep>, rows: seq<Row>, tracks: seq<Track>, scale: LonScale) {
    |tracks| == |rows| && forall i :: 0 <= i < |rows| ==> Counted(steps, rows[i], tracks[i], scale)
  }

  lemma InsertsPrior(steps: seq<DbStep>, i: nat, key: Icao, scale: LonScale)
    requires i < |steps| - 1
    ensures Inserts(steps[..|steps| - 1], i, key, scale) == Inserts(steps, i, key, scale)
  {
    assert steps[..|steps| - 1][..i] == steps[..i];
  }

  lemma InsertsRange(steps: seq<DbStep>, i: nat, key: Icao, scale: LonScale)
    ensures Inserts(steps, i, key, scale) ==> i < |steps| && Accepts(steps, i, key, scale)
  {
  }

  /** Steps that do not insert the key leave the account's beginning. */
  lemma StartKept(prior: seq<DbStep>, steps: seq<DbStep>, i: nat, key: Icao, scale: LonScale)
    requires steps != [] && prior == steps[..|steps| - 1]
    requires Inserts(prior, i, key, scale) && !Inserts(steps, |steps| - 1, key, scale)
    requires forall l: nat | l > i :: !Inserts(prior, l, key, scale)
    ensures i < |steps| - 1 && Inserts(steps, i, key, scale) && forall l: nat | l > i :: !Inserts(steps, l, key, scale)
  {
    hide Inserts, Accepts;
    InsertsRange(prior, i, key, scale);
    InsertsPrior(steps, i, key, scale);
    forall l: nat | l > i
      ensures !Inserts(steps, l, key, scale)
    {
      InsertsRange(steps, l, key, scale);
      if l < |steps| - 1 {
        InsertsPrior(steps, l, key, scale);
      }
    }
  }

  lemma IncreasingPrior(steps: seq<DbStep>, i: int, key: Icao, scale: LonScale)
    requires steps != [] && Increasing(steps, i, key, scale) && i >= 0
    ensures Increasing(steps[..|steps| - 1], i, key, scale)
  {
    hide Upsert, RunDb;
    var prior := steps[..|steps| - 1];
    forall j, k | i <= j < k && Accepts(prior, j, key, scale) && Accepts(prior, k, key, scale)
      ensures prior[j].now < prior[k].now
    {
      AcceptsPrior(steps, j, key, scale);
      AcceptsPrior(steps, k, key, scale);
    }
  }

  lemma AcceptsAt(steps: seq<DbStep>, j: int, key: Icao, scale: LonScale)
    requires Accepts(steps, j, key, scale)
    ensures 0 <= j < |steps| && steps[j].DoUpsert?
  {
  }

  /** A step that takes no upsert of the key. */
  lemma CountedStill(steps: seq<DbStep>, row: Row, k: Track, scale: LonScale)
    requires steps != [] && Counted(steps[..|steps| - 1], row, k, scale) && !Accepts(steps, |steps| - 1, row.ac.icao, scale)
    ensures Counted(steps, row, k, scale)
  {
    hide Inserts, Accepts, Track.Upserts, Predicted, Increasing;
    var prior, key := steps[..|steps| - 1], row.ac.icao;
    var i: nat, j: nat :| Accounts(prior, i, j, row, k, scale);
    InsertsRange(steps, |steps| - 1, key, scale);
    StartKept(prior, steps, i, key, scale);
    AcceptsAt(prior, j, key, scale);
    AcceptsPrior(steps, j, key, scale);
    if Increasing(steps, i, key, scale) {
      IncreasingPrior(steps, i, key, scale);
    }
    assert Accounts(steps, i, j, row, k, scale);
  }

  /** A step that refreshes the key. */
  lemma CountedRefreshed(steps: seq<DbStep>, row: Row, k: Track, row': Row, k': Track, scale: LonScale)
    requires steps != [] && Counted(steps[..|steps| - 1], row, k, scale) && row'.ac.icao == row.ac.icao
    requires Accepts(steps, |steps| - 1, row.ac.icao, scale) && !Inserts(steps, |steps| - 1, row.ac.icao, scale)
    requires steps[|steps| - 1].DoUpsert? && row'.lastSeen == steps[|steps| - 1].now && k'.Upserts() == k.Upserts() + 1
    requires Predicted(k'.ops) == Predicted(k.ops) + Elapsed(row.lastSeen, row'.lastSeen)
    ensures Counted(steps, row', k', scale)
  {
    hide Inserts, Accepts, Track.Upserts, Predicted, Increasing;
    var prior, m, key := steps[..|steps| - 1], |steps| - 1, row.ac.icao;
    var i: nat, j: nat :| Accounts(prior, i, j, row, k, scale);
    StartKept(prior, steps, i, key, scale);
    AcceptsAt(prior, j, key, scale);
    AcceptsPrior(steps, j, key, scale);
    if Increasing(steps, i, key, scale) {
      IncreasingPrior(steps, i, key, scale);
      Later(steps, i, j, m, key, scale);
    }
    assert Accounts(steps, i, m, row', k', scale);
  }

  lemma Later(steps: seq<DbStep>, i: int, j: int, k: int, key: Icao, scale: LonScale)
    requires Increasing(steps, i, key, scale) && i <= j < k && Accepts(steps, j, key, scale) && Accepts(steps, k, key, scale)
    ensures 0 <= j < k < |steps| && steps[j].DoUpsert? && steps[k].DoUpsert? && steps[j].now < steps[k].now
  {
    hide Accepts;
    AcceptsAt(steps, j, key, scale);
    AcceptsAt(steps, k, key, scale);
  }

  /** A step that puts the key in. */
  lemma CountedFirst(steps: seq<DbStep>, row: Row, k: Track, scale: LonScale)
    requires steps != [] && Inserts(steps, |steps| - 1, row.ac.icao, scale) && k.Upserts() == 1 && Predicted(k.ops) == 0.0
    requires steps[|steps| - 1].DoUpsert? && row.lastSeen == steps[|steps| - 1].now
    ensures Counted(steps, row, k, scale)
  {
    hide Inserts, Accepts, Track.Upserts, Predicted, Increasing;
    var m, key := |steps| - 1, row.ac.icao;
    InsertsRange(steps, m, key, scale);
    assert Taken(steps[..m], m, key, scale) == 0;
    forall j: nat | j > m
      ensures !Inserts(steps, j, key, scale)
    {
      InsertsRange(steps, j, key, scale);
    }
    assert Accounts(steps, m, m, row, k, scale);
  }

  lemma TrackCounts(k: Track, lastSeen: int, src: Aircraft, now: int, t: Tuning, scale: LonScale)
    ensures Track1(src, t).Upserts() == 1 && Predicted(Track1(src, t).ops) == 0.0
    ensures TrackNext(k, lastSeen, src, now, t).Upserts() == k.Upserts() + 1
    ensures Predicted(TrackNext(k, lastSeen, src, now, t).ops) == Predicted(k.ops) + Elapsed(lastSeen, now)
  {
    hide Run, InitState, Elapsed;
    var p, u, start := Op.Predict(Elapsed(lastSeen, now), t.q), Op.Update(src.lat, src.lon, t.r), InitState(k.lat, k.lon);
    assert [u] == [] + [u];
    RunAppend(start, [], u, scale);
    RunAppend(start, k.ops, p, scale);
    RunAppend(start, k.ops + [p], u, scale);
    assert [u][..0] == [] && (k.ops + [p])[..|k.ops|] == k.ops && (k.ops + [p] + [u])[..|k.ops| + 1] == k.ops + [p];
  }

  lemma {:induction false} KeepCounted(steps: seq<DbStep>, rows: seq<Row>, tracks: seq<Track>, now: int, scale: LonScale)
    requires AllCounted(steps, rows, tracks, scale)
    ensures AllCounted(steps, Keep(rows, now), KeepTracks(rows, tracks, now), scale)
  {
    hide Counted, Live;
    if rows != [] {
      var last := |rows| - 1;
      KeepCounted(steps, rows[..last], tracks[..last], now, scale);
    }
  }

  /** A step that takes no upsert of any of the keys leaves their accounts. */
  lemma StillCounted(steps: seq<DbStep>, rows: seq<Row>, tracks: seq<Track>, scale: LonScale)
    requires steps != [] && AllCounted(steps[..|steps| - 1], rows, tracks, scale)
    requires forall i :: 0 <= i < |rows| ==> !Accepts(steps, |steps| - 1, rows[i].ac.icao, scale)
    ensures AllCounted(steps, rows, tracks, scale)
  {
    hide Counted, Accepts;
    forall i | 0 <= i < |rows|
      ensures Counted(steps, rows[i], tracks[i], scale)
    {
      CountedStill(steps, rows[i], tracks[i], scale);
    }
  }

  lemma UpsertCounted(steps: seq<DbStep>, db: Db, tracks: seq<Track>, src: Aircraft, now: int, t: Tuning, scale: LonScale)
    requires steps != [] && steps[|steps| - 1] == DoUpsert(src, now, t) && db == RunDb(steps[..|steps| - 1], scale)
    requires WellFormed(db) && AllCounted(steps[..|steps| - 1], db.rows, tracks, scale) && src.icao != ""
    ensures var k := Find(db.rows, src.icao);
            && (k >= 0 ==> AllCounted(steps, db.rows[k := NextRow(db.rows[k], src, now, t, scale)],
                                      tracks[k := TrackNext(tracks[k], db.rows[k].lastSeen, src, now, t)], scale))
            && (k < 0 && |db.rows| < MAX_ENTRIES ==>
                  AllCounted(steps, db.rows + [FirstRow(src, now, t, scale)], tracks + [Track1(src, t)], scale))
            && (k < 0 && |db.rows| >= MAX_ENTRIES ==> AllCounted(steps, db.rows, tracks, scale))
  {
    hide *;
    var k := Find(db.rows, src.icao);
    LastAccepts(steps, db, src, now, t, scale);
    OthersCounted(steps, db, tracks, src.icao, |steps| - 1, scale);
    if k >= 0 {
      RefreshCounted(steps, db.rows[k], tracks[k], src, now, t, scale);
      AllUpdated(steps, db.rows, tracks, k, NextRow(db.rows[k], src, now, t, scale),
                 TrackNext(tracks[k], db.rows[k].lastSeen, src, now, t), scale);
    } else {
      AllUpdated(steps, db.rows, tracks, k, FirstRow(src, now, t, scale), Track1(src, t), scale);
      if |db.rows| < MAX_ENTRIES {
        InsertCounted(steps, src, now, t, scale);
        AllAppended(steps, db.rows, tracks, FirstRow(src, now, t, scale), Track1(src, t), scale);
      }
    }
  }

  lemma OthersCounted(steps: seq<DbStep>, db: Db, tracks: seq<Track>, key: Icao, m: int, scale: LonScale)
    requires steps != [] && m == |steps| - 1 && WellFormed(db) && AllCounted(steps[..|steps| - 1], db.rows, tracks, scale)
    requires forall other: Icao :: other != key ==> !Accepts(steps, m, other, scale)
    ensures |tracks| == |db.rows|
    ensures forall i :: 0 <= i < |db.rows| && i != Find(db.rows, key) ==> Counted(steps, db.rows[i], tracks[i], scale)
    ensures var k := Find(db.rows, key);
            k >= 0 ==> db.rows[k].ac.icao == key && Counted(steps[..|steps| - 1], db.rows[k], tracks[k], scale)
  {
    RowKeys(db, key);
    hide Counted, Accepts, WellFormed, Find;
    forall i | 0 <= i < |db.rows| && i != Find(db.rows, key)
      ensures Counted(steps, db.rows[i], tracks[i], scale)
    {
      CountedStill(steps, db.rows[i], tracks[i], scale);
    }
  }

  /** The accounts of all rows but k, and that of a new row in its place. */
  lemma AllUpdated(steps: seq<DbStep>, rows: seq<Row>, tracks: seq<Track>, k: int, row: Row, track: Track, scale: LonScale)
    requires |rows| == |tracks| && -1 <= k < |rows|
    requires forall i :: 0 <= i < |rows| && i != k ==> Counted(steps, rows[i], tracks[i], scale)
    requires k >= 0 ==> Counted(steps, row, track, scale)
    ensures if k < 0 then AllCounted(steps, rows, tracks, scale) else AllCounted(steps, rows[k := row], tracks[k := track], scale)
  {
    hide Counted;
  }

  lemma AllAppended(steps: seq<DbStep>, rows: seq<Row>, tracks: seq<Track>, row: Row, track: Track, scale: LonScale)
    requires AllCounted(steps, rows, tracks, scale) && Counted(steps, row, track, scale)
    ensures AllCounted(steps, rows + [row], tracks + [track], scale)
  {
    hide Counted;
  }

  lemma RefreshCounted(steps: seq<DbStep>, row: Row, k: Track, src: Aircraft, now: int, t: Tuning, scale: LonScale)
    requires steps != [] && steps[|steps| - 1] == DoUpsert(src, now, t) && row.ac.icao == src.icao
    requires Counted(steps[..|steps| - 1], row, k, scale)
    requires Accepts(steps, |steps| - 1, src.icao, scale) && !Inserts(steps, |steps| - 1, src.icao, scale)
    ensures Counted(steps, NextRow(row, src, now, t, scale), TrackNext(k, row.lastSeen, src, now, t), scale)
  {
    hide Counted, Accepts, Inserts, Track.Upserts, Predicted, NextRow, TrackNext, Elapsed;
    TrackCounts(k, row.lastSeen, src, now, t, scale);
    CountedRefreshed(steps, row, k, NextRow(row, src, now, t, scale), TrackNext(k, row.lastSeen, src, now, t), scale);
  }

  lemma InsertCounted(steps: seq<DbStep>, src: Aircraft, now: int, t: Tuning, scale: LonScale)
    requires steps != [] && steps[|steps| - 1] == DoUpsert(src, now, t) && Inserts(steps, |steps| - 1, src.icao, scale)
    ensures Counted(steps, FirstRow(src, now, t, scale), Track1(src, t), scale)
  {
    hide Counted, Accepts, Inserts, Track.Upserts, Predicted, FirstRow, Track1;
    TrackCounts(Track1(src, t), 0, src, now, t, scale);
    CountedFirst(steps, FirstRow(src, now, t, scale), Track1(src, t), scale);
  }

  lemma LastAccepts(steps: seq<DbStep>, db: Db, src: Aircraft, now: int, t: Tuning, scale: LonScale)
    requires steps != [] && steps[|steps| - 1] == DoUpsert(src, now, t) && db == RunDb(steps[..|steps| - 1], scale)
    requires src.icao != ""
    ensures var m, k := |steps| - 1, Find(db.rows, src.icao);
            && (forall key: Icao :: key != src.icao ==> !Accepts(steps, m, key, scale))
            && (Accepts(steps, m, src.icao, scale) <==> k >= 0 || |db.rows| < MAX_ENTRIES)
            && (Inserts(steps, m, src.icao, scale) <==> k < 0 && |db.rows| < MAX_ENTRIES)
  {
    hide FirstRow, NextRow, RunDb;
  }

  lemma RowKeys(db: Db, key: Icao)
    requires WellFormed(db)
    ensures var k := Find(db.rows, key);
            && (k >= 0 ==> k < |db.rows| && db.rows[k].ac.icao == key)
            && forall i :: 0 <= i < |db.rows| && i != k ==> db.rows[i].ac.icao != key
  {
  }

  /** Over every run each row has fused exactly the upserts of its key the table took since it last put
      the key in; and where those came at later and later times, its filter has been predicted over
      exactly the time from the first to the last. */
  lemma {:induction false} UpsertsCounted(steps: seq<DbStep>, scale: LonScale)
    ensures AllCounted(steps, RunDb(steps, scale).rows, RunTracks(steps, scale), scale)
  {
    hide Counted, FirstRow, NextRow, Keep, KeepTracks, WellFormed, Track1, TrackNext;
    if steps != [] {
      var prior, m := steps[..|steps| - 1], |steps| - 1;
      UpsertsCounted(prior, scale);
      RunWellFormed(prior, scale);
      var db, tracks := RunDb(prior, scale), RunTracks(prior, scale);
      match steps[m] {
        case DoUpsert(src, now, t) =>
          if src.icao == "" {
            StillCounted(steps, db.rows, tracks, scale);
          } else {
            UpsertCounted(steps, db, tracks, src, now, t, scale);
          }
        case DoReap(now) =>
          StillCounted(steps, db.rows, tracks, scale);
          KeepCounted(steps, db.rows, tracks, now, scale);
        case DoClear =>
      }
    }
  }

  /** Hence a row publishes its prediction exactly from the third such upsert on, as far as the 32-bit
      count goes. */
  lemma PublishedFromThird(steps: seq<DbStep>, row: Row, scale: LonScale)
    requires Unpredicted(steps) && row in RunDb(steps, scale).rows
    ensures exists i: nat :: Inserts(steps, i, row.ac.icao, scale)
                             && (forall j: nat | j > i :: !Inserts(steps, j, row.ac.icao, scale))
                             && (row.ac.predValid <==> Add32(0, Taken(steps, i, row.ac.icao, scale)) >= PRED_MIN_UPDATES)
  {
    RunFaithful(steps, scale);
    UpsertsCounted(steps, scale);
    hide RunDb, RunTracks, Taken, Inserts, Track.Upserts, Track.Filter, PredictAhead, Unpredicted, Counted, Faithful;
    var rows, tracks := RunDb(steps, scale).rows, RunTracks(steps, scale);
    var k :| 0 <= k < |rows| && rows[k] == row;
    CountedThird(steps, row, tracks[k], scale);
  }

  lemma CountedThird(steps: seq<DbStep>, row: Row, k: Track, scale: LonScale)
    requires Counted(steps, row, k, scale) && Faithful(row, k, scale)
    ensures exists i: nat :: Inserts(steps, i, row.ac.icao, scale)
                             && (forall j: nat | j > i :: !Inserts(steps, j, row.ac.icao, scale))
                             && (row.ac.predValid <==> Add32(0, Taken(steps, i, row.ac.icao, scale)) >= PRED_MIN_UPDATES)
  {
    hide Inserts, Accepts, Taken, Track.Upserts, Track.Filter, PredictAhead, Predicted, Increasing;
    var i: nat, j: nat :| Accounts(steps, i, j, row, k, scale);
  }

  /** A new row's filter stands at the observation, at rest, with that fix counted. */
  lemma InsertStep(src: Aircraft, now: int, t: Tuning, scale: LonScale)
    ensures var row := FirstRow(src, now, t, scale);
            && row.kf.x == [src.lat, src.lon, 0.0, 0.0] && row.kf.updates == 1 && row.kf.initialised
            && row.ac == src && row.lastSeen == now
  {
    FirstFix(src.lat, src.lon, src.lat, src.lon, t.r, scale);
    hide UpdateState, InitState, PredictAhead, Spread, Product, Share;
    assert Toward(src.lat, src.lat, Share(t.r, 1.0 / 111000.0)) == src.lat;
    assert Toward(src.lon, src.lon, Share(t.r, scale(src.lat))) == src.lon;
  }

  /** One refresh: the filter is predicted over the time since the last, one millisecond if the clock has
      not moved on, and then given the fix. */
  lemma RefreshStep(row: Row, src: Aircraft, now: int, t: Tuning, scale: LonScale)
    ensures var dt := if now > row.lastSeen then (now - row.lastSeen) as real / 1000.0 else 0.001;
            NextRow(row, src, now, t, scale).kf == UpdateState(PredictState(row.kf, dt, t.q, scale), src.lat, src.lon, t.r, scale)
  {
    hide UpdateState, PredictState, PredictAhead;
  }
}

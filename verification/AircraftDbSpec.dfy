/** The aircraft table as a value: rows in list order, and what each operation does to them. */
module AircraftDbSpec {
  import opened Basics
  import opened KalmanSpec

  const MAX_ENTRIES := 32
  const STALE_MS := 10000
  const REAPER_TICK_MS := 2000
  const PRED_MIN_UPDATES := 3
  const PRED_HORIZON_S := 60.0

  /** A NUL-terminated identifier of at most six characters. */
  type Icao = s: string | |s| <= 6 && '\0' !in s witness ""

  datatype Source = Unknown | AdsB | BleSim | Fict

  /** The observation record; the bits of `valid_mask` are the four `...Valid` flags. */
  datatype Aircraft = Aircraft(
    icao: Icao, lat: real, lon: real, ts: real, source: Source,
    altValid: bool, velValid: bool, hdgValid: bool, predValid: bool,
    altFt: int, velKt: real, hdgDeg: real, predLat: real, predLon: real)

  const NO_AIRCRAFT := Aircraft("", 0.0, 0.0, 0.0, Unknown, false, false, false, false, 0, 0.0, 0.0, 0.0, 0.0)

  datatype Row = Row(ac: Aircraft, lastSeen: int, kf: KState)

  datatype Stats = Stats(inserts: uint32, updates: uint32, staleEvicts: uint32, poolFull: uint32)

  const NO_STATS := Stats(0, 0, 0, 0)

  datatype Db = Db(rows: seq<Row>, stats: Stats)

  /** Filter tuning in force at an upsert. */
  datatype Tuning = Tuning(q: Positive, r: Positive)

  /** Return codes 1, 0, -EINVAL and -ENOMEM. */
  datatype Outcome = Inserted | Updated | Invalid | NoMemory

  function Find(rows: seq<Row>, icao: Icao): (k: int)
    ensures -1 <= k < |rows|
    ensures k >= 0 ==> rows[k].ac.icao == icao
    ensures forall j :: 0 <= j < (if k < 0 then |rows| else k) ==> rows[j].ac.icao != icao
  {
    if rows == [] then -1
    else if rows[0].ac.icao == icao then 0
    else
      var k := Find(rows[1..], icao);
      assert forall j :: 1 <= j < |rows| ==> rows[j] == rows[1..][j - 1];
      if k < 0 then -1 else k + 1
  }

  /** Seconds between two upserts; a same-millisecond repeat counts as one millisecond. */
  function Elapsed(prev: int, now: int): (dt: real)
    ensures dt > 0.0
  {
    var dt := (now - prev) as real / 1000.0;
    if dt <= 0.0 then 0.001 else dt
  }

  /** Attach the extrapolated position once enough measurements have been fused. */
  function Publish(ac: Aircraft, kf: KState): Aircraft {
    if kf.updates >= PRED_MIN_UPDATES then
      var (lat, lon) := PredictAhead(kf, PRED_HORIZON_S);
      ac.(predLat := lat, predLon := lon, predValid := true)
    else ac
  }

  function FirstRow(src: Aircraft, now: int, t: Tuning, scale: LonScale): (row: Row)
    ensures row.ac.icao == src.icao && row.lastSeen == now
  {
    var kf := UpdateState(InitState(src.lat, src.lon), src.lat, src.lon, t.r, scale);
    Row(Publish(src, kf), now, kf)
  }

  function NextRow(row: Row, src: Aircraft, now: int, t: Tuning, scale: LonScale): (next: Row)
    ensures next.ac.icao == src.icao && next.lastSeen == now
  {
    var moved := PredictState(row.kf, Elapsed(row.lastSeen, now), t.q, scale);
    var kf := UpdateState(moved, src.lat, src.lon, t.r, scale);
    Row(Publish(src, kf), now, kf)
  }

  function Upsert(db: Db, src: Aircraft, now: int, t: Tuning, scale: LonScale): (Db, Outcome) {
    if src.icao == "" then (db, Invalid)
    else
      var k := Find(db.rows, src.icao);
      if k >= 0 then
        (Db(db.rows[k := NextRow(db.rows[k], src, now, t, scale)],
            db.stats.(updates := Inc32(db.stats.updates))), Updated)
      else if |db.rows| >= MAX_ENTRIES then
        (db.(stats := db.stats.(poolFull := Inc32(db.stats.poolFull))), NoMemory)
      else
        (Db(db.rows + [FirstRow(src, now, t, scale)],
            db.stats.(inserts := Inc32(db.stats.inserts))), Inserted)
  }

  predicate Live(row: Row, now: int) {
    now - row.lastSeen <= STALE_MS
  }

  function Keep(rows: seq<Row>, now: int): (kept: seq<Row>)
    ensures |kept| <= |rows|
  {
    if rows == [] then []
    else
      var last := |rows| - 1;
      Keep(rows[..last], now) + if Live(rows[last], now) then [rows[last]] else []
  }

  function Reap(db: Db, now: int): Db {
    var kept := Keep(db.rows, now);
    Db(kept, db.stats.(staleEvicts := Add32(db.stats.staleEvicts, |db.rows| - |kept|)))
  }

  ghost predicate DistinctKeys(rows: seq<Row>) {
    forall i, j :: 0 <= i < j < |rows| ==> rows[i].ac.icao != rows[j].ac.icao
  }

  /** What every operation keeps: the capacity, non-empty distinct keys, and the bookkeeping
      law inserts - staleEvicts == number of rows (as 32-bit counters). */
  ghost predicate WellFormed(db: Db) {
    && |db.rows| <= MAX_ENTRIES
    && DistinctKeys(db.rows)
    && (forall i :: 0 <= i < |db.rows| ==> db.rows[i].ac.icao != "")
    && db.stats.inserts == Add32(db.stats.staleEvicts, |db.rows|)
  }

  /** The table as the map it stands for. */
  function AsMap(rows: seq<Row>): map<Icao, Row> {
    if rows == [] then map[]
    else
      var last := |rows| - 1;
      AsMap(rows[..last])[rows[last].ac.icao := rows[last]]
  }

  lemma {:induction false} AsMapRows(rows: seq<Row>)
    requires DistinctKeys(rows)
    ensures forall i :: 0 <= i < |rows| ==> rows[i].ac.icao in AsMap(rows) && AsMap(rows)[rows[i].ac.icao] == rows[i]
    ensures forall k :: k in AsMap(rows) ==> Find(rows, k) >= 0
  {
    if rows != [] {
      var last := |rows| - 1;
      AsMapRows(rows[..last]);
      assert forall i :: 0 <= i < last ==> rows[..last][i] == rows[i];
    }
  }

  lemma {:induction false} ReplaceRow(rows: seq<Row>, k: nat, row: Row)
    requires DistinctKeys(rows) && k < |rows| && row.ac.icao == rows[k].ac.icao
    ensures DistinctKeys(rows[k := row])
    ensures AsMap(rows[k := row]) == AsMap(rows)[row.ac.icao := row]
  {
    var last := |rows| - 1;
    if k == last {
      assert rows[k := row][..last] == rows[..last];
    } else {
      assert rows[k := row][..last] == rows[..last][k := row];
      ReplaceRow(rows[..last], k, row);
    }
  }

  lemma AppendRow(rows: seq<Row>, row: Row)
    requires DistinctKeys(rows) && Find(rows, row.ac.icao) < 0
    ensures DistinctKeys(rows + [row])
    ensures AsMap(rows + [row]) == AsMap(rows)[row.ac.icao := row]
  {
    assert (rows + [row])[..|rows|] == rows;
  }

  /** Upsert is map update. It fails with -ENOMEM exactly when the key is absent and 32 rows are
      live, and then only the `poolFull` counter moves. */
  lemma UpsertIsMapUpdate(db: Db, src: Aircraft, now: int, t: Tuning, scale: LonScale)
    requires WellFormed(db)
    ensures var (db', rc) := Upsert(db, src, now, t, scale);
            var m, m' := AsMap(db.rows), AsMap(db'.rows);
            && WellFormed(db')
            && (rc == Invalid <==> src.icao == "")
            && (rc == NoMemory <==> src.icao != "" && src.icao !in m && |db.rows| == MAX_ENTRIES)
            && (rc == Invalid ==> db' == db)
            && (rc == NoMemory ==> db' == Db(db.rows, db.stats.(poolFull := Inc32(db.stats.poolFull))))
            && (rc == Updated ==> db'.stats == db.stats.(updates := Inc32(db.stats.updates)))
            && (rc == Inserted ==> db'.stats == db.stats.(inserts := Inc32(db.stats.inserts)))
            && (rc == Updated ==> src.icao in m && m' == m[src.icao := NextRow(m[src.icao], src, now, t, scale)])
            && (rc == Inserted ==> src.icao !in m && m' == m[src.icao := FirstRow(src, now, t, scale)])
  {
    hide FirstRow, NextRow, Inc32, Add32, AsMap, DistinctKeys;
    AsMapRows(db.rows);
    var k := Find(db.rows, src.icao);
    if k >= 0 {
      ReplaceRow(db.rows, k, NextRow(db.rows[k], src, now, t, scale));
    } else if src.icao != "" && |db.rows| < MAX_ENTRIES {
      AppendRow(db.rows, FirstRow(src, now, t, scale));
      IncAdd(db.stats.staleEvicts, |db.rows|);
    }
  }

  /** A lookup after an upsert the table took returns the observation itself; only the prediction fields
      may have been filled in, and only where the observation had none. */
  lemma LookupReturns(db: Db, src: Aircraft, now: int, t: Tuning, scale: LonScale)
    requires WellFormed(db) && src.icao != "" && (Find(db.rows, src.icao) >= 0 || |db.rows| < 32)
    ensures var rows := Upsert(db, src, now, t, scale).0.rows;
            var k := Find(rows, src.icao);
            && k >= 0 && rows[k].lastSeen == now
            && rows[k].ac == src.(predLat := rows[k].ac.predLat, predLon := rows[k].ac.predLon, predValid := rows[k].ac.predValid)
            && (src.predValid ==> rows[k].ac.predValid)
            && (rows[k].kf.updates < 3 ==> rows[k].ac == src)
  {
    var k := Find(db.rows, src.icao);
    var row := if k >= 0 then NextRow(db.rows[k], src, now, t, scale) else FirstRow(src, now, t, scale);
    var rows := Upsert(db, src, now, t, scale).0.rows;
    assert row.ac == Publish(src, row.kf);
    assert rows[if k >= 0 then k else |db.rows|] == row;
    hide FirstRow, NextRow;
    UpsertIsMapUpdate(db, src, now, t, scale);
    FindOnly(rows, src.icao, if k >= 0 then k else |db.rows|);
  }

  lemma FindOnly(rows: seq<Row>, key: Icao, k: int)
    requires DistinctKeys(rows) && 0 <= k < |rows| && rows[k].ac.icao == key
    ensures Find(rows, key) == k
  {
  }

  lemma IncAdd(a: uint32, n: nat)
    ensures Inc32(Add32(a, n)) == Add32(a, n + 1)
  {
  }

  lemma AddAdd(a: uint32, n: nat, k: nat)
    ensures Add32(Add32(a, n), k) == Add32(a, n + k)
  {
  }

  /** The kept rows are the live ones, all of them, and no key appears twice. */
  lemma {:induction false} KeepLive(rows: seq<Row>, now: int)
    ensures forall r :: r in Keep(rows, now) <==> r in rows && Live(r, now)
    ensures DistinctKeys(rows) ==> DistinctKeys(Keep(rows, now))
  {
    hide Live;
    if rows != [] {
      var last := |rows| - 1;
      var init, kept := rows[..last], Keep(rows[..last], now);
      KeepLive(init, now);
      assert rows == init + [rows[last]];
      if DistinctKeys(rows) && Live(rows[last], now) {
        forall i | 0 <= i < |kept|
          ensures kept[i].ac.icao != rows[last].ac.icao
        {
          assert kept[i] in init;
        }
      }
    }
  }

  function LiveMap(m: map<Icao, Row>, now: int): map<Icao, Row> {
    map k | k in m && Live(m[k], now) :: m[k]
  }

  lemma LiveMapInsert(m: map<Icao, Row>, key: Icao, row: Row, now: int)
    requires key !in m
    ensures LiveMap(m[key := row], now) == if Live(row, now) then LiveMap(m, now)[key := row] else LiveMap(m, now)
  {
  }

  lemma {:induction false} KeepMap(rows: seq<Row>, now: int)
    requires DistinctKeys(rows)
    ensures AsMap(Keep(rows, now)) == LiveMap(AsMap(rows), now)
  {
    hide Live, LiveMap, DistinctKeys;
    if rows == [] {
      LiveMapEmpty(now);
    } else {
      var last := |rows| - 1;
      var init, row := rows[..last], rows[last];
      LastIsNew(rows, now);
      KeepMap(init, now);
      LiveMapInsert(AsMap(init), row.ac.icao, row, now);
      if Live(row, now) {
        AppendRow(Keep(init, now), row);
      } else {
        assert Keep(rows, now) == Keep(init, now);
      }
    }
  }

  lemma LastIsNew(rows: seq<Row>, now: int)
    requires DistinctKeys(rows) && rows != []
    ensures var init, key := rows[..|rows| - 1], rows[|rows| - 1].ac.icao;
            DistinctKeys(init) && DistinctKeys(Keep(init, now)) && Find(Keep(init, now), key) < 0 && key !in AsMap(init)
  {
    var init, row := rows[..|rows| - 1], rows[|rows| - 1];
    hide Keep, AsMap, Live;
    KeepLive(init, now);
    AsMapRows(init);
    assert forall r :: r in Keep(init, now) ==> r.ac.icao != row.ac.icao;
  }

  lemma LiveMapEmpty(now: int)
    ensures LiveMap(map[], now) == map[]
  {
  }

  /** The reaper keeps exactly the rows of age at most 10000 ms, in order, as a map restriction. */
  lemma ReapKeepsLive(db: Db, now: int)
    requires WellFormed(db)
    ensures WellFormed(Reap(db, now))
    ensures AsMap(Reap(db, now).rows) == LiveMap(AsMap(db.rows), now)
  {
    hide Live, Add32, Keep, LiveMap, AsMap;
    KeepLive(db.rows, now);
    assert forall i :: 0 <= i < |Keep(db.rows, now)| ==> Keep(db.rows, now)[i] in db.rows;
    AddAdd(db.stats.staleEvicts, |db.rows| - |Keep(db.rows, now)|, |Keep(db.rows, now)|);
    KeepMap(db.rows, now);
  }
}

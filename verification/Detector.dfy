/** The detector as the firmware holds it: two parallel fixed arrays, a count, and one big tick. */
module Detector {
  import opened Basics
  import opened AircraftDbSpec
  import opened Approach
  import opened TrackerSpec
  import opened TrackerRuns
  import opened Picker
  import opened Kinematics

  /** What a tick reads from outside, by the number of pairs examined before: the uptime clock and
      whether a lookup finds the aircraft to be the simulator; the geometry and trigonometry. */
  datatype Env = Env(geo: Geo, trig: Trig, uptime: nat -> int, isSim: (nat, Icao) -> bool) {
    function Now(n: nat): int { uptime(n) }

    function IsSim(n: nat, icao: Icao): bool { isSim(n, icao) }

    function Pick(sim: SnapRow, threat: SnapRow): Diversion { PickDiversion(sim, threat, trig, geo.scale) }
  }

  function SimOf(a: SnapRow, b: SnapRow, env: Env, n: nat): Option<SimSide> {
    if env.IsSim(n, a.icao) then Some(SimSide(b.icao, env.Pick(a, b)))
    else if env.IsSim(n, b.icao) then Some(SimSide(a.icao, env.Pick(b, a)))
    else None
  }

  function Observe(a: SnapRow, b: SnapRow, env: Env, n: nat): Sighting {
    Sighting(PairKey(a.icao, b.icao), PairLevel(a, b, env.geo), ClosestApproach(a, b, env.geo), env.Now(n), SimOf(a, b, env, n))
  }

  /** Row i against the rows after it up to j, the first examined being number n0. */
  function InnerScan(rows: seq<SnapRow>, env: Env, i: nat, j: nat, n0: nat): seq<Sighting>
    requires i < |rows| && j <= |rows|
  {
    if j <= i + 1 then []
    else
      var rest := InnerScan(rows, env, i, j - 1, n0);
      if rows[j - 1].vValid then rest + [Observe(rows[i], rows[j - 1], env, n0 + |rest|)] else rest
  }

  function OuterScan(rows: seq<SnapRow>, env: Env, i: nat): seq<Sighting>
    requires i <= |rows|
  {
    if i == 0 then []
    else
      var rest := OuterScan(rows, env, i - 1);
      if rows[i - 1].vValid then rest + InnerScan(rows, env, i - 1, |rows|, |rest|) else rest
  }

  function ScanOf(rows: seq<SnapRow>, env: Env): seq<Sighting> {
    OuterScan(rows, env, |rows|)
  }

  // ---- the scan ---------------------------------------------------------------------

  ghost predicate DistinctRows(rows: seq<SnapRow>) {
    forall i, j :: 0 <= i < j < |rows| ==> rows[i].icao != rows[j].icao
  }

  ghost predicate SightingOf(g: Sighting, rows: seq<SnapRow>, a: nat, b: nat) {
    a < b < |rows| && g.key == PairKey(rows[a].icao, rows[b].icao)
  }

  lemma {:induction false} InnerSightings(rows: seq<SnapRow>, env: Env, i: nat, j: nat, n0: nat)
    requires i < |rows| && j <= |rows| && DistinctRows(rows)
    ensures forall g :: g in InnerScan(rows, env, i, j, n0) ==> exists b: nat :: b < j && SightingOf(g, rows, i, b)
    ensures FromScan(InnerScan(rows, env, i, j, n0))
  {
    hide Observe, PairKey;
    if j > i + 1 {
      InnerSightings(rows, env, i, j - 1, n0);
      var rest := InnerScan(rows, env, i, j - 1, n0);
      var g := Observe(rows[i], rows[j - 1], env, n0 + |rest|);
      ObserveKey(rows[i], rows[j - 1], env, n0 + |rest|);
      assert SightingOf(g, rows, i, j - 1);
      forall h | h in rest
        ensures h.key != g.key
      {
        var b: nat :| b < j - 1 && SightingOf(h, rows, i, b);
        PairKeyUnordered(rows[i].icao, rows[b].icao, rows[i].icao, rows[j - 1].icao);
      }
    }
  }

  lemma ObserveKey(a: SnapRow, b: SnapRow, env: Env, n: nat)
    ensures Observe(a, b, env, n).key == PairKey(a.icao, b.icao)
    ensures StrLe(Observe(a, b, env, n).key.lo, Observe(a, b, env, n).key.hi)
  {
    PairKeyUnordered(a.icao, b.icao, a.icao, b.icao);
  }

  lemma {:induction false} OuterSightings(rows: seq<SnapRow>, env: Env, i: nat)
    requires i <= |rows| && DistinctRows(rows)
    ensures forall g :: g in OuterScan(rows, env, i) ==> exists a: nat, b: nat :: a < i && SightingOf(g, rows, a, b)
    ensures FromScan(OuterScan(rows, env, i))
  {
    hide InnerScan, PairKey;
    if i > 0 {
      OuterSightings(rows, env, i - 1);
      var rest := OuterScan(rows, env, i - 1);
      var row := InnerScan(rows, env, i - 1, |rows|, |rest|);
      InnerSightings(rows, env, i - 1, |rows|, |rest|);
      forall g, h | g in rest && h in row
        ensures g.key != h.key
      {
        var a: nat, b: nat :| a < i - 1 && SightingOf(g, rows, a, b);
        var c: nat :| c < |rows| && SightingOf(h, rows, i - 1, c);
        PairKeyUnordered(rows[a].icao, rows[b].icao, rows[i - 1].icao, rows[c].icao);
      }
      if rows[i - 1].vValid {
        ScanConcat(rest, row);
      }
    }
  }

  lemma ScanConcat(a: seq<Sighting>, b: seq<Sighting>)
    requires FromScan(a) && FromScan(b) && forall g, h :: g in a && h in b ==> g.key != h.key
    ensures FromScan(a + b)
  {
    var s := a + b;
    forall i, j | 0 <= i < j < |s|
      ensures s[i].key != s[j].key
    {
      if i < |a| <= j {
        assert s[i] in a && s[j] in b;
      }
    }
  }

  /** A snapshot of distinct aircraft scans to ordered keys, none twice. */
  lemma ScanIsFromScan(rows: seq<SnapRow>, env: Env)
    requires DistinctRows(rows)
    ensures FromScan(ScanOf(rows, env))
  {
    OuterSightings(rows, env, |rows|);
  }

  lemma {:induction false} InnerComplete(rows: seq<SnapRow>, env: Env, i: nat, j: nat, n0: nat, b: nat)
    requires i < b < j <= |rows| && rows[b].vValid
    ensures exists n :: Observe(rows[i], rows[b], env, n) in InnerScan(rows, env, i, j, n0)
  {
    hide Observe;
    if b < j - 1 {
      InnerComplete(rows, env, i, j - 1, n0, b);
      var n :| Observe(rows[i], rows[b], env, n) in InnerScan(rows, env, i, j - 1, n0);
      assert Observe(rows[i], rows[b], env, n) in InnerScan(rows, env, i, j, n0);
    } else {
      assert Observe(rows[i], rows[b], env, n0 + |InnerScan(rows, env, i, j - 1, n0)|) in InnerScan(rows, env, i, j, n0);
    }
  }

  lemma {:induction false} OuterComplete(rows: seq<SnapRow>, env: Env, i: nat, a: nat, b: nat)
    requires a < i <= |rows| && a < b < |rows| && rows[a].vValid && rows[b].vValid
    ensures exists n :: Observe(rows[a], rows[b], env, n) in OuterScan(rows, env, i)
  {
    hide Observe, InnerScan;
    if a < i - 1 {
      OuterComplete(rows, env, i - 1, a, b);
      var n :| Observe(rows[a], rows[b], env, n) in OuterScan(rows, env, i - 1);
      assert Observe(rows[a], rows[b], env, n) in OuterScan(rows, env, i);
    } else {
      var n0 := |OuterScan(rows, env, i - 1)|;
      InnerComplete(rows, env, a, |rows|, n0, b);
      var n :| Observe(rows[a], rows[b], env, n) in InnerScan(rows, env, a, |rows|, n0);
      assert Observe(rows[a], rows[b], env, n) in OuterScan(rows, env, i);
    }
  }

  /** Every pair of rows with known velocities is examined. */
  lemma ScanComplete(rows: seq<SnapRow>, env: Env, a: nat, b: nat)
    requires a < b < |rows| && rows[a].vValid && rows[b].vValid
    ensures exists n :: Observe(rows[a], rows[b], env, n) in ScanOf(rows, env)
  {
    OuterComplete(rows, env, |rows|, a, b);
  }

  /** The lookups that find the simulator's side of a pair, and its diversion. */
  method FindSim(a: SnapRow, b: SnapRow, env: Env, n: nat) returns (sim: Option<SimSide>)
    ensures sim == SimOf(a, b, env, n)
  {
    hide PickDiversion, Env.IsSim;
    sim := None;
    if env.IsSim(n, a.icao) {
      var d := Choose(a, b, env.trig, env.geo.scale);
      sim := Some(SimSide(b.icao, d));
    } else if env.IsSim(n, b.icao) {
      var d := Choose(b, a, env.trig, env.geo.scale);
      sim := Some(SimSide(a.icao, d));
    }
  }

  /** Of a pair with one simulator the other aircraft is the threat, whichever was scanned first, and the
      diversion is the one picked for the simulator against it. */
  lemma SimOfOther(a: SnapRow, b: SnapRow, env: Env, n: nat)
    ensures SimOf(a, b, env, n).Some? <==> env.IsSim(n, a.icao) || env.IsSim(n, b.icao)
    ensures env.IsSim(n, a.icao) && !env.IsSim(n, b.icao) ==>
              var pick := PickDiversion(a, b, env.trig, env.geo.scale);
              SimOf(a, b, env, n) == SimOf(b, a, env, n) == Some(SimSide(b.icao, pick))
  {
    hide PickDiversion;
  }

  // ---- the mutable detector ---------------------------------------------------------

  lemma Shifted(was: seq<TrackedPair>, now: seq<TrackedPair>, idx: nat)
    requires idx < |was| == |now| + 1
    requires forall j :: 0 <= j < idx ==> now[j] == was[j]
    requires forall j :: idx <= j < |now| ==> now[j] == was[j + 1]
    ensures now == Remove(was, idx)
  {
  }

  class Detector {
    const tracked: array<TrackedPair>
    const pairDiversion: array<Diversion>
    var trackedN: nat
    var ghostActive: bool
    /** The output channels, as one sequence. */
    var log: seq<Event>

    ghost predicate Valid()
      reads this
    {
      tracked.Length == pairDiversion.Length == MAX_TRACKED && trackedN <= MAX_TRACKED
    }

    ghost function State(): (st: State)
      requires Valid()
      reads this, tracked, pairDiversion
      ensures st.Ok()
    {
      TrackerSpec.State(tracked[..trackedN], pairDiversion[..], ghostActive, log)
    }

    /** The marks array agrees with the table: nothing beyond the count is marked. */
    ghost predicate Marking(seen: array<bool>)
      requires Valid()
      reads this, seen
    {
      seen.Length == MAX_TRACKED && forall i :: trackedN <= i < MAX_TRACKED ==> !seen[i]
    }

    ghost function ScanState(seen: array<bool>): (s: Scan)
      requires Valid() && Marking(seen)
      reads this, tracked, pairDiversion, seen
      ensures s.Ok()
    {
      Scan(tracked[..trackedN], pairDiversion[..], seen[..trackedN], ghostActive, log)
    }

    constructor ()
      ensures Valid() && fresh(tracked) && fresh(pairDiversion)
      ensures State() == Start()
    {
      tracked := new TrackedPair[MAX_TRACKED](_ => TrackedPair(Key("", ""), Clear, None, 0, 0));
      pairDiversion := new Diversion[MAX_TRACKED](_ => Left);
      trackedN, ghostActive, log := 0, false, [];
      new;
      assert pairDiversion[..] == Start().slots;
    }

    /** `find_tracked`. */
    method FindTracked(key: Key) returns (k: int)
      requires Valid()
      ensures k == FindPair(tracked[..trackedN], key)
    {
      for i := 0 to trackedN
        invariant forall j :: 0 <= j < i ==> tracked[j].key != key
      {
        if tracked[i].key == key {
          return i;
        }
      }
      return -1;
    }

    /** `tracked_remove`: shift the tail of the table down; the diversions stay put. */
    method TrackedRemove(idx: int)
      requires Valid()
      modifies this`trackedN, tracked
      ensures Valid()
      ensures tracked[..trackedN] ==
              if 0 <= idx < old(trackedN) then Remove(old(tracked[..trackedN]), idx) else old(tracked[..trackedN])
    {
      if idx < 0 || idx >= trackedN {
        return;
      }
      ghost var was := tracked[..trackedN];
      for i := idx to trackedN - 1
        invariant trackedN == |was|
        invariant forall j :: 0 <= j < idx ==> tracked[j] == was[j]
        invariant forall j :: idx <= j < i ==> tracked[j] == was[j + 1]
        invariant forall j :: i < j < trackedN ==> tracked[j] == was[j]
      {
        tracked[i] := tracked[i + 1];
      }
      trackedN := trackedN - 1;
      Shifted(was, tracked[..trackedN], idx);
    }

    /** The body of the pair loop. */
    method ProcessPair(a: SnapRow, b: SnapRow, env: Env, n: nat, seen: array<bool>)
      requires Valid() && Marking(seen)
      modifies this, tracked, pairDiversion, seen
      ensures Valid() && Marking(seen)
      ensures ScanState(seen) == Step(old(ScanState(seen)), Observe(a, b, env, n))
    {
      hide PairLevel, ClosestApproach, PairKey, SimOf, Fold, CrashEvents, StopsGhost;
      var app, lvl, key := ClosestApproach(a, b, env.geo), PairLevel(a, b, env.geo), PairKey(a.icao, b.icao);
      var tk := FindTracked(key);
      if lvl == Clear {
        return;
      }
      var now := env.Now(n);
      if tk >= 0 && tracked[tk].crashUntil > now {
        seen[tk] := true;
        return;
      }
      var sim := FindSim(a, b, env, n);
      var g := Sighting(key, lvl, app, now, sim);
      if tk >= 0 {
        seen[tk] := true;
        var prev := tracked[tk].level;
        Refresh(tk, g, prev, false);
      } else if trackedN < MAX_TRACKED {
        var idx := trackedN;
        tracked[idx] := TrackedPair(key, lvl, None, 0, 0);
        seen[idx] := true;
        trackedN := trackedN + 1;
        Refresh(idx, g, Clear, true);
      } else {
        EnterCrash(g, Clear);
      }
    }

    /** Everything an unlocked sighting does to entry `idx`: level, JSON frame, diversion on
        leaving CLEAR, the throttled BLE frames, and the crash edge. */
    method Refresh(idx: nat, g: Sighting, prev: Level, ghost isNew: bool)
      requires Valid() && idx < trackedN
      requires prev == PrevLevel(tracked[idx], isNew) && g.key == tracked[idx].key && g.level != Clear
      requires idx == FindPair(tracked[..trackedN], g.key)
      requires isNew ==> tracked[idx].diversion == None
      modifies this`log, this`ghostActive, tracked, pairDiversion
      ensures Valid()
      ensures var e := old(tracked[idx]);
              && tracked[..trackedN] == old(tracked[..trackedN])[idx := Touch(e, g, isNew)]
              && pairDiversion[..] == (if PicksDiversion(e, g, isNew) then old(pairDiversion[..])[idx := g.sim.value.pick]
                                       else old(pairDiversion[..]))
              && ghostActive == (old(ghostActive) && !StopsGhost(g, prev))
              && log == old(log) + TouchEvents(e, g, isNew, pairDiversion[idx])
    {
      hide CrashEvents, StopsGhost, SendEvents, FindPair;
      ghost var e := tracked[idx];
      ghost var json := Json(g.key, g.level, g.app, e.diversion);
      var transition := prev == Clear && g.level != Clear;
      Report(idx, g, transition);
      SameFind(old(tracked[..trackedN]), tracked[..trackedN], g.key);
      SendToSim(idx, g, transition);
      if g.level == Crash && prev != Crash {
        tracked[idx] := tracked[idx].(crashUntil := g.now + CRASH_LOCK_MS);
      }
      EnterCrash(g, prev);
      assert tracked[idx] == Touch(e, g, isNew);
      assert log == old(log) + [json] + (if SendDue(e, g, isNew) then SendEvents(g, pairDiversion[idx]) else [])
                  + CrashEvents(g, prev);
    }

    /** The entry's new level, its JSON frame, and the diversion picked on leaving CLEAR. */
    method Report(idx: nat, g: Sighting, transition: bool)
      requires Valid() && idx < trackedN
      modifies this`log, tracked, pairDiversion
      ensures var e, picks := old(tracked[idx]), transition && g.sim.Some?;
              && tracked[..] == old(tracked[..])[idx := e.(level := g.level,
                                                           diversion := if picks then Some(g.sim.value.pick) else e.diversion)]
              && pairDiversion[..] == (if picks then old(pairDiversion[..])[idx := g.sim.value.pick] else old(pairDiversion[..]))
              && log == old(log) + [Json(g.key, g.level, g.app, e.diversion)]
    {
      tracked[idx] := tracked[idx].(level := g.level);
      log := log + [Json(g.key, g.level, g.app, tracked[idx].diversion)];
      if transition && g.sim.Some? {
        tracked[idx] := tracked[idx].(diversion := Some(g.sim.value.pick));
        pairDiversion[idx] := g.sim.value.pick;
      }
    }

    /** The throttled frames to the simulator. */
    method SendToSim(idx: nat, g: Sighting, transition: bool)
      requires Valid() && idx < trackedN && idx == FindPair(tracked[..trackedN], g.key)
      modifies this`log, tracked
      ensures var e := old(tracked[idx]);
              var due := g.sim.Some? && (transition || g.now - e.lastBle > BLE_GAP_MS);
              && tracked[..] == old(tracked[..])[idx := if due then e.(lastBle := g.now) else e]
              && log == old(log) + if due then SendEvents(g, pairDiversion[idx]) else []
    {
      if g.sim.Some? {
        var staleSend := g.now - tracked[idx].lastBle > BLE_GAP_MS;
        if transition || staleSend {
          var tkNow := FindTracked(g.key);
          var d := if tkNow >= 0 then pairDiversion[tkNow] else Hold;
          log := log + [BleDiversion(g.key, g.sim.value.threat, d, g.now)];
          if g.level == Warning || g.level == Crash {
            log := log + [BleWarning(g.key, g.now)];
          }
          tracked[idx] := tracked[idx].(lastBle := g.now);
        }
      }
    }

    /** The CRASH edge: terminal frame, and cancel the missile or ghost involved. */
    method EnterCrash(g: Sighting, prev: Level)
      modifies this`log, this`ghostActive
      ensures log == old(log) + CrashEvents(g, prev)
      ensures ghostActive == (old(ghostActive) && !StopsGhost(g, prev))
    {
      if g.level == Crash && prev != Crash {
        var other := if g.sim.Some? then g.sim.value.threat else g.key.lo;
        log := log + [BleCrash(g.key, other, g.now)];
        if g.key.lo == MISSILE || g.key.hi == MISSILE {
          log := log + [CancelMissile(g.key)];
        }
        if g.key.lo == GHOST || g.key.hi == GHOST {
          log := log + [StopGhost(g.key)];
          ghostActive := false;
        }
      }
    }

    /** `work_handler`: scan every pair of the snapshot, then sweep the pairs that did not reappear. */
    method WorkHandler(rows: seq<SnapRow>, env: Env)
      requires Valid()
      modifies this, tracked, pairDiversion
      ensures Valid()
      ensures State() == Tick(old(State()), ScanOf(rows, env))
    {
      hide Step, Observe, Sweep;
      var seen := new bool[MAX_TRACKED](_ => false);
      ghost var s0 := State().Begin();
      ghost var obs := [];
      var n := 0;
      assert ScanState(seen) == s0;
      for i := 0 to |rows|
        invariant Valid() && Marking(seen) && fresh(seen)
        invariant obs == OuterScan(rows, env, i) && n == |obs|
        invariant ScanState(seen) == Fold(s0, obs)
      {
        if rows[i].vValid {
          obs, n := ScanRow(rows, env, i, n, seen, s0, obs);
        }
      }
      SweepUnseen(seen);
    }

    /** Row i against the rows after it. */
    method ScanRow(rows: seq<SnapRow>, env: Env, i: nat, n0: nat, seen: array<bool>, ghost s0: Scan, ghost before: seq<Sighting>)
      returns (ghost obs: seq<Sighting>, n: nat)
      requires Valid() && Marking(seen) && s0.Ok() && i < |rows| && rows[i].vValid
      requires n0 == |before| && ScanState(seen) == Fold(s0, before)
      modifies this, tracked, pairDiversion, seen
      ensures Valid() && Marking(seen) && n == |obs|
      ensures obs == before + InnerScan(rows, env, i, |rows|, n0) && ScanState(seen) == Fold(s0, obs)
    {
      hide Step, Observe, Fold;
      ghost var row := [];
      obs, n := before, n0;
      for j := i + 1 to |rows|
        invariant Valid() && Marking(seen)
        invariant row == InnerScan(rows, env, i, j, n0)
        invariant obs == before + row && n == |obs|
        invariant ScanState(seen) == Fold(s0, obs)
      {
        if rows[j].vValid {
          ghost var g := Observe(rows[i], rows[j], env, n);
          ProcessPair(rows[i], rows[j], env, n, seen);
          FoldSnoc(s0, obs, g);
          assert obs + [g] == before + (row + [g]);
          row, obs := row + [g], obs + [g];
          n := n + 1;
        }
      }
    }

    /** The second pass, backwards: emit CLEAR and drop. */
    method SweepUnseen(seen: array<bool>)
      requires Valid() && Marking(seen)
      modifies this, tracked
      ensures Valid()
      ensures State() == Finish(old(ScanState(seen)))
    {
      ghost var marks, pairs, events := seen[..trackedN], tracked[..trackedN], log;
      var i: nat := trackedN;
      while i > 0
        invariant Valid() && i <= trackedN && i <= |marks| && seen[..|marks|] == marks
        invariant Sweep(tracked[..trackedN], marks, log, i) == Sweep(pairs, marks, events, |pairs|)
        invariant ghostActive == old(ghostActive)
      {
        assert marks[i - 1] == seen[i - 1];
        if !seen[i - 1] {
          log := log + [ClearFrame(tracked[i - 1])];
          TrackedRemove(i - 1);
        }
        i := i - 1;
      }
    }

    /** The re-entry teardown of `ghost_start_internal`, up to arming the ghost again. */
    method RestartGhost()
      requires Valid()
      modifies this, tracked
      ensures Valid()
      ensures State() == Act(old(State()), DoGhostStart)
    {
      if ghostActive {
        ghost var pairs := tracked[..trackedN];
        ghostActive := false;
        var i: nat := trackedN;
        while i > 0
          invariant Valid() && i <= trackedN
          invariant DropGhost(tracked[..trackedN], i) == DropGhost(pairs, |pairs|)
          invariant log == old(log)
        {
          if tracked[i - 1].key.lo == GHOST || tracked[i - 1].key.hi == GHOST {
            TrackedRemove(i - 1);
          }
          i := i - 1;
        }
      }
      ghostActive := true;
    }

    /** `collision_ghost_stop`. */
    method StopGhostAircraft()
      requires Valid()
      modifies this`ghostActive
      ensures State() == Act(old(State()), DoGhostStop)
    {
      ghostActive := false;
    }

    /** `collision_crash_trigger`, given what the two table lookups returned: one synthetic CRASH
        frame and one terminal frame; the table of tracked pairs is not consulted. */
    method CrashTrigger(icaoA: Icao, icaoB: Icao, a: Option<Aircraft>, b: Option<Aircraft>, at: int) returns (ok: bool)
      requires Valid()
      modifies this`log
      ensures ok == (a.Some? && b.Some?)
      ensures State() ==
              if ok then
                Act(old(State()), DoCrashTrigger(PairKey(icaoA, icaoB), Impact(a.value.altValid && b.value.altValid),
                                                 TriggerOther(icaoA, icaoB, a.value.source, b.value.source), at))
              else old(State())
    {
      if a.None? || b.None? { return false; }
      var lo, hi := icaoA, icaoB;
      if !StrLe(icaoA, icaoB) { lo, hi := icaoB, icaoA; }
      log := log + [Json(Key(lo, hi), Crash, Impact(a.value.altValid && b.value.altValid), None)];
      var other := lo;
      if a.value.source == BleSim {
        other := if !StrLe(icaoA, icaoB) then icaoB else icaoA;
      } else if b.value.source == BleSim {
        other := if !StrLe(icaoA, icaoB) then icaoA else icaoB;
      }
      log := log + [BleCrash(Key(lo, hi), other, at)];
      ok := true;
    }
  }

  /** The approach record of a manual crash. */
  function Impact(altValid: bool): Approach { Approach(Some(0.0), 0.0, 0.0, false, 0, altValid) }

  /** The aircraft a manual crash names to the simulator. */
  function TriggerOther(icaoA: Icao, icaoB: Icao, a: Source, b: Source): Icao {
    if a == BleSim then if !StrLe(icaoA, icaoB) then icaoB else icaoA
    else if b == BleSim then if !StrLe(icaoA, icaoB) then icaoA else icaoB
    else PairKey(icaoA, icaoB).lo
  }

  /** Meant to be the side that is not the simulator. It is, between a simulator and another
      aircraft, if and only if the two were given in descending order; in ascending order the
      simulator is told it hit itself. */
  lemma TriggerNamesOther(icaoA: Icao, icaoB: Icao, a: Source, b: Source)
    requires icaoA != icaoB && (a == BleSim) != (b == BleSim)
    ensures TriggerOther(icaoA, icaoB, a, b) == (if a == BleSim then icaoB else icaoA) <==> !StrLe(icaoA, icaoB)
  {
  }

  lemma SameFind(a: seq<TrackedPair>, b: seq<TrackedPair>, key: Key)
    requires |a| == |b| && forall i :: 0 <= i < |a| ==> a[i].key == b[i].key
    ensures FindPair(a, key) == FindPair(b, key)
  {
    var k, m := FindPair(a, key), FindPair(b, key);
    if k >= 0 { assert b[k].key == key; }
    if m >= 0 { assert a[m].key == key; }
  }

  lemma FoldSnoc(s: Scan, obs: seq<Sighting>, g: Sighting)
    requires s.Ok()
    ensures Fold(s, obs + [g]) == Step(Fold(s, obs), g)
  {
    assert (obs + [g])[..|obs|] == obs;
  }
}

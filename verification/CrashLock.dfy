/** The crash lock over runs of ticks. */
module CrashLock {
  import opened Basics
  import opened AircraftDbSpec
  import opened Approach
  import opened TrackerSpec
  import opened TrackerRuns
  import opened TrackerEntries

  function RunTicks(st: State, ticks: seq<seq<Sighting>>): (st': State)
    requires st.Ok()
    ensures st'.Ok()
  {
    if ticks == [] then st else Tick(RunTicks(st, ticks[..|ticks| - 1]), ticks[|ticks| - 1])
  }

  lemma {:induction false} RunTicksTable(st: State, ticks: seq<seq<Sighting>>)
    requires st.Ok() && TableInv(st.pairs) && forall t :: t in ticks ==> FromScan(t)
    ensures TableInv(RunTicks(st, ticks).pairs)
  {
    hide TableInv, Tick;
    if ticks != [] {
      RunTicksTable(st, ticks[..|ticks| - 1]);
      assert ticks[|ticks| - 1] in ticks;
      TickKeepsTable(RunTicks(st, ticks[..|ticks| - 1]), ticks[|ticks| - 1]);
    }
  }

  // ---- arming the lock --------------------------------------------------------------

  /** A tick on which a tracked, unlocked pair enters CRASH (or a new pair enters at CRASH) leaves
      it at CRASH, locked until 15 s after the uptime read for it. */
  lemma TransitionArmsLock(st: State, obs: seq<Sighting>, key: Key, g: Sighting)
    requires st.Ok() && TableInv(st.pairs) && FromScan(obs)
    requires Hit(obs, key) == Some(g) && g.level == Crash
    requires match EntryOf(st.pairs, key)
             case Some(e) => e.level != Crash && !Locked(e, g.now)
             case None => g in Newcomers(st.pairs, obs)
    ensures var e' := EntryOf(Tick(st, obs).pairs, key);
            e'.Some? && e'.value.level == Crash && e'.value.crashUntil == g.now + CRASH_LOCK_MS
  {
    TickEntry(st, obs, key);
    hide TableInv, FromScan, Tick, Newcomers, Hit;
  }

  // ---- while it holds ---------------------------------------------------------------

  lemma StepEvents(s: Scan, g: Sighting, key: Key)
    requires s.Ok()
    requires g.key == key ==> g.level == Clear || match EntryOf(s.pairs, key) { case Some(e) => Locked(e, g.now) case None => false }
    ensures EventsOf(Step(s, g).log, key) == EventsOf(s.log, key)
    ensures EntryOf(Step(s, g).pairs, key) == EntryOf(s.pairs, key) || (EntryOf(s.pairs, key).None? && g.key != key)
  {
    StepLog(s, g);
    StepTable(s, g);
    hide Step, TouchEvents, CrashEvents, EventsOf, Touch, Locked;
    var s', k := Step(s, g), FindPair(s.pairs, g.key);
    var evs := s'.log[|s.log|..];
    if g.key != key {
      StepQuiet(s, g, key);
      EventsAppend(s.log, evs, key);
      EventsElsewhere(evs, key);
      assert s.log + evs == s'.log;
      StepOther(s, g, key);
    } else if k >= 0 {
      assert s'.pairs == s.pairs;
    }
  }

  ghost predicate LockedThrough(e: TrackedPair, obs: seq<Sighting>) {
    forall g :: g in obs && g.key == e.key ==> Locked(e, g.now)
  }

  lemma {:induction false} FoldLocked(s: Scan, obs: seq<Sighting>, key: Key, e: TrackedPair)
    requires s.Ok() && EntryOf(s.pairs, key) == Some(e) && e.key == key && LockedThrough(e, obs)
    ensures EntryOf(Fold(s, obs).pairs, key) == Some(e)
    ensures EventsOf(Fold(s, obs).log, key) == EventsOf(s.log, key)
  {
    hide Step, EventsOf, EntryOf, Locked;
    if obs != [] {
      var init, g := obs[..|obs| - 1], obs[|obs| - 1];
      assert g in obs;
      FoldLocked(s, init, key, e);
      StepEvents(Fold(s, init), g, key);
    }
  }

  /** One tick inside the lock window. The pair stays, untouched and without any frame, exactly if
      the tick classified it non-CLEAR; otherwise it gets one CLEAR frame and is dropped, because
      the code tests for CLEAR before it looks at the lock. */
  lemma LockedTick(st: State, obs: seq<Sighting>, key: Key, e: TrackedPair)
    requires st.Ok() && TableInv(st.pairs) && FromScan(obs)
    requires EntryOf(st.pairs, key) == Some(e) && LockedThrough(e, obs)
    ensures var st' := Tick(st, obs);
            if Hit(obs, key).Some? then
              EntryOf(st'.pairs, key) == Some(e) && EventsOf(st'.log, key) == EventsOf(st.log, key)
            else
              EntryOf(st'.pairs, key) == None && EventsOf(st'.log, key) == EventsOf(st.log, key) + [ClearFrame(e)]
  {
    hide TableInv, FromScan, Fold, Sweep, Hit, EventsOf, Seen, Touch, Newcomers, Locked;
    var s := Fold(st.Begin(), obs);
    FoldLocked(st.Begin(), obs, key, e);
    var k, m := ScanPlace(st, obs, key);
    SweepEntry(s.pairs, s.seen, s.log, |s.pairs|, key, m);
  }

  /** After n ticks the pair is still there, unchanged. */
  ghost predicate HeldAfter(st: State, ticks: seq<seq<Sighting>>, key: Key, e: TrackedPair, n: nat)
    requires st.Ok() && n <= |ticks|
  {
    EntryOf(RunTicks(st, ticks[..n]).pairs, key) == Some(e)
  }

  lemma {:induction false} HeldWhileSeen(st: State, ticks: seq<seq<Sighting>>, key: Key, e: TrackedPair)
    requires st.Ok() && TableInv(st.pairs) && (forall t :: t in ticks ==> FromScan(t) && LockedThrough(e, t))
    requires EntryOf(st.pairs, key) == Some(e) && forall t :: t in ticks ==> Hit(t, key).Some?
    ensures EntryOf(RunTicks(st, ticks).pairs, key) == Some(e)
    ensures EventsOf(RunTicks(st, ticks).log, key) == EventsOf(st.log, key)
  {
    hide TableInv, FromScan, LockedThrough, Tick, Hit, EventsOf, EntryOf;
    if ticks != [] {
      var init, t := ticks[..|ticks| - 1], ticks[|ticks| - 1];
      assert t in ticks;
      HeldWhileSeen(st, init, key, e);
      RunTicksTable(st, init);
      LockedTick(RunTicks(st, init), t, key, e);
    }
  }

  /** The crash lock. For a pair whose ticks all fall inside its lock window, the pair stays at its
      locked entry after every one of them if and only if every one of them classifies it
      non-CLEAR; and then it gets no frame of any kind. */
  lemma LockHolds(st: State, ticks: seq<seq<Sighting>>, key: Key, e: TrackedPair)
    requires st.Ok() && TableInv(st.pairs) && (forall t :: t in ticks ==> FromScan(t) && LockedThrough(e, t))
    requires EntryOf(st.pairs, key) == Some(e)
    ensures (forall n: nat | n <= |ticks| :: HeldAfter(st, ticks, key, e, n)) <==> (forall t :: t in ticks ==> Hit(t, key).Some?)
    ensures (forall t :: t in ticks ==> Hit(t, key).Some?) ==> EventsOf(RunTicks(st, ticks).log, key) == EventsOf(st.log, key)
  {
    hide TableInv, FromScan, LockedThrough, Tick, Hit, EventsOf, EntryOf, RunTicks;
    if forall t :: t in ticks ==> Hit(t, key).Some? {
      HeldWhileSeen(st, ticks, key, e);
      forall n: nat | n <= |ticks|
        ensures HeldAfter(st, ticks, key, e, n)
      {
        HeldWhileSeen(st, ticks[..n], key, e);
      }
    } else {
      var t :| t in ticks && Hit(t, key).None?;
      var n :| 0 <= n < |ticks| && ticks[n] == t;
      DroppedAt(st, ticks, key, e, n);
    }
  }

  lemma DroppedAt(st: State, ticks: seq<seq<Sighting>>, key: Key, e: TrackedPair, n: nat)
    requires st.Ok() && TableInv(st.pairs) && (forall t :: t in ticks ==> FromScan(t) && LockedThrough(e, t))
    requires n < |ticks| && Hit(ticks[n], key).None?
    ensures !(HeldAfter(st, ticks, key, e, n) && HeldAfter(st, ticks, key, e, n + 1))
  {
    hide TableInv, FromScan, LockedThrough, Tick, Hit, EventsOf;
    assert ticks[..n + 1][..n] == ticks[..n] && ticks[..n + 1][n] == ticks[n];
    if HeldAfter(st, ticks, key, e, n) {
      RunTicksTable(st, ticks[..n]);
      LockedTick(RunTicks(st, ticks[..n]), ticks[n], key, e);
    }
  }

  /** The lock does not hold "regardless of geometry": two aircraft that merely stop moving
      relative to each other are CLEAR at any distance, collided or not. */
  lemma MatchedVelocitiesAreClear(a: SnapRow, b: SnapRow, geo: Geo)
    requires a.vNorth == b.vNorth && a.vEast == b.vEast
    ensures PairLevel(a, b, geo) == Clear
  {
    hide Geo.Length, Metres;
    var r := Relative(a, b, geo.scale);
    assert Norm2(r.vx, r.vy) == 0.0;
  }

  // ---- the repair: test the lock before CLEAR ---------------------------------------

  /** One scanned pair of the repaired detector. */
  function StepLockFirst(s: Scan, g: Sighting): (s': Scan)
    requires s.Ok()
    ensures s'.Ok()
  {
    var k := FindPair(s.pairs, g.key);
    if k >= 0 && Locked(s.pairs[k], g.now) then s.(seen := s.seen[k := true]) else Step(s, g)
  }

  function FoldLockFirst(s: Scan, obs: seq<Sighting>): (s': Scan)
    requires s.Ok()
    ensures s'.Ok()
  {
    if obs == [] then s else StepLockFirst(FoldLockFirst(s, obs[..|obs| - 1]), obs[|obs| - 1])
  }

  function TickLockFirst(st: State, obs: seq<Sighting>): State
    requires st.Ok()
  {
    Finish(FoldLockFirst(st.Begin(), obs))
  }

  predicate Scanned(obs: seq<Sighting>, key: Key) { exists i :: 0 <= i < |obs| && obs[i].key == key }

  /** A scanned pair leaves another pair's place and mark alone. */
  lemma StepElsewhere(s: Scan, g: Sighting, key: Key, k: nat)
    requires s.Ok() && k < |s.pairs| && k == FindPair(s.pairs, key) && g.key != key
    ensures var s' := Step(s, g); k < |s'.pairs| && k == FindPair(s'.pairs, key) && s'.seen[k] == s.seen[k]
  {
    StepTable(s, g);
    hide Step, Touch, Locked;
    var m := FindPair(s.pairs, g.key);
    if m >= 0 {
      SameKey(s.pairs[m], g);
    }
    FirstFind(s.pairs, Step(s, g).pairs, key);
  }

  lemma {:induction false} FoldLockFirstHeld(s: Scan, obs: seq<Sighting>, key: Key, e: TrackedPair, k: nat)
    requires s.Ok() && TableInv(s.pairs) && (forall g :: g in obs ==> StrLe(g.key.lo, g.key.hi))
    requires k < |s.pairs| && k == FindPair(s.pairs, key) && s.pairs[k] == e && LockedThrough(e, obs)
    ensures var s' := FoldLockFirst(s, obs);
            && TableInv(s'.pairs) && k < |s'.pairs| && k == FindPair(s'.pairs, key) && s'.pairs[k] == e
            && s'.seen[k] == (s.seen[k] || Scanned(obs, key))
            && EventsOf(s'.log, key) == EventsOf(s.log, key)
  {
    hide Step, EventsOf, Locked, TableInv;
    if obs != [] {
      var init, g := obs[..|obs| - 1], obs[|obs| - 1];
      assert g in obs;
      FoldLockFirstHeld(s, init, key, e, k);
      var c := FoldLockFirst(s, init);
      assert Scanned(obs, key) == (Scanned(init, key) || g.key == key);
      if g.key != key {
        StepKeepsTable(c, g);
        StepEvents(c, g, key);
        StepElsewhere(c, g, key, k);
      }
    }
  }

  /** With the lock tested first it holds regardless of geometry: through the lock window the pair
      stays CRASH, with no frame at all, on every tick that scans it at any level; it can only still
      end when one of its two aircraft drops out of the snapshot. */
  lemma LockFirstHolds(st: State, obs: seq<Sighting>, key: Key, e: TrackedPair)
    requires st.Ok() && TableInv(st.pairs) && FromScan(obs)
    requires EntryOf(st.pairs, key) == Some(e) && LockedThrough(e, obs)
    ensures var st' := TickLockFirst(st, obs);
            if Scanned(obs, key) then
              EntryOf(st'.pairs, key) == Some(e) && EventsOf(st'.log, key) == EventsOf(st.log, key)
            else
              EntryOf(st'.pairs, key) == None && EventsOf(st'.log, key) == EventsOf(st.log, key) + [ClearFrame(e)]
  {
    hide TableInv, FoldLockFirst, Sweep, EventsOf, Scanned, LockedThrough;
    var k: nat := FindPair(st.pairs, key);
    FoldLockFirstHeld(st.Begin(), obs, key, e, k);
    var s := FoldLockFirst(st.Begin(), obs);
    SweepEntry(s.pairs, s.seen, s.log, |s.pairs|, key, k);
  }
}

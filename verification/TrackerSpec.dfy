/** The detector's tick as a value: the table of tracked pairs, the per-slot diversions, and the
    frames sent, with what one scanned pair and one closing sweep do to them. */
module TrackerSpec {
  import opened Basics
  import opened AircraftDbSpec
  import opened Approach

  const MAX_TRACKED := 32
  const BLE_GAP_MS := 3000
  const CRASH_LOCK_MS := 15000
  const MISSILE: Icao := "m1s51l"
  const GHOST: Icao := "gh05t1"

  datatype Diversion = Left | Right | Climb | Descend | Rtb | Hold

  // ---- pair keys --------------------------------------------------------------------

  datatype Key = Key(lo: Icao, hi: Icao)

  /** `strcmp(a, b) <= 0`. */
  predicate StrLe(a: string, b: string) {
    if a == "" then true
    else if b == "" then false
    else if a[0] != b[0] then a[0] < b[0]
    else StrLe(a[1..], b[1..])
  }

  function PairKey(a: Icao, b: Icao): Key {
    if StrLe(a, b) then Key(a, b) else Key(b, a)
  }

  lemma {:induction false} StrLeTotal(a: string, b: string)
    ensures StrLe(a, b) || StrLe(b, a)
    ensures StrLe(a, b) && StrLe(b, a) ==> a == b
  {
    if a != "" && b != "" && a[0] == b[0] {
      StrLeTotal(a[1..], b[1..]);
      assert a == [a[0]] + a[1..] && b == [b[0]] + b[1..];
    }
  }

  /** The key names the unordered pair, its two sides in order. */
  lemma PairKeyUnordered(a: Icao, b: Icao, c: Icao, d: Icao)
    ensures StrLe(PairKey(a, b).lo, PairKey(a, b).hi)
    ensures PairKey(a, b) == PairKey(c, d) <==> (a == c && b == d) || (a == d && b == c)
  {
    StrLeTotal(a, b);
    StrLeTotal(c, d);
  }

  // ---- tracked pairs and frames -----------------------------------------------------

  /** `diversion` is what the JSON frames carry; None is the empty string. */
  datatype TrackedPair = TrackedPair(key: Key, level: Level, diversion: Option<Diversion>, lastBle: int, crashUntil: int)

  /** The threat seen from the simulator's side of a pair, and the diversion picked against it. */
  datatype SimSide = SimSide(threat: Icao, pick: Diversion)

  /** One pair of the scan: its key, level, geometry, the uptime read for it, and its simulator side. */
  datatype Sighting = Sighting(key: Key, level: Level, app: Approach, now: int, sim: Option<SimSide>)

  /** Everything that leaves the detector, in order. */
  datatype Event =
    | Json(key: Key, level: Level, app: Approach, diversion: Option<Diversion>)
    | BleDiversion(key: Key, threat: Icao, d: Diversion, at: int)
    | BleWarning(key: Key, at: int)
    | BleCrash(key: Key, other: Icao, at: int)
    | CancelMissile(key: Key)
    | StopGhost(key: Key)

  /** `seen[i]` marks pairs[i] as classified non-CLEAR this tick. */
  datatype Scan = Scan(pairs: seq<TrackedPair>, slots: seq<Diversion>, seen: seq<bool>, ghostActive: bool, log: seq<Event>) {
    predicate Ok() {
      |pairs| <= MAX_TRACKED && |slots| == MAX_TRACKED && |seen| == |pairs|
    }
  }

  function FindPair(pairs: seq<TrackedPair>, key: Key): (k: int)
    ensures -1 <= k < |pairs|
    ensures k >= 0 ==> pairs[k].key == key
    ensures forall j :: 0 <= j < (if k < 0 then |pairs| else k) ==> pairs[j].key != key
  {
    if pairs == [] then -1
    else
      var last := |pairs| - 1;
      var k := FindPair(pairs[..last], key);
      if k >= 0 then k else if pairs[last].key == key then last else -1
  }

  function Flags(n: nat, b: bool): (s: seq<bool>)
    ensures |s| == n && forall i :: 0 <= i < n ==> s[i] == b
  {
    seq(n, _ => b)
  }

  predicate Locked(e: TrackedPair, now: int) { e.crashUntil > now }

  function Born(g: Sighting): TrackedPair { TrackedPair(g.key, g.level, None, 0, 0) }

  /** Did the pair leave CLEAR with this sighting? A new pair counts as coming from CLEAR. */
  function PrevLevel(e: TrackedPair, isNew: bool): Level { if isNew then Clear else e.level }

  predicate SendDue(e: TrackedPair, g: Sighting, isNew: bool) {
    g.sim.Some? && (PrevLevel(e, isNew) == Clear || g.now - e.lastBle > BLE_GAP_MS)
  }

  predicate PicksDiversion(e: TrackedPair, g: Sighting, isNew: bool) {
    PrevLevel(e, isNew) == Clear && g.sim.Some?
  }

  /** The entry after an unlocked non-CLEAR sighting. */
  function Touch(e: TrackedPair, g: Sighting, isNew: bool): TrackedPair {
    TrackedPair(e.key, g.level,
                if PicksDiversion(e, g, isNew) then Some(g.sim.value.pick) else e.diversion,
                if SendDue(e, g, isNew) then g.now else e.lastBle,
                if g.level == Crash && PrevLevel(e, isNew) != Crash then g.now + CRASH_LOCK_MS else e.crashUntil)
  }

  /** The terminal frame and the cancellations on entering CRASH. */
  function CrashEvents(g: Sighting, prev: Level): seq<Event> {
    if g.level == Crash && prev != Crash then
      [BleCrash(g.key, if g.sim.Some? then g.sim.value.threat else g.key.lo, g.now)]
      + (if g.key.lo == MISSILE || g.key.hi == MISSILE then [CancelMissile(g.key)] else [])
      + (if g.key.lo == GHOST || g.key.hi == GHOST then [StopGhost(g.key)] else [])
    else []
  }

  predicate StopsGhost(g: Sighting, prev: Level) {
    g.level == Crash && prev != Crash && (g.key.lo == GHOST || g.key.hi == GHOST)
  }

  /** The diversion and warning frames, sent together. */
  function SendEvents(g: Sighting, d: Diversion): seq<Event>
    requires g.sim.Some?
  {
    [BleDiversion(g.key, g.sim.value.threat, d, g.now)]
    + if g.level == Warning || g.level == Crash then [BleWarning(g.key, g.now)] else []
  }

  /** Frames for an unlocked non-CLEAR sighting of a tracked pair whose slot holds diversion `d`. */
  function TouchEvents(e: TrackedPair, g: Sighting, isNew: bool, d: Diversion): seq<Event> {
    [Json(g.key, g.level, g.app, if isNew then None else e.diversion)]
    + (if SendDue(e, g, isNew) then SendEvents(g, d) else [])
    + CrashEvents(g, PrevLevel(e, isNew))
  }

  /** One scanned pair. */
  function Step(s: Scan, g: Sighting): (s': Scan)
    requires s.Ok()
    ensures s'.Ok()
  {
    var k := FindPair(s.pairs, g.key);
    if g.level == Clear then s
    else if k >= 0 && Locked(s.pairs[k], g.now) then s.(seen := s.seen[k := true])
    else if k >= 0 then
      var e := s.pairs[k];
      var slots := if PicksDiversion(e, g, false) then s.slots[k := g.sim.value.pick] else s.slots;
      Scan(s.pairs[k := Touch(e, g, false)], slots, s.seen[k := true],
           s.ghostActive && !StopsGhost(g, e.level), s.log + TouchEvents(e, g, false, slots[k]))
    else if |s.pairs| < MAX_TRACKED then
      var n, e := |s.pairs|, Born(g);
      var slots := if PicksDiversion(e, g, true) then s.slots[n := g.sim.value.pick] else s.slots;
      Scan(s.pairs + [Touch(e, g, true)], slots, s.seen + [true],
           s.ghostActive && !StopsGhost(g, Clear), s.log + TouchEvents(e, g, true, slots[n]))
    else
      s.(ghostActive := s.ghostActive && !StopsGhost(g, Clear), log := s.log + CrashEvents(g, Clear))
  }

  function Fold(s: Scan, obs: seq<Sighting>): (s': Scan)
    requires s.Ok()
    ensures s'.Ok()
  {
    if obs == [] then s else Step(Fold(s, obs[..|obs| - 1]), obs[|obs| - 1])
  }

  const GONE := Approach(None, 0.0, 0.0, true, 0, false)

  function ClearFrame(e: TrackedPair): Event { Json(e.key, Clear, GONE, None) }

  function Remove<T>(s: seq<T>, i: nat): (r: seq<T>)
    requires i < |s|
    ensures |r| == |s| - 1
  {
    s[..i] + s[i + 1..]
  }

  /** The backward sweep below index i: every unseen pair gets a CLEAR frame and is removed; the
      marks and the diversions stay where they are. */
  function Sweep(pairs: seq<TrackedPair>, seen: seq<bool>, log: seq<Event>, i: nat): (seq<TrackedPair>, seq<Event>)
    requires i <= |pairs| && i <= |seen|
  {
    if i == 0 then (pairs, log)
    else if seen[i - 1] then Sweep(pairs, seen, log, i - 1)
    else Sweep(Remove(pairs, i - 1), seen, log + [ClearFrame(pairs[i - 1])], i - 1)
  }

  /** The detector between ticks. */
  datatype State = State(pairs: seq<TrackedPair>, slots: seq<Diversion>, ghostActive: bool, log: seq<Event>) {
    predicate Ok() { |pairs| <= MAX_TRACKED && |slots| == MAX_TRACKED }

    function Begin(): (s: Scan)
      requires Ok()
      ensures s.Ok()
    {
      Scan(pairs, slots, Flags(|pairs|, false), ghostActive, log)
    }
  }

  function Finish(s: Scan): State
    requires s.Ok()
  {
    var (pairs, log) := Sweep(s.pairs, s.seen, s.log, |s.pairs|);
    State(pairs, s.slots, s.ghostActive, log)
  }

  /** One tick over the pairs of a snapshot. */
  function Tick(st: State, obs: seq<Sighting>): (st': State)
    requires st.Ok()
    ensures st'.Ok()
  {
    var s := Fold(st.Begin(), obs);
    SweepShrinks(s.pairs, s.seen, s.log, |s.pairs|);
    Finish(s)
  }

  lemma SweepShrinks(pairs: seq<TrackedPair>, seen: seq<bool>, log: seq<Event>, i: nat)
    requires i <= |pairs| && i <= |seen|
    ensures |Sweep(pairs, seen, log, i).0| <= |pairs|
  {
  }

  // ---- the table after a tick, in closed form ---------------------------------------

  ghost predicate DistinctPairs(pairs: seq<TrackedPair>) {
    forall i, j :: 0 <= i < j < |pairs| ==> pairs[i].key != pairs[j].key
  }

  ghost predicate DistinctSightings(obs: seq<Sighting>) {
    forall i, j :: 0 <= i < j < |obs| ==> obs[i].key != obs[j].key
  }

  /** The last non-CLEAR sighting of a key. */
  function Hit(obs: seq<Sighting>, key: Key): Option<Sighting> {
    if obs == [] then None
    else
      var g := obs[|obs| - 1];
      if g.key == key && g.level != Clear then Some(g) else Hit(obs[..|obs| - 1], key)
  }

  /** An old entry after the scan. */
  function Seen(e: TrackedPair, obs: seq<Sighting>): (e': TrackedPair)
    ensures e'.key == e.key
  {
    match Hit(obs, e.key)
    case None => e
    case Some(g) => if Locked(e, g.now) then e else Touch(e, g, false)
  }

  function SeenAll(pairs: seq<TrackedPair>, obs: seq<Sighting>): (r: seq<TrackedPair>)
    ensures |r| == |pairs|
  {
    seq(|pairs|, i requires 0 <= i < |pairs| => Seen(pairs[i], obs))
  }

  function Marks(pairs: seq<TrackedPair>, obs: seq<Sighting>): (r: seq<bool>)
    ensures |r| == |pairs|
  {
    seq(|pairs|, i requires 0 <= i < |pairs| => Hit(obs, pairs[i].key).Some?)
  }

  /** The first non-CLEAR sightings of untracked keys that still find room. */
  function Newcomers(pairs: seq<TrackedPair>, obs: seq<Sighting>): seq<Sighting> {
    if obs == [] then []
    else
      var rest, g := Newcomers(pairs, obs[..|obs| - 1]), obs[|obs| - 1];
      if g.level != Clear && FindPair(pairs, g.key) < 0 && |pairs| + |rest| < MAX_TRACKED then rest + [g] else rest
  }

  function Admitted(news: seq<Sighting>): (r: seq<TrackedPair>)
    ensures |r| == |news|
  {
    seq(|news|, i requires 0 <= i < |news| => Touch(Born(news[i]), news[i], true))
  }

  function Filter(pairs: seq<TrackedPair>, seen: seq<bool>): seq<TrackedPair>
    requires |pairs| == |seen|
  {
    if pairs == [] then []
    else
      var last := |pairs| - 1;
      Filter(pairs[..last], seen[..last]) + if seen[last] then [pairs[last]] else []
  }

  lemma {:induction false} HitIsSighting(obs: seq<Sighting>, key: Key)
    ensures Hit(obs, key).Some? ==> Hit(obs, key).value in obs && Hit(obs, key).value.key == key
                                    && Hit(obs, key).value.level != Clear
    ensures Hit(obs, key).None? ==> forall g :: g in obs && g.key == key ==> g.level == Clear
  {
    if obs != [] {
      HitIsSighting(obs[..|obs| - 1], key);
      assert obs == obs[..|obs| - 1] + [obs[|obs| - 1]];
    }
  }

  lemma {:induction false} NewcomersSighted(pairs: seq<TrackedPair>, obs: seq<Sighting>)
    ensures forall g :: g in Newcomers(pairs, obs) ==> g in obs && FindPair(pairs, g.key) < 0
    ensures |pairs| <= MAX_TRACKED ==> |pairs| + |Newcomers(pairs, obs)| <= MAX_TRACKED
  {
    if obs != [] {
      NewcomersSighted(pairs, obs[..|obs| - 1]);
    }
  }

  /** Find in old entries (rewritten in place) followed by newcomers. */
  lemma FindInScan(was: seq<TrackedPair>, cur: seq<TrackedPair>, news: seq<TrackedPair>, key: Key)
    requires |cur| == |was| && forall i :: 0 <= i < |was| ==> cur[i].key == was[i].key
    requires forall i :: 0 <= i < |news| ==> news[i].key != key
    ensures FindPair(cur + news, key) == FindPair(was, key)
  {
    var k, m, all := FindPair(was, key), FindPair(cur + news, key), cur + news;
    if k >= 0 {
      assert all[k].key == key;
    }
    if m >= 0 {
      assert m < |was|;
    }
  }

  lemma HitExtend(obs: seq<Sighting>, g: Sighting, key: Key)
    ensures Hit(obs + [g], key) == if g.key == key && g.level != Clear then Some(g) else Hit(obs, key)
  {
    assert (obs + [g])[..|obs|] == obs;
  }

  /** The scan leaves the old entries in place, each touched by its own sighting, then the
      newcomers in scan order; an old entry is marked exactly when it was seen non-CLEAR. */
  lemma {:induction false} FoldTable(s: Scan, obs: seq<Sighting>)
    requires s.Ok() && DistinctPairs(s.pairs) && DistinctSightings(obs)
    requires s.seen == Flags(|s.pairs|, false)
    ensures Fold(s, obs).pairs == SeenAll(s.pairs, obs) + Admitted(Newcomers(s.pairs, obs))
    ensures Fold(s, obs).seen == Marks(s.pairs, obs) + Flags(|Newcomers(s.pairs, obs)|, true)
  {
    if obs != [] {
      var init, g := obs[..|obs| - 1], obs[|obs| - 1];
      FoldTable(s, init);
      assert obs == init + [g];
      hide Step, SeenAll, Marks, Newcomers, Admitted, DistinctPairs;
      FoldTableStep(s.pairs, init, g, Fold(s, init));
    }
  }

  lemma ExtendOld(pairs: seq<TrackedPair>, init: seq<Sighting>, g: Sighting)
    requires DistinctPairs(pairs) && DistinctSightings(init + [g])
    ensures var obs, k := init + [g], FindPair(pairs, g.key);
            if g.level == Clear || k < 0 then SeenAll(pairs, obs) == SeenAll(pairs, init) && Marks(pairs, obs) == Marks(pairs, init)
            else && SeenAll(pairs, obs) == SeenAll(pairs, init)[k := if Locked(pairs[k], g.now) then pairs[k] else Touch(pairs[k], g, false)]
                 && Marks(pairs, obs) == Marks(pairs, init)[k := true]
                 && SeenAll(pairs, init)[k] == pairs[k]
  {
    hide Touch, Hit, Locked;
    var obs, k := init + [g], FindPair(pairs, g.key);
    forall i | 0 <= i < |pairs|
      ensures Hit(obs, pairs[i].key) == if g.key == pairs[i].key && g.level != Clear then Some(g) else Hit(init, pairs[i].key)
    {
      HitExtend(init, g, pairs[i].key);
    }
    HitIsSighting(init, g.key);
    assert forall j :: 0 <= j < |init| ==> obs[j] == init[j];
    assert obs[|init|] == g;
  }

  /** What one step does to the table and the marks, frames aside. */
  lemma StepTable(s: Scan, g: Sighting)
    requires s.Ok()
    ensures var s', k := Step(s, g), FindPair(s.pairs, g.key);
            if g.level == Clear then s' == s
            else if k >= 0 then
              && s'.pairs == s.pairs[k := if Locked(s.pairs[k], g.now) then s.pairs[k] else Touch(s.pairs[k], g, false)]
              && s'.seen == s.seen[k := true]
            else if |s.pairs| < MAX_TRACKED then
              s'.pairs == s.pairs + [Touch(Born(g), g, true)] && s'.seen == s.seen + [true]
            else s'.pairs == s.pairs && s'.seen == s.seen
  {
  }

  lemma UpdateLeft<T>(a: seq<T>, b: seq<T>, k: int, x: T)
    requires 0 <= k < |a|
    ensures (a + b)[k := x] == a[k := x] + b
  {
  }

  lemma FoldTableStep(pairs: seq<TrackedPair>, init: seq<Sighting>, g: Sighting, c: Scan)
    requires c.Ok() && DistinctPairs(pairs) && DistinctSightings(init + [g])
    requires c.pairs == SeenAll(pairs, init) + Admitted(Newcomers(pairs, init))
    requires c.seen == Marks(pairs, init) + Flags(|Newcomers(pairs, init)|, true)
    ensures var obs := init + [g];
            && Step(c, g).pairs == SeenAll(pairs, obs) + Admitted(Newcomers(pairs, obs))
            && Step(c, g).seen == Marks(pairs, obs) + Flags(|Newcomers(pairs, obs)|, true)
  {
    hide Step, Touch, Locked, SeenAll, Marks, DistinctSightings, DistinctPairs, Newcomers, Admitted, FindPair, Flags, Born;
    var news, k := Newcomers(pairs, init), FindPair(pairs, g.key);
    FindAmong(pairs, init, g);
    ExtendOld(pairs, init, g);
    StepTable(c, g);
    NewcomersStep(pairs, init, g);
    if g.level != Clear && k >= 0 {
      assert c.pairs[k] == SeenAll(pairs, init)[k];
      UpdateLeft(SeenAll(pairs, init), Admitted(news), k, if Locked(pairs[k], g.now) then pairs[k] else Touch(pairs[k], g, false));
      UpdateLeft(Marks(pairs, init), Flags(|news|, true), k, true);
    }
  }

  lemma NewcomersStep(pairs: seq<TrackedPair>, init: seq<Sighting>, g: Sighting)
    ensures var news, news' := Newcomers(pairs, init), Newcomers(pairs, init + [g]);
            if g.level != Clear && FindPair(pairs, g.key) < 0 && |pairs| + |news| < MAX_TRACKED then
              && Admitted(news') == Admitted(news) + [Touch(Born(g), g, true)]
              && Flags(|news'|, true) == Flags(|news|, true) + [true]
            else news' == news
  {
    hide Touch, FindPair;
    assert (init + [g])[..|init|] == init;
  }

  lemma FindAmong(pairs: seq<TrackedPair>, init: seq<Sighting>, g: Sighting)
    requires DistinctSightings(init + [g])
    ensures FindPair(SeenAll(pairs, init) + Admitted(Newcomers(pairs, init)), g.key) == FindPair(pairs, g.key)
  {
    var obs := init + [g];
    NewcomersSighted(pairs, init);
    assert forall h :: h in init ==> h.key != g.key by {
      assert forall j :: 0 <= j < |init| ==> obs[j] == init[j];
      assert obs[|init|] == g;
    }
    FindInScan(pairs, SeenAll(pairs, init), Admitted(Newcomers(pairs, init)), g.key);
  }

  // ---- the sweep is a filter --------------------------------------------------------

  /** CLEAR frames of the unseen entries below i, last entry first. */
  function ClearFrames(pairs: seq<TrackedPair>, seen: seq<bool>, i: nat): seq<Event>
    requires i <= |pairs| && i <= |seen|
  {
    if i == 0 then []
    else (if seen[i - 1] then [] else [ClearFrame(pairs[i - 1])]) + ClearFrames(pairs, seen, i - 1)
  }

  lemma {:induction false} ClearFramesPrefix(pairs: seq<TrackedPair>, pairs': seq<TrackedPair>, seen: seq<bool>, i: nat)
    requires i <= |pairs| && i <= |pairs'| && i <= |seen| && pairs[..i] == pairs'[..i]
    ensures ClearFrames(pairs, seen, i) == ClearFrames(pairs', seen, i)
  {
    if i > 0 {
      assert pairs[i - 1] == pairs[..i][i - 1] == pairs'[..i][i - 1] == pairs'[i - 1];
      assert pairs[..i - 1] == pairs[..i][..i - 1] == pairs'[..i][..i - 1] == pairs'[..i - 1];
      ClearFramesPrefix(pairs, pairs', seen, i - 1);
    }
  }

  /** Removing while walking backwards skips nothing: what is left is exactly the seen entries, in
      order, and every unseen entry got one CLEAR frame. */
  lemma {:induction false} SweepIsFilter(pairs: seq<TrackedPair>, seen: seq<bool>, log: seq<Event>, i: nat)
    requires i <= |pairs| && i <= |seen|
    ensures Sweep(pairs, seen, log, i).0 == Filter(pairs[..i], seen[..i]) + pairs[i..]
    ensures Sweep(pairs, seen, log, i).1 == log + ClearFrames(pairs, seen, i)
  {
    if i > 0 {
      assert pairs[..i][..i - 1] == pairs[..i - 1] && seen[..i][..i - 1] == seen[..i - 1];
      if seen[i - 1] {
        SweepIsFilter(pairs, seen, log, i - 1);
        assert [pairs[i - 1]] + pairs[i..] == pairs[i - 1..];
      } else {
        var rest, log' := Remove(pairs, i - 1), log + [ClearFrame(pairs[i - 1])];
        SweepIsFilter(rest, seen, log', i - 1);
        assert rest[..i - 1] == pairs[..i - 1] && rest[i - 1..] == pairs[i..];
        ClearFramesPrefix(pairs, rest, seen, i - 1);
      }
    }
  }

  lemma {:induction false} FilterAppend(a: seq<TrackedPair>, b: seq<TrackedPair>, m: seq<bool>)
    requires |a| == |m|
    ensures Filter(a + b, m + Flags(|b|, true)) == Filter(a, m) + b
  {
    var s, n := a + b, m + Flags(|b|, true);
    if b == [] {
      assert s == a && n == m;
    } else {
      var last := |s| - 1;
      assert s[..last] == a + b[..|b| - 1] && n[..last] == m + Flags(|b| - 1, true);
      FilterAppend(a, b[..|b| - 1], m);
    }
  }

  /** The tracked table after a tick: the old entries seen non-CLEAR, in order, each touched by its
      sighting, followed by the first newly non-CLEAR pairs in scan order that fit. */
  lemma TickTable(st: State, obs: seq<Sighting>)
    requires st.Ok() && DistinctPairs(st.pairs) && DistinctSightings(obs)
    ensures Tick(st, obs).pairs
         == Filter(SeenAll(st.pairs, obs), Marks(st.pairs, obs)) + Admitted(Newcomers(st.pairs, obs))
  {
    FoldTable(st.Begin(), obs);
    var s := Fold(st.Begin(), obs);
    SweepIsFilter(s.pairs, s.seen, s.log, |s.pairs|);
    assert s.pairs[..|s.pairs|] == s.pairs && s.seen[..|s.pairs|] == s.seen;
    FilterAppend(SeenAll(st.pairs, obs), Admitted(Newcomers(st.pairs, obs)), Marks(st.pairs, obs));
  }

  // ---- what every step keeps --------------------------------------------------------

  /** Keys distinct and in order, no tracked pair at CLEAR, capacities respected. */
  ghost predicate TableInv(pairs: seq<TrackedPair>) {
    && DistinctPairs(pairs)
    && forall i :: 0 <= i < |pairs| ==> pairs[i].level != Clear && StrLe(pairs[i].key.lo, pairs[i].key.hi)
  }

  lemma StepKeepsTable(s: Scan, g: Sighting)
    requires s.Ok() && TableInv(s.pairs) && StrLe(g.key.lo, g.key.hi)
    ensures TableInv(Step(s, g).pairs)
  {
  }

  lemma {:induction false} FoldKeepsTable(s: Scan, obs: seq<Sighting>)
    requires s.Ok() && TableInv(s.pairs) && forall g :: g in obs ==> StrLe(g.key.lo, g.key.hi)
    ensures TableInv(Fold(s, obs).pairs)
  {
    hide TableInv, Step;
    if obs != [] {
      FoldKeepsTable(s, obs[..|obs| - 1]);
      StepKeepsTable(Fold(s, obs[..|obs| - 1]), obs[|obs| - 1]);
    }
  }

  lemma RemoveFind(pairs: seq<TrackedPair>, i: nat, key: Key)
    requires DistinctPairs(pairs) && i < |pairs|
    ensures FindPair(Remove(pairs, i), key) >= 0 <==> FindPair(pairs, key) >= 0 && key != pairs[i].key
  {
    var rest := Remove(pairs, i);
    var k, m := FindPair(pairs, key), FindPair(rest, key);
    if m >= 0 {
      assert rest[m] == pairs[if m < i then m else m + 1];
    }
    if k >= 0 && k != i {
      assert rest[if k < i then k else k - 1] == pairs[k];
    }
  }

  lemma RemoveKeepsTable(pairs: seq<TrackedPair>, i: nat)
    requires TableInv(pairs) && i < |pairs|
    ensures TableInv(Remove(pairs, i))
  {
    var rest := Remove(pairs, i);
    assert forall j :: 0 <= j < |rest| ==> rest[j] == pairs[if j < i then j else j + 1];
  }

  lemma {:induction false} SweepKeepsTable(pairs: seq<TrackedPair>, seen: seq<bool>, log: seq<Event>, i: nat)
    requires i <= |pairs| && i <= |seen| && TableInv(pairs)
    ensures TableInv(Sweep(pairs, seen, log, i).0)
  {
    hide TableInv;
    if i > 0 {
      if seen[i - 1] {
        SweepKeepsTable(pairs, seen, log, i - 1);
      } else {
        RemoveKeepsTable(pairs, i - 1);
        SweepKeepsTable(Remove(pairs, i - 1), seen, log + [ClearFrame(pairs[i - 1])], i - 1);
      }
    }
  }

  /** Over every tick the tracked keys stay distinct and sorted, and none is at CLEAR. */
  lemma TickKeepsTable(st: State, obs: seq<Sighting>)
    requires st.Ok() && TableInv(st.pairs) && forall g :: g in obs ==> StrLe(g.key.lo, g.key.hi)
    ensures TableInv(Tick(st, obs).pairs)
  {
    FoldKeepsTable(st.Begin(), obs);
    var s := Fold(st.Begin(), obs);
    SweepKeepsTable(s.pairs, s.seen, s.log, |s.pairs|);
  }
}

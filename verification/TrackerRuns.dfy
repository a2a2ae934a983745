/** Whole runs of the detector: its table and the frame protocol. */
module TrackerRuns {
  import opened Basics
  import opened AircraftDbSpec
  import opened Approach
  import opened TrackerSpec

  // ---- runs -------------------------------------------------------------------------

  /** `collision_ghost_start` while a ghost flies: every tracked pair naming the ghost is dropped,
      walking backwards, without a frame. */
  function DropGhost(pairs: seq<TrackedPair>, i: nat): (rest: seq<TrackedPair>)
    requires i <= |pairs|
    ensures |rest| <= |pairs|
  {
    if i == 0 then pairs
    else if pairs[i - 1].key.lo == GHOST || pairs[i - 1].key.hi == GHOST then DropGhost(Remove(pairs, i - 1), i - 1)
    else DropGhost(pairs, i - 1)
  }

  datatype Action =
    | DoTick(obs: seq<Sighting>)
    | DoGhostStart
    | DoGhostStop
    | DoCrashTrigger(key: Key, app: Approach, other: Icao, at: int)

  function Act(st: State, a: Action): (st': State)
    requires st.Ok()
    ensures st'.Ok()
  {
    match a
    case DoTick(obs) => Tick(st, obs)
    case DoGhostStart =>
      st.(pairs := if st.ghostActive then DropGhost(st.pairs, |st.pairs|) else st.pairs, ghostActive := true)
    case DoGhostStop => st.(ghostActive := false)
    case DoCrashTrigger(key, app, other, at) =>
      st.(log := st.log + [Json(key, Crash, app, None), BleCrash(key, other, at)])
  }

  function Start(): (st: State)
    ensures st.Ok()
  {
    State([], seq(MAX_TRACKED, _ => Left), false, [])
  }

  function RunActions(actions: seq<Action>): (st: State)
    ensures st.Ok()
  {
    if actions == [] then Start() else Act(RunActions(actions[..|actions| - 1]), actions[|actions| - 1])
  }

  lemma RunSnoc(actions: seq<Action>)
    requires actions != []
    ensures RunActions(actions) == Act(RunActions(actions[..|actions| - 1]), actions[|actions| - 1])
  {
  }

  /** Sightings come from a scan of distinct aircraft: ordered keys, none twice. */
  ghost predicate FromScan(obs: seq<Sighting>) {
    DistinctSightings(obs) && forall g :: g in obs ==> StrLe(g.key.lo, g.key.hi)
  }

  ghost predicate FromScans(actions: seq<Action>) {
    forall a :: a in actions && a.DoTick? ==> FromScan(a.obs)
  }

  lemma PrefixScans(actions: seq<Action>, n: nat)
    requires FromScans(actions) && n <= |actions|
    ensures FromScans(actions[..n])
  {
  }

  predicate NamesGhost(key: Key) { key.lo == GHOST || key.hi == GHOST }

  /** A ghost start that drops the pair: only one that finds a ghost flying, and the pair tracked. */
  predicate Drops(st: State, a: Action, key: Key) {
    a.DoGhostStart? && st.ghostActive && NamesGhost(key) && Tracked(st.pairs, key)
  }

  /** No ghost start dropped the pair. */
  ghost predicate Undropped(actions: seq<Action>, key: Key) {
    forall n: nat | n < |actions| :: !Drops(RunActions(actions[..n]), actions[n], key)
  }

  lemma UndroppedSnoc(actions: seq<Action>, key: Key)
    requires actions != []
    ensures var init, a := actions[..|actions| - 1], actions[|actions| - 1];
            Undropped(actions, key) <==> Undropped(init, key) && !Drops(RunActions(init), a, key)
  {
    hide RunActions, Drops;
    var init := actions[..|actions| - 1];
    forall n: nat | n < |init|
      ensures actions[..n] == init[..n] && actions[n] == init[n]
    {
    }
  }

  /** No manual trigger emitted a frame about the pair. */
  ghost predicate Untriggered(actions: seq<Action>, key: Key) {
    forall a :: a in actions && a.DoCrashTrigger? ==> a.key != key
  }

  predicate Tracked(pairs: seq<TrackedPair>, key: Key) { FindPair(pairs, key) >= 0 }

  lemma {:induction false} DropGhostKeeps(pairs: seq<TrackedPair>, i: nat, key: Key)
    requires TableInv(pairs) && i <= |pairs|
    ensures TableInv(DropGhost(pairs, i))
    ensures Tracked(DropGhost(pairs, i), key) ==> Tracked(pairs, key)
    ensures !NamesGhost(key) ==> Tracked(DropGhost(pairs, i), key) == Tracked(pairs, key)
    ensures NamesGhost(key) && FindPair(pairs, key) < i ==> !Tracked(DropGhost(pairs, i), key)
  {
    hide TableInv;
    if i > 0 {
      if pairs[i - 1].key.lo == GHOST || pairs[i - 1].key.hi == GHOST {
        RemoveKeepsTable(pairs, i - 1);
        TableDistinct(pairs);
        RemoveFind(pairs, i - 1, key);
        DropGhostKeeps(Remove(pairs, i - 1), i - 1, key);
      } else {
        DropGhostKeeps(pairs, i - 1, key);
      }
    }
  }

  lemma TableDistinct(pairs: seq<TrackedPair>)
    requires TableInv(pairs)
    ensures DistinctPairs(pairs)
  {
  }

  lemma {:induction false} RunKeepsTable(actions: seq<Action>)
    requires FromScans(actions)
    ensures TableInv(RunActions(actions).pairs)
  {
    hide Tick;
    if actions != [] {
      var init, a := actions[..|actions| - 1], actions[|actions| - 1];
      assert a in actions;
      RunKeepsTable(init);
      var st := RunActions(init);
      match a {
        case DoTick(obs) => TickKeepsTable(st, obs);
        case DoGhostStart => DropGhostKeeps(st.pairs, |st.pairs|, Key("", ""));
        case _ =>
      }
    }
  }

  // ---- the frame protocol -----------------------------------------------------------

  predicate FrameOf(e: Event, key: Key) { e.Json? && e.key == key }

  /** The last frame of the pair is not CLEAR: an encounter is open. */
  predicate OpenAfter(log: seq<Event>, key: Key) {
    log != [] &&
    var e := log[|log| - 1];
    if FrameOf(e, key) then e.level != Clear else OpenAfter(log[..|log| - 1], key)
  }

  /** The pair's frames are a prefix of (non-CLEAR+ CLEAR)*: a CLEAR only ever closes. */
  predicate Alternates(log: seq<Event>, key: Key) {
    log == [] ||
    var rest, e := log[..|log| - 1], log[|log| - 1];
    Alternates(rest, key) && (FrameOf(e, key) && e.level == Clear ==> OpenAfter(rest, key))
  }

  /** The frame protocol of one pair, and how it ties to the table: exactly, or one way. */
  ghost predicate Protocol(pairs: seq<TrackedPair>, log: seq<Event>, key: Key, exact: bool) {
    && Alternates(log, key)
    && (Tracked(pairs, key) ==> OpenAfter(log, key))
    && (exact && OpenAfter(log, key) ==> Tracked(pairs, key))
  }

  lemma SnocLog(log: seq<Event>, e: Event, key: Key)
    ensures OpenAfter(log + [e], key) == if FrameOf(e, key) then e.level != Clear else OpenAfter(log, key)
    ensures Alternates(log + [e], key)
        <==> Alternates(log, key) && (FrameOf(e, key) && e.level == Clear ==> OpenAfter(log, key))
  {
    assert (log + [e])[..|log|] == log;
  }

  lemma {:induction false} QuietLog(log: seq<Event>, evs: seq<Event>, key: Key)
    requires forall e :: e in evs ==> !FrameOf(e, key)
    ensures OpenAfter(log + evs, key) == OpenAfter(log, key)
    ensures Alternates(log + evs, key) == Alternates(log, key)
  {
    if evs == [] {
      assert log + evs == log;
    } else {
      var init, e := evs[..|evs| - 1], evs[|evs| - 1];
      QuietLog(log, init, key);
      SnocLog(log + init, e, key);
      assert log + evs == (log + init) + [e];
    }
  }

  /** Frames about a pair open with one non-CLEAR JSON frame and hold no other. */
  lemma TouchFrames(e: TrackedPair, g: Sighting, isNew: bool, d: Diversion)
    requires g.level != Clear
    ensures var evs := TouchEvents(e, g, isNew, d);
            && evs != [] && evs[0] == Json(g.key, g.level, g.app, if isNew then None else e.diversion)
            && (forall v :: v in evs[1..] ==> !v.Json?)
            && (forall v :: v in evs ==> v.key == g.key)
  {
    hide TouchEvents, CrashEvents, SendEvents, SendDue, PrevLevel;
    var j := Json(g.key, g.level, g.app, if isNew then None else e.diversion);
    TouchParts(e, g, isNew, d);
    SendFrames(e, g, isNew, d);
    CrashFrames(g, PrevLevel(e, isNew));
    var rest := Sends(e, g, isNew, d) + CrashEvents(g, PrevLevel(e, isNew));
    assert ([j] + rest)[1..] == rest;
  }

  function Sends(e: TrackedPair, g: Sighting, isNew: bool, d: Diversion): seq<Event> {
    if SendDue(e, g, isNew) then SendEvents(g, d) else []
  }

  lemma TouchParts(e: TrackedPair, g: Sighting, isNew: bool, d: Diversion)
    ensures TouchEvents(e, g, isNew, d)
         == [Json(g.key, g.level, g.app, if isNew then None else e.diversion)]
            + (Sends(e, g, isNew, d) + CrashEvents(g, PrevLevel(e, isNew)))
  {
    hide CrashEvents, SendEvents, PrevLevel;
  }

  lemma SendFrames(e: TrackedPair, g: Sighting, isNew: bool, d: Diversion)
    ensures forall v :: v in Sends(e, g, isNew, d) ==> !v.Json? && v.key == g.key
  {
  }

  lemma CrashFrames(g: Sighting, prev: Level)
    ensures forall v :: v in CrashEvents(g, prev) ==> !v.Json? && v.key == g.key
  {
  }

  lemma TouchProtocol(log: seq<Event>, e: TrackedPair, g: Sighting, isNew: bool, d: Diversion, key: Key)
    requires g.level != Clear
    ensures var log' := log + TouchEvents(e, g, isNew, d);
            && (Alternates(log, key) ==> Alternates(log', key))
            && OpenAfter(log', key) == (key == g.key || OpenAfter(log, key))
  {
    hide TouchEvents, Alternates, OpenAfter;
    var evs := TouchEvents(e, g, isNew, d);
    TouchFrames(e, g, isNew, d);
    SnocLog(log, evs[0], key);
    QuietLog(log + [evs[0]], evs[1..], key);
    assert log + evs == (log + [evs[0]]) + evs[1..];
  }

  /** Which pairs are tracked after one scanned pair. */
  lemma StepTracked(s: Scan, g: Sighting, key: Key)
    requires s.Ok()
    ensures var s' := Step(s, g);
            Tracked(s'.pairs, key) == (Tracked(s.pairs, key) || (key == g.key && g.level != Clear && |s.pairs| < MAX_TRACKED))
  {
    StepTable(s, g);
    hide Step, Touch, Locked;
    var s', k, m := Step(s, g), FindPair(s.pairs, g.key), FindPair(s.pairs, key);
    if m >= 0 {
      assert s'.pairs[m].key == key;
    }
    if k < 0 && g.level != Clear && |s.pairs| < MAX_TRACKED {
      TouchKey(g);
      assert s'.pairs[|s.pairs|].key == g.key;
    }
    if k >= 0 {
      SameKey(s.pairs[k], g);
    }
    var n := FindPair(s'.pairs, key);
    if n >= 0 {
      assert s'.pairs[n].key == key;
      if n < |s.pairs| { assert s.pairs[n].key == key; }
    }
  }

  lemma TouchKey(g: Sighting)
    ensures Touch(Born(g), g, true).key == g.key
  {
  }

  lemma SameKey(e: TrackedPair, g: Sighting)
    ensures Touch(e, g, false).key == e.key
  {
  }

  /** What one scanned pair appends to the log. */
  lemma StepLog(s: Scan, g: Sighting)
    requires s.Ok()
    ensures var s', k := Step(s, g), FindPair(s.pairs, g.key);
            if g.level == Clear || (k >= 0 && Locked(s.pairs[k], g.now)) then s'.log == s.log
            else if k >= 0 then s'.log == s.log + TouchEvents(s.pairs[k], g, false, s'.slots[k])
            else if |s.pairs| < MAX_TRACKED then s'.log == s.log + TouchEvents(Born(g), g, true, s'.slots[|s.pairs|])
            else s'.log == s.log + CrashEvents(g, Clear)
  {
  }

  lemma StepProtocol(s: Scan, g: Sighting, key: Key, exact: bool)
    requires s.Ok() && Protocol(s.pairs, s.log, key, exact)
    ensures Protocol(Step(s, g).pairs, Step(s, g).log, key, exact)
  {
    StepTracked(s, g, key);
    StepLog(s, g);
    hide Step, Alternates, OpenAfter, TouchEvents, CrashEvents, Locked;
    var s', k := Step(s, g), FindPair(s.pairs, g.key);
    if g.level == Clear || (k >= 0 && Locked(s.pairs[k], g.now)) {
    } else if k >= 0 {
      TouchProtocol(s.log, s.pairs[k], g, false, s'.slots[k], key);
    } else if |s.pairs| < MAX_TRACKED {
      TouchProtocol(s.log, Born(g), g, true, s'.slots[|s.pairs|], key);
    } else {
      CrashFrames(g, Clear);
      QuietLog(s.log, CrashEvents(g, Clear), key);
    }
  }

  lemma {:induction false} FoldProtocol(s: Scan, obs: seq<Sighting>, key: Key, exact: bool)
    requires s.Ok() && Protocol(s.pairs, s.log, key, exact)
    ensures Protocol(Fold(s, obs).pairs, Fold(s, obs).log, key, exact)
  {
    hide Protocol, Step;
    if obs != [] {
      FoldProtocol(s, obs[..|obs| - 1], key, exact);
      StepProtocol(Fold(s, obs[..|obs| - 1]), obs[|obs| - 1], key, exact);
    }
  }

  lemma {:induction false} SweepProtocol(pairs: seq<TrackedPair>, seen: seq<bool>, log: seq<Event>, i: nat, key: Key, exact: bool)
    requires i <= |pairs| && i <= |seen| && TableInv(pairs) && Protocol(pairs, log, key, exact)
    ensures var (pairs', log') := Sweep(pairs, seen, log, i); Protocol(pairs', log', key, exact)
  {
    hide TableInv, Alternates, OpenAfter;
    if i > 0 {
      if seen[i - 1] {
        SweepProtocol(pairs, seen, log, i - 1, key, exact);
      } else {
        var rest, e := Remove(pairs, i - 1), ClearFrame(pairs[i - 1]);
        RemoveKeepsTable(pairs, i - 1);
        TableDistinct(pairs);
        RemoveFind(pairs, i - 1, key);
        SnocLog(log, e, key);
        assert Tracked(pairs, pairs[i - 1].key) by { FindSome(pairs, i - 1); }
        SweepProtocol(rest, seen, log + [e], i - 1, key, exact);
      }
    }
  }

  lemma FindSome(pairs: seq<TrackedPair>, i: nat)
    requires i < |pairs|
    ensures FindPair(pairs, pairs[i].key) >= 0
    ensures DistinctPairs(pairs) ==> FindPair(pairs, pairs[i].key) == i
  {
  }

  /** The frame protocol over every run of ticks, ghost starts and stops, and manual crash
      triggers: for every pair the emitted frames are a prefix of (non-CLEAR+ CLEAR)* and a
      tracked pair always has an open encounter. For a pair that no restart dropped and no trigger
      named, tracked and open are the same thing. */
  lemma {:induction false} RunProtocol(actions: seq<Action>, key: Key)
    requires FromScans(actions)
    ensures Protocol(RunActions(actions).pairs, RunActions(actions).log, key, false)
    ensures Undropped(actions, key) && Untriggered(actions, key) ==>
              Protocol(RunActions(actions).pairs, RunActions(actions).log, key, true)
  {
    if actions != [] {
      var init, a := actions[..|actions| - 1], actions[|actions| - 1];
      assert a in actions;
      RunProtocol(init, key);
      RunKeepsTable(init);
      UndroppedSnoc(actions, key);
      var st := RunActions(init);
      hide TableInv, Protocol, FromScan, Undropped, Drops;
      ActProtocol(st, a, key, false);
      if Undropped(actions, key) && Untriggered(actions, key) {
        ActProtocol(st, a, key, true);
      }
    }
  }

  lemma ActProtocol(st: State, a: Action, key: Key, exact: bool)
    requires st.Ok() && TableInv(st.pairs) && Protocol(st.pairs, st.log, key, exact)
    requires a.DoTick? ==> FromScan(a.obs)
    requires exact ==> !Drops(st, a, key) && (a.DoCrashTrigger? ==> a.key != key)
    ensures Protocol(Act(st, a).pairs, Act(st, a).log, key, exact)
  {
    match a {
      case DoTick(obs) =>
        hide TableInv, Protocol, Fold, Sweep;
        FoldKeepsTable(st.Begin(), obs);
        FoldProtocol(st.Begin(), obs, key, exact);
        var s := Fold(st.Begin(), obs);
        SweepProtocol(s.pairs, s.seen, s.log, |s.pairs|, key, exact);
      case DoGhostStart => DropGhostKeeps(st.pairs, |st.pairs|, key);
      case DoGhostStop =>
      case DoCrashTrigger(k, app, other, at) =>
        var log1 := st.log + [Json(k, Crash, app, None)];
        SnocLog(st.log, Json(k, Crash, app, None), key);
        SnocLog(log1, BleCrash(k, other, at), key);
        assert Act(st, a).log == log1 + [BleCrash(k, other, at)];
    }
  }

  lemma {:induction false} OpenWitness(log: seq<Event>, key: Key) returns (j: nat)
    requires OpenAfter(log, key)
    ensures j < |log| && FrameOf(log[j], key) && log[j].level != Clear
    ensures forall m :: j < m < |log| ==> !FrameOf(log[m], key)
  {
    var last := |log| - 1;
    if FrameOf(log[last], key) {
      j := last;
    } else {
      j := OpenWitness(log[..last], key);
    }
  }

  lemma {:induction false} AlternatesPrefix(log: seq<Event>, key: Key, n: nat)
    requires Alternates(log, key) && n <= |log|
    ensures Alternates(log[..n], key)
  {
    if n == |log| {
      assert log[..n] == log;
    } else {
      AlternatesPrefix(log[..|log| - 1], key, n);
      assert log[..|log| - 1][..n] == log[..n];
    }
  }

  /** The same over positions in the log: in every run, each CLEAR frame of a pair directly follows,
      among that pair's frames, a non-CLEAR one. So a CLEAR is never the first frame and never
      repeated. */
  lemma ClearCloses(actions: seq<Action>, key: Key, i: nat) returns (j: nat)
    requires FromScans(actions) && i < |RunActions(actions).log|
    requires FrameOf(RunActions(actions).log[i], key) && RunActions(actions).log[i].level == Clear
    ensures j < i && FrameOf(RunActions(actions).log[j], key) && RunActions(actions).log[j].level != Clear
    ensures forall m :: j < m < i ==> !FrameOf(RunActions(actions).log[m], key)
  {
    hide RunActions, FromScans, Tracked, Alternates, OpenAfter;
    var log := RunActions(actions).log;
    RunProtocol(actions, key);
    AlternatesPrefix(log, key, i + 1);
    assert log[..i + 1][..i] == log[..i];
    j := OpenWitness(log[..i], key);
  }
}

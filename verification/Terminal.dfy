/** The terminal CRASH frame: how often a pair gets it. */
module Terminal {
  import opened Basics
  import opened AircraftDbSpec
  import opened Approach
  import opened TrackerSpec
  import opened TrackerRuns
  import opened TrackerEntries
  import opened PairFrames
  import opened Encounters

  predicate CrashOf(e: Event, key: Key) { e.BleCrash? && e.key == key }

  function Crashes(log: seq<Event>, key: Key): nat {
    if log == [] then 0
    else Crashes(log[..|log| - 1], key) + if CrashOf(log[|log| - 1], key) then 1 else 0
  }

  lemma {:induction false} CrashesAppend(log: seq<Event>, evs: seq<Event>, key: Key)
    ensures Crashes(log + evs, key) == Crashes(log, key) + Crashes(evs, key)
  {
    if evs == [] {
      assert log + evs == log;
    } else {
      var m := |evs| - 1;
      CrashesAppend(log, evs[..m], key);
      assert (log + evs)[..|log + evs| - 1] == log + evs[..m];
    }
  }

  lemma {:induction false} NoCrashes(evs: seq<Event>, key: Key)
    requires forall e :: e in evs ==> !CrashOf(e, key)
    ensures Crashes(evs, key) == 0
  {
    if evs != [] {
      NoCrashes(evs[..|evs| - 1], key);
      assert evs[|evs| - 1] in evs;
    }
  }

  /** They can be counted among the pair's own frames. */
  lemma {:induction false} CrashesOfEvents(log: seq<Event>, key: Key)
    ensures Crashes(EventsOf(log, key), key) == Crashes(log, key)
  {
    if log == [] {
      assert EventsOf(log, key) == [];
    } else {
      hide EventsOf;
      var rest, e := log[..|log| - 1], log[|log| - 1];
      CrashesOfEvents(rest, key);
      OneMore(rest, e, key);
      assert log == rest + [e];
      CrashesAppend(EventsOf(rest, key), if e.key == key then [e] else [], key);
      CrashesAppend(rest, [e], key);
      OneCrash(e, key);
    }
  }

  lemma OneCrash(e: Event, key: Key)
    ensures Crashes([e], key) == if CrashOf(e, key) then 1 else 0
    ensures Crashes([], key) == 0
  {
    assert [e][..0] == [];
  }

  // ---- one tick ---------------------------------------------------------------------

  /** The pair comes to CRASH from elsewhere: untracked, or tracked below CRASH and out of its lock. */
  predicate CrashEdge(e: Option<TrackedPair>, hit: Option<Sighting>) {
    hit.Some? && hit.value.level == Crash
    && match e { case None => true case Some(was) => !Locked(was, hit.value.now) && was.level != Crash }
  }

  lemma EdgeCrashes(g: Sighting, prev: Level)
    ensures Crashes(CrashEvents(g, prev), g.key) == if g.level == Crash && prev != Crash then 1 else 0
  {
    if g.level == Crash && prev != Crash {
      var other := if g.sim.Some? then g.sim.value.threat else g.key.lo;
      var missile := if g.key.lo == MISSILE || g.key.hi == MISSILE then [CancelMissile(g.key)] else [];
      var ghost' := if g.key.lo == GHOST || g.key.hi == GHOST then [StopGhost(g.key)] else [];
      OneCrash(BleCrash(g.key, other, g.now), g.key);
      NoCrashes(missile + ghost', g.key);
      CrashesAppend([BleCrash(g.key, other, g.now)], missile + ghost', g.key);
      assert CrashEvents(g, prev) == [BleCrash(g.key, other, g.now)] + (missile + ghost');
    }
  }

  lemma TouchCrashes(e: TrackedPair, g: Sighting, isNew: bool, d: Diversion)
    ensures Crashes(TouchEvents(e, g, isNew, d), g.key) == if g.level == Crash && PrevLevel(e, isNew) != Crash then 1 else 0
  {
    hide TouchEvents, CrashEvents, PrevLevel, Sends, SendEvents;
    var prev := PrevLevel(e, isNew);
    var j := Json(g.key, g.level, g.app, if isNew then None else e.diversion);
    TouchParts(e, g, isNew, d);
    EdgeCrashes(g, prev);
    OneCrash(j, g.key);
    SendsNone(e, g, isNew, d);
    NoCrashes(Sends(e, g, isNew, d), g.key);
    CrashesAppend(Sends(e, g, isNew, d), CrashEvents(g, prev), g.key);
    CrashesAppend([j], Sends(e, g, isNew, d) + CrashEvents(g, prev), g.key);
  }

  lemma SendsNone(e: TrackedPair, g: Sighting, isNew: bool, d: Diversion)
    ensures forall v :: v in Sends(e, g, isNew, d) ==> !v.BleCrash?
  {
  }

  lemma FramesCrash(e: Option<TrackedPair>, hit: Option<Sighting>, room: bool, d: Diversion, key: Key)
    requires hit.Some? ==> hit.value.key == key
    ensures Crashes(TickFrames(e, hit, room, d), key) == if CrashEdge(e, hit) then 1 else 0
  {
    hide TouchEvents, CrashEvents, Locked;
    if hit.None? {
      if e.Some? {
        OneCrash(ClearFrame(e.value), key);
      }
    } else if e.Some? {
      TouchCrashes(e.value, hit.value, false, d);
    } else if room {
      TouchCrashes(Born(hit.value), hit.value, true, d);
    } else {
      EdgeCrashes(hit.value, Clear);
    }
  }

  lemma TickCrashes(st: State, obs: seq<Sighting>, key: Key)
    requires st.Ok() && TableInv(st.pairs) && FromScan(obs)
    ensures Crashes(Tick(st, obs).log, key)
         == Crashes(st.log, key) + if CrashEdge(EntryOf(st.pairs, key), Hit(obs, key)) then 1 else 0
  {
    hide TableInv, FromScan, Tick, Hit, EventsOf, TickFrames, EntryOf, CrashEdge;
    HitIsSighting(obs, key);
    var e, hit, room := EntryOf(st.pairs, key), Hit(obs, key), EntryOf(Tick(st, obs).pairs, key).Some?;
    var d := TickEvents(st, obs, key);
    CrashesOfEvents(st.log, key);
    CrashesOfEvents(Tick(st, obs).log, key);
    CrashesAppend(EventsOf(st.log, key), TickFrames(e, hit, room, d), key);
    FramesCrash(e, hit, room, d, key);
  }

  // ---- every run --------------------------------------------------------------------

  /** Action n brings the pair to CRASH, or reports it crashed by hand. */
  ghost predicate EdgeAt(actions: seq<Action>, n: nat, key: Key)
    requires n < |actions|
  {
    match actions[n]
    case DoTick(obs) => CrashEdge(EntryOf(RunActions(actions[..n]).pairs, key), Hit(obs, key))
    case DoCrashTrigger(k, _, _, _) => k == key
    case _ => false
  }

  ghost function Edges(actions: seq<Action>, key: Key): set<nat> {
    set n: nat | n < |actions| && EdgeAt(actions, n, key) :: n
  }

  lemma EdgePrior(actions: seq<Action>, n: nat, m: nat, key: Key)
    requires n < m <= |actions|
    ensures EdgeAt(actions[..m], n, key) == EdgeAt(actions, n, key)
  {
    assert actions[..m][..n] == actions[..n];
  }

  lemma EdgesSnoc(actions: seq<Action>, key: Key)
    requires actions != []
    ensures var m := |actions| - 1;
            Edges(actions, key) == Edges(actions[..m], key) + (if EdgeAt(actions, m, key) then {m} else {})
  {
    hide EdgeAt;
    var m := |actions| - 1;
    forall n: nat | n < m
      ensures EdgeAt(actions[..m], n, key) == EdgeAt(actions, n, key)
    {
      EdgePrior(actions, n, m, key);
    }
  }

  /** Every run: the pair gets one terminal frame for each action that brings it to CRASH, whether or not
      it is tracked. */
  lemma {:induction false} CrashesAreEdges(actions: seq<Action>, key: Key)
    requires FromScans(actions)
    ensures Crashes(RunActions(actions).log, key) == |Edges(actions, key)|
  {
    if actions != [] {
      var prior, m := actions[..|actions| - 1], |actions| - 1;
      assert actions[m] in actions;
      CrashesAreEdges(prior, key);
      RunKeepsTable(prior);
      EdgesSnoc(actions, key);
      var st := RunActions(prior);
      hide TableInv, FromScan, Tick, Hit, EntryOf, CrashEdge;
      match actions[m] {
        case DoTick(obs) => TickCrashes(st, obs, key);
        case DoCrashTrigger(k, app, other, at) =>
          CrashesAppend(st.log, [Json(k, Crash, app, None), BleCrash(k, other, at)], key);
          TriggerCrash(k, app, other, at, key);
        case _ =>
      }
    }
  }

  lemma TriggerCrash(k: Key, app: Approach, other: Icao, at: int, key: Key)
    ensures Crashes([Json(k, Crash, app, None), BleCrash(k, other, at)], key) == if k == key then 1 else 0
  {
    OneCrash(Json(k, Crash, app, None), key);
    OneCrash(BleCrash(k, other, at), key);
    CrashesAppend([Json(k, Crash, app, None)], [BleCrash(k, other, at)], key);
  }

  /** So it is sent once for a pair exactly when no two actions do. */
  lemma OnceExactly(actions: seq<Action>, key: Key)
    requires FromScans(actions)
    ensures Crashes(RunActions(actions).log, key) <= 1
            <==> forall m: nat, n: nat | m < n < |actions| :: !(EdgeAt(actions, m, key) && EdgeAt(actions, n, key))
  {
    CrashesAreEdges(actions, key);
    hide EdgeAt, Crashes, RunActions;
    var s := Edges(actions, key);
    if |s| <= 1 {
      forall m: nat, n: nat | m < n < |actions| && EdgeAt(actions, m, key) && EdgeAt(actions, n, key)
        ensures false
      {
        assert {m, n} <= s;
        SubsetSize({m, n}, s);
      }
    } else {
      var m :| m in s;
      assert |s - {m}| == |s| - 1;
      var n :| n in s - {m};
      assert (m < n || n < m) && EdgeAt(actions, m, key) && EdgeAt(actions, n, key);
    }
  }

  lemma {:induction false} SubsetSize(a: set<nat>, b: set<nat>)
    requires a <= b
    ensures |a| <= |b|
  {
    if a != {} {
      var x :| x in a;
      SubsetSize(a - {x}, b - {x});
    }
  }

  // ---- coming to CRASH again --------------------------------------------------------

  /** The clock a pair's sighting is processed by. */
  function SightedAt(obs: seq<Sighting>, key: Key): int { if Hit(obs, key).Some? then Hit(obs, key).value.now else 0 }

  /** Action k sights the pair below CRASH, not before a given time. */
  ghost predicate Relaxes(actions: seq<Action>, k: nat, key: Key, from: int)
    requires k < |actions|
  {
    actions[k].DoTick? && Hit(actions[k].obs, key).Some?
    && Hit(actions[k].obs, key).value.level != Crash && Hit(actions[k].obs, key).value.now >= from
  }

  /** From m on the pair stays tracked and no action brings it to CRASH, up to action n. */
  ghost predicate Steady(actions: seq<Action>, key: Key, m: nat, n: nat) {
    && m < n <= |actions|
    && (forall k: nat | m < k <= n :: Tracked(RunActions(actions[..k]).pairs, key))
    && (forall k: nat | m < k < n :: !EdgeAt(actions, k, key))
  }

  lemma EdgeTick(st: State, obs: seq<Sighting>, key: Key)
    requires st.Ok() && TableInv(st.pairs) && FromScan(obs)
    requires CrashEdge(EntryOf(st.pairs, key), Hit(obs, key)) && EntryOf(Tick(st, obs).pairs, key).Some?
    ensures var e := EntryOf(Tick(st, obs).pairs, key).value;
            e.level == Crash && e.crashUntil == SightedAt(obs, key) + CRASH_LOCK_MS
  {
    TickEntry(st, obs, key);
    hide TableInv, FromScan, Tick, Hit, Newcomers;
  }

  lemma SteadyTick(st: State, obs: seq<Sighting>, key: Key)
    requires st.Ok() && TableInv(st.pairs) && FromScan(obs) && EntryOf(st.pairs, key).Some?
    requires !CrashEdge(EntryOf(st.pairs, key), Hit(obs, key)) && EntryOf(Tick(st, obs).pairs, key).Some?
    ensures var e, e', hit := EntryOf(st.pairs, key).value, EntryOf(Tick(st, obs).pairs, key).value, Hit(obs, key);
            && e'.crashUntil == e.crashUntil
            && (e'.level != Crash <==>
                  e.level != Crash || (hit.Some? && hit.value.level != Crash && hit.value.now >= e.crashUntil))
  {
    TickEntry(st, obs, key);
    hide TableInv, FromScan, Tick, Hit, Newcomers;
  }

  /** A pair that stays tracked over an action that does not bring it to CRASH. */
  lemma SteadyAct(actions: seq<Action>, j: nat, key: Key, until: int)
    requires FromScans(actions) && j < |actions| && !EdgeAt(actions, j, key)
    requires Tracked(RunActions(actions[..j + 1]).pairs, key)
    requires var e := EntryOf(RunActions(actions[..j]).pairs, key); e.Some? && e.value.crashUntil == until
    ensures var e, e' := EntryOf(RunActions(actions[..j]).pairs, key), EntryOf(RunActions(actions[..j + 1]).pairs, key);
            && e'.Some? && e'.value.crashUntil == until
            && (e'.value.level != Crash <==> e.value.level != Crash || Relaxes(actions, j, key, until))
  {
    ActAt(actions, j);
    var st := RunActions(actions[..j]);
    EntryTracked(RunActions(actions[..j + 1]).pairs, key);
    hide TableInv, FromScan, Tick, Hit, RunActions, DropGhost, Drops, Tracked, CrashEdge;
    match actions[j] {
      case DoTick(obs) => SteadyTick(st, obs, key);
      case DoGhostStart => GhostStartEntry(st, key);
      case _ =>
    }
  }

  lemma ActAt(actions: seq<Action>, j: nat)
    requires FromScans(actions) && j < |actions|
    ensures RunActions(actions[..j + 1]) == Act(RunActions(actions[..j]), actions[j])
    ensures TableInv(RunActions(actions[..j]).pairs) && (actions[j].DoTick? ==> FromScan(actions[j].obs))
  {
    assert actions[..j + 1][..j] == actions[..j] && actions[..j + 1][j] == actions[j] && actions[j] in actions;
    PrefixScans(actions, j);
    RunKeepsTable(actions[..j]);
    RunSnoc(actions[..j + 1]);
  }

  /** Since the pair came to CRASH at m, its lock has stood, and it has left CRASH exactly if some tick
      past the lock sighted it lower. */
  lemma {:induction false} SinceEdge(actions: seq<Action>, key: Key, m: nat, n: nat)
    requires FromScans(actions) && Steady(actions, key, m, n)
    requires actions[m].DoTick? && EdgeAt(actions, m, key)
    ensures var e, until := EntryOf(RunActions(actions[..n]).pairs, key), SightedAt(actions[m].obs, key) + CRASH_LOCK_MS;
            && e.Some? && e.value.crashUntil == until
            && (e.value.level != Crash <==> exists k: nat | m < k < n :: Relaxes(actions, k, key, until))
  {
    hide RunActions, Tick, Hit, FromScan, TableInv, CrashEdge, Relaxes, Tracked, EntryOf;
    var j := n - 1;
    if m < j {
      SinceEdge(actions, key, m, j);
      SteadyAct(actions, j, key, SightedAt(actions[m].obs, key) + CRASH_LOCK_MS);
    } else {
      ActAt(actions, m);
      EntryTracked(RunActions(actions[..n]).pairs, key);
      EdgeTick(RunActions(actions[..m]), actions[m].obs, key);
    }
  }

  /** A pair that stays tracked comes to CRASH again exactly when it is sighted at CRASH, its 15 s lock
      has run out, and a tick since then has sighted it lower. */
  lemma AgainExactly(actions: seq<Action>, key: Key, m: nat, n: nat)
    requires FromScans(actions) && n < |actions| && Steady(actions, key, m, n)
    requires actions[m].DoTick? && EdgeAt(actions, m, key) && actions[n].DoTick?
    ensures var hit, until := Hit(actions[n].obs, key), SightedAt(actions[m].obs, key) + CRASH_LOCK_MS;
            EdgeAt(actions, n, key) <==>
              && hit.Some? && hit.value.level == Crash && hit.value.now >= until
              && exists k: nat | m < k < n :: Relaxes(actions, k, key, until)
  {
    SinceEdge(actions, key, m, n);
    hide Relaxes, RunActions, Hit, FromScans, Steady;
  }
}

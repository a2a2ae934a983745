/** How often the simulator is sent a diversion. */
module Alerts {
  import opened Basics
  import opened AircraftDbSpec
  import opened Approach
  import opened TrackerSpec
  import opened TrackerRuns
  import opened TrackerEntries
  import opened CrashLock
  import opened PairFrames
  import opened Encounters

  // ---- the throttle -----------------------------------------------------------------

  /** Uptime of the last diversion frame of the pair's current encounter. */
  function LastSend(log: seq<Event>, key: Key): Option<int> {
    if log == [] then None
    else
      var e := log[|log| - 1];
      if e.BleDiversion? && e.key == key then Some(e.at)
      else if FrameOf(e, key) && e.level == Clear then None
      else LastSend(log[..|log| - 1], key)
  }

  /** Every diversion frame comes more than three seconds after the encounter's previous one. */
  predicate Spaced(log: seq<Event>, key: Key) {
    log == [] ||
    var rest, e := log[..|log| - 1], log[|log| - 1];
    Spaced(rest, key)
    && (e.BleDiversion? && e.key == key ==>
          match LastSend(rest, key) { case None => true case Some(t) => e.at - t > BLE_GAP_MS })
  }

  /** The entry's time stamp is the time of the encounter's last send, and zero before the first. */
  ghost predicate Throttle(pairs: seq<TrackedPair>, log: seq<Event>, key: Key) {
    && Spaced(log, key)
    && match EntryOf(pairs, key)
       case None => LastSend(log, key) == None
       case Some(e) => match LastSend(log, key) { case None => e.lastBle == 0 case Some(t) => e.lastBle == t }
  }

  lemma SnocSend(log: seq<Event>, e: Event, key: Key)
    ensures LastSend(log + [e], key) ==
              if e.BleDiversion? && e.key == key then Some(e.at)
              else if FrameOf(e, key) && e.level == Clear then None
              else LastSend(log, key)
    ensures Spaced(log + [e], key) == (Spaced(log, key) && (e.BleDiversion? && e.key == key ==>
              match LastSend(log, key) { case None => true case Some(t) => e.at - t > BLE_GAP_MS }))
  {
    assert (log + [e])[..|log|] == log;
  }

  lemma {:induction false} NoSends(log: seq<Event>, evs: seq<Event>, key: Key)
    requires forall e :: e in evs && e.key == key ==> !e.BleDiversion? && !(e.Json? && e.level == Clear)
    ensures LastSend(log + evs, key) == LastSend(log, key)
    ensures Spaced(log + evs, key) == Spaced(log, key)
  {
    if evs == [] {
      assert log + evs == log;
    } else {
      var init, e := evs[..|evs| - 1], evs[|evs| - 1];
      NoSends(log, init, key);
      SnocSend(log + init, e, key);
      assert log + evs == (log + init) + [e];
    }
  }

  lemma CrashNoSend(g: Sighting, prev: Level)
    ensures forall v :: v in CrashEvents(g, prev) ==> v.key == g.key && !v.BleDiversion? && !v.Json?
  {
  }

  /** The frames of one unlocked sighting hold one diversion frame if a send is due, else none. */
  lemma TouchSends(log: seq<Event>, e: TrackedPair, g: Sighting, isNew: bool, d: Diversion, key: Key)
    requires g.level != Clear
    ensures var log', due := log + TouchEvents(e, g, isNew, d), key == g.key && SendDue(e, g, isNew);
            && LastSend(log', key) == (if due then Some(g.now) else LastSend(log, key))
            && Spaced(log', key) == (Spaced(log, key) && (due ==>
                 match LastSend(log, key) { case None => true case Some(t) => g.now - t > BLE_GAP_MS }))
  {
    hide LastSend, Spaced, CrashEvents, SendDue, TouchEvents;
    var j := Json(g.key, g.level, g.app, if isNew then None else e.diversion);
    var crash := CrashEvents(g, PrevLevel(e, isNew));
    CrashNoSend(g, PrevLevel(e, isNew));
    TouchShape(e, g, isNew, d);
    SnocSend(log, j, key);
    if SendDue(e, g, isNew) {
      DueSends(e, g, isNew);
      var v, warn := BleDiversion(g.key, g.sim.value.threat, d, g.now), Buzzer(g);
      SnocSend(log + [j], v, key);
      NoSends(log + [j] + [v], warn + crash, key);
      Joined(log, j, v, warn, crash);
    } else {
      NoSends(log + [j], crash, key);
      assert log + ([j] + crash) == log + [j] + crash;
    }
  }

  function Buzzer(g: Sighting): seq<Event> {
    if g.level == Warning || g.level == Crash then [BleWarning(g.key, g.now)] else []
  }

  lemma TouchShape(e: TrackedPair, g: Sighting, isNew: bool, d: Diversion)
    ensures var j := Json(g.key, g.level, g.app, if isNew then None else e.diversion);
            var crash := CrashEvents(g, PrevLevel(e, isNew));
            && (!SendDue(e, g, isNew) ==> TouchEvents(e, g, isNew, d) == [j] + crash)
            && (SendDue(e, g, isNew) ==>
                  g.sim.Some? && TouchEvents(e, g, isNew, d)
                                 == [j] + ([BleDiversion(g.key, g.sim.value.threat, d, g.now)] + Buzzer(g)) + crash)
  {
    hide CrashEvents, PrevLevel;
  }

  lemma Joined(log: seq<Event>, j: Event, v: Event, warn: seq<Event>, crash: seq<Event>)
    ensures log + ([j] + ([v] + warn) + crash) == log + [j] + [v] + (warn + crash)
  {
  }

  lemma DueSends(e: TrackedPair, g: Sighting, isNew: bool)
    requires SendDue(e, g, isNew)
    ensures g.sim.Some?
  {
  }

  /** Both can be read off the pair's own frames. */
  lemma {:induction false} SendsOfEvents(log: seq<Event>, key: Key)
    ensures LastSend(EventsOf(log, key), key) == LastSend(log, key)
    ensures Spaced(EventsOf(log, key), key) == Spaced(log, key)
  {
    if log == [] {
      assert EventsOf(log, key) == [];
    } else {
      hide EventsOf, LastSend, Spaced;
      var rest, e := log[..|log| - 1], log[|log| - 1];
      SendsOfEvents(rest, key);
      OneMore(rest, e, key);
      assert log == rest + [e];
      SnocSend(rest, e, key);
      SnocSend(EventsOf(rest, key), e, key);
      assert EventsOf(rest, key) + [] == EventsOf(rest, key);
    }
  }

  /** The tick sends the pair something. */
  predicate Due(e: Option<TrackedPair>, hit: Option<Sighting>, entered: bool) {
    hit.Some? &&
    match e
    case Some(was) => !Locked(was, hit.value.now) && SendDue(was, hit.value, false)
    case None => entered && hit.value.sim.Some?
  }

  lemma FramesThrottled(evs: seq<Event>, e: Option<TrackedPair>, hit: Option<Sighting>, room: bool, d: Diversion, key: Key)
    requires e.Some? ==> e.value.key == key
    requires hit.Some? ==> hit.value.key == key && hit.value.level != Clear
    ensures var evs', due := evs + TickFrames(e, hit, room, d), Due(e, hit, room);
            && LastSend(evs', key) == (if e.Some? && hit.None? then None else if due then Some(hit.value.now) else LastSend(evs, key))
            && Spaced(evs', key) == (Spaced(evs, key) && (due ==>
                 match LastSend(evs, key) { case None => true case Some(t) => hit.value.now - t > BLE_GAP_MS }))
  {
    hide LastSend, Spaced, TouchEvents, CrashEvents, Locked;
    if hit.None? {
      if e.Some? {
        SnocSend(evs, ClearFrame(e.value), key);
      } else {
        assert evs + [] == evs;
      }
    } else if e.Some? {
      if Locked(e.value, hit.value.now) {
        assert evs + [] == evs;
      } else {
        TouchSends(evs, e.value, hit.value, false, d, key);
      }
    } else if room {
      TouchSends(evs, Born(hit.value), hit.value, true, d, key);
    } else {
      CrashNoSend(hit.value, Clear);
      NoSends(evs, CrashEvents(hit.value, Clear), key);
    }
  }

  /** A tick's effect on the encounter's last send, and that it keeps the throttle, in what is logged
      from some place on. */
  lemma TickThrottle(st: State, obs: seq<Sighting>, key: Key, from: nat)
    requires st.Ok() && TableInv(st.pairs) && FromScan(obs)
    requires from <= |st.log| && Throttle(st.pairs, st.log[from..], key)
    ensures var e, hit, st' := EntryOf(st.pairs, key), Hit(obs, key), Tick(st, obs);
            && from <= |st'.log| && Throttle(st'.pairs, st'.log[from..], key)
            && LastSend(st'.log[from..], key) == (if e.Some? && hit.None? then None
                                                  else if Due(e, hit, EntryOf(st'.pairs, key).Some?) then Some(hit.value.now)
                                                  else LastSend(st.log[from..], key))
  {
    hide TableInv, FromScan, Tick, Hit, Newcomers, LastSend, Spaced, EventsOf, TickFrames, Locked;
    var e, hit, st' := EntryOf(st.pairs, key), Hit(obs, key), Tick(st, obs);
    HitIsSighting(obs, key);
    TickEntry(st, obs, key);
    if e.Some? {
      EntryNotClear(st.pairs, FindPair(st.pairs, key));
    }
    var d := TickLately(st, obs, key, from);
    SendsOfEvents(st.log[from..], key);
    SendsOfEvents(st'.log[from..], key);
    FramesThrottled(EventsOf(st.log[from..], key), e, hit, EntryOf(st'.pairs, key).Some?, d, key);
  }

  /** Over every run, in what was logged of the pair since a ghost start last dropped it. */
  lemma {:induction false} RunThrottle(actions: seq<Action>, key: Key)
    requires FromScans(actions)
    ensures Throttle(RunActions(actions).pairs, Lately(actions, key), key)
  {
    if actions != [] {
      var init, a := actions[..|actions| - 1], actions[|actions| - 1];
      assert a in actions;
      RunThrottle(init, key);
      RunKeepsTable(init);
      SinceBound(init, key);
      DropsIsStart(RunActions(init), a, key);
      RunSnoc(actions);
      hide RunActions, TableInv, FromScan, Throttle, Drops, Act;
      ActThrottle(RunActions(init), a, key, SinceLog(init, key));
    }
  }

  lemma ActThrottle(st: State, a: Action, key: Key, from: nat)
    requires st.Ok() && TableInv(st.pairs) && (a.DoTick? ==> FromScan(a.obs))
    requires from <= |st.log| && Throttle(st.pairs, st.log[from..], key)
    ensures Throttle(Act(st, a).pairs, Tail(Act(st, a).log, if Drops(st, a, key) then |st.log| else from), key)
  {
    hide TableInv, Tick, FromScan, LastSend, Spaced, EntryOf, Drops, DropGhost;
    DropsIsStart(st, a, key);
    match a {
      case DoTick(obs) => TickThrottle(st, obs, key, from);
      case DoGhostStart =>
        GhostStartEntry(st, key);
        NothingSent(key);
        assert st.log[|st.log|..] == [];
      case DoGhostStop =>
      case DoCrashTrigger(k, app, other, at) =>
        var log, j, b := st.log[from..], Json(k, Crash, app, None), BleCrash(k, other, at);
        SnocSend(log, j, key);
        SnocSend(log + [j], b, key);
        assert (st.log + [j, b])[from..] == log + [j] + [b];
    }
  }

  lemma NothingSent(key: Key)
    ensures Spaced([], key) && LastSend([], key) == None
  {
  }

  lemma {:induction false} SpacedPrefix(log: seq<Event>, key: Key, n: nat)
    requires Spaced(log, key) && n <= |log|
    ensures Spaced(log[..n], key)
  {
    if n == |log| {
      assert log[..n] == log;
    } else {
      SpacedPrefix(log[..|log| - 1], key, n);
      assert log[..|log| - 1][..n] == log[..n];
    }
  }

  predicate SendOf(e: Event, key: Key) { e.BleDiversion? && e.key == key }

  /** A send not followed by a CLEAR is no later than the encounter's last send. */
  lemma {:induction false} LastSendBound(log: seq<Event>, key: Key, i: nat)
    requires i < |log| && SendOf(log[i], key) && Spaced(log, key)
    requires forall m :: i < m < |log| ==> !(FrameOf(log[m], key) && log[m].level == Clear)
    ensures LastSend(log, key).Some? && log[i].at <= LastSend(log, key).value
  {
    var last := |log| - 1;
    if i < last {
      LastSendBound(log[..last], key, i);
    }
  }

  /** The throttle over every run: two diversion frames of the same encounter, no ghost start having
      dropped the pair in between, are more than three seconds apart. */
  lemma SendsThrottled(actions: seq<Action>, key: Key, i: nat, j: nat)
    requires FromScans(actions)
    requires var log := RunActions(actions).log;
             && i < j < |log| && SendOf(log[i], key) && SendOf(log[j], key)
             && forall m :: i < m < j ==> !(FrameOf(log[m], key) && log[m].level == Clear)
    requires Unbroken(actions, key, i, j)
    ensures RunActions(actions).log[j].at - RunActions(actions).log[i].at > BLE_GAP_MS
  {
    var log := RunActions(actions).log;
    hide RunActions, Spaced, LastSend, Unbroken, Drops;
    var n := Cut(actions, key, i, j);
    var part, from := Lately(actions[..n], key), SinceLog(actions[..n], key);
    PrefixScans(actions, n);
    RunThrottle(actions[..n], key);
    assert forall m :: from <= m <= j ==> part[m - from] == log[m];
    SpacedApart(part, key, i - from, j - from);
  }

  lemma SpacedApart(log: seq<Event>, key: Key, i: nat, j: nat)
    requires Spaced(log, key) && i < j < |log| && SendOf(log[i], key) && SendOf(log[j], key)
    requires forall m :: i < m < j ==> !(FrameOf(log[m], key) && log[m].level == Clear)
    ensures log[j].at - log[i].at > BLE_GAP_MS
  {
    SpacedPrefix(log, key, j + 1);
    assert log[..j + 1][..j] == log[..j];
    LastSendBound(log[..j], key, i);
  }

  /** And when they are on time. After a tick that processes the pair unlocked with a simulator side,
      the encounter's last send is at most three seconds old if and only if the pair is new, or the
      encounter already had a send, or the uptime is past three seconds: a pair first sighted without
      a simulator side has a time stamp of zero, and the throttle measures from that. */
  lemma SendFresh(actions: seq<Action>, obs: seq<Sighting>, key: Key, g: Sighting)
    requires FromScans(actions) && FromScan(obs)
    requires Hit(obs, key) == Some(g) && g.sim.Some?
    requires var st := RunActions(actions);
             match EntryOf(st.pairs, key) { case Some(e) => !Locked(e, g.now) case None => g in Newcomers(st.pairs, obs) }
    ensures var before, after := LastSend(Lately(actions, key), key), LastSend(Lately(actions + [DoTick(obs)], key), key);
            (after.Some? && g.now - after.value <= BLE_GAP_MS)
            <==> EntryOf(RunActions(actions).pairs, key).None? || before.Some? || g.now > BLE_GAP_MS
  {
    hide RunActions, TableInv, FromScan, Tick, Hit, Newcomers, LastSend, Spaced, Locked;
    var st := RunActions(actions);
    RunKeepsTable(actions);
    RunThrottle(actions, key);
    SinceBound(actions, key);
    LatelyTick(actions, obs, key);
    TickEntry(st, obs, key);
    TickThrottle(st, obs, key, SinceLog(actions, key));
    HitIsSighting(obs, key);
    if EntryOf(st.pairs, key).Some? {
      EntryNotClear(st.pairs, FindPair(st.pairs, key));
    }
  }
}

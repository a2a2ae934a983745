/** Which diversion the simulator is told, and which the JSON frames show. */
module Diversions {
  import opened Basics
  import opened AircraftDbSpec
  import opened Approach
  import opened TrackerSpec
  import opened TrackerRuns
  import opened TrackerEntries
  import opened CrashLock
  import opened PairFrames
  import opened Encounters
  import opened Alerts

  // ---- what the frames of an encounter say ------------------------------------------

  /** What the JSON frames of the open encounter carry, its first excepted: that one goes out before
      a diversion is picked. */
  function Shown(log: seq<Event>, key: Key): Option<Option<Diversion>> {
    if log == [] then None
    else
      var rest, e := log[..|log| - 1], log[|log| - 1];
      if FrameOf(e, key) then if e.level != Clear && OpenAfter(rest, key) then Some(e.diversion) else None
      else Shown(rest, key)
  }

  /** The last diversion the simulator was sent in the open encounter. */
  function Told(log: seq<Event>, key: Key): Option<Diversion> {
    if log == [] then None
    else
      var rest, e := log[..|log| - 1], log[|log| - 1];
      if SendOf(e, key) then Some(e.d)
      else if FrameOf(e, key) && e.level == Clear then None
      else Told(rest, key)
  }

  /** All JSON frames of an encounter after its first carry one diversion. */
  predicate OneShown(log: seq<Event>, key: Key) {
    log == [] ||
    var rest, e := log[..|log| - 1], log[|log| - 1];
    OneShown(rest, key)
    && (FrameOf(e, key) && e.level != Clear && Shown(rest, key).Some? ==> e.diversion == Shown(rest, key).value)
  }

  /** Every frame is one an encounter with a single diversion would send: JSON frames after the first
      and BLE frames all carry the same. */
  predicate OneVoice(log: seq<Event>, key: Key) {
    log == [] ||
    var rest, e := log[..|log| - 1], log[|log| - 1];
    OneVoice(rest, key) && Fits(rest, e, key)
  }

  predicate Fits(rest: seq<Event>, e: Event, key: Key) {
    && (FrameOf(e, key) && e.level != Clear && OpenAfter(rest, key) ==>
          && (Shown(rest, key).Some? ==> e.diversion == Shown(rest, key).value)
          && (Told(rest, key).Some? ==> e.diversion == Told(rest, key)))
    && (SendOf(e, key) ==>
          && (Shown(rest, key).Some? ==> Shown(rest, key).value == Some(e.d))
          && (Told(rest, key).Some? ==> Told(rest, key) == Some(e.d)))
  }

  lemma SnocVoice(log: seq<Event>, e: Event, key: Key)
    ensures Shown(log + [e], key) ==
              if FrameOf(e, key) then (if e.level != Clear && OpenAfter(log, key) then Some(e.diversion) else None) else Shown(log, key)
    ensures Told(log + [e], key) ==
              if SendOf(e, key) then Some(e.d) else if FrameOf(e, key) && e.level == Clear then None else Told(log, key)
    ensures OneShown(log + [e], key) == (OneShown(log, key)
              && (FrameOf(e, key) && e.level != Clear && Shown(log, key).Some? ==> e.diversion == Shown(log, key).value))
    ensures OneVoice(log + [e], key) == (OneVoice(log, key) && Fits(log, e, key))
    ensures OpenAfter(log + [e], key) == if FrameOf(e, key) then e.level != Clear else OpenAfter(log, key)
  {
    assert (log + [e])[..|log|] == log;
  }

  /** The two logs agree on everything said about the pair. */
  ghost predicate SameVoice(a: seq<Event>, b: seq<Event>, key: Key) {
    && OpenAfter(a, key) == OpenAfter(b, key) && Shown(a, key) == Shown(b, key) && Told(a, key) == Told(b, key)
    && OneShown(a, key) == OneShown(b, key) && OneVoice(a, key) == OneVoice(b, key)
  }

  /** It can be read off the pair's own frames. */
  lemma {:induction false} VoiceOfEvents(log: seq<Event>, key: Key)
    ensures SameVoice(EventsOf(log, key), log, key)
  {
    if log == [] {
      assert EventsOf(log, key) == [];
    } else {
      hide EventsOf, SameVoice;
      var rest, e := log[..|log| - 1], log[|log| - 1];
      VoiceOfEvents(rest, key);
      OneMore(rest, e, key);
      assert log == rest + [e];
      if e.key == key {
        SameNext(EventsOf(rest, key), rest, e, key);
      } else {
        SameElse(EventsOf(rest, key), rest, e, key);
        assert EventsOf(rest, key) + [] == EventsOf(rest, key);
      }
    }
  }

  lemma SameNext(a: seq<Event>, b: seq<Event>, e: Event, key: Key)
    requires SameVoice(a, b, key)
    ensures SameVoice(a + [e], b + [e], key)
  {
    hide Shown, Told, OneShown, OneVoice, OpenAfter;
    SnocVoice(a, e, key);
    SnocVoice(b, e, key);
  }

  lemma SameElse(a: seq<Event>, b: seq<Event>, e: Event, key: Key)
    requires SameVoice(a, b, key) && e.key != key
    ensures SameVoice(a, b + [e], key)
  {
    hide Shown, Told, OneShown, OneVoice, OpenAfter;
    SnocVoice(b, e, key);
  }

  /** Frames that are neither JSON frames nor diversions of the pair say nothing. */
  lemma {:induction false} QuietVoice(log: seq<Event>, evs: seq<Event>, key: Key)
    requires forall e :: e in evs ==> !FrameOf(e, key) && !SendOf(e, key)
    ensures SameVoice(log + evs, log, key)
  {
    hide Shown, Told, OneShown, OneVoice, OpenAfter;
    if evs == [] {
      assert log + evs == log;
    } else {
      var init, e := evs[..|evs| - 1], evs[|evs| - 1];
      QuietVoice(log, init, key);
      SnocVoice(log + init, e, key);
      assert log + evs == (log + init) + [e];
    }
  }

  // ---- one tick ---------------------------------------------------------------------

  /** The frames of one unlocked sighting, one by one. */
  lemma TouchVoice(log: seq<Event>, e: TrackedPair, g: Sighting, isNew: bool, d: Diversion, key: Key)
    requires g.key == key && g.level != Clear
    ensures var j := Json(key, g.level, g.app, if isNew then None else e.diversion);
            var due := SendDue(e, g, isNew);
            var log1 := log + [j];
            && (due ==> g.sim.Some? && SameVoice(log + TouchEvents(e, g, isNew, d),
                                                 log1 + [BleDiversion(key, g.sim.value.threat, d, g.now)], key))
            && (!due ==> SameVoice(log + TouchEvents(e, g, isNew, d), log1, key))
  {
    hide SameVoice, CrashEvents, SendDue;
    var j := Json(key, g.level, g.app, if isNew then None else e.diversion);
    var crash := CrashEvents(g, PrevLevel(e, isNew));
    CrashNoSend(g, PrevLevel(e, isNew));
    if SendDue(e, g, isNew) {
      DueSends(e, g, isNew);
      var v := BleDiversion(key, g.sim.value.threat, d, g.now);
      var warn := if g.level == Warning || g.level == Crash then [BleWarning(key, g.now)] else [];
      QuietVoice(log + [j] + [v], warn + crash, key);
      assert log + TouchEvents(e, g, isNew, d) == log + [j] + [v] + (warn + crash);
    } else {
      QuietVoice(log + [j], crash, key);
      assert log + TouchEvents(e, g, isNew, d) == log + [j] + crash;
    }
  }

  /** How a pair's entry and what was said about it hang together. */
  ghost predicate Tied(e: Option<TrackedPair>, log: seq<Event>, key: Key) {
    && OneShown(log, key)
    && match e
       case None => !OpenAfter(log, key) && Shown(log, key) == None && Told(log, key) == None
       case Some(was) =>
         && OpenAfter(log, key)
         && (Shown(log, key).Some? ==> Shown(log, key).value == was.diversion)
         && (OneVoice(log, key) && Told(log, key).Some? ==> Told(log, key) == was.diversion)
  }

  lemma SameTied(e: Option<TrackedPair>, a: seq<Event>, b: seq<Event>, key: Key)
    requires SameVoice(a, b, key)
    ensures Tied(e, a, key) == Tied(e, b, key)
  {
  }

  lemma TrackedVoice(log: seq<Event>, e: TrackedPair, g: Sighting, d: Diversion, key: Key)
    requires g.key == key && g.level != Clear && e.level != Clear && Tied(Some(e), log, key)
    ensures var log' := log + TouchEvents(e, g, false, d);
            && Tied(Some(Touch(e, g, false)), log', key)
            && (OneVoice(log', key) <==> OneVoice(log, key) && (SendDue(e, g, false) ==> e.diversion == Some(d)))
  {
    TouchVoice(log, e, g, false, d, key);
    hide TouchEvents, Shown, Told, OneShown, OneVoice, OpenAfter;
    var j := Json(key, g.level, g.app, e.diversion);
    SnocVoice(log, j, key);
    if SendDue(e, g, false) {
      SnocVoice(log + [j], BleDiversion(key, g.sim.value.threat, d, g.now), key);
    }
  }

  lemma NewVoice(log: seq<Event>, g: Sighting, d: Diversion, key: Key)
    requires g.key == key && g.level != Clear && Tied(None, log, key) && (g.sim.Some? ==> d == g.sim.value.pick)
    ensures var log' := log + TouchEvents(Born(g), g, true, d);
            Tied(Some(Touch(Born(g), g, true)), log', key) && (OneVoice(log', key) <==> OneVoice(log, key))
  {
    TouchVoice(log, Born(g), g, true, d, key);
    hide TouchEvents, Shown, Told, OneShown, OneVoice, OpenAfter;
    var j := Json(key, g.level, g.app, None);
    SnocVoice(log, j, key);
    if SendDue(Born(g), g, true) {
      SnocVoice(log + [j], BleDiversion(key, g.sim.value.threat, d, g.now), key);
    }
  }

  /** A tick sends a tracked pair a diversion that is not its JSON one: its encounter began without a
      simulator side and so without a diversion, or the slot under it holds another. */
  predicate Misspoken(e: Option<TrackedPair>, slot: Option<Diversion>, hit: Option<Sighting>) {
    e.Some? && hit.Some? && !Locked(e.value, hit.value.now) && SendDue(e.value, hit.value, false)
    && (e.value.diversion.None? || slot != e.value.diversion)
  }

  lemma FramesVoice(log: seq<Event>, e: Option<TrackedPair>, hit: Option<Sighting>, room: bool, d: Diversion, key: Key)
    requires Tied(e, log, key) && (e.Some? ==> e.value.level != Clear && e.value.key == key)
    requires hit.Some? ==> hit.value.key == key && hit.value.level != Clear
    requires e.None? && room && hit.Some? && hit.value.sim.Some? ==> d == hit.value.sim.value.pick
    ensures var log' := log + TickFrames(e, hit, room, d);
            var e' := if hit.None? then None
                      else if e.Some? then Some(if Locked(e.value, hit.value.now) then e.value else Touch(e.value, hit.value, false))
                      else if room then Some(Touch(Born(hit.value), hit.value, true)) else None;
            && Tied(e', log', key)
            && (OneVoice(log', key) <==> OneVoice(log, key) && !Misspoken(e, Some(d), hit))
  {
    hide Shown, Told, OneShown, OneVoice, OpenAfter, TouchEvents, CrashEvents, Touch, Locked, SendDue;
    if hit.None? {
      if e.Some? {
        SnocVoice(log, ClearFrame(e.value), key);
      } else {
        assert log + [] == log;
      }
    } else if e.Some? {
      if Locked(e.value, hit.value.now) {
        assert log + [] == log;
      } else {
        TrackedVoice(log, e.value, hit.value, d, key);
      }
    } else if room {
      NewVoice(log, hit.value, d, key);
    } else {
      CrashNoSend(hit.value, Clear);
      QuietVoice(log, CrashEvents(hit.value, Clear), key);
    }
  }

  lemma TickVoice(st: State, obs: seq<Sighting>, key: Key, from: nat)
    requires st.Ok() && TableInv(st.pairs) && FromScan(obs) && from <= |st.log| && Tied(EntryOf(st.pairs, key), st.log[from..], key)
    ensures var st' := Tick(st, obs);
            && from <= |st'.log| && Tied(EntryOf(st'.pairs, key), st'.log[from..], key)
            && (OneVoice(st'.log[from..], key)
                <==> OneVoice(st.log[from..], key)
                     && !Misspoken(EntryOf(st.pairs, key), SlotOf(st.pairs, st.slots, key), Hit(obs, key)))
  {
    hide TableInv, FromScan, Tick, Hit, Newcomers, EventsOf, TickFrames, Locked, Touch, Tied, OneVoice, SendDue, SlotOf;
    var e, hit, st' := EntryOf(st.pairs, key), Hit(obs, key), Tick(st, obs);
    HitIsSighting(obs, key);
    TickEntry(st, obs, key);
    if e.Some? {
      EntryNotClear(st.pairs, FindPair(st.pairs, key));
    }
    var d := TickLately(st, obs, key, from);
    var log, log' := st.log[from..], st'.log[from..];
    VoiceOfEvents(log, key);
    VoiceOfEvents(log', key);
    SameTied(e, EventsOf(log, key), log, key);
    SameTied(EntryOf(st'.pairs, key), EventsOf(log', key), log', key);
    FramesVoice(EventsOf(log, key), e, hit, EntryOf(st'.pairs, key).Some?, d, key);
  }

  // ---- every run --------------------------------------------------------------------

  /** What the pair found in the slot it last moved into, entering the table included. Entries move
      down when one below them is removed; their slots do not. */
  function Landed(actions: seq<Action>, key: Key): Option<Diversion> {
    if actions == [] then None
    else
      var prior := actions[..|actions| - 1];
      var k, after := FindPair(RunActions(prior).pairs, key), RunActions(actions);
      var m := FindPair(after.pairs, key);
      if m >= 0 && m == k then Landed(prior, key) else SlotOf(after.pairs, after.slots, key)
  }

  /** A slot is not written while its pair stays in it. */
  lemma TickKeepsSlot(st: State, obs: seq<Sighting>, key: Key)
    requires st.Ok() && TableInv(st.pairs) && FromScan(obs)
    requires var k := FindPair(st.pairs, key); k >= 0 && FindPair(Tick(st, obs).pairs, key) == k
    ensures SlotOf(Tick(st, obs).pairs, Tick(st, obs).slots, key) == SlotOf(st.pairs, st.slots, key)
  {
    hide TableInv, FromScan, Fold, Sweep, EventsOf, ScanEvents;
    ScanFrames(st, obs, key);
  }

  lemma {:induction false} SlotLanded(actions: seq<Action>, key: Key)
    requires FromScans(actions)
    ensures var st := RunActions(actions); SlotOf(st.pairs, st.slots, key) == Landed(actions, key)
  {
    if actions != [] {
      var prior, a := actions[..|actions| - 1], actions[|actions| - 1];
      assert a in actions;
      SlotLanded(prior, key);
      RunKeepsTable(prior);
      var st := RunActions(prior);
      RunSnoc(actions);
      hide RunActions, TableInv, FromScan, Tick, DropGhost;
      if a.DoTick? && FindPair(Tick(st, a.obs).pairs, key) == FindPair(st.pairs, key) >= 0 {
        TickKeepsSlot(st, a.obs, key);
      }
    }
  }

  /** Step n of a run misspeaks about the pair. */
  ghost predicate MisspeaksAt(actions: seq<Action>, n: nat, key: Key)
    requires n < |actions|
  {
    actions[n].DoTick?
    && Misspoken(EntryOf(RunActions(actions[..n]).pairs, key), Landed(actions[..n], key), Hit(actions[n].obs, key))
  }

  /** From some action on no step does. */
  ghost predicate WellSpoken(actions: seq<Action>, key: Key, from: nat) {
    forall n: nat | from <= n < |actions| :: !MisspeaksAt(actions, n, key)
  }

  /** Every run, for a pair no manual trigger named, since a ghost start last dropped it if one did. Its
      JSON frames carry one diversion per encounter, always. Its BLE frames carry that same one if and
      only if no tick since then sends to the pair although its encounter began without a simulator side
      (its JSON diversion is then empty), or although the slot it last moved into holds another
      diversion. */
  lemma {:induction false} RunVoice(actions: seq<Action>, key: Key)
    requires FromScans(actions) && Untriggered(actions, key)
    ensures OneShown(Lately(actions, key), key)
    ensures Tied(EntryOf(RunActions(actions).pairs, key), Lately(actions, key), key)
    ensures OneVoice(Lately(actions, key), key) <==> WellSpoken(actions, key, Since(actions, key))
  {
    if actions == [] {
      NothingSaid(key);
    } else {
      var prior, a := actions[..|actions| - 1], actions[|actions| - 1];
      assert a in actions;
      RunVoice(prior, key);
      RunKeepsTable(prior);
      SlotLanded(prior, key);
      SinceBound(prior, key);
      DropsIsStart(RunActions(prior), a, key);
      RunSnoc(actions);
      PriorMisspeaks(actions, key, Since(prior, key));
      TiedShown(EntryOf(RunActions(actions).pairs, key), Lately(actions, key), key);
      hide RunActions, FromScan, MisspeaksAt, Tied, Act, OneVoice, OneShown, Landed, EntryOf, Misspoken, TableInv, Drops;
      ActVoice(RunActions(prior), a, key, SinceLog(prior, key));
    }
  }

  lemma TiedShown(e: Option<TrackedPair>, log: seq<Event>, key: Key)
    ensures Tied(e, log, key) ==> OneShown(log, key)
  {
  }

  /** One action, in what is logged from some place on. */
  lemma ActVoice(st: State, a: Action, key: Key, from: nat)
    requires st.Ok() && TableInv(st.pairs) && (a.DoTick? ==> FromScan(a.obs)) && (a.DoCrashTrigger? ==> a.key != key)
    requires from <= |st.log| && Tied(EntryOf(st.pairs, key), st.log[from..], key)
    ensures var st', at := Act(st, a), if Drops(st, a, key) then |st.log| else from;
            && Tied(EntryOf(st'.pairs, key), Tail(st'.log, at), key)
            && (OneVoice(Tail(st'.log, at), key) <==>
                  Drops(st, a, key)
                  || (OneVoice(st.log[from..], key)
                      && !(a.DoTick? && Misspoken(EntryOf(st.pairs, key), SlotOf(st.pairs, st.slots, key), Hit(a.obs, key)))))
  {
    hide TableInv, Tick, FromScan, Tied, OneVoice, EntryOf, Drops, DropGhost, Misspoken;
    DropsIsStart(st, a, key);
    match a {
      case DoTick(obs) => TickVoice(st, obs, key, from);
      case DoGhostStart =>
        GhostStartEntry(st, key);
        NothingSaid(key);
        assert st.log[|st.log|..] == [];
      case DoGhostStop =>
      case DoCrashTrigger(k, app, other, at) =>
        var log := st.log[from..];
        TriggerQuiet(log, k, app, other, at, key);
        assert Act(st, a).log[from..] == log + [Json(k, Crash, app, None), BleCrash(k, other, at)];
        SameTied(EntryOf(st.pairs, key), Act(st, a).log[from..], log, key);
        SameOneVoice(Act(st, a).log[from..], log, key);
    }
  }

  lemma SameOneVoice(a: seq<Event>, b: seq<Event>, key: Key)
    requires SameVoice(a, b, key)
    ensures OneVoice(a, key) == OneVoice(b, key)
  {
  }

  lemma NothingSaid(key: Key)
    ensures Tied(None, [], key) && OneVoice([], key)
    ensures EntryOf(Start().pairs, key) == None && Start().log == []
  {
  }

  lemma TriggerQuiet(log: seq<Event>, k: Key, app: Approach, other: Icao, at: int, key: Key)
    requires k != key
    ensures SameVoice(log + [Json(k, Crash, app, None), BleCrash(k, other, at)], log, key)
  {
    QuietVoice(log, [Json(k, Crash, app, None), BleCrash(k, other, at)], key);
  }

  lemma MisspeaksPrior(actions: seq<Action>, n: nat, m: nat, key: Key)
    requires n < m <= |actions|
    ensures MisspeaksAt(actions[..m], n, key) == MisspeaksAt(actions, n, key)
  {
    assert actions[..m][..n] == actions[..n];
  }

  /** Only the last action can add a misspoken step. */
  lemma PriorMisspeaks(actions: seq<Action>, key: Key, from: nat)
    requires actions != [] && from < |actions|
    ensures var prior, last := actions[..|actions| - 1], |actions| - 1;
            WellSpoken(actions, key, from) <==> WellSpoken(prior, key, from) && !MisspeaksAt(actions, last, key)
    ensures WellSpoken(actions, key, |actions|)
    ensures var last := |actions| - 1;
            MisspeaksAt(actions, last, key) <==>
              actions[last].DoTick? && Misspoken(EntryOf(RunActions(actions[..last]).pairs, key), Landed(actions[..last], key),
                                                 Hit(actions[last].obs, key))
  {
    var prior, last := actions[..|actions| - 1], |actions| - 1;
    hide MisspeaksAt;
    forall n: nat | n < last
      ensures MisspeaksAt(prior, n, key) == MisspeaksAt(actions, n, key)
    {
      MisspeaksPrior(actions, n, last, key);
    }
    LastMisspeaks(actions, key);
  }

  lemma LastMisspeaks(actions: seq<Action>, key: Key)
    requires actions != []
    ensures var last := |actions| - 1;
            MisspeaksAt(actions, last, key) <==>
              actions[last].DoTick? && Misspoken(EntryOf(RunActions(actions[..last]).pairs, key), Landed(actions[..last], key),
                                                 Hit(actions[last].obs, key))
  {
  }

  // ---- the same by positions in the log ---------------------------------------------

  /** Frames i to j belong to one encounter of the pair. */
  ghost predicate NoClear(log: seq<Event>, key: Key, i: nat, j: nat) {
    forall m :: i <= m < j && m < |log| ==> !(FrameOf(log[m], key) && log[m].level == Clear)
  }

  predicate Report(log: seq<Event>, key: Key, i: nat) {
    i < |log| && FrameOf(log[i], key) && log[i].level != Clear
  }

  lemma {:induction false} OpenSince(log: seq<Event>, key: Key, h: nat)
    requires Report(log, key, h) && NoClear(log, key, h, |log|)
    ensures OpenAfter(log, key)
  {
    var last := |log| - 1;
    if h < last {
      OpenSince(log[..last], key, h);
    }
  }

  lemma {:induction false} ShownSince(log: seq<Event>, key: Key, h: nat, i: nat)
    requires h < i && Report(log, key, h) && Report(log, key, i) && NoClear(log, key, h, |log|) && OneShown(log, key)
    ensures Shown(log, key) == Some(log[i].diversion)
  {
    var last := |log| - 1;
    OpenSince(log[..last], key, h);
    if i < last {
      ShownSince(log[..last], key, h, i);
    }
  }

  lemma {:induction false} ToldSince(log: seq<Event>, key: Key, i: nat)
    requires i < |log| && SendOf(log[i], key) && NoClear(log, key, i, |log|) && OneVoice(log, key)
    ensures Told(log, key) == Some(log[i].d)
  {
    var last := |log| - 1;
    if i < last {
      ToldSince(log[..last], key, i);
    }
  }

  lemma {:induction false} VoicePrefix(log: seq<Event>, key: Key, n: nat)
    requires n <= |log|
    ensures OneShown(log, key) ==> OneShown(log[..n], key)
    ensures OneVoice(log, key) ==> OneVoice(log[..n], key) && OneShown(log, key)
  {
    if n == |log| {
      assert log[..n] == log;
      if log != [] {
        VoicePrefix(log[..|log| - 1], key, |log| - 1);
        ShownOpen(log[..|log| - 1], key);
      }
    } else {
      VoicePrefix(log[..|log| - 1], key, n);
      ShownOpen(log[..|log| - 1], key);
      assert log[..|log| - 1][..n] == log[..n];
    }
  }

  lemma {:induction false} ShownOpen(log: seq<Event>, key: Key)
    ensures Shown(log, key).Some? ==> OpenAfter(log, key)
  {
    if log != [] {
      ShownOpen(log[..|log| - 1], key);
    }
  }

  lemma UntriggeredPrefix(actions: seq<Action>, n: nat, key: Key)
    requires FromScans(actions) && Untriggered(actions, key) && n <= |actions|
    ensures FromScans(actions[..n]) && Untriggered(actions[..n], key)
  {
  }

  /** What is logged from some place on, by its places in the whole log. */
  lemma PartOf(log: seq<Event>, from: nat, key: Key, h: nat, j: nat)
    requires from <= h <= j < |log| && NoClear(log, key, h, j)
    ensures NoClear(log[from..], key, h - from, j - from)
    ensures forall m: nat | from <= m < |log| :: Report(log[from..], key, m - from) == Report(log, key, m) && log[from..][m - from] == log[m]
  {
  }

  /** In every run any two JSON frames of one encounter, its first (h) excepted, carry the same
      diversion, unless a ghost start dropped the pair in between. */
  lemma JsonDiversionFixed(actions: seq<Action>, key: Key, h: nat, i: nat, j: nat)
    requires FromScans(actions) && Untriggered(actions, key) && Unbroken(actions, key, h, j)
    requires var log := RunActions(actions).log;
             h < i < j && Report(log, key, h) && Report(log, key, i) && Report(log, key, j) && NoClear(log, key, h, j)
    ensures RunActions(actions).log[i].diversion == RunActions(actions).log[j].diversion
  {
    hide RunActions, OneShown, Tied, Unbroken, Lately, Untriggered, FromScans, NoClear, OneVoice;
    var n, log, from := CutLog(actions, key, h, j);
    UntriggeredPrefix(actions, n, key);
    RunVoice(actions[..n], key);
    PartOf(log, from, key, h, j);
    FixedIn(log[from..], key, h - from, i - from, j - from);
  }

  /** The run cut past j, its log, and the place the pair was last dropped at before. */
  lemma CutLog(actions: seq<Action>, key: Key, h: nat, j: nat) returns (n: nat, log: seq<Event>, from: nat)
    requires h <= j < |RunActions(actions).log| && Unbroken(actions, key, h, j)
    ensures n <= |actions| && from <= h && log == RunActions(actions[..n]).log && j < |log| && Lately(actions[..n], key) == log[from..]
    ensures Extends(log, RunActions(actions).log) && from == SinceLog(actions[..n], key)
    ensures forall m: nat | m <= j :: log[m] == RunActions(actions).log[m] && Report(log, key, m) == Report(RunActions(actions).log, key, m)
    ensures NoClear(RunActions(actions).log, key, h, j) ==> NoClear(log, key, h, j)
  {
    n := Cut(actions, key, h, j);
    log, from := RunActions(actions[..n]).log, SinceLog(actions[..n], key);
    hide RunActions, Unbroken;
    var all := RunActions(actions).log;
    assert forall m: nat | m <= j :: all[..|log|][m] == all[m];
  }

  lemma FixedIn(log: seq<Event>, key: Key, h: nat, i: nat, j: nat)
    requires OneShown(log, key) && h < i < j
    requires Report(log, key, h) && Report(log, key, i) && Report(log, key, j) && NoClear(log, key, h, j)
    ensures log[i].diversion == log[j].diversion
  {
    hide OneShown, Shown, OneVoice;
    VoicePrefix(log, key, j + 1);
    assert log[..j + 1][..j] == log[..j];
    VoicePrefix(log[..j + 1], key, j);
    ShownSince(log[..j], key, h, i);
    ShownNext(log[..j + 1], key);
  }

  lemma ShownNext(log: seq<Event>, key: Key)
    requires log != [] && OneShown(log, key) && Report(log, key, |log| - 1) && Shown(log[..|log| - 1], key).Some?
    ensures log[|log| - 1].diversion == Shown(log[..|log| - 1], key).value
  {
  }

  /** And if no step misspeaks, every BLE diversion frame (i) carries what every JSON frame (j) of its
      encounter carries, the encounter's first (h) excepted. */
  lemma BleIsJson(actions: seq<Action>, key: Key, h: nat, i: nat, j: nat)
    requires FromScans(actions) && Untriggered(actions, key) && Unbroken(actions, key, h, if i < j then j else i)
    requires WellSpoken(actions, key, 0)
    requires var log := RunActions(actions).log;
             && h < i < |log| && h < j && Report(log, key, h) && Report(log, key, j) && SendOf(log[i], key)
             && NoClear(log, key, h, if i < j then j else i)
    ensures RunActions(actions).log[j].diversion == Some(RunActions(actions).log[i].d)
  {
    hide RunActions, OneShown, OneVoice, Tied, Unbroken, Lately, Untriggered, FromScans, NoClear, WellSpoken;
    var top := if i < j then j else i;
    var n, log, from := CutLog(actions, key, h, top);
    UntriggeredPrefix(actions, n, key);
    RunVoice(actions[..n], key);
    SpokenPrefix(actions, key, n);
    PartOf(log, from, key, h, top);
    SameIn(log[from..], key, h - from, i - from, j - from);
  }

  lemma SpokenPrefix(actions: seq<Action>, key: Key, n: nat)
    requires n <= |actions| && WellSpoken(actions, key, 0)
    ensures WellSpoken(actions[..n], key, Since(actions[..n], key))
  {
    hide MisspeaksAt;
    forall k: nat | k < n
      ensures MisspeaksAt(actions[..n], k, key) == MisspeaksAt(actions, k, key)
    {
      MisspeaksPrior(actions, k, n, key);
    }
  }

  lemma SameIn(log: seq<Event>, key: Key, h: nat, i: nat, j: nat)
    requires OneVoice(log, key)
    requires h < i < |log| && h < j && Report(log, key, h) && Report(log, key, j) && SendOf(log[i], key)
    requires NoClear(log, key, h, if i < j then j else i)
    ensures log[j].diversion == Some(log[i].d)
  {
    hide OneShown, Shown, Told, OneVoice, OpenAfter;
    var n := if i < j then j else i;
    assert log[..n + 1][..n] == log[..n];
    VoicePrefix(log, key, n + 1);
    VoicePrefix(log[..n + 1], key, n);
    OpenSince(log[..n], key, h);
    if i < j {
      ToldSince(log[..n], key, i);
    } else {
      ShownSince(log[..n], key, h, j);
    }
    VoiceNext(log[..n + 1], key);
  }

  lemma VoiceNext(log: seq<Event>, key: Key)
    requires log != [] && OneVoice(log, key)
    ensures Fits(log[..|log| - 1], log[|log| - 1], key)
  {
  }

  // ---- where slots and entries part -------------------------------------------------

  /** Each slot holds the diversion of the pair in it, if that has one. */
  ghost predicate Coherent(pairs: seq<TrackedPair>, slots: seq<Diversion>) {
    |pairs| <= |slots| && forall i :: 0 <= i < |pairs| && pairs[i].diversion.Some? ==> slots[i] == pairs[i].diversion.value
  }

  /** A scanned pair keeps them coherent. */
  lemma StepCoherent(s: Scan, g: Sighting)
    requires s.Ok() && Coherent(s.pairs, s.slots)
    requires forall i :: 0 <= i < |s.pairs| ==> s.pairs[i].level != Clear
    ensures Coherent(Step(s, g).pairs, Step(s, g).slots)
  {
    hide TouchEvents, CrashEvents;
    StepTable(s, g);
    StepSlots(s, g);
  }

  /** How many entries below k survive. */
  function Rank(seen: seq<bool>, k: nat): nat
    requires k <= |seen|
  {
    if k == 0 then 0 else Rank(seen, k - 1) + if seen[k - 1] then 1 else 0
  }

  lemma FilterNext(pairs: seq<TrackedPair>, seen: seq<bool>, n: nat)
    requires n < |pairs| == |seen|
    ensures Filter(pairs[..n + 1], seen[..n + 1])
         == if seen[n] then Filter(pairs[..n], seen[..n]) + [pairs[n]] else Filter(pairs[..n], seen[..n])
  {
    assert pairs[..n + 1][..n] == pairs[..n] && seen[..n + 1][..n] == seen[..n];
  }

  lemma RankNext(seen: seq<bool>, n: nat)
    requires n < |seen|
    ensures Rank(seen, n + 1) == Rank(seen, n) + if seen[n] then 1 else 0
  {
  }

  /** Every survivor below n finds its own diversion in the slot it moves into. */
  ghost predicate Rehoused(pairs: seq<TrackedPair>, seen: seq<bool>, slots: seq<Diversion>, n: nat)
    requires n <= |pairs| <= |slots| && |pairs| == |seen|
  {
    forall k: nat :: k < n && seen[k] && pairs[k].diversion.Some? && Rank(seen, k) <= k ==> slots[Rank(seen, k)] == slots[k]
  }

  lemma RehousedNext(pairs: seq<TrackedPair>, seen: seq<bool>, slots: seq<Diversion>, n: nat)
    requires n < |pairs| <= |slots| && |pairs| == |seen|
    ensures Rehoused(pairs, seen, slots, 0)
    ensures Rehoused(pairs, seen, slots, n + 1) <==>
              Rehoused(pairs, seen, slots, n)
              && (seen[n] && pairs[n].diversion.Some? && Rank(seen, n) <= n ==> slots[Rank(seen, n)] == slots[n])
  {
    hide Rank;
  }

  lemma {:induction false} FilterCoherent(pairs: seq<TrackedPair>, seen: seq<bool>, slots: seq<Diversion>, n: nat)
    requires n <= |pairs| <= |slots| && |pairs| == |seen| && Coherent(pairs, slots)
    ensures |Filter(pairs[..n], seen[..n])| == Rank(seen, n) <= n
    ensures Coherent(Filter(pairs[..n], seen[..n]), slots) <==> Rehoused(pairs, seen, slots, n)
  {
    if n > 0 {
      hide Filter, Coherent, Rank, Rehoused;
      RehousedNext(pairs, seen, slots, n - 1);
      FilterCoherent(pairs, seen, slots, n - 1);
      FilterNext(pairs, seen, n - 1);
      RankNext(seen, n - 1);
      RankBound(seen, n - 1);
      OwnDiversion(pairs, slots, n - 1);
      if seen[n - 1] {
        CoherentNext(Filter(pairs[..n - 1], seen[..n - 1]), pairs[n - 1], slots);
      }
    }
  }

  lemma CoherentNext(pairs: seq<TrackedPair>, e: TrackedPair, slots: seq<Diversion>)
    requires |pairs| < |slots|
    ensures Coherent(pairs + [e], slots) <==>
              Coherent(pairs, slots) && (e.diversion.Some? ==> slots[|pairs|] == e.diversion.value)
  {
    if Coherent(pairs + [e], slots) {
      assert forall i :: 0 <= i < |pairs| ==> (pairs + [e])[i] == pairs[i];
      assert (pairs + [e])[|pairs|] == e;
    }
  }

  lemma OwnDiversion(pairs: seq<TrackedPair>, slots: seq<Diversion>, k: nat)
    requires Coherent(pairs, slots) && k < |pairs|
    ensures |pairs| <= |slots| && (pairs[k].diversion.Some? ==> slots[k] == pairs[k].diversion.value)
  {
  }

  /** The sweep moves entries but not their slots. Coherence survives it exactly when every
      surviving entry with a diversion finds that same diversion in the slot it moves into. */
  lemma SweepCoherent(s: Scan)
    requires s.Ok() && Coherent(s.pairs, s.slots)
    ensures forall k: nat :: k < |s.seen| ==> Rank(s.seen, k) <= k
    ensures Coherent(Finish(s).pairs, Finish(s).slots) <==> Rehoused(s.pairs, s.seen, s.slots, |s.pairs|)
  {
    forall k: nat | k <= |s.seen|
      ensures Rank(s.seen, k) <= k
    {
      RankBound(s.seen, k);
    }
    SweepIsFilter(s.pairs, s.seen, s.log, |s.pairs|);
    assert s.pairs[..|s.pairs|] == s.pairs && s.seen[..|s.pairs|] == s.seen && s.pairs[|s.pairs|..] == [];
    hide Filter, Rank, Sweep, Coherent;
    FilterCoherent(s.pairs, s.seen, s.slots, |s.pairs|);
    assert Finish(s).pairs == Filter(s.pairs, s.seen);
  }

  lemma {:induction false} RankBound(seen: seq<bool>, k: nat)
    requires k <= |seen|
    ensures Rank(seen, k) <= k
  {
    if k > 0 {
      RankBound(seen, k - 1);
    }
  }

  // ---- the repair: shift the slots with the entries ---------------------------------

  /** `tracked_remove` shifting both arrays: slot j takes slot j + 1 for the entries moved down. */
  function ShiftSlots(slots: seq<Diversion>, i: nat, n: nat): (r: seq<Diversion>)
    requires i < n <= |slots|
    ensures |r| == |slots|
  {
    slots[..i] + slots[i + 1..n] + slots[n - 1..]
  }

  function SweepBoth(pairs: seq<TrackedPair>, slots: seq<Diversion>, seen: seq<bool>, log: seq<Event>, i: nat)
    : (r: (seq<TrackedPair>, seq<Diversion>, seq<Event>))
    requires i <= |pairs| <= |slots| && i <= |seen|
    ensures |r.0| <= |pairs| && |r.1| == |slots|
  {
    if i == 0 then (pairs, slots, log)
    else if seen[i - 1] then SweepBoth(pairs, slots, seen, log, i - 1)
    else SweepBoth(Remove(pairs, i - 1), ShiftSlots(slots, i - 1, |pairs|), seen, log + [ClearFrame(pairs[i - 1])], i - 1)
  }

  /** A tick of the repaired detector. */
  function TickBoth(st: State, obs: seq<Sighting>): (st': State)
    requires st.Ok()
    ensures st'.Ok()
  {
    var s := Fold(st.Begin(), obs);
    var (pairs, slots, log) := SweepBoth(s.pairs, s.slots, s.seen, s.log, |s.pairs|);
    State(pairs, slots, s.ghostActive, log)
  }

  lemma {:induction false} SweepBothKeeps(pairs: seq<TrackedPair>, slots: seq<Diversion>, seen: seq<bool>, log: seq<Event>, i: nat)
    requires i <= |pairs| <= |slots| && i <= |seen| && Coherent(pairs, slots)
    ensures var (pairs', slots', log') := SweepBoth(pairs, slots, seen, log, i);
            && Coherent(pairs', slots')
            && (pairs', log') == Sweep(pairs, seen, log, i)
    decreases i
  {
    if i > 0 {
      if seen[i - 1] {
        SweepBothKeeps(pairs, slots, seen, log, i - 1);
      } else {
        var rest, slots' := Remove(pairs, i - 1), ShiftSlots(slots, i - 1, |pairs|);
        assert forall j :: 0 <= j < |rest| ==> rest[j] == pairs[if j < i - 1 then j else j + 1];
        assert forall j :: 0 <= j < |rest| ==> slots'[j] == slots[if j < i - 1 then j else j + 1];
        SweepBothKeeps(rest, slots', seen, log + [ClearFrame(pairs[i - 1])], i - 1);
      }
    }
  }

  lemma {:induction false} FoldCoherent(s: Scan, obs: seq<Sighting>)
    requires s.Ok() && TableInv(s.pairs) && Coherent(s.pairs, s.slots)
    requires forall g :: g in obs ==> StrLe(g.key.lo, g.key.hi)
    ensures Coherent(Fold(s, obs).pairs, Fold(s, obs).slots)
  {
    hide Step, Coherent;
    if obs != [] {
      var init := obs[..|obs| - 1];
      FoldCoherent(s, init);
      FoldKeepsTable(s, init);
      StepCoherent(Fold(s, init), obs[|obs| - 1]);
    }
  }

  function RunBoth(ticks: seq<seq<Sighting>>): (st: State)
    ensures st.Ok()
  {
    if ticks == [] then Start() else TickBoth(RunBoth(ticks[..|ticks| - 1]), ticks[|ticks| - 1])
  }

  /** With both arrays shifted, every run keeps the slots coherent, and the table and the frames of
      each tick are those of the original sweep. */
  lemma {:induction false} RunBothCoherent(ticks: seq<seq<Sighting>>)
    requires forall t :: t in ticks ==> FromScan(t)
    ensures TableInv(RunBoth(ticks).pairs) && Coherent(RunBoth(ticks).pairs, RunBoth(ticks).slots)
    ensures ticks != [] ==>
      var st, t := RunBoth(ticks[..|ticks| - 1]), ticks[|ticks| - 1];
      RunBoth(ticks).pairs == Tick(st, t).pairs && RunBoth(ticks).log == Tick(st, t).log
  {
    if ticks != [] {
      var st, t := RunBoth(ticks[..|ticks| - 1]), ticks[|ticks| - 1];
      assert t in ticks;
      RunBothCoherent(ticks[..|ticks| - 1]);
      hide Coherent, TableInv, Fold, Sweep, SweepBoth;
      TickKeepsTable(st, t);
      FoldCoherent(st.Begin(), t);
      var s := Fold(st.Begin(), t);
      SweepBothKeeps(s.pairs, s.slots, s.seen, s.log, |s.pairs|);
    }
  }

  /** Tick n of a repaired run sends to a pair whose encounter began without a simulator side. */
  ghost predicate OrphanAt(ticks: seq<seq<Sighting>>, n: nat, key: Key)
    requires n < |ticks|
  {
    var e, hit := EntryOf(RunBoth(ticks[..n]).pairs, key), Hit(ticks[n], key);
    e.Some? && hit.Some? && !Locked(e.value, hit.value.now) && SendDue(e.value, hit.value, false) && e.value.diversion.None?
  }

  /** That removes one of the two causes and leaves the other: with both arrays shifted the simulator
      is told the diversion the JSON frames show if and only if no tick sends to a pair whose encounter
      began without a simulator side. */
  lemma {:induction false} RunBothVoice(ticks: seq<seq<Sighting>>, key: Key)
    requires forall t :: t in ticks ==> FromScan(t)
    ensures Tied(EntryOf(RunBoth(ticks).pairs, key), RunBoth(ticks).log, key)
    ensures OneVoice(RunBoth(ticks).log, key) <==> forall n: nat | n < |ticks| :: !OrphanAt(ticks, n, key)
  {
    if ticks == [] {
      NothingSaid(key);
    } else {
      hide Tied, OneVoice, Tick, TableInv, FromScan, Coherent, OrphanAt;
      var init, t := ticks[..|ticks| - 1], ticks[|ticks| - 1];
      assert t in ticks;
      RunBothVoice(init, key);
      RunBothCoherent(init);
      RunBothCoherent(ticks);
      var st := RunBoth(init);
      TickVoice(st, t, key, 0);
      assert st.log[0..] == st.log && Tick(st, t).log[0..] == Tick(st, t).log;
      LastOrphan(ticks, key);
      CoherentMisspeaks(st, t, key);
    }
  }

  lemma CoherentMisspeaks(st: State, obs: seq<Sighting>, key: Key)
    requires st.Ok() && Coherent(st.pairs, st.slots)
    ensures var e, hit := EntryOf(st.pairs, key), Hit(obs, key);
            Misspoken(e, SlotOf(st.pairs, st.slots, key), hit) <==>
              e.Some? && hit.Some? && !Locked(e.value, hit.value.now) && SendDue(e.value, hit.value, false)
              && e.value.diversion.None?
  {
    hide Locked, SendDue, Hit;
  }

  lemma LastOrphan(ticks: seq<seq<Sighting>>, key: Key)
    requires ticks != []
    ensures var init, last := ticks[..|ticks| - 1], |ticks| - 1;
            (forall n: nat | n < |ticks| :: !OrphanAt(ticks, n, key))
            <==> (forall n: nat | n < |init| :: !OrphanAt(init, n, key)) && !OrphanAt(ticks, last, key)
    ensures var last := |ticks| - 1;
            var e, hit := EntryOf(RunBoth(ticks[..last]).pairs, key), Hit(ticks[last], key);
            OrphanAt(ticks, last, key) <==>
              e.Some? && hit.Some? && !Locked(e.value, hit.value.now) && SendDue(e.value, hit.value, false)
              && e.value.diversion.None?
  {
    var init, last := ticks[..|ticks| - 1], |ticks| - 1;
    forall n: nat | n < last
      ensures OrphanAt(ticks, n, key) == OrphanAt(init, n, key)
    {
      assert ticks[..n] == init[..n];
    }
    hide OrphanAt;
  }
}

/** What leaves the detector, frame by frame: which frames go together, whom they name, and what a tick
    says of a pair. */
module Outgoing {
  import opened Basics
  import opened AircraftDbSpec
  import opened Approach
  import opened TrackerSpec
  import opened TrackerRuns
  import opened TrackerEntries
  import opened PairFrames
  import opened Encounters
  import opened Alerts
  import opened Terminal

  // ---- the buzzer -------------------------------------------------------------------

  predicate Urgent(level: Level) { level == Warning || level == Crash }

  /** Place i of the log, if it holds a diversion: it follows its pair's JSON frame, and a warning frame
      for the same pair and moment follows it exactly if that says WARNING or CRASH. */
  predicate DiversionPlaced(log: seq<Event>, i: nat)
    requires i < |log|
  {
    log[i].BleDiversion? ==>
      && i > 0 && log[i - 1].Json? && log[i - 1].key == log[i].key && log[i - 1].level != Clear
      && (Urgent(log[i - 1].level) <==> i + 1 < |log| && log[i + 1] == BleWarning(log[i].key, log[i].at))
  }

  /** And if it holds a warning, it follows its diversion. */
  predicate WarningPlaced(log: seq<Event>, i: nat)
    requires i < |log|
  {
    log[i].BleWarning? ==> i > 0 && log[i - 1].BleDiversion? && log[i - 1].key == log[i].key && log[i - 1].at == log[i].at
  }

  ghost predicate Paired(log: seq<Event>) {
    forall i: nat | i < |log| :: DiversionPlaced(log, i) && WarningPlaced(log, i)
  }

  lemma PairedAppend(a: seq<Event>, b: seq<Event>)
    requires Paired(a) && Paired(b) && (b != [] ==> !b[0].BleWarning?)
    ensures Paired(a + b)
  {
    var c := a + b;
    forall i: nat | i < |c|
      ensures DiversionPlaced(c, i) && WarningPlaced(c, i)
    {
      if i < |a| {
        assert DiversionPlaced(a, i) && WarningPlaced(a, i);
      } else {
        assert DiversionPlaced(b, i - |a|) && WarningPlaced(b, i - |a|);
      }
    }
  }

  /** Frames none of which is a diversion or a warning. */
  lemma QuietPaired(evs: seq<Event>)
    requires forall e :: e in evs ==> !e.BleDiversion? && !e.BleWarning?
    ensures Paired(evs) && (evs != [] ==> !evs[0].BleWarning?)
  {
    assert forall i :: 0 <= i < |evs| ==> evs[i] in evs;
  }

  lemma CrashQuiet(g: Sighting, prev: Level)
    ensures forall e :: e in CrashEvents(g, prev) ==> !e.BleDiversion? && !e.BleWarning?
  {
  }

  /** The frames of one sighting go together. */
  lemma TouchPaired(e: TrackedPair, g: Sighting, isNew: bool, d: Diversion)
    requires g.level != Clear
    ensures Paired(TouchEvents(e, g, isNew, d)) && TouchEvents(e, g, isNew, d) != [] && TouchEvents(e, g, isNew, d)[0].Json?
  {
    TouchParts(e, g, isNew, d);
    hide TouchEvents, CrashEvents, SendDue, PrevLevel;
    var j, crash := Json(g.key, g.level, g.app, if isNew then None else e.diversion), CrashEvents(g, PrevLevel(e, isNew));
    CrashQuiet(g, PrevLevel(e, isNew));
    QuietPaired(crash);
    if SendDue(e, g, isNew) {
      DueSends(e, g, isNew);
      SentPaired(j, g, d);
    } else {
      QuietPaired([j]);
    }
    var head := [j] + Sends(e, g, isNew, d);
    assert [j] + (Sends(e, g, isNew, d) + crash) == head + crash;
    assert [j] + [] == [j];
    PairedAppend(head, crash);
  }

  lemma SentPaired(j: Event, g: Sighting, d: Diversion)
    requires j.Json? && j.key == g.key && j.level == g.level != Clear && g.sim.Some?
    ensures Paired([j] + SendEvents(g, d))
  {
  }

  lemma StepPaired(s: Scan, g: Sighting)
    requires s.Ok() && Paired(s.log)
    ensures Paired(Step(s, g).log)
  {
    StepLog(s, g);
    hide Step, TouchEvents, CrashEvents, Paired, Locked;
    var s', k := Step(s, g), FindPair(s.pairs, g.key);
    if g.level != Clear {
      if k >= 0 {
        TouchPaired(s.pairs[k], g, false, s'.slots[k]);
        PairedAppend(s.log, TouchEvents(s.pairs[k], g, false, s'.slots[k]));
      } else if |s.pairs| < MAX_TRACKED {
        TouchPaired(Born(g), g, true, s'.slots[|s.pairs|]);
        PairedAppend(s.log, TouchEvents(Born(g), g, true, s'.slots[|s.pairs|]));
      } else {
        CrashQuiet(g, Clear);
        QuietPaired(CrashEvents(g, Clear));
        PairedAppend(s.log, CrashEvents(g, Clear));
      }
    }
  }

  lemma {:induction false} FoldPaired(s: Scan, obs: seq<Sighting>)
    requires s.Ok() && Paired(s.log)
    ensures Paired(Fold(s, obs).log)
  {
    hide Step, Paired;
    if obs != [] {
      FoldPaired(s, obs[..|obs| - 1]);
      StepPaired(Fold(s, obs[..|obs| - 1]), obs[|obs| - 1]);
    }
  }

  lemma {:induction false} SweepPaired(pairs: seq<TrackedPair>, seen: seq<bool>, log: seq<Event>, i: nat)
    requires i <= |pairs| && i <= |seen| && Paired(log)
    ensures Paired(Sweep(pairs, seen, log, i).1)
  {
    hide Paired;
    if i > 0 {
      if seen[i - 1] {
        SweepPaired(pairs, seen, log, i - 1);
      } else {
        QuietPaired([ClearFrame(pairs[i - 1])]);
        PairedAppend(log, [ClearFrame(pairs[i - 1])]);
        SweepPaired(Remove(pairs, i - 1), seen, log + [ClearFrame(pairs[i - 1])], i - 1);
      }
    }
  }

  /** Over every run whatever: each diversion frame directly follows its pair's JSON frame, and is directly
      followed by a warning frame exactly when that frame says WARNING or CRASH; there are no other
      warning frames. */
  lemma {:induction false} RunPaired(actions: seq<Action>)
    ensures Paired(RunActions(actions).log)
  {
    if actions == [] {
      QuietPaired([]);
    } else {
      var prior, a := actions[..|actions| - 1], actions[|actions| - 1];
      RunPaired(prior);
      RunSnoc(actions);
      var st := RunActions(prior);
      hide RunActions, Paired, Fold, Sweep;
      match a {
        case DoTick(obs) =>
          var s := Fold(st.Begin(), obs);
          FoldPaired(st.Begin(), obs);
          SweepPaired(s.pairs, s.seen, s.log, |s.pairs|);
        case DoCrashTrigger(k, app, other, at) =>
          QuietPaired([Json(k, Crash, app, None), BleCrash(k, other, at)]);
          PairedAppend(st.log, [Json(k, Crash, app, None), BleCrash(k, other, at)]);
        case _ =>
      }
    }
  }

  // ---- what a tick says of a pair ---------------------------------------------------

  /** The frames of a tick about one pair, by its entry before, its sighting and whether it is tracked
      after. A diversion goes out, naming the threat, exactly if a send is due; a warning exactly if it is
      and the sighting is urgent; a terminal frame, naming the threat or for want of a simulator side the
      first of the two, exactly if the pair comes to CRASH, and then the missile and the ghost are called
      off if they are in it. */
  ghost predicate Says(evs: seq<Event>, e: Option<TrackedPair>, hit: Option<Sighting>, entered: bool, key: Key) {
    && (Due(e, hit, entered) ==> hit.value.sim.Some?)
    && SaysSends(evs, Due(e, hit, entered), hit, key) && SaysCrash(evs, CrashEdge(e, hit), hit, key)
    && forall v :: v in evs ==> v.key == key
  }

  ghost predicate SaysSends(evs: seq<Event>, due: bool, hit: Option<Sighting>, key: Key)
    requires due ==> hit.Some? && hit.value.sim.Some?
  {
    && (forall v :: v in evs && v.BleDiversion? ==> due && v == BleDiversion(key, hit.value.sim.value.threat, v.d, hit.value.now))
    && (due ==> exists v :: v in evs && v.BleDiversion?)
    && (forall t :: BleWarning(key, t) in evs <==> due && t == hit.value.now && Urgent(hit.value.level))
  }

  ghost predicate SaysCrash(evs: seq<Event>, edge: bool, hit: Option<Sighting>, key: Key)
    requires edge ==> hit.Some?
  {
    && (forall other, t :: BleCrash(key, other, t) in evs <==>
          edge && t == hit.value.now && other == (if hit.value.sim.Some? then hit.value.sim.value.threat else key.lo))
    && (CancelMissile(key) in evs <==> edge && (key.lo == "m1s51l" || key.hi == "m1s51l"))
    && (StopGhost(key) in evs <==> edge && (key.lo == "gh05t1" || key.hi == "gh05t1"))
  }

  lemma SendsSay(e: TrackedPair, g: Sighting, isNew: bool, d: Diversion)
    ensures SendDue(e, g, isNew) ==> g.sim.Some?
    ensures SaysSends(Sends(e, g, isNew, d), SendDue(e, g, isNew), Some(g), g.key)
    ensures forall v :: v in Sends(e, g, isNew, d) ==> v.key == g.key && (v.BleDiversion? || v.BleWarning?)
  {
    if SendDue(e, g, isNew) {
      assert BleDiversion(g.key, g.sim.value.threat, d, g.now) in Sends(e, g, isNew, d);
    }
  }

  lemma CrashSays(g: Sighting, prev: Level)
    ensures SaysCrash(CrashEvents(g, prev), g.level == Crash && prev != Crash, Some(g), g.key)
    ensures forall v :: v in CrashEvents(g, prev) ==> v.key == g.key && (v.BleCrash? || v.CancelMissile? || v.StopGhost?)
  {
  }

  /** Frames of the other kind change nothing. */
  lemma SendsAmong(evs: seq<Event>, more: seq<Event>, due: bool, hit: Option<Sighting>, key: Key)
    requires due ==> hit.Some? && hit.value.sim.Some?
    requires SaysSends(evs, due, hit, key) && (forall v :: v in evs ==> v in more)
    requires forall v :: v in more && v !in evs ==> !v.BleDiversion? && !v.BleWarning?
    ensures SaysSends(more, due, hit, key)
  {
  }

  lemma CrashAmong(evs: seq<Event>, more: seq<Event>, edge: bool, hit: Option<Sighting>, key: Key)
    requires edge ==> hit.Some?
    requires SaysCrash(evs, edge, hit, key) && (forall v :: v in evs ==> v in more)
    requires forall v :: v in more && v !in evs ==> !v.BleCrash? && !v.CancelMissile? && !v.StopGhost?
    ensures SaysCrash(more, edge, hit, key)
  {
  }

  lemma TouchSays(e: TrackedPair, g: Sighting, isNew: bool, d: Diversion, was: Option<TrackedPair>, entered: bool)
    requires g.level != Clear && SendDue(e, g, isNew) == Due(was, Some(g), entered)
    requires CrashEdge(was, Some(g)) <==> g.level == Crash && PrevLevel(e, isNew) != Crash
    ensures Says(TouchEvents(e, g, isNew, d), was, Some(g), entered, g.key)
  {
    hide TouchEvents, CrashEvents, Sends, SendDue, PrevLevel, Due, CrashEdge, SaysSends, SaysCrash;
    SendsSay(e, g, isNew, d);
    CrashSays(g, PrevLevel(e, isNew));
    TouchParts(e, g, isNew, d);
    var evs, sends, crash := TouchEvents(e, g, isNew, d), Sends(e, g, isNew, d), CrashEvents(g, PrevLevel(e, isNew));
    assert forall v :: v in evs <==> v == evs[0] || v in sends || v in crash;
    SendsAmong(sends, evs, SendDue(e, g, isNew), Some(g), g.key);
    CrashAmong(crash, evs, CrashEdge(was, Some(g)), Some(g), g.key);
  }

  lemma FramesSay(e: Option<TrackedPair>, hit: Option<Sighting>, entered: bool, d: Diversion, key: Key)
    requires hit.Some? ==> hit.value.key == key && hit.value.level != Clear
    requires e.Some? ==> e.value.key == key && e.value.level != Clear
    ensures Says(TickFrames(e, hit, entered, d), e, hit, entered, key)
  {
    hide TouchEvents, CrashEvents, Locked;
    if hit.None? {
    } else if e.Some? {
      if !Locked(e.value, hit.value.now) {
        TouchSays(e.value, hit.value, false, d, e, entered);
      }
    } else if entered {
      TouchSays(Born(hit.value), hit.value, true, d, e, entered);
    } else {
      CrashSays(hit.value, Clear);
    }
  }

  /** From any state a run can reach, or any other with a sound table. */
  lemma TickSays(st: State, obs: seq<Sighting>, key: Key)
    requires st.Ok() && TableInv(st.pairs) && FromScan(obs)
    ensures |st.log| <= |Tick(st, obs).log|
    ensures Says(EventsOf(Tick(st, obs).log[|st.log|..], key), EntryOf(st.pairs, key), Hit(obs, key),
                 EntryOf(Tick(st, obs).pairs, key).Some?, key)
  {
    hide TableInv, FromScan, Tick, Hit, EventsOf, TickFrames, EntryOf, Says;
    HitIsSighting(obs, key);
    EntryKey(st.pairs, key);
    var d := TickLately(st, obs, key, |st.log|);
    assert st.log[|st.log|..] == [];
    NoEvents(key);
    var e, hit, entered := EntryOf(st.pairs, key), Hit(obs, key), EntryOf(Tick(st, obs).pairs, key).Some?;
    assert [] + TickFrames(e, hit, entered, d) == TickFrames(e, hit, entered, d);
    FramesSay(e, hit, entered, d, key);
  }

  lemma EntryKey(pairs: seq<TrackedPair>, key: Key)
    requires TableInv(pairs)
    ensures EntryOf(pairs, key).Some? ==> EntryOf(pairs, key).value.key == key && EntryOf(pairs, key).value.level != Clear
  {
  }

  lemma NoEvents(key: Key)
    ensures EventsOf([], key) == []
  {
  }

  // ---- the ghost flag ---------------------------------------------------------------

  ghost predicate NoStop(evs: seq<Event>) { forall v :: v in evs ==> !v.StopGhost? }

  /** A ghost flies on over a tick exactly if it flew before and no frame of the tick called it off. */
  ghost predicate FliesOn(s: Scan, s': Scan) {
    && |s.log| <= |s'.log| && s'.log[..|s.log|] == s.log
    && (s'.ghostActive <==> s.ghostActive && NoStop(s'.log[|s.log|..]))
  }

  lemma StopSays(g: Sighting, prev: Level)
    ensures StopsGhost(g, prev) <==> !NoStop(CrashEvents(g, prev))
  {
    if StopsGhost(g, prev) {
      assert StopGhost(g.key) in CrashEvents(g, prev);
    }
  }

  lemma TouchStops(e: TrackedPair, g: Sighting, isNew: bool, d: Diversion)
    ensures NoStop(TouchEvents(e, g, isNew, d)) <==> !StopsGhost(g, PrevLevel(e, isNew))
  {
    TouchParts(e, g, isNew, d);
    SendsSay(e, g, isNew, d);
    StopSays(g, PrevLevel(e, isNew));
    hide TouchEvents, CrashEvents, Sends, PrevLevel, StopsGhost;
    var evs, sends, crash := TouchEvents(e, g, isNew, d), Sends(e, g, isNew, d), CrashEvents(g, PrevLevel(e, isNew));
    assert forall v :: v in evs <==> v == evs[0] || v in sends || v in crash;
  }

  lemma StepFlies(s: Scan, g: Sighting)
    requires s.Ok()
    ensures FliesOn(s, Step(s, g))
  {
    var s', k := Step(s, g), FindPair(s.pairs, g.key);
    if k >= 0 {
      TouchStops(s.pairs[k], g, false, s'.slots[k]);
    } else if |s.pairs| < MAX_TRACKED {
      TouchStops(Born(g), g, true, s'.slots[|s.pairs|]);
    } else {
      StopSays(g, Clear);
    }
    hide TouchEvents, CrashEvents, StopsGhost, Touch, Locked;
  }

  lemma FliesTrans(a: Scan, b: Scan, c: Scan)
    requires FliesOn(a, b) && FliesOn(b, c)
    ensures FliesOn(a, c)
  {
    assert c.log[..|a.log|] == c.log[..|b.log|][..|a.log|];
    var x, y, z := b.log[|a.log|..], c.log[|b.log|..], c.log[|a.log|..];
    assert z == x + y;
    assert forall v :: v in z <==> v in x || v in y;
  }

  lemma {:induction false} FoldFlies(s: Scan, obs: seq<Sighting>)
    requires s.Ok()
    ensures FliesOn(s, Fold(s, obs))
  {
    hide Step, FliesOn;
    if obs == [] {
      FliesStill(s);
    } else {
      var c := Fold(s, obs[..|obs| - 1]);
      FoldFlies(s, obs[..|obs| - 1]);
      StepFlies(c, obs[|obs| - 1]);
      FliesTrans(s, c, Fold(s, obs));
    }
  }

  lemma FliesStill(s: Scan)
    ensures FliesOn(s, s)
  {
    assert s.log[|s.log|..] == [];
  }

  lemma {:induction false} SweepNoStop(pairs: seq<TrackedPair>, seen: seq<bool>, log: seq<Event>, i: nat)
    requires i <= |pairs| && i <= |seen|
    ensures Extends(log, Sweep(pairs, seen, log, i).1) && NoStop(Sweep(pairs, seen, log, i).1[|log|..])
    decreases i
  {
    if i == 0 {
      assert log[|log|..] == [];
    } else if seen[i - 1] {
      SweepNoStop(pairs, seen, log, i - 1);
    } else {
      var more := log + [ClearFrame(pairs[i - 1])];
      SweepNoStop(Remove(pairs, i - 1), seen, more, i - 1);
      var end := Sweep(pairs, seen, log, i).1;
      assert end[..|log|] == end[..|more|][..|log|];
      assert end[|log|..] == [ClearFrame(pairs[i - 1])] + end[|more|..];
    }
  }

  lemma TickFlies(st: State, obs: seq<Sighting>)
    requires st.Ok()
    ensures |st.log| <= |Tick(st, obs).log|
    ensures Tick(st, obs).ghostActive <==> st.ghostActive && NoStop(Tick(st, obs).log[|st.log|..])
  {
    hide Fold, Sweep;
    var s0, s := st.Begin(), Fold(st.Begin(), obs);
    FoldFlies(s0, obs);
    SweepNoStop(s.pairs, s.seen, s.log, |s.pairs|);
    var end := Tick(st, obs).log;
    var x, y, z := s.log[|st.log|..], end[|s.log|..], end[|st.log|..];
    assert s.log == end[..|s.log|];
    assert z == x + y;
    assert forall v :: v in z <==> v in x || v in y;
  }

  // ---- whether a ghost flies --------------------------------------------------------

  /** Action m grounds the ghost: a stop, or a tick a frame of which calls it off. */
  ghost predicate Grounds(actions: seq<Action>, m: nat)
    requires m < |actions|
  {
    match actions[m]
    case DoGhostStop => true
    case DoTick(obs) =>
      var st := RunActions(actions[..m]);
      !NoStop(Tail(Tick(st, obs).log, |st.log|))
    case _ => false
  }

  /** A ghost start from which on nothing grounds it. */
  ghost predicate Lasts(actions: seq<Action>, n: nat)
    requires n < |actions|
  {
    actions[n].DoGhostStart? && forall m: nat | n < m < |actions| :: !Grounds(actions, m)
  }

  /** Over every run: a ghost flies exactly if it was started and nothing has grounded it since. */
  lemma {:induction false} RunFlies(actions: seq<Action>)
    ensures RunActions(actions).ghostActive <==> exists n: nat | n < |actions| :: Lasts(actions, n)
  {
    if actions != [] {
      var prior, k := actions[..|actions| - 1], |actions| - 1;
      RunFlies(prior);
      RunSnoc(actions);
      LastGrounds(actions);
      LastsSnoc(actions);
      hide RunActions, Grounds, Lasts, Act;
      ActFlies(RunActions(prior), actions[k]);
    } else {
      assert !RunActions(actions).ghostActive;
    }
  }

  lemma ActFlies(st: State, a: Action)
    requires st.Ok()
    ensures Act(st, a).ghostActive <==>
              a.DoGhostStart?
              || (st.ghostActive && !a.DoGhostStop? && !(a.DoTick? && !NoStop(Tail(Tick(st, a.obs).log, |st.log|))))
  {
    hide Tick;
    if a.DoTick? {
      TickFlies(st, a.obs);
    }
  }

  lemma LastGrounds(actions: seq<Action>)
    requires actions != []
    ensures var k, st := |actions| - 1, RunActions(actions[..|actions| - 1]);
            Grounds(actions, k) <==> actions[k].DoGhostStop?
                                     || (actions[k].DoTick? && !NoStop(Tail(Tick(st, actions[k].obs).log, |st.log|)))
  {
  }

  lemma GroundsPrior(actions: seq<Action>, m: nat)
    requires m < |actions| - 1
    ensures Grounds(actions[..|actions| - 1], m) == Grounds(actions, m)
  {
    assert actions[..|actions| - 1][..m] == actions[..m];
  }

  lemma LastsPrior(prior: seq<Action>, actions: seq<Action>, n: nat)
    requires n < |prior| && |actions| == |prior| + 1 && prior == actions[..|prior|]
    ensures Lasts(actions, n) <==> Lasts(prior, n) && !Grounds(actions, |prior|)
  {
    hide Grounds;
    forall m: nat | m < |prior|
      ensures Grounds(prior, m) == Grounds(actions, m)
    {
      GroundsPrior(actions, m);
    }
    assert actions[n] == prior[n];
    if Lasts(prior, n) && !Grounds(actions, |prior|) {
      forall m: nat | n < m < |actions|
        ensures !Grounds(actions, m)
      {
        assert m < |prior| ==> !Grounds(prior, m);
      }
    }
    if Lasts(actions, n) {
      forall m: nat | n < m < |prior|
        ensures !Grounds(prior, m)
      {
        assert !Grounds(actions, m);
      }
    }
  }

  lemma LastsSnoc(actions: seq<Action>)
    requires actions != []
    ensures var prior, k := actions[..|actions| - 1], |actions| - 1;
            (exists n: nat | n < |actions| :: Lasts(actions, n))
            <==> actions[k].DoGhostStart? || (!Grounds(actions, k) && exists n: nat | n < k :: Lasts(prior, n))
  {
    var prior, k := actions[..|actions| - 1], |actions| - 1;
    assert Lasts(actions, k) <==> actions[k].DoGhostStart?;
    LastGrounds(actions);
    hide Lasts, Grounds;
    if n: nat :| n < |actions| && Lasts(actions, n) {
      if n < k {
        LastsPrior(prior, actions, n);
      }
    }
    if n: nat :| n < k && Lasts(prior, n) {
      LastsPrior(prior, actions, n);
    }
  }
}

/** Runs cut at the ghost starts that drop a pair: what the log holds of it since, and which encounters
    are open. */
module Encounters {
  import opened Basics
  import opened AircraftDbSpec
  import opened Approach
  import opened TrackerSpec
  import opened TrackerRuns
  import opened TrackerEntries
  import opened PairFrames

  // ---- the log only grows -----------------------------------------------------------

  ghost predicate Extends(log: seq<Event>, log': seq<Event>) {
    |log| <= |log'| && log'[..|log|] == log
  }

  lemma ExtendsTrans(a: seq<Event>, b: seq<Event>, c: seq<Event>)
    requires Extends(a, b) && Extends(b, c)
    ensures Extends(a, c)
  {
    assert c[..|a|] == c[..|b|][..|a|];
  }

  lemma AppendExtends(log: seq<Event>, evs: seq<Event>)
    ensures Extends(log, log) && Extends(log, log + evs)
  {
  }

  lemma StepExtends(s: Scan, g: Sighting)
    requires s.Ok()
    ensures Extends(s.log, Step(s, g).log)
  {
    StepLog(s, g);
    hide Step, TouchEvents, CrashEvents;
  }

  lemma {:induction false} FoldExtends(s: Scan, obs: seq<Sighting>)
    requires s.Ok()
    ensures Extends(s.log, Fold(s, obs).log)
  {
    hide Step, Extends;
    if obs == [] {
      AppendExtends(s.log, []);
    } else {
      var init := obs[..|obs| - 1];
      FoldExtends(s, init);
      StepExtends(Fold(s, init), obs[|obs| - 1]);
      ExtendsTrans(s.log, Fold(s, init).log, Fold(s, obs).log);
    }
  }

  lemma {:induction false} SweepExtends(pairs: seq<TrackedPair>, seen: seq<bool>, log: seq<Event>, i: nat)
    requires i <= |pairs| && i <= |seen|
    ensures Extends(log, Sweep(pairs, seen, log, i).1)
  {
    hide Extends;
    if i == 0 {
      AppendExtends(log, []);
    } else if seen[i - 1] {
      SweepExtends(pairs, seen, log, i - 1);
    } else {
      var more := log + [ClearFrame(pairs[i - 1])];
      SweepExtends(Remove(pairs, i - 1), seen, more, i - 1);
      AppendExtends(log, [ClearFrame(pairs[i - 1])]);
      ExtendsTrans(log, more, Sweep(pairs, seen, log, i).1);
    }
  }

  lemma ActExtends(st: State, a: Action)
    requires st.Ok()
    ensures Extends(st.log, Act(st, a).log)
    ensures a.DoGhostStart? ==> Act(st, a).log == st.log
  {
    hide Fold, Sweep, Extends;
    match a {
      case DoTick(obs) =>
        var s := Fold(st.Begin(), obs);
        FoldExtends(st.Begin(), obs);
        SweepExtends(s.pairs, s.seen, s.log, |s.pairs|);
        ExtendsTrans(st.log, s.log, Tick(st, obs).log);
      case DoCrashTrigger(k, app, other, at) => AppendExtends(st.log, [Json(k, Crash, app, None), BleCrash(k, other, at)]);
      case _ => AppendExtends(st.log, []);
    }
  }

  // ---- since the last drop ----------------------------------------------------------

  /** The first action after the last one that dropped the pair; the first of all if none did. */
  function Since(actions: seq<Action>, key: Key): (n: nat)
    ensures n <= |actions|
  {
    if actions == [] then 0
    else
      var prior, a := actions[..|actions| - 1], actions[|actions| - 1];
      if Drops(RunActions(prior), a, key) then |actions| else Since(prior, key)
  }

  /** The length of the log then. */
  function SinceLog(actions: seq<Action>, key: Key): nat {
    if actions == [] then 0
    else
      var prior, a := actions[..|actions| - 1], actions[|actions| - 1];
      if Drops(RunActions(prior), a, key) then |RunActions(prior).log| else SinceLog(prior, key)
  }

  function Tail(log: seq<Event>, from: nat): seq<Event> { if from <= |log| then log[from..] else [] }

  /** What was logged since. */
  function Lately(actions: seq<Action>, key: Key): seq<Event> {
    Tail(RunActions(actions).log, SinceLog(actions, key))
  }

  lemma {:induction false} SinceBound(actions: seq<Action>, key: Key)
    ensures SinceLog(actions, key) <= |RunActions(actions).log|
  {
    hide Act, Drops;
    if actions != [] {
      var prior, a := actions[..|actions| - 1], actions[|actions| - 1];
      SinceBound(prior, key);
      ActExtends(RunActions(prior), a);
    }
  }

  lemma {:induction false} SinceStart(actions: seq<Action>, key: Key)
    requires Undropped(actions, key)
    ensures Since(actions, key) == 0 && SinceLog(actions, key) == 0 && Lately(actions, key) == RunActions(actions).log
  {
    hide Drops, RunActions, Undropped;
    if actions != [] {
      UndroppedSnoc(actions, key);
      SinceStart(actions[..|actions| - 1], key);
    }
  }

  /** No ghost start dropped the pair between two places of the log. */
  ghost predicate Unbroken(actions: seq<Action>, key: Key, h: nat, j: nat) {
    forall n: nat | n < |actions| && Drops(RunActions(actions[..n]), actions[n], key) ::
      !(h < |RunActions(actions[..n]).log| <= j)
  }

  lemma {:induction false} SinceIsDrop(actions: seq<Action>, key: Key) returns (n: nat)
    ensures SinceLog(actions, key) == 0
            || (n < |actions| && Drops(RunActions(actions[..n]), actions[n], key)
                && SinceLog(actions, key) == |RunActions(actions[..n]).log|)
    ensures n < |actions| ==> Extends(RunActions(actions[..n]).log, RunActions(actions).log)
  {
    n := 0;
    hide Drops, Act, Extends;
    if actions != [] {
      var prior, m := actions[..|actions| - 1], |actions| - 1;
      ActExtends(RunActions(prior), actions[m]);
      if Drops(RunActions(prior), actions[m], key) {
        n := m;
      } else {
        n := SinceIsDrop(prior, key);
        if n < m {
          assert actions[..n] == prior[..n];
          ExtendsTrans(RunActions(actions[..n]).log, RunActions(prior).log, RunActions(actions).log);
        } else {
          n := m;
        }
      }
    }
  }

  /** A run can be cut where its log passes j; everything from h to j lies in what was logged since the
      last drop before the cut. */
  lemma {:induction false} Cut(actions: seq<Action>, key: Key, h: nat, j: nat) returns (n: nat)
    requires h <= j < |RunActions(actions).log| && Unbroken(actions, key, h, j)
    ensures n <= |actions| && Extends(RunActions(actions[..n]).log, RunActions(actions).log)
    ensures j < |RunActions(actions[..n]).log| && SinceLog(actions[..n], key) <= h
  {
    hide Drops, Act, Extends;
    var prior, m := actions[..|actions| - 1], |actions| - 1;
    ActExtends(RunActions(prior), actions[m]);
    UnbrokenPrior(actions, key, h, j);
    assert actions[..|actions|] == actions;
    if j < |RunActions(prior).log| {
      n := Cut(prior, key, h, j);
      assert actions[..n] == prior[..n];
      ExtendsTrans(RunActions(actions[..n]).log, RunActions(prior).log, RunActions(actions).log);
    } else {
      n := |actions|;
      AppendExtends(RunActions(actions).log, []);
      DropsIsStart(RunActions(prior), actions[m], key);
      SinceUnbroken(prior, key, h, j);
    }
  }

  lemma UnbrokenPrior(actions: seq<Action>, key: Key, h: nat, j: nat)
    requires actions != [] && Unbroken(actions, key, h, j)
    ensures Unbroken(actions[..|actions| - 1], key, h, j)
  {
    hide Drops, RunActions;
    var prior := actions[..|actions| - 1];
    forall n: nat | n < |prior|
      ensures actions[..n] == prior[..n] && actions[n] == prior[n]
    {
    }
  }

  lemma SinceUnbroken(actions: seq<Action>, key: Key, h: nat, j: nat)
    requires Unbroken(actions, key, h, j) && |RunActions(actions).log| <= j
    ensures SinceLog(actions, key) <= h
  {
    hide Drops, RunActions;
    var d := SinceIsDrop(actions, key);
  }

  lemma DropsIsStart(st: State, a: Action, key: Key)
    ensures Drops(st, a, key) ==> a.DoGhostStart?
  {
  }

  lemma LatelyTick(actions: seq<Action>, obs: seq<Sighting>, key: Key)
    ensures RunActions(actions + [DoTick(obs)]) == Tick(RunActions(actions), obs)
    ensures Lately(actions + [DoTick(obs)], key) == Tail(Tick(RunActions(actions), obs).log, SinceLog(actions, key))
  {
    hide Tick, Tail;
    var next := actions + [DoTick(obs)];
    assert next[..|next| - 1] == actions;
    RunSnoc(next);
  }

  // ---- one pair's frames since ------------------------------------------------------

  /** A tick appends its frames to what a later part of the log holds of the pair. */
  lemma TickLately(st: State, obs: seq<Sighting>, key: Key, from: nat) returns (d: Diversion)
    requires st.Ok() && TableInv(st.pairs) && FromScan(obs) && from <= |st.log|
    ensures var e, hit, st' := EntryOf(st.pairs, key), Hit(obs, key), Tick(st, obs);
            && from <= |st'.log|
            && EventsOf(st'.log[from..], key) == EventsOf(st.log[from..], key) + TickFrames(e, hit, EntryOf(st'.pairs, key).Some?, d)
            && (e.Some? ==> SlotOf(st.pairs, st.slots, key) == Some(d))
            && (e.None? && EntryOf(st'.pairs, key).Some? && hit.Some? && hit.value.sim.Some? ==> d == hit.value.sim.value.pick)
  {
    hide TableInv, FromScan, Tick, Hit, EventsOf, TickFrames, SlotOf, EntryOf;
    d := TickEvents(st, obs, key);
    ActExtends(st, DoTick(obs));
    var log, log' := st.log, Tick(st, obs).log;
    assert Act(st, DoTick(obs)) == Tick(st, obs);
    assert log == log[..from] + log[from..] && log' == log[..from] + log'[from..];
    EventsAppend(log[..from], log[from..], key);
    EventsAppend(log[..from], log'[from..], key);
    var a, x, y := EventsOf(log[..from], key), EventsOf(log'[from..], key), EventsOf(log[from..], key);
    var frames := TickFrames(EntryOf(st.pairs, key), Hit(obs, key), EntryOf(Tick(st, obs).pairs, key).Some?, d);
    assert (a + y) + frames == a + (y + frames);
    SameRest(a, x, y + frames);
  }

  lemma SameRest(a: seq<Event>, x: seq<Event>, y: seq<Event>)
    requires a + x == a + y
    ensures x == y
  {
    assert x == (a + x)[|a|..] && y == (a + y)[|a|..];
  }

  // ---- which encounters are open ----------------------------------------------------

  /** Whether an encounter is open can be read off the pair's own frames. */
  lemma {:induction false} OpenOfEvents(log: seq<Event>, key: Key)
    ensures OpenAfter(EventsOf(log, key), key) == OpenAfter(log, key)
  {
    if log == [] {
      assert EventsOf(log, key) == [];
    } else {
      hide EventsOf, OpenAfter;
      var rest, e := log[..|log| - 1], log[|log| - 1];
      OpenOfEvents(rest, key);
      OneMore(rest, e, key);
      assert log == rest + [e];
      SnocLog(rest, e, key);
      SnocLog(EventsOf(rest, key), e, key);
      assert EventsOf(rest, key) + [] == EventsOf(rest, key);
    }
  }

  lemma FramesOpen(evs: seq<Event>, e: Option<TrackedPair>, hit: Option<Sighting>, room: bool, d: Diversion, key: Key)
    requires (e.Some? ==> OpenAfter(evs, key) && e.value.key == key) && (hit.Some? ==> hit.value.key == key && hit.value.level != Clear)
    ensures OpenAfter(evs + TickFrames(e, hit, room, d), key)
            == if e.Some? then hit.Some? else (hit.Some? && room) || OpenAfter(evs, key)
  {
    hide OpenAfter, TouchEvents, CrashEvents, Locked;
    if hit.None? {
      if e.Some? {
        SnocLog(evs, ClearFrame(e.value), key);
      } else {
        assert evs + [] == evs;
      }
    } else if e.Some? {
      if Locked(e.value, hit.value.now) {
        assert evs + [] == evs;
      } else {
        TouchProtocol(evs, e.value, hit.value, false, d, key);
      }
    } else if room {
      TouchProtocol(evs, Born(hit.value), hit.value, true, d, key);
    } else {
      CrashFrames(hit.value, Clear);
      QuietLog(evs, CrashEvents(hit.value, Clear), key);
    }
  }

  lemma EntryTracked(pairs: seq<TrackedPair>, key: Key)
    ensures Tracked(pairs, key) == EntryOf(pairs, key).Some?
    ensures EntryOf(pairs, key).Some? ==> EntryOf(pairs, key).value.key == key
  {
  }

  lemma TickOpen(st: State, obs: seq<Sighting>, key: Key)
    requires st.Ok() && TableInv(st.pairs) && FromScan(obs) && (Tracked(st.pairs, key) ==> OpenAfter(st.log, key))
    ensures var st' := Tick(st, obs);
            OpenAfter(st'.log, key) == (Tracked(st'.pairs, key) || (!Tracked(st.pairs, key) && OpenAfter(st.log, key)))
  {
    hide TableInv, FromScan, Tick, Hit, Newcomers, EventsOf, TickFrames, EntryOf, Tracked, OpenAfter;
    var e, hit, st' := EntryOf(st.pairs, key), Hit(obs, key), Tick(st, obs);
    HitIsSighting(obs, key);
    TickEntry(st, obs, key);
    EntryTracked(st.pairs, key);
    EntryTracked(st'.pairs, key);
    var d := TickEvents(st, obs, key);
    OpenOfEvents(st.log, key);
    OpenOfEvents(st'.log, key);
    FramesOpen(EventsOf(st.log, key), e, hit, EntryOf(st'.pairs, key).Some?, d, key);
  }

  /** Action n leaves an encounter open without the table: it drops the pair, or reports it by hand. */
  ghost predicate Loses(actions: seq<Action>, n: nat, key: Key)
    requires n < |actions|
  {
    Drops(RunActions(actions[..n]), actions[n], key) || (actions[n].DoCrashTrigger? && actions[n].key == key)
  }

  /** And the pair has not been tracked since. */
  ghost predicate Orphaned(actions: seq<Action>, n: nat, key: Key)
    requires n < |actions|
  {
    Loses(actions, n, key) && forall m: nat | n < m <= |actions| :: !Tracked(RunActions(actions[..m]).pairs, key)
  }

  /** Every run whatever: a pair's encounter is open exactly when the pair is tracked, or a ghost start
      dropped it or a manual trigger reported it and it has not been tracked since. */
  lemma {:induction false} RunOpen(actions: seq<Action>, key: Key)
    requires FromScans(actions)
    ensures OpenAfter(RunActions(actions).log, key)
            <==> Tracked(RunActions(actions).pairs, key) || exists n: nat | n < |actions| :: Orphaned(actions, n, key)
  {
    if actions != [] {
      var prior, m := actions[..|actions| - 1], |actions| - 1;
      assert actions[m] in actions;
      RunOpen(prior, key);
      RunProtocol(prior, key);
      RunKeepsTable(prior);
      OrphanedSnoc(actions, key);
      hide RunActions, TableInv, FromScan, OpenAfter, Tracked, Orphaned, Loses;
      ActOpen(RunActions(prior), actions[m], key);
      RunSnoc(actions);
      LosesLast(actions, key);
      NeverBoth(prior, key);
    }
  }

  lemma NeverBoth(actions: seq<Action>, key: Key)
    ensures forall n: nat | n < |actions| :: Orphaned(actions, n, key) ==> !Tracked(RunActions(actions).pairs, key)
  {
    hide Tracked, RunActions, Loses;
    assert actions[..|actions|] == actions;
  }

  lemma LosesLast(actions: seq<Action>, key: Key)
    requires actions != []
    ensures var prior, m := actions[..|actions| - 1], |actions| - 1;
            Loses(actions, m, key)
            <==> Drops(RunActions(prior), actions[m], key) || (actions[m].DoCrashTrigger? && actions[m].key == key)
  {
  }

  lemma ActOpen(st: State, a: Action, key: Key)
    requires st.Ok() && TableInv(st.pairs) && (a.DoTick? ==> FromScan(a.obs))
    requires Tracked(st.pairs, key) ==> OpenAfter(st.log, key)
    ensures var st' := Act(st, a);
            OpenAfter(st'.log, key) <==>
              Tracked(st'.pairs, key) || Drops(st, a, key) || (a.DoCrashTrigger? && a.key == key)
              || (!Tracked(st.pairs, key) && OpenAfter(st.log, key))
  {
    hide TableInv, FromScan, OpenAfter, Tick, EntryOf, DropGhost;
    match a {
      case DoTick(obs) => TickOpen(st, obs, key);
      case DoGhostStart =>
        GhostStartEntry(st, key);
        EntryTracked(st.pairs, key);
        EntryTracked(Act(st, a).pairs, key);
      case DoGhostStop =>
      case DoCrashTrigger(k, app, other, at) =>
        var log1 := st.log + [Json(k, Crash, app, None)];
        SnocLog(st.log, Json(k, Crash, app, None), key);
        SnocLog(log1, BleCrash(k, other, at), key);
        assert Act(st, a).log == log1 + [BleCrash(k, other, at)];
    }
  }

  lemma OrphanedPrior(actions: seq<Action>, n: nat, key: Key)
    requires n < |actions| - 1
    ensures var prior := actions[..|actions| - 1];
            Orphaned(actions, n, key) <==> Orphaned(prior, n, key) && !Tracked(RunActions(actions).pairs, key)
  {
    hide Tracked, RunActions, Drops;
    var prior, m := actions[..|actions| - 1], |actions| - 1;
    assert actions[..m + 1] == actions && actions[n] == prior[n];
    forall k: nat | k <= m
      ensures prior[..k] == actions[..k]
    {
    }
    assert Loses(actions, n, key) == Loses(prior, n, key);
    hide Loses;
  }

  lemma OrphanedLast(actions: seq<Action>, key: Key)
    requires actions != []
    ensures var m := |actions| - 1; Orphaned(actions, m, key) <==> Loses(actions, m, key) && !Tracked(RunActions(actions).pairs, key)
  {
    hide Tracked, RunActions, Loses;
    assert actions[..|actions|] == actions;
  }

  lemma OrphanedSnoc(actions: seq<Action>, key: Key)
    requires actions != []
    ensures var prior, m := actions[..|actions| - 1], |actions| - 1;
            (exists n: nat | n < |actions| :: Orphaned(actions, n, key))
            <==> !Tracked(RunActions(actions).pairs, key)
                 && (Loses(actions, m, key) || exists n: nat | n < m :: Orphaned(prior, n, key))
  {
    hide Tracked, RunActions, Orphaned, Loses;
    OrphanedLast(actions, key);
    var prior, m := actions[..|actions| - 1], |actions| - 1;
    if n: nat :| n < |actions| && Orphaned(actions, n, key) {
      if n < m {
        OrphanedPrior(actions, n, key);
      }
    }
    if n: nat :| n < m && Orphaned(prior, n, key) {
      OrphanedPrior(actions, n, key);
    }
  }
}

/** Every frame about one pair, action by action, in closed form. */
module PairFrames {
  import opened Basics
  import opened AircraftDbSpec
  import opened Approach
  import opened TrackerSpec
  import opened TrackerRuns
  import opened TrackerEntries

  /** What the scan emits about a pair: nothing unless it is sighted non-CLEAR; then nothing while it
      is locked, the frames of a sighting if it is tracked or finds room, else the crash edge alone. */
  function ScanEvents(e: Option<TrackedPair>, hit: Option<Sighting>, room: bool, d: Diversion): seq<Event> {
    match hit
    case None => []
    case Some(g) =>
      match e
      case Some(was) => if Locked(was, g.now) then [] else TouchEvents(was, g, false, d)
      case None => if room then TouchEvents(Born(g), g, true, d) else CrashEvents(g, Clear)
  }

  /** And the whole tick: a tracked pair that was not sighted gets its CLEAR. */
  function TickFrames(e: Option<TrackedPair>, hit: Option<Sighting>, room: bool, d: Diversion): seq<Event> {
    if hit.None? && e.Some? then [ClearFrame(e.value)] else ScanEvents(e, hit, room, d)
  }

  /** The slot under a pair, if it is tracked. */
  function SlotOf(pairs: seq<TrackedPair>, slots: seq<Diversion>, key: Key): Option<Diversion> {
    var k := FindPair(pairs, key);
    if 0 <= k < |slots| then Some(slots[k]) else None
  }

  /** A sighting of another pair touches neither entry, place, slot nor frames of this one. */
  lemma StepElse(s: Scan, g: Sighting, key: Key)
    requires s.Ok() && g.key != key
    ensures var s' := Step(s, g);
            && EventsOf(s'.log, key) == EventsOf(s.log, key)
            && EntryOf(s'.pairs, key) == EntryOf(s.pairs, key)
            && FindPair(s'.pairs, key) == FindPair(s.pairs, key)
            && SlotOf(s'.pairs, s'.slots, key) == SlotOf(s.pairs, s.slots, key)
  {
    hide Step, EventsOf, EntryOf;
    StepPlace(s, g, key);
    StepSlots(s, g);
    StepQuiet(s, g, key);
    var s' := Step(s, g);
    var evs := s'.log[|s.log|..];
    EventsAppend(s.log, evs, key);
    EventsElsewhere(evs, key);
    assert s.log + evs == s'.log;
  }

  lemma StepPlace(s: Scan, g: Sighting, key: Key)
    requires s.Ok() && g.key != key
    ensures EntryOf(Step(s, g).pairs, key) == EntryOf(s.pairs, key)
    ensures FindPair(Step(s, g).pairs, key) == FindPair(s.pairs, key)
  {
    StepTracked(s, g, key);
    StepOther(s, g, key);
    StepTable(s, g);
    hide Step, Touch, Locked;
    var k := FindPair(s.pairs, g.key);
    if FindPair(s.pairs, key) >= 0 {
      if k >= 0 {
        SameKey(s.pairs[k], g);
      }
      FirstFind(s.pairs, Step(s, g).pairs, key);
    }
  }

  /** A step writes at most the slot of the pair it scans: its pick, on leaving CLEAR. */
  lemma StepSlots(s: Scan, g: Sighting)
    requires s.Ok()
    ensures var s', k := Step(s, g), FindPair(s.pairs, g.key);
            && (forall i :: 0 <= i < MAX_TRACKED && i != (if k >= 0 then k else |s.pairs|) ==> s'.slots[i] == s.slots[i])
            && (k >= 0 && s.pairs[k].level != Clear ==> s'.slots == s.slots)
            && (k < 0 && |s.pairs| < MAX_TRACKED && g.level != Clear && g.sim.Some? ==>
                  s'.slots[|s.pairs|] == g.sim.value.pick)
  {
    hide TouchEvents, CrashEvents, Touch, Locked;
  }

  /** The pair's own sighting: where it ends up and what is in the slot there. */
  lemma StepOwnPlace(s: Scan, g: Sighting)
    requires s.Ok() && TableInv(s.pairs) && g.level != Clear
    ensures var s', k := Step(s, g), FindPair(s.pairs, g.key);
            && (k >= 0 ==> FindPair(s'.pairs, g.key) == k && s'.slots == s.slots)
            && (k < 0 && |s.pairs| < MAX_TRACKED ==>
                  FindPair(s'.pairs, g.key) == |s.pairs| && (g.sim.Some? ==> s'.slots[|s.pairs|] == g.sim.value.pick))
            && (k < 0 && |s.pairs| >= MAX_TRACKED ==> FindPair(s'.pairs, g.key) < 0)
  {
    hide Touch, TableInv, Step, Locked;
    StepSlots(s, g);
    StepTable(s, g);
    var k := FindPair(s.pairs, g.key);
    if k >= 0 {
      SameKey(s.pairs[k], g);
      FirstFind(s.pairs, Step(s, g).pairs, g.key);
      EntryNotClear(s.pairs, k);
    } else if |s.pairs| < MAX_TRACKED {
      TouchKey(g);
      NewPlace(s.pairs, Touch(Born(g), g, true), g.key);
    }
  }

  lemma StepOwn(s: Scan, g: Sighting)
    requires s.Ok() && TableInv(s.pairs) && g.level != Clear
    ensures var s', k := Step(s, g), FindPair(s.pairs, g.key);
            var room := FindPair(s'.pairs, g.key) >= 0;
            var d := SlotOf(s'.pairs, s'.slots, g.key);
            && room == d.Some?
            && (k >= 0 ==> FindPair(s'.pairs, g.key) == k && d == Some(s.slots[k]))
            && (k < 0 && room && g.sim.Some? ==> d == Some(g.sim.value.pick))
            && EventsOf(s'.log, g.key) == EventsOf(s.log, g.key)
                 + ScanEvents(EntryOf(s.pairs, g.key), Some(g), room, if d.Some? then d.value else Left)
  {
    hide Step, EventsOf, TouchEvents, CrashEvents, TableInv, Locked, FindPair;
    StepOwnPlace(s, g);
    OwnEvents(s, g);
  }

  lemma NewPlace(pairs: seq<TrackedPair>, e: TrackedPair, key: Key)
    requires FindPair(pairs, key) < 0 && e.key == key
    ensures FindPair(pairs + [e], key) == |pairs|
  {
    var m := FindPair(pairs + [e], key);
    assert (pairs + [e])[|pairs|].key == key;
  }

  lemma EntryNotClear(pairs: seq<TrackedPair>, k: int)
    requires TableInv(pairs) && 0 <= k < |pairs|
    ensures pairs[k].level != Clear
  {
  }

  lemma OwnEvents(s: Scan, g: Sighting)
    requires s.Ok() && g.level != Clear
    ensures var s', k := Step(s, g), FindPair(s.pairs, g.key);
            var evs :=
              if k >= 0 then (if Locked(s.pairs[k], g.now) then [] else TouchEvents(s.pairs[k], g, false, s'.slots[k]))
              else if |s.pairs| < MAX_TRACKED then TouchEvents(Born(g), g, true, s'.slots[|s.pairs|])
              else CrashEvents(g, Clear);
            EventsOf(s'.log, g.key) == EventsOf(s.log, g.key) + evs
  {
    StepLog(s, g);
    hide Step, EventsOf, TouchEvents, CrashEvents, Locked;
    var s', k := Step(s, g), FindPair(s.pairs, g.key);
    if k >= 0 {
      if !Locked(s.pairs[k], g.now) {
        TouchFrames(s.pairs[k], g, false, s'.slots[k]);
        EventsOwn(s.log, TouchEvents(s.pairs[k], g, false, s'.slots[k]), g.key);
      }
    } else if |s.pairs| < MAX_TRACKED {
      TouchFrames(Born(g), g, true, s'.slots[|s.pairs|]);
      EventsOwn(s.log, TouchEvents(Born(g), g, true, s'.slots[|s.pairs|]), g.key);
    } else {
      CrashFrames(g, Clear);
      EventsOwn(s.log, CrashEvents(g, Clear), g.key);
    }
  }

  lemma {:induction false} EventsOwn(log: seq<Event>, evs: seq<Event>, key: Key)
    requires forall e :: e in evs ==> e.key == key
    ensures EventsOf(log + evs, key) == EventsOf(log, key) + evs
  {
    if evs == [] {
      assert log + evs == log;
    } else {
      var init, e := evs[..|evs| - 1], evs[|evs| - 1];
      EventsOwn(log, init, key);
      assert e in evs;
      assert log + evs == (log + init) + [e];
      OneMore(log + init, e, key);
    }
  }

  /** Place, slot and frames of a pair after the scan. */
  lemma {:induction false} ScanFrames(st: State, obs: seq<Sighting>, key: Key)
    requires st.Ok() && TableInv(st.pairs) && FromScan(obs)
    ensures var s, e, hit := Fold(st.Begin(), obs), EntryOf(st.pairs, key), Hit(obs, key);
            var d := SlotOf(s.pairs, s.slots, key);
            && (hit.None? ==> EntryOf(s.pairs, key) == e && FindPair(s.pairs, key) == FindPair(st.pairs, key))
            && (FindPair(s.pairs, key) >= 0 <==> d.Some?)
            && (e.Some? ==> FindPair(s.pairs, key) == FindPair(st.pairs, key) && d == SlotOf(st.pairs, st.slots, key))
            && (e.None? && d.Some? && hit.Some? && hit.value.sim.Some? ==> d == Some(hit.value.sim.value.pick))
            && EventsOf(s.log, key) == EventsOf(st.log, key) + ScanEvents(e, hit, d.Some?, if d.Some? then d.value else Left)
  {
    hide TableInv, Step, EventsOf, ScanEvents, SlotOf, EntryOf;
    NoScan();
    if obs == [] {
      BeginSlot(st, key);
    } else {
      var init, g := obs[..|obs| - 1], obs[|obs| - 1];
      var c := Fold(st.Begin(), init);
      ScanFrames(st, init, key);
      FoldKeepsTable(st.Begin(), init);
      if g.key != key {
        StepElse(c, g, key);
      } else {
        NotBefore(obs, key);
        if g.level == Clear {
          StepClear(c, g);
        } else {
          OwnSlot(st, c, g);
        }
      }
    }
  }

  lemma StepClear(s: Scan, g: Sighting)
    requires s.Ok() && g.level == Clear
    ensures Step(s, g) == s
  {
  }

  lemma BeginSlot(st: State, key: Key)
    requires st.Ok()
    ensures var k := FindPair(st.pairs, key);
            && (k >= 0 <==> SlotOf(st.pairs, st.slots, key).Some?) && (k >= 0 <==> EntryOf(st.pairs, key).Some?)
  {
  }

  lemma NoScan()
    ensures forall e, room, d :: ScanEvents(e, None, room, d) == []
  {
  }

  /** The last sighting's pair has not been sighted before it. */
  lemma NotBefore(obs: seq<Sighting>, key: Key)
    requires FromScan(obs) && obs != [] && obs[|obs| - 1].key == key
    ensures FromScan(obs[..|obs| - 1]) && Hit(obs[..|obs| - 1], key) == None
  {
    HitIsSighting(obs[..|obs| - 1], key);
  }

  lemma OwnSlot(st: State, c: Scan, g: Sighting)
    requires st.Ok() && c.Ok() && TableInv(c.pairs) && g.level != Clear
    requires EntryOf(c.pairs, g.key) == EntryOf(st.pairs, g.key) && FindPair(c.pairs, g.key) == FindPair(st.pairs, g.key)
    requires EntryOf(st.pairs, g.key).Some? ==> SlotOf(c.pairs, c.slots, g.key) == SlotOf(st.pairs, st.slots, g.key)
    requires EventsOf(c.log, g.key) == EventsOf(st.log, g.key)
    ensures var s, e := Step(c, g), EntryOf(st.pairs, g.key);
            var d := SlotOf(s.pairs, s.slots, g.key);
            && (FindPair(s.pairs, g.key) >= 0 <==> d.Some?)
            && (e.Some? ==> FindPair(s.pairs, g.key) == FindPair(st.pairs, g.key) && d == SlotOf(st.pairs, st.slots, g.key))
            && (e.None? && d.Some? && g.sim.Some? ==> d == Some(g.sim.value.pick))
            && EventsOf(s.log, g.key) == EventsOf(st.log, g.key) + ScanEvents(e, Some(g), d.Some?, if d.Some? then d.value else Left)
  {
    StepOwn(c, g);
    hide TableInv, Step, EventsOf, ScanEvents, FindPair;
  }

  /** The frames of a pair over one tick. A tracked pair that is sent a diversion is sent the one in
      the slot under it; a pair that enters with a simulator side is sent the one picked for it. */
  lemma TickEvents(st: State, obs: seq<Sighting>, key: Key) returns (d: Diversion)
    requires st.Ok() && TableInv(st.pairs) && FromScan(obs)
    ensures var e, hit, st' := EntryOf(st.pairs, key), Hit(obs, key), Tick(st, obs);
            && EventsOf(st'.log, key) == EventsOf(st.log, key) + TickFrames(e, hit, EntryOf(st'.pairs, key).Some?, d)
            && (e.Some? ==> SlotOf(st.pairs, st.slots, key) == Some(d))
            && (e.None? && EntryOf(st'.pairs, key).Some? && hit.Some? && hit.value.sim.Some? ==> d == hit.value.sim.value.pick)
  {
    hide TableInv, FromScan, Fold, Sweep, Touch, Newcomers, Hit, Seen, EventsOf, ScanEvents;
    var s, e, hit := Fold(st.Begin(), obs), EntryOf(st.pairs, key), Hit(obs, key);
    NoScan();
    assert EventsOf(st.log, key) + [] == EventsOf(st.log, key);
    ScanFrames(st, obs, key);
    BeginSlot(st, key);
    var slot := SlotOf(s.pairs, s.slots, key);
    d := if slot.Some? then slot.value else Left;
    var k, m := ScanPlace(st, obs, key);
    if m >= 0 {
      SweepEntry(s.pairs, s.seen, s.log, |s.pairs|, key, m);
    } else {
      SweepAbsent(s.pairs, s.seen, s.log, |s.pairs|, key);
    }
  }
}

/** One pair across a tick: what becomes of its entry and which frames it gets. */
module TrackerEntries {
  import opened Basics
  import opened AircraftDbSpec
  import opened Approach
  import opened TrackerSpec
  import opened TrackerRuns

  function EntryOf(pairs: seq<TrackedPair>, key: Key): Option<TrackedPair> {
    var k := FindPair(pairs, key);
    if k < 0 then None else Some(pairs[k])
  }

  /** The frames about one pair, in order. */
  function EventsOf(log: seq<Event>, key: Key): seq<Event> {
    if log == [] then []
    else EventsOf(log[..|log| - 1], key) + if log[|log| - 1].key == key then [log[|log| - 1]] else []
  }

  lemma {:induction false} EventsAppend(log: seq<Event>, evs: seq<Event>, key: Key)
    ensures EventsOf(log + evs, key) == EventsOf(log, key) + EventsOf(evs, key)
  {
    if evs == [] {
      assert log + evs == log;
    } else {
      var init, e := evs[..|evs| - 1], evs[|evs| - 1];
      EventsAppend(log, init, key);
      assert (log + evs)[..|log + evs| - 1] == log + init;
    }
  }

  lemma {:induction false} EventsElsewhere(evs: seq<Event>, key: Key)
    requires forall e :: e in evs ==> e.key != key
    ensures EventsOf(evs, key) == []
  {
    if evs != [] {
      EventsElsewhere(evs[..|evs| - 1], key);
      assert evs[|evs| - 1] in evs;
    }
  }

  lemma {:induction false} SweepAbsent(pairs: seq<TrackedPair>, seen: seq<bool>, log: seq<Event>, i: nat, key: Key)
    requires i <= |pairs| && i <= |seen| && TableInv(pairs) && FindPair(pairs, key) < 0
    ensures var (pairs', log') := Sweep(pairs, seen, log, i);
            FindPair(pairs', key) < 0 && EventsOf(log', key) == EventsOf(log, key)
  {
    hide TableInv;
    if i > 0 {
      if seen[i - 1] {
        SweepAbsent(pairs, seen, log, i - 1, key);
      } else {
        RemoveKeepsTable(pairs, i - 1);
        TableDistinct(pairs);
        RemoveFind(pairs, i - 1, key);
        assert pairs[i - 1].key != key;
        EventsAppend(log, [ClearFrame(pairs[i - 1])], key);
        EventsElsewhere([ClearFrame(pairs[i - 1])], key);
        SweepAbsent(Remove(pairs, i - 1), seen, log + [ClearFrame(pairs[i - 1])], i - 1, key);
      }
    }
  }

  lemma RemoveEntry(pairs: seq<TrackedPair>, i: nat, key: Key, k: nat)
    requires TableInv(pairs) && i < |pairs| && k < |pairs| && k == FindPair(pairs, key)
    ensures TableInv(Remove(pairs, i)) && (k != i ==> pairs[i].key != key)
    ensures var rest, m := Remove(pairs, i), if k < i then k else k - 1;
            if k == i then FindPair(rest, key) < 0 else 0 <= m < |rest| && FindPair(rest, key) == m && rest[m] == pairs[k]
  {
    RemoveKeepsTable(pairs, i);
    TableDistinct(pairs);
    RemoveFind(pairs, i, key);
    FindSome(pairs, i);
    if k != i {
      var rest, m := Remove(pairs, i), if k < i then k else k - 1;
      assert rest[m] == pairs[k];
      TableDistinct(rest);
      FindSome(rest, m);
    }
  }

  lemma OneMore(log: seq<Event>, e: Event, key: Key)
    ensures EventsOf(log + [e], key) == EventsOf(log, key) + if e.key == key then [e] else []
  {
    assert (log + [e])[..|log|] == log;
  }

  /** The sweep seen from one tracked pair: kept silently if marked, else one CLEAR frame and gone. */
  lemma {:induction false} SweepEntry(pairs: seq<TrackedPair>, seen: seq<bool>, log: seq<Event>, i: nat, key: Key, k: nat)
    requires i <= |pairs| && i <= |seen| && TableInv(pairs) && k < |pairs| && k == FindPair(pairs, key)
    ensures var (pairs', log') := Sweep(pairs, seen, log, i);
            if k >= i || seen[k] then
              EntryOf(pairs', key) == Some(pairs[k]) && EventsOf(log', key) == EventsOf(log, key)
            else
              EntryOf(pairs', key) == None && EventsOf(log', key) == EventsOf(log, key) + [ClearFrame(pairs[k])]
    decreases i
  {
    hide TableInv, EventsOf, Remove;
    if i > 0 {
      if seen[i - 1] {
        SweepEntry(pairs, seen, log, i - 1, key, k);
      } else {
        var rest, f := Remove(pairs, i - 1), ClearFrame(pairs[i - 1]);
        RemoveEntry(pairs, i - 1, key, k);
        OneMore(log, f, key);
        if k == i - 1 {
          SweepAbsent(rest, seen, log + [f], i - 1, key);
        } else {
          SweepEntry(rest, seen, log + [f], i - 1, key, if k < i - 1 then k else k - 1);
        }
      }
    }
  }

  /** What a tick makes of one pair's entry: a tracked pair stays exactly if it was sighted
      non-CLEAR, touched by that sighting unless crash-locked; an untracked pair enters exactly if it
      is among the newcomers that found room. */
  lemma TickEntry(st: State, obs: seq<Sighting>, key: Key)
    requires st.Ok() && TableInv(st.pairs) && FromScan(obs)
    ensures var e', hit := EntryOf(Tick(st, obs).pairs, key), Hit(obs, key);
            match EntryOf(st.pairs, key)
            case Some(e) => e' == if hit.Some? then Some(Seen(e, obs)) else None
            case None =>
              e' == if hit.Some? && hit.value in Newcomers(st.pairs, obs)
                    then Some(Touch(Born(hit.value), hit.value, true)) else None
  {
    hide TableInv, FromScan, Fold, Sweep, Touch, Newcomers, Hit, Seen, SeenAll, Marks, Admitted;
    var s := Fold(st.Begin(), obs);
    var k, m := ScanPlace(st, obs, key);
    if m >= 0 {
      SweepEntry(s.pairs, s.seen, s.log, |s.pairs|, key, m);
    } else {
      SweepAbsent(s.pairs, s.seen, s.log, |s.pairs|, key);
    }
  }

  /** Where a key is before (k) and after (m) the scan, with its entry and mark. */
  lemma ScanPlace(st: State, obs: seq<Sighting>, key: Key) returns (k: int, m: int)
    requires st.Ok() && TableInv(st.pairs) && FromScan(obs)
    ensures TableInv(Fold(st.Begin(), obs).pairs)
    ensures k == FindPair(st.pairs, key) && m == FindPair(Fold(st.Begin(), obs).pairs, key)
    ensures var s, hit := Fold(st.Begin(), obs), Hit(obs, key);
            if k >= 0 then m == k && s.pairs[m] == Seen(st.pairs[k], obs) && s.seen[m] == hit.Some?
            else if hit.Some? && hit.value in Newcomers(st.pairs, obs) then
              m >= 0 && s.pairs[m] == Touch(Born(hit.value), hit.value, true) && s.seen[m]
            else m < 0
  {
    hide TableInv, DistinctPairs, FromScan, Fold, Touch, Newcomers, Hit, Seen, FindPair;
    var s, news := Fold(st.Begin(), obs), Newcomers(st.pairs, obs);
    ScanShape(st, obs);
    k, m := FindPair(st.pairs, key), FindPair(s.pairs, key);
    NewcomerKeys(st.pairs, obs, key);
    assert forall j :: 0 <= j < |news| ==> news[j] in news;
    if k >= 0 || !(Hit(obs, key).Some? && Hit(obs, key).value in news) {
      FindInScan(st.pairs, SeenAll(st.pairs, obs), Admitted(news), key);
    } else {
      var j :| 0 <= j < |news| && news[j] == Hit(obs, key).value;
      assert s.pairs[|st.pairs| + j] == Admitted(news)[j];
      FindSome(s.pairs, |st.pairs| + j);
    }
  }

  lemma ScanShape(st: State, obs: seq<Sighting>)
    requires st.Ok() && TableInv(st.pairs) && FromScan(obs)
    ensures var s, news := Fold(st.Begin(), obs), Newcomers(st.pairs, obs);
            && TableInv(s.pairs) && DistinctPairs(s.pairs)
            && s.pairs == SeenAll(st.pairs, obs) + Admitted(news)
            && s.seen == Marks(st.pairs, obs) + Flags(|news|, true)
  {
    TableDistinct(st.pairs);
    FoldKeepsTable(st.Begin(), obs);
    TableDistinct(Fold(st.Begin(), obs).pairs);
    hide TableInv, Fold, Newcomers;
    FoldTable(st.Begin(), obs);
  }

  /** A newcomer with this key can only be the key's own non-CLEAR sighting, and of an untracked key. */
  lemma NewcomerKeys(pairs: seq<TrackedPair>, obs: seq<Sighting>, key: Key)
    requires FromScan(obs)
    ensures Hit(obs, key).Some? ==> Hit(obs, key).value.key == key
    ensures forall g :: g in Newcomers(pairs, obs) ==>
              Touch(Born(g), g, true).key == g.key
              && (g.key == key ==> Hit(obs, key) == Some(g) && FindPair(pairs, key) < 0)
  {
    HitIsSighting(obs, key);
    NewcomersSighted(pairs, obs);
    NewcomersClear(pairs, obs);
    SightedOnce(obs, key);
    hide Newcomers, Hit, FromScan;
  }

  lemma SightedOnce(obs: seq<Sighting>, key: Key)
    requires FromScan(obs)
    ensures forall g :: g in obs && g.key == key && Hit(obs, key).Some? ==> g == Hit(obs, key).value
  {
    HitIsSighting(obs, key);
  }

  lemma {:induction false} NewcomersClear(pairs: seq<TrackedPair>, obs: seq<Sighting>)
    ensures forall g :: g in Newcomers(pairs, obs) ==> g.level != Clear
  {
    if obs != [] {
      NewcomersClear(pairs, obs[..|obs| - 1]);
    }
  }

  /** Everything one scanned pair appends is about that pair. */
  lemma StepQuiet(s: Scan, g: Sighting, key: Key)
    requires s.Ok() && g.key != key
    ensures var log' := Step(s, g).log;
            |s.log| <= |log'| && log'[..|s.log|] == s.log && forall e :: e in log'[|s.log|..] ==> e.key != key
  {
    StepLog(s, g);
    hide Step, TouchEvents, CrashEvents;
    var s', k := Step(s, g), FindPair(s.pairs, g.key);
    CrashFrames(g, Clear);
    if g.level != Clear {
      if k >= 0 {
        TouchFrames(s.pairs[k], g, false, s'.slots[k]);
      } else if |s.pairs| < MAX_TRACKED {
        TouchFrames(Born(g), g, true, s'.slots[|s.pairs|]);
      }
    }
  }

  /** A scanned pair leaves every other tracked pair's entry alone. */
  lemma StepOther(s: Scan, g: Sighting, key: Key)
    requires s.Ok() && g.key != key
    ensures EntryOf(s.pairs, key).Some? ==> EntryOf(Step(s, g).pairs, key) == EntryOf(s.pairs, key)
  {
    StepTable(s, g);
    hide Step, Touch, Locked;
    var s', k, m := Step(s, g), FindPair(s.pairs, g.key), FindPair(s.pairs, key);
    if m >= 0 {
      if k >= 0 {
        SameKey(s.pairs[k], g);
      }
      FirstFind(s.pairs, s'.pairs, key);
    }
  }

  lemma FirstFind(a: seq<TrackedPair>, b: seq<TrackedPair>, key: Key)
    requires FindPair(a, key) >= 0 && |a| <= |b| && forall i :: 0 <= i < |a| ==> b[i].key == a[i].key
    ensures FindPair(b, key) == FindPair(a, key)
  {
    var k, m := FindPair(a, key), FindPair(b, key);
    assert b[k].key == key;
  }

  /** A ghost restart leaves every entry alone whose pair does not name the ghost. */
  lemma {:induction false} DropGhostEntry(pairs: seq<TrackedPair>, i: nat, key: Key)
    requires TableInv(pairs) && i <= |pairs| && !NamesGhost(key)
    ensures EntryOf(DropGhost(pairs, i), key) == EntryOf(pairs, key)
  {
    hide TableInv;
    if i > 0 {
      if NamesGhost(pairs[i - 1].key) {
        var k := FindPair(pairs, key);
        RemoveKeepsTable(pairs, i - 1);
        if k >= 0 {
          RemoveEntry(pairs, i - 1, key, k);
        } else {
          TableDistinct(pairs);
          RemoveFind(pairs, i - 1, key);
        }
        DropGhostEntry(Remove(pairs, i - 1), i - 1, key);
      } else {
        DropGhostEntry(pairs, i - 1, key);
      }
    }
  }

  /** A ghost start takes away exactly the entries it drops. */
  lemma GhostStartEntry(st: State, key: Key)
    requires st.Ok() && TableInv(st.pairs)
    ensures EntryOf(Act(st, DoGhostStart).pairs, key) == if Drops(st, DoGhostStart, key) then None else EntryOf(st.pairs, key)
  {
    hide TableInv, DropGhost;
    DropGhostKeeps(st.pairs, |st.pairs|, key);
    if !NamesGhost(key) {
      DropGhostEntry(st.pairs, |st.pairs|, key);
    }
  }
}

/** The table as the firmware holds it: a static pool of entries threaded into a singly linked
    list. Slot indices stand for the pointers into the pool; -1 stands for NULL. */
module AircraftDb {
  import opened Basics
  import opened KalmanSpec
  import opened AircraftDbSpec
  import Kalman

  const NULL := -1

  /** One pool entry, less its filter: the embedded list node, the record and its time stamp. */
  datatype Slot = Slot(next: int, ac: Aircraft, lastSeen: int)

  const ZERO_SLOT := Slot(NULL, NO_AIRCRAFT, 0)

  // ---- linked lists over a pool, as values ------------------------------------------

  ghost predicate Distinct(s: seq<int>) {
    forall i, j :: 0 <= i < j < |s| ==> s[i] != s[j]
  }

  function Without(s: seq<int>, k: int): seq<int>
    requires 0 <= k < |s|
  {
    s[..k] + s[k + 1..]
  }

  lemma WithoutAt(s: seq<int>, k: int, j: int)
    requires 0 <= k < |s| && 0 <= j < |s| - 1
    ensures |Without(s, k)| == |s| - 1
    ensures Without(s, k)[j] == s[if j < k then j else j + 1]
  {
  }

  lemma WithoutElements(s: seq<int>, k: int)
    requires Distinct(s) && 0 <= k < |s|
    ensures Distinct(Without(s, k))
    ensures forall x :: x in Without(s, k) <==> x in s && x != s[k]
  {
    var t := Without(s, k);
    forall x | x in s && x != s[k]
      ensures x in t
    {
      var i :| 0 <= i < |s| && s[i] == x;
      assert t[if i < k then i else i - 1] == x;
    }
  }

  /** Distinct slot numbers below n are at most n many, and n of them are all of them. */
  lemma {:induction false} Pigeonhole(s: seq<int>, n: nat)
    requires Distinct(s) && forall x :: x in s ==> 0 <= x < n
    ensures |s| <= n
    ensures |s| == n <==> forall x :: 0 <= x < n ==> x in s
  {
    if s != [] {
      assert s[0] in s;
    }
    if n == 0 {
    } else if n - 1 in s {
      var k :| 0 <= k < |s| && s[k] == n - 1;
      WithoutElements(s, k);
      hide Distinct;
      Pigeonhole(Without(s, k), n - 1);
    } else {
      Pigeonhole(s, n - 1);
    }
  }

  /** The slot after position k of the list, or NULL. */
  function After(list: seq<int>, k: int): int
    requires 0 <= k < |list|
  {
    if k + 1 < |list| then list[k + 1] else NULL
  }

  /** `list` is exactly the chain of `next` links from `head` to `tail`. */
  ghost predicate Chain(p: seq<Slot>, list: seq<int>, head: int, tail: int) {
    && Distinct(list)
    && (forall k :: 0 <= k < |list| ==> 0 <= list[k] < |p|)
    && head == (if list == [] then NULL else list[0])
    && tail == (if list == [] then NULL else list[|list| - 1])
    && forall k {:trigger p[list[k]]} :: 0 <= k < |list| ==> p[list[k]].next == After(list, k)
  }

  lemma ChainAt(p: seq<Slot>, list: seq<int>, head: int, tail: int, k: int)
    requires Chain(p, list, head, tail) && 0 <= k < |list|
    ensures 0 <= list[k] < |p| && list[k] != NULL && p[list[k]].next == After(list, k)
  {
  }

  lemma ChainAgree(p: seq<Slot>, list: seq<int>, head: int, tail: int, p': seq<Slot>)
    requires Chain(p, list, head, tail) && |p| == |p'|
    requires forall i :: 0 <= i < |p| ==> p'[i].next == p[i].next
    ensures Chain(p', list, head, tail)
  {
    forall k | 0 <= k < |list|
      ensures p'[list[k]].next == After(list, k)
    {
      assert p[list[k]].next == After(list, k);
    }
  }

  /** The two pools differ at most in their links. */
  ghost predicate SameRecords(p: seq<Slot>, p': seq<Slot>) {
    |p| == |p'| && forall i :: 0 <= i < |p| ==> p'[i].ac == p[i].ac && p'[i].lastSeen == p[i].lastSeen
  }

  lemma SameRelinked(p: seq<Slot>, i: int, n: int, j: int, m: int)
    requires 0 <= i < |p| && 0 <= j < |p|
    ensures var p1 := p[i := p[i].(next := n)];
            SameRecords(p, p) && SameRecords(p, p1) && SameRecords(p, p1[j := p1[j].(next := m)])
  {
  }

  /** `sys_slist_append` keeps the chain. */
  lemma AppendChain(p: seq<Slot>, list: seq<int>, head: int, tail: int, e: int)
    requires Chain(p, list, head, tail) && 0 <= e < |p| && e !in list
    ensures var p1 := p[e := p[e].(next := NULL)];
            && (tail != NULL ==> 0 <= tail < |p|)
            && var p2 := if tail == NULL then p1 else p1[tail := p1[tail].(next := e)];
            Chain(p2, list + [e], if tail == NULL then e else head, e)
  {
    var list' := list + [e];
    var p1 := p[e := p[e].(next := NULL)];
    if list == [] {
    } else {
      var p2 := p1[tail := p1[tail].(next := e)];
      forall k | 0 <= k < |list'|
        ensures p2[list'[k]].next == After(list', k)
      {
        if k < |list| - 1 {
          assert p[list[k]].next == After(list, k);
        }
      }
    }
  }

  /** `sys_slist_remove` of position k keeps the chain. */
  lemma UnlinkChain(p: seq<Slot>, list: seq<int>, head: int, tail: int, k: int)
    requires Chain(p, list, head, tail) && 0 <= k < |list|
    ensures var cur, rest := list[k], Without(list, k);
            var prev := if k == 0 then NULL else list[k - 1];
            var p1 := if prev == NULL then p else p[prev := p[prev].(next := p[cur].next)];
            var p2 := p1[cur := p1[cur].(next := NULL)];
            var head' := if prev == NULL then p[cur].next else head;
            Chain(p2, rest, head', if tail == cur then (if prev == NULL then head' else prev) else tail)
  {
    var cur, rest := list[k], Without(list, k);
    var prev := if k == 0 then NULL else list[k - 1];
    var p1 := if prev == NULL then p else p[prev := p[prev].(next := p[cur].next)];
    var p2 := p1[cur := p1[cur].(next := NULL)];
    ChainAt(p, list, head, tail, k);
    WithoutElements(list, k);
    forall j | 0 <= j < |rest|
      ensures 0 <= rest[j] < |p2| && p2[rest[j]].next == After(rest, j)
    {
      UnlinkLink(p, list, head, tail, k, j, p2);
    }
  }

  /** The link out of position j of the shortened list. */
  lemma UnlinkLink(p: seq<Slot>, list: seq<int>, head: int, tail: int, k: int, j: int, p2: seq<Slot>)
    requires Chain(p, list, head, tail) && 0 <= k < |list| && 0 <= j < |list| - 1
    requires |p2| == |p| && p2[list[k]].next == NULL
    requires k > 0 ==> p2[list[k - 1]].next == p[list[k]].next
    requires forall i :: 0 <= i < |list| && i != k && i != k - 1 ==> p2[list[i]].next == p[list[i]].next
    ensures var rest := Without(list, k); 0 <= rest[j] < |p| && p2[rest[j]].next == After(rest, j)
  {
    hide Chain, Without;
    var i := if j < k then j else j + 1;
    ChainAt(p, list, head, tail, i);
    ChainAt(p, list, head, tail, k);
    WithoutAt(list, k, j);
    if j + 1 < |list| - 1 {
      WithoutAt(list, k, j + 1);
    }
  }

  /** The rows a chain of slots stands for. */
  ghost function RowAt(p: seq<Slot>, ks: seq<KState>, i: int): Row
    requires 0 <= i < |p| == |ks|
  {
    Row(p[i].ac, p[i].lastSeen, ks[i])
  }

  ghost predicate InRange(s: seq<int>, n: int) {
    forall k :: 0 <= k < |s| ==> 0 <= s[k] < n
  }

  ghost function RowsOf(p: seq<Slot>, ks: seq<KState>, list: seq<int>): (rows: seq<Row>)
    requires |p| == |ks| && InRange(list, |p|)
    ensures |rows| == |list|
  {
    seq(|list|, k requires 0 <= k < |list| => RowAt(p, ks, list[k]))
  }

  /** Rows only depend on the records and filters of their own slots. */
  lemma RowsAgree(p: seq<Slot>, ks: seq<KState>, p': seq<Slot>, ks': seq<KState>, list: seq<int>)
    requires |p| == |ks| == |p'| == |ks'| && InRange(list, |p|)
    requires forall i :: i in list ==> RowAt(p, ks, i) == RowAt(p', ks', i)
    ensures RowsOf(p, ks, list) == RowsOf(p', ks', list)
  {
  }

  lemma RowIs(p: seq<Slot>, ks: seq<KState>, i: int)
    requires 0 <= i < |p| == |ks|
    ensures RowAt(p, ks, i) == Row(p[i].ac, p[i].lastSeen, ks[i])
  {
  }

  lemma RowsAppend(p: seq<Slot>, ks: seq<KState>, p': seq<Slot>, ks': seq<KState>, list: seq<int>, e: int)
    requires |p| == |ks| == |p'| == |ks'| && InRange(list, |p|) && 0 <= e < |p|
    requires forall i :: i in list ==> RowAt(p, ks, i) == RowAt(p', ks', i)
    ensures RowsOf(p', ks', list + [e]) == RowsOf(p, ks, list) + [RowAt(p', ks', e)]
  {
  }

  lemma RowsUpdate(p: seq<Slot>, ks: seq<KState>, p': seq<Slot>, ks': seq<KState>, list: seq<int>, k: int)
    requires |p| == |ks| == |p'| == |ks'| && InRange(list, |p|) && Distinct(list) && 0 <= k < |list|
    requires forall i :: 0 <= i < |p| && i != list[k] ==> RowAt(p, ks, i) == RowAt(p', ks', i)
    ensures RowsOf(p', ks', list) == RowsOf(p, ks, list)[k := RowAt(p', ks', list[k])]
  {
  }

  lemma RowsIndex(p: seq<Slot>, ks: seq<KState>, list: seq<int>, k: int)
    requires |p| == |ks| && InRange(list, |p|) && 0 <= k < |list|
    ensures RowsOf(p, ks, list)[k] == RowAt(p, ks, list[k])
  {
  }

  lemma SameTransitive(p: seq<Slot>, q: seq<Slot>, r: seq<Slot>)
    requires SameRecords(p, q) && SameRecords(q, r)
    ensures SameRecords(p, r)
  {
  }

  lemma SameRows(p: seq<Slot>, ks: seq<KState>, p': seq<Slot>)
    requires SameRecords(p, p') && |p| == |ks|
    ensures forall i :: 0 <= i < |p| ==> RowAt(p', ks, i) == RowAt(p, ks, i) && p'[i].lastSeen == p[i].lastSeen
  {
  }

  /** Where the reaper stands between two turns of its loop: the pool and list as they are, the
      list entries kept so far, the cursor and its predecessor, and the counters. */
  datatype ReapPoint = ReapPoint(pool: seq<Slot>, list: seq<int>, kept: seq<int>, cur: int, prev: int, stats: Stats)

  /** What the reaper has done after k entries of the old list `was`. */
  ghost predicate ReapProgress(p: seq<Slot>, ks: seq<KState>, was: seq<int>, stats: Stats, now: int,
                               k: int, a: ReapPoint)
  {
    && |p| == |ks| && InRange(was, |p|) && InRange(a.kept, |p|) && SameRecords(p, a.pool)
    && 0 <= k <= |was| && |a.kept| <= k && a.list == a.kept + was[k..]
    && a.cur == (if k < |was| then was[k] else NULL)
    && a.prev == (if a.kept == [] then NULL else a.kept[|a.kept| - 1])
    && RowsOf(p, ks, a.kept) == Keep(RowsOf(p, ks, was)[..k], now)
    && a.stats == stats.(staleEvicts := Add32(stats.staleEvicts, k - |a.kept|))
  }

  /** One turn of the loop: `cur` is unlinked if stale, else stepped over. */
  ghost predicate ReapTurn(now: int, a: ReapPoint, b: ReapPoint) {
    && |a.kept| < |a.list| && 0 <= a.cur < |a.pool| && SameRecords(a.pool, b.pool)
    && b.cur == After(a.list, |a.kept|)
    && if now - a.pool[a.cur].lastSeen > STALE_MS then
         && b.list == Without(a.list, |a.kept|) && b.kept == a.kept && b.prev == a.prev
         && b.stats == a.stats.(staleEvicts := Inc32(a.stats.staleEvicts))
       else
         b.list == a.list && b.kept == a.kept + [a.cur] && b.prev == a.cur && b.stats == a.stats
  }

  lemma ReapStart(p: seq<Slot>, ks: seq<KState>, was: seq<int>, head: int, tail: int, stats: Stats, now: int)
    requires Chain(p, was, head, tail) && |p| == |ks|
    ensures ReapProgress(p, ks, was, stats, now, 0, ReapPoint(p, was, [], head, NULL, stats))
  {
  }

  lemma ReapBounds(p: seq<Slot>, ks: seq<KState>, was: seq<int>, stats: Stats, now: int, k: int, a: ReapPoint)
    requires ReapProgress(p, ks, was, stats, now, k, a)
    ensures 0 <= k <= |was| && (k < |was| <==> a.cur != NULL)
    ensures a.cur != NULL ==>
      |a.kept| < |a.list| && a.list[|a.kept|] == a.cur && a.prev == if a.kept == [] then NULL else a.list[|a.kept| - 1]
  {
  }

  lemma ReapAdvance(p: seq<Slot>, ks: seq<KState>, was: seq<int>, stats: Stats, now: int, k: int,
                    a: ReapPoint, b: ReapPoint)
    requires ReapProgress(p, ks, was, stats, now, k, a) && a.cur != NULL && ReapTurn(now, a, b)
    ensures ReapProgress(p, ks, was, stats, now, k + 1, b)
  {
    hide SameRecords, Inc32, Add32, Keep, Without, After, RowAt, RowsOf, Live;
    var rows := RowsOf(p, ks, was);
    SameTransitive(p, a.pool, b.pool);
    SameAge(p, ks, a.pool, a.cur, now);
    ListAdvance(a.list, a.kept, was, k);
    RowsIndex(p, ks, was, k);
    KeepNext(rows, k, now);
    RowsAppend(p, ks, p, ks, a.kept, a.cur);
    IncAdd(stats.staleEvicts, k - |a.kept|);
  }

  lemma KeepNext(rows: seq<Row>, k: nat, now: int)
    requires k < |rows|
    ensures Keep(rows[..k + 1], now) == if Live(rows[k], now) then Keep(rows[..k], now) + [rows[k]] else Keep(rows[..k], now)
  {
    assert rows[..k + 1][..k] == rows[..k];
  }

  lemma ListAdvance(list: seq<int>, kept: seq<int>, was: seq<int>, k: nat)
    requires k < |was| && list == kept + was[k..]
    ensures Without(list, |kept|) == kept + was[k + 1..] && list == (kept + [was[k]]) + was[k + 1..]
    ensures After(list, |kept|) == if k + 1 < |was| then was[k + 1] else NULL
  {
  }

  lemma SameAge(p: seq<Slot>, ks: seq<KState>, p': seq<Slot>, i: int, now: int)
    requires |p| == |ks| && SameRecords(p, p') && 0 <= i < |p|
    ensures |p'| == |p| && (Live(RowAt(p, ks, i), now) <==> now - p'[i].lastSeen <= STALE_MS)
  {
  }

  lemma ReapDone(p: seq<Slot>, ks: seq<KState>, was: seq<int>, stats: Stats, now: int, k: int, a: ReapPoint)
    requires ReapProgress(p, ks, was, stats, now, k, a) && a.cur == NULL
    ensures InRange(was, |p|) && |a.pool| == |p| && InRange(a.list, |p|)
    ensures Db(RowsOf(a.pool, ks, a.list), a.stats) == Reap(Db(RowsOf(p, ks, was), stats), now)
  {
    assert RowsOf(p, ks, was)[..k] == RowsOf(p, ks, was);
    assert a.list == a.kept;
    SameRows(p, ks, a.pool);
    RowsAgree(p, ks, a.pool, ks, a.list);
  }

  // ---- the mutable table ------------------------------------------------------------

  class AircraftDb {
    const pool: array<Slot>
    const used: array<bool>
    /** The filter embedded in each pool entry. */
    const kfs: seq<Kalman.KalmanState>
    var head: int
    var tail: int
    var stats: Stats
    /** The slots of the list, head first. */
    ghost var list: seq<int>

    ghost predicate Shape() {
      && pool.Length == used.Length == |kfs| == MAX_ENTRIES
      && pool as object !in Filters() && used as object !in Filters() && this as object !in Filters()
      && (forall i :: 0 <= i < MAX_ENTRIES ==> kfs[i].Valid())
      && forall i, j :: 0 <= i < j < MAX_ENTRIES ==>
           kfs[i] != kfs[j] && kfs[i].x != kfs[j].x && kfs[i].P != kfs[j].P
    }

    ghost function Filters(): set<object> {
      (set k | k in kfs :: k as object) + (set k | k in kfs :: k.x as object) + (set k | k in kfs :: k.P as object)
    }

    ghost function KfAt(i: int): KState
      requires Shape() && 0 <= i < MAX_ENTRIES
      reads Filters()
    {
      assert kfs[i] in kfs;
      kfs[i].State()
    }

    /** The filters' values, slot by slot. */
    ghost function Kfs(): (ks: seq<KState>)
      requires Shape()
      reads Filters()
      ensures |ks| == MAX_ENTRIES
    {
      seq(MAX_ENTRIES, i requires 0 <= i < MAX_ENTRIES reads Filters() => KfAt(i))
    }

    /** Used slots and list nodes are in bijection. */
    ghost predicate Owned(u: seq<bool>, s: seq<int>) {
      |u| == MAX_ENTRIES && forall i :: 0 <= i < MAX_ENTRIES ==> (u[i] <==> i in s)
    }

    ghost predicate Valid()
      reads this, pool, used
    {
      Shape() && Chain(pool[..], list, head, tail) && Owned(used[..], list)
    }

    ghost function State(): Db
      requires Valid()
      reads this, pool, used, Filters()
    {
      Db(RowsOf(pool[..], Kfs(), list), stats)
    }

    constructor ()
      ensures Valid() && fresh(pool) && fresh(used) && fresh(Filters())
      ensures State() == Db([], NO_STATS)
    {
      pool := new Slot[MAX_ENTRIES](_ => ZERO_SLOT);
      var free := new bool[MAX_ENTRIES](_ => false);
      used := free;
      head, tail, stats, list := NULL, NULL, NO_STATS, [];
      var ks: seq<Kalman.KalmanState> := [];
      while |ks| < MAX_ENTRIES
        invariant |ks| <= MAX_ENTRIES
        invariant forall i :: 0 <= i < MAX_ENTRIES ==> !free[i]
        invariant forall i :: 0 <= i < |ks| ==> fresh(ks[i]) && fresh(ks[i].x) && fresh(ks[i].P) && ks[i].Valid()
        invariant forall i, j :: 0 <= i < j < |ks| ==>
          ks[i] != ks[j] && ks[i].x != ks[j].x && ks[i].P != ks[j].P
      {
        var k := new Kalman.KalmanState();
        ks := ks + [k];
      }
      kfs := ks;
      new;
    }

    /** `find_locked`: walk the list comparing identifiers. */
    method FindLocked(icao: Icao) returns (e: int)
      requires Valid()
      ensures var k := Find(State().rows, icao); e == if k < 0 then NULL else list[k]
    {
      e := head;
      ghost var k := 0;
      ghost var rows := State().rows;
      while e != NULL
        invariant 0 <= k <= |list| && e == if k < |list| then list[k] else NULL
        invariant forall j :: 0 <= j < k ==> rows[j].ac.icao != icao
        decreases |list| - k
      {
        assert rows[k].ac == pool[e].ac;
        if pool[e].ac.icao == icao {
          return;
        }
        assert pool[..][list[k]].next == After(list, k);
        e := pool[e].next;
        k := k + 1;
      }
    }

    /** `pool_alloc`: the first free slot, zeroed, or NULL. */
    method PoolAlloc() returns (e: int)
      requires Shape()
      modifies pool, used, Filters()
      ensures e == NULL || 0 <= e < MAX_ENTRIES
      ensures e == NULL ==> (forall i :: 0 <= i < MAX_ENTRIES ==> used[i])
      ensures e == NULL ==> pool[..] == old(pool[..]) && used[..] == old(used[..]) && Kfs() == old(Kfs())
      ensures e != NULL ==> !old(used[e])
      ensures e != NULL ==> pool[..] == old(pool[..])[e := ZERO_SLOT] && used[..] == old(used[..])[e := true]
      ensures e != NULL ==> Kfs() == old(Kfs())[e := BLANK]
    {
      for i := 0 to MAX_ENTRIES
        invariant forall j :: 0 <= j < i ==> used[j]
        invariant pool[..] == old(pool[..]) && used[..] == old(used[..])
        invariant unchanged(Filters())
      {
        if !used[i] {
          used[i] := true;
          pool[i] := ZERO_SLOT;
          assert kfs[i] in kfs;
          kfs[i].Reset();
          return i;
        }
      }
      return NULL;
    }

    /** `pool_free`: find the slot whose address is `e` and release it. */
    method PoolFree(e: int)
      requires Shape() && 0 <= e < MAX_ENTRIES
      modifies used
      ensures used[..] == old(used[..])[e := false]
    {
      for i := 0 to MAX_ENTRIES
        invariant i <= e && used[..] == old(used[..])
      {
        if i == e {
          used[i] := false;
          return;
        }
      }
    }

    /** `sys_slist_append`. */
    method Append(e: int)
      requires Shape() && Chain(pool[..], list, head, tail) && 0 <= e < MAX_ENTRIES && e !in list
      modifies this`head, this`tail, this`list, pool
      ensures Chain(pool[..], list, head, tail) && list == old(list) + [e] && Kfs() == old(Kfs())
      ensures SameRecords(old(pool[..]), pool[..])
    {
      hide Chain, SameRecords;
      AppendChain(pool[..], list, head, tail, e);
      SameRelinked(pool[..], e, NULL, if tail == NULL then e else tail, e);
      pool[e] := pool[e].(next := NULL);
      if tail == NULL {
        head := e;
      } else {
        pool[tail] := pool[tail].(next := e);
      }
      tail := e;
      list := list + [e];
    }

    /** `sys_slist_remove`: unlink `cur`, whose predecessor is `prev`. */
    method Unlink(prev: int, cur: int, ghost k: int)
      requires Shape() && Chain(pool[..], list, head, tail)
      requires 0 <= k < |list| && cur == list[k] && prev == if k == 0 then NULL else list[k - 1]
      modifies this`head, this`tail, this`list, pool
      ensures Chain(pool[..], list, head, tail) && list == Without(old(list), k)
      ensures SameRecords(old(pool[..]), pool[..])
    {
      assert 0 <= cur < MAX_ENTRIES && (prev != NULL ==> 0 <= prev < MAX_ENTRIES);
      hide Chain, SameRecords, Without;
      UnlinkChain(pool[..], list, head, tail, k);
      SameRelinked(pool[..], cur, NULL, cur, NULL);
      SameRelinked(pool[..], if prev == NULL then cur else prev, pool[cur].next, cur, NULL);
      if prev == NULL {
        head := pool[cur].next;
        if tail == cur {
          tail := head;
        }
      } else {
        pool[prev] := pool[prev].(next := pool[cur].next);
        if tail == cur {
          tail := prev;
        }
      }
      pool[cur] := pool[cur].(next := NULL);
      list := Without(list, k);
    }

    /** `aircraft_db_upsert`. */
    method UpsertRecord(src: Aircraft, now: int, t: Tuning, scale: LonScale) returns (rc: Outcome)
      requires Valid()
      modifies this, pool, used, Filters()
      ensures Valid()
      ensures (State(), rc) == Upsert(old(State()), src, now, t, scale)
    {
      hide NextRow, Find, RowsOf;
      if src.icao == "" {
        return Invalid;
      }
      ghost var k := Find(State().rows, src.icao);
      var e := FindLocked(src.icao);
      if e != NULL {
        UpdateEntry(e, k, src, now, t, scale);
        rc := Updated;
      } else {
        rc := InsertEntry(src, now, t, scale);
      }
    }

    /** The branch for a known aircraft: overwrite the record, refresh its time, run the filter. */
    method UpdateEntry(e: int, ghost k: int, src: Aircraft, now: int, t: Tuning, scale: LonScale)
      requires Valid() && 0 <= k < |list| && e == list[k]
      modifies this`stats, pool, Filters()
      ensures Valid() && list == old(list)
      ensures State() == Db(old(State()).rows[k := NextRow(old(State()).rows[k], src, now, t, scale)],
                            old(stats).(updates := Inc32(old(stats).updates)))
    {
      hide NextRow, RowsOf, Owned;
      ghost var p, ks := pool[..], Kfs();
      assert 0 <= e < MAX_ENTRIES && InRange(list, MAX_ENTRIES) && Distinct(list);
      hide Chain;
      Refresh(e, src, now, t, scale);
      stats := stats.(updates := Inc32(stats.updates));
      ChainAgree(p, list, head, tail, pool[..]);
      RowsUpdate(p, ks, pool[..], Kfs(), list, k);
      RowsIndex(p, ks, list, k);
    }

    /** Overwrite the record of slot `e`, run its filter and publish. */
    method Refresh(e: int, src: Aircraft, now: int, t: Tuning, scale: LonScale)
      requires Shape() && 0 <= e < MAX_ENTRIES
      modifies pool, Filters()
      ensures forall i :: 0 <= i < MAX_ENTRIES ==> pool[i].next == old(pool[i].next)
      ensures forall i :: 0 <= i < MAX_ENTRIES && i != e ==> RowAt(pool[..], Kfs(), i) == old(RowAt(pool[..], Kfs(), i))
      ensures RowAt(pool[..], Kfs(), e) == NextRow(old(RowAt(pool[..], Kfs(), e)), src, now, t, scale)
    {
      hide PredictState, UpdateState, Elapsed, Publish;
      var prev := pool[e].lastSeen;
      pool[e] := pool[e].(ac := src, lastSeen := now);
      Fuse(e, Elapsed(prev, now), src.lat, src.lon, t, scale);
      PublishEntry(e);
    }

    /** Start slot `e` with a first observation. */
    method Seed(e: int, src: Aircraft, now: int, t: Tuning, scale: LonScale)
      requires Shape() && 0 <= e < MAX_ENTRIES
      modifies pool, Filters()
      ensures forall i :: 0 <= i < MAX_ENTRIES ==> pool[i].next == old(pool[i].next)
      ensures forall i :: 0 <= i < MAX_ENTRIES && i != e ==> RowAt(pool[..], Kfs(), i) == old(RowAt(pool[..], Kfs(), i))
      ensures RowAt(pool[..], Kfs(), e)
           == Row(src, now, UpdateState(InitState(src.lat, src.lon), src.lat, src.lon, t.r, scale))
    {
      hide InitState, UpdateState;
      pool[e] := pool[e].(ac := src, lastSeen := now);
      StartFilter(e, src.lat, src.lon, t, scale);
    }

    /** Predict to now, then fuse the new position; the other entries' filters are untouched. */
    method Fuse(e: int, dt: real, lat: real, lon: real, t: Tuning, scale: LonScale)
      requires Shape() && 0 <= e < MAX_ENTRIES
      modifies Filters()
      ensures Kfs() == old(Kfs())[e := UpdateState(PredictState(old(Kfs()[e]), dt, t.q, scale), lat, lon, t.r, scale)]
    {
      hide PredictState, UpdateState;
      kfs[e].Predict(dt, t.q, scale);
      kfs[e].Update(lat, lon, t.r, scale);
    }

    /** Initialise and fuse the first position. */
    method StartFilter(e: int, lat: real, lon: real, t: Tuning, scale: LonScale)
      requires Shape() && 0 <= e < MAX_ENTRIES
      modifies Filters()
      ensures Kfs() == old(Kfs())[e := UpdateState(InitState(lat, lon), lat, lon, t.r, scale)]
    {
      hide InitState, UpdateState;
      kfs[e].Init(lat, lon);
      kfs[e].Update(lat, lon, t.r, scale);
    }

    /** The branch for a new aircraft: allocate, start its filter, append it to the list. */
    method InsertEntry(src: Aircraft, now: int, t: Tuning, scale: LonScale) returns (rc: Outcome)
      requires Valid() && src.icao != "" && Find(State().rows, src.icao) < 0
      modifies this, pool, used, Filters()
      ensures Valid()
      ensures (State(), rc) == Upsert(old(State()), src, now, t, scale)
    {
      hide FirstRow, Find;
      ghost var p, ks := pool[..], Kfs();
      Pigeonhole(list, MAX_ENTRIES);
      var e := PoolAlloc();
      if e == NULL {
        stats := stats.(poolFull := Inc32(stats.poolFull));
        return NoMemory;
      }
      assert e !in list;
      ghost var p1, ks1 := pool[..], Kfs();
      RowsAgree(p, ks, p1, ks1, list);
      FillEntry(e, src, now, t, scale);
      rc := Inserted;
    }

    /** Fill the allocated slot `e`, append it and publish. */
    method FillEntry(e: int, src: Aircraft, now: int, t: Tuning, scale: LonScale)
      requires Shape() && 0 <= e < MAX_ENTRIES && e !in list
      requires Chain(pool[..], list, head, tail) && Owned(used[..], list + [e])
      modifies this, pool, Filters()
      ensures Valid() && list == old(list) + [e]
      ensures State() == Db(old(RowsOf(pool[..], Kfs(), list)) + [FirstRow(src, now, t, scale)],
                            old(stats).(inserts := Inc32(old(stats).inserts)))
    {
      hide UpdateState, InitState, Publish, RowsOf, Owned, Kfs, Filters;
      ghost var rows := RowsOf(pool[..], Kfs(), list);
      LinkEntry(e, src, now, t, scale);
      assert InRange(list, MAX_ENTRIES) && Distinct(list) && list[|list| - 1] == e;
      hide Chain;
      ghost var p := pool[..];
      PublishEntry(e);
      ChainAgree(p, list, head, tail, pool[..]);
      RowsUpdate(p, Kfs(), pool[..], Kfs(), list, |list| - 1);
    }

    /** Start the filter of slot `e` and append the slot to the list. */
    method LinkEntry(e: int, src: Aircraft, now: int, t: Tuning, scale: LonScale)
      requires Shape() && 0 <= e < MAX_ENTRIES && e !in list
      requires Chain(pool[..], list, head, tail) && Owned(used[..], list + [e])
      modifies this, pool, Filters()
      ensures Valid() && list == old(list) + [e]
      ensures pool[e].ac == src && pool[e].lastSeen == now
      ensures Kfs()[e] == UpdateState(InitState(src.lat, src.lon), src.lat, src.lon, t.r, scale)
      ensures State() == Db(old(RowsOf(pool[..], Kfs(), list)) + [RowAt(pool[..], Kfs(), e)],
                            old(stats).(inserts := Inc32(old(stats).inserts)))
    {
      assert InRange(list, MAX_ENTRIES);
      hide UpdateState, InitState, RowsOf, Owned, Chain, Kfs, Filters, RowAt, Inc32;
      ghost var p, ks := pool[..], Kfs();
      Seed(e, src, now, t, scale);
      ChainAgree(p, list, head, tail, pool[..]);
      RowsAgree(p, ks, pool[..], Kfs(), list);
      RowIs(pool[..], Kfs(), e);
      Enlist(e);
      RowIs(pool[..], Kfs(), e);
    }

    /** Append a filled slot to the list and count it. */
    method Enlist(e: int)
      requires Shape() && 0 <= e < MAX_ENTRIES && e !in list && InRange(list, MAX_ENTRIES)
      requires Chain(pool[..], list, head, tail) && Owned(used[..], list + [e])
      modifies this, pool
      ensures Valid() && list == old(list) + [e] && Kfs() == old(Kfs())
      ensures RowAt(pool[..], Kfs(), e) == old(RowAt(pool[..], Kfs(), e))
      ensures State() == Db(old(RowsOf(pool[..], Kfs(), list)) + [old(RowAt(pool[..], Kfs(), e))],
                            old(stats).(inserts := Inc32(old(stats).inserts)))
    {
      hide RowsOf, Owned, Chain, Kfs, Filters, SameRecords, RowAt, Inc32;
      ghost var p, ks, was := pool[..], Kfs(), list;
      Append(e);
      stats := stats.(inserts := Inc32(stats.inserts));
      SameRows(p, ks, pool[..]);
      RowsAppend(p, ks, pool[..], Kfs(), was, e);
    }

    /** Write the extrapolated position into the entry once its filter has converged. */
    method PublishEntry(e: int)
      requires Shape() && 0 <= e < MAX_ENTRIES
      modifies pool
      ensures pool[..] == old(pool[..])[e := old(pool[e]).(ac := Publish(old(pool[e]).ac, Kfs()[e]))]
      ensures Kfs() == old(Kfs())
    {
      hide PredictAhead;
      if kfs[e].updateCount >= PRED_MIN_UPDATES {
        var lat, lon := kfs[e].Ahead(PRED_HORIZON_S);
        pool[e] := pool[e].(ac := pool[e].ac.(predLat := lat, predLon := lon, predValid := true));
      }
    }

    /** `aircraft_db_lookup`. */
    method Lookup(icao: Icao) returns (found: Option<Aircraft>)
      requires Valid()
      ensures var k := Find(State().rows, icao);
              found == if k < 0 then None else Some(State().rows[k].ac)
    {
      var e := FindLocked(icao);
      found := if e == NULL then None else Some(pool[e].ac);
    }

    /** `aircraft_db_count`. */
    method Count() returns (n: nat)
      requires Valid()
      ensures n == |State().rows|
    {
      n := 0;
      var cur := head;
      while cur != NULL
        invariant 0 <= n <= |list| && cur == if n < |list| then list[n] else NULL
        decreases |list| - n
      {
        assert pool[..][list[n]].next == After(list, n);
        n := n + 1;
        cur := pool[cur].next;
      }
    }

    /** `aircraft_db_clear`: unlink and free entry after entry, then zero the counters. */
    method Clear()
      requires Valid()
      modifies this, pool, used
      ensures Valid() && State() == Db([], NO_STATS)
    {
      var cur := head;
      while cur != NULL
        invariant Valid() && cur == head
        decreases |list|
      {
        var next := pool[cur].next;
        ChainAt(pool[..], list, head, tail, 0);
        Evict(NULL, cur, 0);
        cur := next;
      }
      stats := NO_STATS;
    }

    /** Unlink and free the entry at list position k. */
    method Evict(prev: int, cur: int, ghost k: int)
      requires Valid()
      requires 0 <= k < |list| && cur == list[k] && prev == if k == 0 then NULL else list[k - 1]
      modifies this`head, this`tail, this`list, pool, used
      ensures Valid() && list == Without(old(list), k) && Kfs() == old(Kfs())
      ensures SameRecords(old(pool[..]), pool[..])
    {
      assert 0 <= cur < MAX_ENTRIES;
      WithoutElements(list, k);
      hide Chain;
      Unlink(prev, cur, k);
      PoolFree(cur);
    }

    ghost function ReaperAt(kept: seq<int>, cur: int, prev: int): ReapPoint
      reads this, pool
    {
      ReapPoint(pool[..], list, kept, cur, prev, stats)
    }

    /** One turn of the reaper's loop. */
    method ReapVisit(now: int, cur: int, prev: int, ghost kept: seq<int>)
      returns (next: int, prev': int, ghost kept': seq<int>)
      requires Valid() && |kept| < |list| && cur == list[|kept|]
      requires prev == if kept == [] then NULL else list[|kept| - 1]
      modifies this, pool, used
      ensures Valid() && Kfs() == old(Kfs())
      ensures ReapTurn(now, old(ReaperAt(kept, cur, prev)), ReaperAt(kept', next, prev'))
    {
      hide Without, Chain, Owned, Kfs, Filters, SameRecords, After;
      prev', kept' := prev, kept;
      ChainAt(pool[..], list, head, tail, |kept|);
      SameRelinked(pool[..], cur, NULL, cur, NULL);
      next := pool[cur].next;
      if now - pool[cur].lastSeen > STALE_MS {
        Evict(prev, cur, |kept|);
        stats := stats.(staleEvicts := Inc32(stats.staleEvicts));
      } else {
        prev', kept' := cur, kept + [cur];
      }
    }

    /** `reap_locked`: one pass that unlinks every stale entry while iterating. */
    method ReapLocked(now: int)
      requires Valid()
      modifies this, pool, used
      ensures Valid()
      ensures State() == Reap(old(State()), now)
    {
      hide Chain, Owned, Kfs, Filters, ReapProgress, RowsOf, Reap, InRange;
      ghost var p, ks, was, stats0 := pool[..], Kfs(), list, stats;
      ReapStart(p, ks, was, head, tail, stats0, now);
      ghost var k, end := ReapLoop(now, p, ks, was);
      ReapDone(p, ks, was, stats0, now, k, end);
    }

    method ReapLoop(now: int, ghost p: seq<Slot>, ghost ks: seq<KState>, ghost was: seq<int>)
      returns (ghost k: int, ghost end: ReapPoint)
      requires Valid() && ReapProgress(p, ks, was, stats, now, 0, ReaperAt([], head, NULL))
      modifies this, pool, used
      ensures Valid() && Kfs() == old(Kfs())
      ensures end.cur == NULL && end == ReaperAt(end.kept, NULL, end.prev)
      ensures ReapProgress(p, ks, was, old(stats), now, k, end)
    {
      hide Chain, Owned, Kfs, Filters, ReapProgress, ReapTurn, RowsOf, Reap, InRange;
      k := 0;
      var cur, prev := head, NULL;
      end := ReaperAt([], cur, prev);
      ReapBounds(p, ks, was, stats, now, k, end);
      while cur != NULL
        invariant Valid() && Kfs() == old(Kfs())
        invariant end == ReaperAt(end.kept, cur, prev) && k <= |was|
        invariant ReapProgress(p, ks, was, old(stats), now, k, end)
        decreases |was| - k
      {
        ReapBounds(p, ks, was, old(stats), now, k, end);
        ghost var kept;
        cur, prev, kept := ReapVisit(now, cur, prev, end.kept);
        ReapAdvance(p, ks, was, old(stats), now, k, end, ReaperAt(kept, cur, prev));
        k, end := k + 1, ReaperAt(kept, cur, prev);
      }
    }
  }
}

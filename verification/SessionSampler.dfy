/**
 The sampler's session accounting (internal/api/stats.go): each tick compares the
 connected sessions with those of the last tick that saw any and records a row
 for every one that has gone.
 */
module SessionSampler {
  import opened Wrappers
  import opened StatusFile

  /** Unix() of Go's zero time: what a client without a parsed connect time reports. */
  const ZERO_TIME_UNIX := -62135596800

  datatype Key = Key(cn: string, since: int)

  datatype Ended = Ended(
    cn: string, realAddress: string, connectedAt: int, disconnectedAt: int, bytesRecv: nat, bytesSent: nat)

  type Held = map<Key, VPNClient>

  function Since(c: VPNClient): int { if c.connectedSince.Some? then c.connectedSince.value else ZERO_TIME_UNIX }

  function KeyOf(c: VPNClient): Key { Key(c.cn, Since(c)) }

  function EndedRow(c: VPNClient, now: int): Ended {
    Ended(c.cn, c.realAddress, Since(c), now, c.bytesRecv, c.bytesSent)
  }

  function RowKey(r: Ended): Key { Key(r.cn, r.connectedAt) }

  /** The sessions of one status list; of two with the same key the later one. */
  function Live(cur: seq<VPNClient>): (m: Held)
    ensures forall k :: k in m ==> KeyOf(m[k]) == k
  {
    if cur == [] then map[] else Live(cur[..|cur| - 1])[KeyOf(cur[|cur| - 1]) := cur[|cur| - 1]]
  }

  /** The rows of the vanished sessions, in the order the map yields them. */
  function EndedRows(prev: Held, order: seq<Key>, now: int): seq<Ended>
    requires forall i :: 0 <= i < |order| ==> order[i] in prev
  {
    if order == [] then [] else [EndedRow(prev[order[0]], now)] + EndedRows(prev, order[1..], now)
  }

  /** order runs through exactly the sessions of prev that are not live, each once. */
  ghost predicate IsVanished(order: seq<Key>, prev: Held, live: Held) {
    && (forall i :: 0 <= i < |order| ==> order[i] in prev && order[i] !in live)
    && (forall i, j :: 0 <= i < j < |order| ==> order[i] != order[j])
    && (forall k :: k in prev && k !in live ==> k in order)
  }

  class Sampler {
    var prev: Held
    var ended: seq<Ended>

    constructor ()
      ensures prev == map[] && ended == []
    {
      prev, ended := map[], [];
    }

    /** cur is None when the worker is down or its status could not be read: the tick is skipped. */
    method Tick(cur: Option<seq<VPNClient>>, now: int) returns (ghost order: seq<Key>)
      modifies this
      ensures cur.None? ==> prev == old(prev) && ended == old(ended) && order == []
      ensures cur.Some? ==>
        && prev == Live(cur.value)
        && IsVanished(order, old(prev), prev)
        && ended == old(ended) + EndedRows(old(prev), order, now)
    {
      order := [];
      if cur.None? {
        return;
      }
      var live: Held := map[];
      for i := 0 to |cur.value|
        invariant live == Live(cur.value[..i])
      {
        assert cur.value[..i + 1][..i] == cur.value[..i];
        live := live[KeyOf(cur.value[i]) := cur.value[i]];
      }
      assert cur.value[..|cur.value|] == cur.value;
      var todo := prev.Keys;
      while todo != {}
        invariant prev == old(prev) && todo <= prev.Keys
        invariant forall i :: 0 <= i < |order| ==> order[i] in prev && order[i] !in live && order[i] !in todo
        invariant forall i, j :: 0 <= i < j < |order| ==> order[i] != order[j]
        invariant forall k :: k in prev && k !in todo && k !in live ==> k in order
        invariant ended == old(ended) + EndedRows(prev, order, now)
      {
        var k :| k in todo;
        todo := todo - {k};
        if k !in live {
          RowsSnoc(prev, order, k, now);
          ended := ended + [EndedRow(prev[k], now)];
          order := order + [k];
        }
      }
      prev := live;
    }
  }

  lemma {:induction false} RowsSnoc(prev: Held, order: seq<Key>, k: Key, now: int)
    requires k in prev && forall i :: 0 <= i < |order| ==> order[i] in prev
    ensures EndedRows(prev, order + [k], now) == EndedRows(prev, order, now) + [EndedRow(prev[k], now)]
  {
    if order == [] {
      assert ([k])[1..] == [];
    } else {
      assert (order + [k])[1..] == order[1..] + [k];
      RowsSnoc(prev, order[1..], k, now);
    }
  }

  // ----- runs -----

  datatype TickEvent = Skipped | Saw(cur: seq<VPNClient>, now: int, order: seq<Key>)

  /** The map order of every tick is one that the map could have. */
  ghost predicate RunOk(prev: Held, ts: seq<TickEvent>)
    decreases |ts|
  {
    ts != [] ==>
      if ts[0].Skipped? then RunOk(prev, ts[1..])
      else IsVanished(ts[0].order, prev, Live(ts[0].cur)) && RunOk(Live(ts[0].cur), ts[1..])
  }

  ghost function RunRows(prev: Held, ts: seq<TickEvent>): seq<Ended>
    requires RunOk(prev, ts)
    decreases |ts|
  {
    if ts == [] then []
    else if ts[0].Skipped? then RunRows(prev, ts[1..])
    else EndedRows(prev, ts[0].order, ts[0].now) + RunRows(Live(ts[0].cur), ts[1..])
  }

  ghost function RunHeld(prev: Held, ts: seq<TickEvent>): Held
    decreases |ts|
  {
    if ts == [] then prev
    else if ts[0].Skipped? then RunHeld(prev, ts[1..])
    else RunHeld(Live(ts[0].cur), ts[1..])
  }

  // ----- what was observed -----

  /** What one unskipped tick saw, and when. */
  datatype Observation = Observation(live: Held, now: int)

  function Observations(ts: seq<TickEvent>): seq<Observation> {
    if ts == [] then []
    else (if ts[0].Skipped? then [] else [Observation(Live(ts[0].cur), ts[0].now)]) + Observations(ts[1..])
  }

  /** The sessions of key k that ended, read off the observations: one row for each observation that has k
      and whose successor has not, with the counters of the former and the time of the latter. */
  function EndsFrom(k: Key, obs: seq<Observation>, i: nat): seq<Ended>
    requires i <= |obs|
    decreases |obs| - i
  {
    if i + 1 >= |obs| then []
    else
      var here :=
        if k in obs[i].live && k !in obs[i + 1].live then
          var c := obs[i].live[k];
          [Ended(c.cn, c.realAddress, k.since, obs[i + 1].now, c.bytesRecv, c.bytesSent)]
        else [];
      here + EndsFrom(k, obs, i + 1)
  }

  /** How many times k appeared: observations that have it and whose predecessor, if any, has not. */
  function Appearances(k: Key, obs: seq<Observation>, i: nat): nat
    requires i <= |obs|
    decreases |obs| - i
  {
    if i == |obs| then 0
    else (if k in obs[i].live && (i == 0 || k !in obs[i - 1].live) then 1 else 0) + Appearances(k, obs, i + 1)
  }

  function OfKey(rows: seq<Ended>, k: Key): seq<Ended> {
    if rows == [] then [] else (if RowKey(rows[0]) == k then [rows[0]] else []) + OfKey(rows[1..], k)
  }

  lemma {:induction false} OfKeyConcat(a: seq<Ended>, b: seq<Ended>, k: Key)
    ensures OfKey(a + b, k) == OfKey(a, k) + OfKey(b, k)
  {
    if a == [] {
      assert a + b == b;
    } else {
      assert (a + b)[1..] == a[1..] + b;
      OfKeyConcat(a[1..], b, k);
    }
  }

  ghost predicate Keyed(m: Held) { forall k :: k in m ==> KeyOf(m[k]) == k }

  /** Among one tick's rows a key has its one row if it vanished, and none otherwise. */
  lemma {:induction false} RowsOfKey(prev: Held, order: seq<Key>, now: int, k: Key)
    requires Keyed(prev) && (forall i :: 0 <= i < |order| ==> order[i] in prev)
    requires forall i, j :: 0 <= i < j < |order| ==> order[i] != order[j]
    ensures OfKey(EndedRows(prev, order, now), k) == if k in order then [EndedRow(prev[k], now)] else []
  {
    if order != [] {
      RowsOfKey(prev, order[1..], now, k);
      var rows := EndedRows(prev, order, now);
      assert rows[1..] == EndedRows(prev, order[1..], now);
      assert RowKey(rows[0]) == order[0];
      assert forall x :: x in order <==> x == order[0] || x in order[1..];
    }
  }

  /** Observations with the sessions held before the run put in front. */
  function WithStart(prev: Held, obs: seq<Observation>): seq<Observation> { [Observation(prev, 0)] + obs }

  lemma {:induction false} EndsShift(k: Key, head: Observation, obs: seq<Observation>, i: nat)
    requires i <= |obs|
    ensures EndsFrom(k, [head] + obs, i + 1) == EndsFrom(k, obs, i)
    decreases |obs| - i
  {
    if i + 1 < |obs| {
      EndsShift(k, head, obs, i + 1);
    }
  }

  lemma {:induction false} RunRowsOfKey(prev: Held, ts: seq<TickEvent>, k: Key)
    requires Keyed(prev) && RunOk(prev, ts)
    ensures OfKey(RunRows(prev, ts), k) == EndsFrom(k, WithStart(prev, Observations(ts)), 0)
    decreases |ts|
  {
    if ts != [] {
      var t, rest := ts[0], ts[1..];
      if t.Skipped? {
        assert Observations(ts) == Observations(rest);
        RunRowsOfKey(prev, rest, k);
      } else {
        var live := Live(t.cur);
        RunRowsOfKey(live, rest, k);
        RowsOfKey(prev, t.order, t.now, k);
        OfKeyConcat(EndedRows(prev, t.order, t.now), RunRows(live, rest), k);
        var tail := WithStart(live, Observations(rest));
        SameEnds(k, Observation(live, t.now), Observation(live, 0), Observations(rest));
        EndsShift(k, Observation(prev, 0), [Observation(live, t.now)] + Observations(rest), 0);
        assert WithStart(prev, Observations(ts))
          == [Observation(prev, 0)] + ([Observation(live, t.now)] + Observations(rest));
      }
    }
  }

  /** The session that a tick holds for a key: of the listed ones with its name and connect time, the last. */
  lemma {:induction false} LiveExact(cur: seq<VPNClient>, cn: string, since: int)
    ensures Key(cn, since) in Live(cur) <==> exists i :: IsLastOf(cur, i, cn, since)
    ensures forall i :: IsLastOf(cur, i, cn, since) ==>
      Key(cn, since) in Live(cur) && Live(cur)[Key(cn, since)] == cur[i]
    decreases |cur|
  {
    if cur != [] {
      var init := cur[..|cur| - 1];
      LiveExact(init, cn, since);
      assert forall i :: 0 <= i < |init| ==> init[i] == cur[i];
      if IsSession(cur[|init|], cn, since) {
        assert IsLastOf(cur, |init|, cn, since);
      } else {
        assert forall i :: IsLastOf(cur, i, cn, since) <==> IsLastOf(init, i, cn, since);
      }
    }
  }

  predicate IsLastOf(cur: seq<VPNClient>, i: int, cn: string, since: int) {
    && 0 <= i < |cur| && IsSession(cur[i], cn, since)
    && forall j :: i < j < |cur| ==> !IsSession(cur[j], cn, since)
  }

  /** This client, connected then; -62135596800 is the Unix time of a connect time that is not known. */
  predicate IsSession(c: VPNClient, cn: string, since: int) {
    c.cn == cn && since == match c.connectedSince case Some(t) => t case None => -62135596800
  }

  /** The first observation's time plays no part. */
  lemma SameEnds(k: Key, a: Observation, b: Observation, obs: seq<Observation>)
    requires a.live == b.live
    ensures EndsFrom(k, [a] + obs, 0) == EndsFrom(k, [b] + obs, 0)
  {
    EndsShift(k, a, obs, 0);
    EndsShift(k, b, obs, 0);
  }

  /** Accounting is exact. From an empty start, over any ticks, skipped ones included: the rows recorded for a
      key are, in order, one for each maximal run of its presence that has ended, with the counters last seen. */
  lemma EachRunEndsOnce(ts: seq<TickEvent>, k: Key)
    requires RunOk(map[], ts)
    ensures OfKey(RunRows(map[], ts), k) == EndsFrom(k, Observations(ts), 0)
  {
    RunRowsOfKey(map[], ts, k);
    var obs := Observations(ts);
    EndsShift(k, Observation(map[], 0), obs, 0);
  }

  lemma {:induction false} HeldIsLastSeen(prev: Held, ts: seq<TickEvent>)
    ensures RunHeld(prev, ts) == (var obs := Observations(ts); if obs == [] then prev else obs[|obs| - 1].live)
    decreases |ts|
  {
    if ts != [] {
      if ts[0].Skipped? {
        assert Observations(ts) == Observations(ts[1..]);
        HeldIsLastSeen(prev, ts[1..]);
      } else {
        HeldIsLastSeen(Live(ts[0].cur), ts[1..]);
      }
    }
  }

  lemma {:induction false} AppearancesBalance(k: Key, obs: seq<Observation>, i: nat)
    requires i < |obs|
    ensures Appearances(k, obs, i) + (if i > 0 && k in obs[i].live && k in obs[i - 1].live then 1 else 0)
      == |EndsFrom(k, obs, i)| + if k in obs[|obs| - 1].live then 1 else 0
    decreases |obs| - i
  {
    if i + 1 < |obs| {
      AppearancesBalance(k, obs, i + 1);
    }
  }

  /** Conservation: every appearance of a session is accounted for, by its row or by still being held. */
  lemma EverySessionAccounted(ts: seq<TickEvent>, k: Key)
    requires RunOk(map[], ts)
    ensures Appearances(k, Observations(ts), 0)
      == |OfKey(RunRows(map[], ts), k)| + if k in RunHeld(map[], ts) then 1 else 0
  {
    EachRunEndsOnce(ts, k);
    HeldIsLastSeen(map[], ts);
    if Observations(ts) != [] {
      AppearancesBalance(k, Observations(ts), 0);
    }
  }
}

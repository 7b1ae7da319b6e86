/**
 The login limiter of internal/auth/totp.go: a key is locked after max failures
 inside one window. Expired entries are swept on every failure and dropped on
 Allow; here the sweeping limiter is proved to answer exactly like one that
 never deletes anything but on Reset.
 */
module LoginLimiter {
  import opened Wrappers

  datatype Entry = Entry(count: nat, first: int)

  type Failures = map<string, Entry>

  datatype Limits = Limits(max: int, window: int)

  predicate Expired(l: Limits, e: Entry, now: int) { now - e.first > l.window }

  // ----- the limiter as it is -----

  function AllowAnswer(l: Limits, m: Failures, key: string, now: int): bool {
    key !in m || Expired(l, m[key], now) || m[key].count < l.max
  }

  function AfterAllow(l: Limits, m: Failures, key: string, now: int): Failures {
    if key in m && Expired(l, m[key], now) then m - {key} else m
  }

  function Swept(l: Limits, m: Failures, now: int): Failures {
    map k | k in m && !Expired(l, m[k], now) :: m[k]
  }

  /** One more failure: in the running window, or as the first of a new one. */
  function Bumped(l: Limits, m: Failures, key: string, now: int): Failures {
    if key !in m || Expired(l, m[key], now) then m[key := Entry(1, now)]
    else m[key := Entry(m[key].count + 1, m[key].first)]
  }

  class Limiter {
    const limits: Limits
    var failures: Failures

    constructor (max: int, window: int)
      ensures limits == Limits(max, window) && failures == map[]
    {
      limits, failures := Limits(max, window), map[];
    }

    method Allow(key: string, now: int) returns (ok: bool)
      modifies this
      ensures ok == AllowAnswer(limits, old(failures), key, now)
      ensures failures == AfterAllow(limits, old(failures), key, now)
    {
      if key !in failures {
        return true;
      }
      var e := failures[key];
      if now - e.first > limits.window {
        failures := failures - {key};
        return true;
      }
      return e.count < limits.max;
    }

    method Fail(key: string, now: int)
      modifies this
      ensures failures == Bumped(limits, Swept(limits, old(failures), now), key, now)
    {
      var todo := failures.Keys;
      while todo != {}
        invariant todo <= failures.Keys <= old(failures).Keys
        invariant forall k :: k in failures ==>
          failures[k] == old(failures)[k] && (k in todo || !Expired(limits, failures[k], now))
        invariant forall k :: k in old(failures) && k !in failures ==> Expired(limits, old(failures)[k], now)
      {
        var k :| k in todo;
        todo := todo - {k};
        if now - failures[k].first > limits.window {
          failures := failures - {k};
        }
      }
      assert failures == Swept(limits, old(failures), now);
      if key !in failures || now - failures[key].first > limits.window {
        failures := failures[key := Entry(1, now)];
        return;
      }
      failures := failures[key := Entry(failures[key].count + 1, failures[key].first)];
    }

    method Reset(key: string)
      modifies this
      ensures failures == old(failures) - {key}
    {
      failures := failures - {key};
    }
  }

  // ----- runs -----

  datatype Event = Allow(key: string) | Fail(key: string) | Reset(key: string)

  datatype Timed = Timed(at: int, event: Event)

  function Step(l: Limits, m: Failures, t: Timed): Failures {
    match t.event
    case Allow(key) => AfterAllow(l, m, key, t.at)
    case Fail(key) => Bumped(l, Swept(l, m, t.at), key, t.at)
    case Reset(key) => m - {key}
  }

  /** The reference limiter: the same answers and counts, nothing ever swept. */
  function KeepingStep(l: Limits, m: Failures, t: Timed): Failures {
    match t.event
    case Allow(_) => m
    case Fail(key) => Bumped(l, m, key, t.at)
    case Reset(key) => m - {key}
  }

  function Answer(l: Limits, m: Failures, t: Timed): Option<bool> {
    if t.event.Allow? then Some(AllowAnswer(l, m, t.event.key, t.at)) else None
  }

  function Answers(l: Limits, m: Failures, ts: seq<Timed>): seq<Option<bool>>
    decreases |ts|
  {
    if ts == [] then [] else [Answer(l, m, ts[0])] + Answers(l, Step(l, m, ts[0]), ts[1..])
  }

  function KeepingAnswers(l: Limits, m: Failures, ts: seq<Timed>): seq<Option<bool>>
    decreases |ts|
  {
    if ts == [] then [] else [Answer(l, m, ts[0])] + KeepingAnswers(l, KeepingStep(l, m, ts[0]), ts[1..])
  }

  ghost predicate Ordered(ts: seq<Timed>, from: int) {
    (forall i :: 0 <= i < |ts| ==> from <= ts[i].at) && forall i, j :: 0 <= i < j < |ts| ==> ts[i].at <= ts[j].at
  }

  /** The sweeping limiter holds the reference's entries but for some that have expired by now. */
  ghost predicate Agree(l: Limits, swept: Failures, keeping: Failures, now: int) {
    && (forall k :: k in swept ==> k in keeping && keeping[k] == swept[k])
    && (forall k :: k in keeping && k !in swept ==> Expired(l, keeping[k], now))
  }

  lemma StepAgrees(l: Limits, swept: Failures, keeping: Failures, now: int, t: Timed)
    requires Agree(l, swept, keeping, now) && now <= t.at
    ensures Answer(l, swept, t) == Answer(l, keeping, t)
    ensures Agree(l, Step(l, swept, t), KeepingStep(l, keeping, t), t.at)
  {
  }

  /** Sweeping is invisible: for every run under a clock that does not go backwards, every Allow is answered
      as if nothing had ever been deleted. */
  lemma {:induction false} SweepingIsInvisible(l: Limits, swept: Failures, keeping: Failures, now: int, ts: seq<Timed>)
    requires Agree(l, swept, keeping, now) && Ordered(ts, now)
    ensures Answers(l, swept, ts) == KeepingAnswers(l, keeping, ts)
    decreases |ts|
  {
    if ts != [] {
      StepAgrees(l, swept, keeping, now, ts[0]);
      SweepingIsInvisible(l, Step(l, swept, ts[0]), KeepingStep(l, keeping, ts[0]), ts[0].at, ts[1..]);
    }
  }

  lemma NewLimiterAnswers(l: Limits, now: int, ts: seq<Timed>)
    requires Ordered(ts, now)
    ensures Answers(l, map[], ts) == KeepingAnswers(l, map[], ts)
  {
    SweepingIsInvisible(l, map[], map[], now, ts);
  }

  /** After a failure the map holds only entries of running windows, so it is bounded by the keys that
      failed inside the last window. */
  lemma FailLeavesOnlyRunning(l: Limits, m: Failures, key: string, now: int)
    requires l.window >= 0
    ensures forall k :: k in Step(l, m, Timed(now, Fail(key))) ==>
      !Expired(l, Step(l, m, Timed(now, Fail(key)))[k], now)
  {
  }

  /** A key that has not failed, or was reset, is let in; a reset changes no other key. */
  lemma ResetUnlocks(l: Limits, m: Failures, key: string, now: int)
    ensures key !in m ==> AllowAnswer(l, m, key, now)
    ensures var m' := Step(l, m, Timed(now, Reset(key)));
      && AllowAnswer(l, m', key, now)
      && forall k :: k != key ==> (k in m' <==> k in m) && (k in m ==> m'[k] == m[k])
  {
  }

  // ----- what a locked key means -----

  function RunSteps(l: Limits, m: Failures, ts: seq<Timed>): Failures
    decreases |ts|
  {
    if ts == [] then m else RunSteps(l, Step(l, m, ts[0]), ts[1..])
  }

  ghost predicate NoReset(ts: seq<Timed>, key: string) {
    forall i :: 0 <= i < |ts| ==> ts[i].event != Reset(key)
  }

  ghost predicate Within(ts: seq<Timed>, until: int) {
    forall i :: 0 <= i < |ts| ==> ts[i].at <= until
  }

  function FailCount(ts: seq<Timed>, key: string): nat {
    if ts == [] then 0 else (if ts[0].event == Fail(key) then 1 else 0) + FailCount(ts[1..], key)
  }

  /** While a window runs and the key is not reset, its entry counts every failure and keeps its start,
      whatever happens to other keys. */
  lemma {:induction false} WindowCounts(l: Limits, m: Failures, key: string, ts: seq<Timed>, now: int)
    requires key in m && m[key].first <= now && Ordered(ts, now) && NoReset(ts, key)
      && Within(ts, m[key].first + l.window)
    ensures var m' := RunSteps(l, m, ts); key in m' && m'[key] == Entry(m[key].count + FailCount(ts, key), m[key].first)
    decreases |ts|
  {
    if ts != [] {
      WindowCounts(l, Step(l, m, ts[0]), key, ts[1..], ts[0].at);
    }
  }

  /** The lock: take the failure that opens a window, and any events of that window without a Reset of the key.
      An Allow at time t before the next event is false exactly when max failures have been counted and the
      window still runs at t. In particular a locked key opens again the moment its window is over. */
  lemma LockedExactly(l: Limits, m: Failures, key: string, start: int, ts: seq<Timed>, t: int)
    requires l.window >= 0
    requires key !in m || Expired(l, m[key], start)
    requires Ordered(ts, start) && NoReset(ts, key) && Within(ts, start + l.window)
    requires Within(ts, t) && start <= t
    ensures var after := RunSteps(l, Step(l, m, Timed(start, Fail(key))), ts);
      AllowAnswer(l, after, key, t) <==> 1 + FailCount(ts, key) < l.max || t > start + l.window
  {
    var first := Step(l, m, Timed(start, Fail(key)));
    assert first[key] == Entry(1, start);
    WindowCounts(l, first, key, ts, start);
  }
}

/** The sliding-window rate limiter (infrastructure/redis_rate_limit.py) against the log of its admissions. */
module RateLimiter {
  import opened Basics
  import opened Wrappers

  type Key = string
  type RequestId = string

  /** `security/rate_limit.py`: the window is stored in seconds and used in milliseconds. */
  datatype Policy = Policy(limit: int, windowSeconds: int) {
    ghost predicate Valid() {
      1 <= limit <= 10_000 && 1 <= windowSeconds <= 3_600
    }

    function Window(): int {
      windowSeconds * 1_000
    }
  }

  datatype Call = Call(id: RequestId, now: int)

  datatype Decision = Decision(allowed: bool, remaining: int, retryAfter: int, degraded: bool)

  datatype LimiterError = Unavailable

  /** One sorted set with its expiry time. */
  datatype Bucket = Bucket(entries: map<RequestId, int>, expiresAt: int)

  function EmptyBucket(): Bucket {
    Bucket(map[], 0)
  }

  // ---- the script ----

  /** Entries with a time above the bound. */
  function Above(entries: map<RequestId, int>, bound: int): map<RequestId, int> {
    map id | id in entries && entries[id] > bound :: entries[id]
  }

  ghost predicate IsOldest(entries: map<RequestId, int>, oldest: int) {
    && (exists id :: id in entries && entries[id] == oldest)
    && (forall id :: id in entries ==> oldest <= entries[id])
  }

  lemma {:induction false} SomeOldest(entries: map<RequestId, int>)
    requires entries != map[]
    ensures exists oldest :: IsOldest(entries, oldest)
    decreases |entries|
  {
    var id :| id in entries;
    var rest := map k | k in entries && k != id :: entries[k];
    assert rest.Keys == entries.Keys - {id};
    assert forall k :: k in entries ==> k == id || k in rest;
    if rest == map[] {
      assert IsOldest(entries, entries[id]);
    } else {
      SomeOldest(rest);
      var older :| IsOldest(rest, older);
      var k :| k in rest && rest[k] == older;
      assert k in entries && entries[k] == older;
      assert IsOldest(entries, if older <= entries[id] then older else entries[id]);
    }
  }

  /** The smallest time in the set: the first entry of the sorted set. */
  ghost function Oldest(entries: map<RequestId, int>): (oldest: int)
    requires entries != map[]
    ensures IsOldest(entries, oldest)
  {
    SomeOldest(entries);
    var oldest :| IsOldest(entries, oldest);
    oldest
  }

  /** What is left of the set when a call arrives: nothing once the key has expired, else the entries
      inside the window. */
  function Live(policy: Policy, b: Bucket, now: int): map<RequestId, int> {
    if now >= b.expiresAt then map[] else Above(b.entries, now - policy.Window())
  }

  ghost function NextBucket(policy: Policy, b: Bucket, c: Call): Bucket {
    var live := Live(policy, b, c.now);
    if |live| >= policy.limit then Bucket(live, b.expiresAt)
    else Bucket(live[c.id := c.now], c.now + policy.Window() + 1_000)
  }

  ghost function Decide(policy: Policy, b: Bucket, c: Call): Decision {
    var live := Live(policy, b, c.now);
    if |live| >= policy.limit then
      var retry := if live == map[] then policy.Window() else Max(0, Oldest(live) + policy.Window() - c.now);
      Decision(false, 0, Max(0, retry), false)
    else
      Decision(true, Max(0, policy.limit - |live[c.id := c.now]|), 0, false)
  }

  // ---- the limiter object ----

  class RedisRateLimiter {
    const failOpen: bool
    var buckets: map<Key, Bucket>

    constructor (failOpen: bool)
      ensures this.failOpen == failOpen && buckets == map[]
    {
      this.failOpen := failOpen;
      buckets := map[];
    }

    ghost function BucketOf(key: Key): Bucket
      reads this
    {
      if key in buckets then buckets[key] else EmptyBucket()
    }

    /** The entry with the smallest time, found by scanning the set. */
    method FirstEntry(entries: map<RequestId, int>) returns (oldest: int)
      requires entries != map[]
      ensures IsOldest(entries, oldest)
    {
      var keys := entries.Keys;
      var first :| first in keys;
      oldest := entries[first];
      keys := keys - {first};
      while keys != {}
        invariant keys <= entries.Keys
        invariant exists id :: id in entries && id !in keys && entries[id] == oldest
        invariant forall id :: id in entries && id !in keys ==> oldest <= entries[id]
        decreases |keys|
      {
        var id :| id in keys;
        if entries[id] < oldest {
          oldest := entries[id];
        }
        keys := keys - {id};
      }
    }

    /** `check`. `available` is whether the store answers. */
    method Check(key: Key, c: Call, policy: Policy, available: bool) returns (r: Result<Decision, LimiterError>)
      requires policy.Valid()
      modifies this
      ensures available ==> r == Success(Decide(policy, old(BucketOf(key)), c))
      ensures available ==> buckets == old(buckets)[key := NextBucket(policy, old(BucketOf(key)), c)]
      ensures !available ==> buckets == old(buckets)
      ensures !available ==>
        r == if failOpen then Success(Decision(true, policy.limit, 0, true)) else Failure(Unavailable)
    {
      if !available {
        if failOpen {
          return Success(Decision(true, policy.limit, 0, true));
        }
        return Failure(Unavailable);
      }
      var window := policy.windowSeconds * 1_000;
      var b := if key in buckets then buckets[key] else EmptyBucket();
      var live :=
        if c.now >= b.expiresAt then map[]
        else map id | id in b.entries && b.entries[id] > c.now - window :: b.entries[id];
      assert live == Live(policy, b, c.now);
      if |live| >= policy.limit {
        assert live != map[];
        var oldest := FirstEntry(live);
        OldestIsUnique(live, oldest, Oldest(live));
        buckets := buckets[key := Bucket(live, b.expiresAt)];
        return Success(Decision(false, 0, Max(0, Max(0, oldest + window - c.now)), false));
      }
      live := live[c.id := c.now];
      buckets := buckets[key := Bucket(live, c.now + window + 1_000)];
      return Success(Decision(true, Max(0, policy.limit - |live|), 0, false));
    }
  }

  lemma {:induction false} OldestIsUnique(entries: map<RequestId, int>, a: int, b: int)
    requires IsOldest(entries, a) && IsOldest(entries, b)
    ensures a == b
  {}

  // ---- runs of calls on one key ----

  ghost function StateAfter(policy: Policy, calls: seq<Call>): Bucket
    decreases |calls|
  {
    if calls == [] then EmptyBucket()
    else NextBucket(policy, StateAfter(policy, calls[..|calls| - 1]), calls[|calls| - 1])
  }

  /** The answer to the last call of a run. */
  ghost function Answer(policy: Policy, calls: seq<Call>, c: Call): Decision {
    Decide(policy, StateAfter(policy, calls), c)
  }

  /** The admitted calls, in order. */
  ghost function Admitted(policy: Policy, calls: seq<Call>): seq<Call>
    decreases |calls|
  {
    if calls == [] then []
    else
      var front, c := calls[..|calls| - 1], calls[|calls| - 1];
      if Answer(policy, front, c).allowed then Admitted(policy, front) + [c] else Admitted(policy, front)
  }

  ghost predicate InOrder(calls: seq<Call>) {
    && (forall i :: 0 <= i < |calls| ==> 0 <= calls[i].now)
    && (forall i, j :: 0 <= i < j < |calls| ==> calls[i].now <= calls[j].now)
  }

  // ---- the log ----

  /** The time of the latest admission of every request id. */
  function LastTimes(log: seq<Call>): map<RequestId, int> {
    if log == [] then map[] else LastTimes(log[..|log| - 1])[log[|log| - 1].id := log[|log| - 1].now]
  }

  function Recent(log: seq<Call>, now: int, window: int): map<RequestId, int> {
    Above(LastTimes(log), now - window)
  }

  /** The request ids admitted in the interval of the given length that ends at `t`. */
  ghost function IdsIn(log: seq<Call>, t: int, window: int): set<RequestId> {
    set i | 0 <= i < |log| && t - window < log[i].now <= t :: log[i].id
  }

  /** The number of admissions in that interval. */
  function CountIn(log: seq<Call>, t: int, window: int): nat {
    if log == [] then 0
    else CountIn(log[..|log| - 1], t, window) + if t - window < log[|log| - 1].now <= t then 1 else 0
  }

  // ---- the sorted set is the recent part of the log ----

  ghost predicate NotAfter(calls: seq<Call>, now: int) {
    forall i :: 0 <= i < |calls| ==> calls[i].now <= now
  }

  lemma {:induction false} AdmittedAreCalls(policy: Policy, calls: seq<Call>, now: int)
    requires InOrder(calls) && NotAfter(calls, now)
    ensures InOrder(Admitted(policy, calls)) && NotAfter(Admitted(policy, calls), now)
    decreases |calls|
  {
    if calls != [] {
      AdmittedAreCalls(policy, calls[..|calls| - 1], calls[|calls| - 1].now);
    }
  }

  lemma {:induction false} LatestTimes(log: seq<Call>, now: int)
    requires InOrder(log) && NotAfter(log, now)
    ensures forall i :: 0 <= i < |log| ==> log[i].id in LastTimes(log) && log[i].now <= LastTimes(log)[log[i].id]
    ensures forall id :: id in LastTimes(log) ==> LastTimes(log)[id] <= now
    decreases |log|
  {
    if log != [] {
      LatestTimes(log[..|log| - 1], log[|log| - 1].now);
    }
  }

  lemma {:induction false} LatestAreCalls(log: seq<Call>)
    ensures forall id :: id in LastTimes(log) ==>
      exists i :: 0 <= i < |log| && log[i].id == id && log[i].now == LastTimes(log)[id]
    decreases |log|
  {
    if log != [] {
      var front, last := log[..|log| - 1], log[|log| - 1];
      LatestAreCalls(front);
      forall id | id in LastTimes(log)
        ensures exists i :: 0 <= i < |log| && log[i].id == id && log[i].now == LastTimes(log)[id]
      {
        if id == last.id {
          assert log[|log| - 1].id == id && log[|log| - 1].now == LastTimes(log)[id];
        } else {
          assert id in LastTimes(front);
          var i :| 0 <= i < |front| && front[i].id == id && front[i].now == LastTimes(front)[id];
          assert log[i] == front[i];
        }
      }
    }
  }

  /** One call, with `times` the latest admissions before it. */
  lemma {:induction false} BucketStep(policy: Policy, b: Bucket, c: Call, times: map<RequestId, int>, now: int)
    requires policy.Valid() && c.now <= now
    requires Live(policy, b, c.now) == Above(times, c.now - policy.Window())
    requires forall id :: id in times ==> times[id] <= c.now && times[id] + policy.Window() + 1_000 <= b.expiresAt
    ensures var after := if Decide(policy, b, c).allowed then times[c.id := c.now] else times;
      && Live(policy, NextBucket(policy, b, c), now) == Above(after, now - policy.Window())
      && forall id :: id in after ==> after[id] + policy.Window() + 1_000 <= NextBucket(policy, b, c).expiresAt
  {}

  lemma {:induction false} LastTimesStep(log: seq<Call>, c: Call)
    ensures LastTimes(log + [c]) == LastTimes(log)[c.id := c.now]
  {
    assert (log + [c])[..|log|] == log;
  }

  /** At any later time the live entries are exactly the request ids admitted inside the window, each with
      its latest admission; the expiry of the key never drops one of them. */
  lemma {:induction false} BucketIsRecentLog(policy: Policy, calls: seq<Call>, now: int)
    requires policy.Valid() && InOrder(calls) && NotAfter(calls, now) && 0 <= now
    ensures var log := Admitted(policy, calls);
      && Live(policy, StateAfter(policy, calls), now) == Recent(log, now, policy.Window())
      && forall id :: id in LastTimes(log) ==>
           LastTimes(log)[id] + policy.Window() + 1_000 <= StateAfter(policy, calls).expiresAt
    decreases |calls|
  {
    if calls != [] {
      hide LastTimes, NextBucket, Decide, Live;
      var front, c := calls[..|calls| - 1], calls[|calls| - 1];
      BucketIsRecentLog(policy, front, c.now);
      AdmittedAreCalls(policy, front, c.now);
      var older := Admitted(policy, front);
      LatestTimes(older, c.now);
      BucketStep(policy, StateAfter(policy, front), c, LastTimes(older), now);
      LastTimesStep(older, c);
    } else {
      assert Above(LastTimes([]), now - policy.Window()) == map[];
    }
  }

  lemma {:induction false} SizeOfMap(m: map<RequestId, int>)
    ensures |m| == |m.Keys|
  {}

  /** An admission found fewer than `limit` recent ids. */
  lemma {:induction false} AdmissionHadRoom(policy: Policy, front: seq<Call>, c: Call)
    requires policy.Valid() && InOrder(front + [c])
    ensures Answer(policy, front, c).allowed <==>
      |Recent(Admitted(policy, front), c.now, policy.Window())| < policy.limit
  {
    InOrderParts(front, c);
    BucketIsRecentLog(policy, front, c.now);
  }

  lemma {:induction false} InOrderParts(front: seq<Call>, c: Call)
    requires InOrder(front + [c])
    ensures InOrder(front) && NotAfter(front, c.now) && 0 <= c.now
  {
    var all := front + [c];
    assert all[|front|] == c;
    assert forall i :: 0 <= i < |front| ==> front[i] == all[i];
  }

  lemma {:induction false} RecentIsBounded(policy: Policy, calls: seq<Call>, now: int)
    requires policy.Valid() && InOrder(calls) && NotAfter(calls, now)
    ensures |Recent(Admitted(policy, calls), now, policy.Window())| <= policy.limit
    decreases |calls|
  {
    if calls == [] {
      assert Recent([], now, policy.Window()) == map[];
    } else {
      var front, c := calls[..|calls| - 1], calls[|calls| - 1];
      assert front + [c] == calls;
      RecentIsBounded(policy, front, now);
      AdmissionHadRoom(policy, front, c);
      if Answer(policy, front, c).allowed {
        var before := Recent(Admitted(policy, front), c.now, policy.Window());
        var after := Recent(Admitted(policy, calls), now, policy.Window());
        assert Admitted(policy, calls)[..|Admitted(policy, front)|] == Admitted(policy, front);
        assert after.Keys <= before.Keys + {c.id};
        SubsetSize(after.Keys, before.Keys + {c.id});
        SizeOfMap(after);
        SizeOfMap(before);
      }
    }
  }

  // ---- the promise of the limiter ----

  /** At the time of a call, the recent ids are those admitted in the window that ends now. */
  lemma {:induction false} RecentAreIdsIn(log: seq<Call>, now: int, window: int)
    requires InOrder(log) && NotAfter(log, now)
    ensures Recent(log, now, window).Keys == IdsIn(log, now, window)
  {
    LatestTimes(log, now);
    LatestAreCalls(log);
    var recent := Recent(log, now, window);
    forall id ensures id in recent <==> id in IdsIn(log, now, window) {
      if id in recent {
        var i :| 0 <= i < |log| && log[i].id == id && log[i].now == LastTimes(log)[id];
      }
      if id in IdsIn(log, now, window) {
        var i :| 0 <= i < |log| && now - window < log[i].now <= now && log[i].id == id;
      }
    }
  }

  lemma {:induction false} IdsStep(log: seq<Call>, c: Call, t: int, window: int)
    ensures IdsIn(log + [c], t, window) == IdsIn(log, t, window) + if t - window < c.now <= t then {c.id} else {}
  {
    var all := log + [c];
    assert all[|log|] == c && forall i :: 0 <= i < |log| ==> all[i] == log[i];
    forall id ensures id in IdsIn(all, t, window) <==>
      id in IdsIn(log, t, window) || (id == c.id && t - window < c.now <= t)
    {
      if id in IdsIn(log, t, window) {
        var i :| 0 <= i < |log| && t - window < log[i].now <= t && log[i].id == id;
        assert all[i].id == id;
      }
    }
  }

  /** Whatever interval of the window's length is chosen, and whatever the clients send, at most `limit`
      request ids are admitted in it. */
  lemma {:induction false} WindowBound(policy: Policy, calls: seq<Call>, t: int)
    requires policy.Valid() && InOrder(calls)
    ensures |IdsIn(Admitted(policy, calls), t, policy.Window())| <= policy.limit
    decreases |calls|
  {
    hide IdsIn, Recent, Answer;
    var w := policy.Window();
    if calls != [] {
      var front, c := calls[..|calls| - 1], calls[|calls| - 1];
      assert front + [c] == calls;
      WindowBound(policy, front, t);
      if Answer(policy, front, c).allowed {
        var log, older := Admitted(policy, calls), Admitted(policy, front);
        assert log == older + [c];
        IdsStep(older, c, t, w);
        if t - w < c.now <= t {
          InOrderParts(front, c);
          AdmittedAreCalls(policy, calls, c.now);
          RecentIsBounded(policy, calls, c.now);
          RecentAreIdsIn(log, c.now, w);
          SizeOfMap(Recent(log, c.now, w));
          EarlierInterval(log, c.now, t, w);
          SubsetSize(IdsIn(log, t, w), IdsIn(log, c.now, w));
        }
      }
    } else {
      NoIds(t, w);
    }
  }

  lemma {:induction false} NoIds(t: int, window: int)
    ensures IdsIn([], t, window) == {}
  {}

  lemma {:induction false} EarlierInterval(log: seq<Call>, now: int, t: int, window: int)
    requires NotAfter(log, now) && now <= t
    ensures IdsIn(log, t, window) <= IdsIn(log, now, window)
  {}

  ghost predicate DistinctIds(calls: seq<Call>) {
    forall i, j :: 0 <= i < j < |calls| ==> calls[i].id != calls[j].id
  }

  lemma {:induction false} AdmittedIdsAreDistinct(policy: Policy, calls: seq<Call>)
    requires DistinctIds(calls)
    ensures DistinctIds(Admitted(policy, calls))
    ensures forall i :: 0 <= i < |Admitted(policy, calls)| ==> Admitted(policy, calls)[i] in calls
    decreases |calls|
  {
    if calls != [] {
      var front, c := calls[..|calls| - 1], calls[|calls| - 1];
      AdmittedIdsAreDistinct(policy, front);
      forall i | 0 <= i < |Admitted(policy, front)| ensures Admitted(policy, front)[i].id != c.id {
        assert Admitted(policy, front)[i] in front;
        var j :| 0 <= j < |front| && front[j] == Admitted(policy, front)[i];
        assert calls[j] == front[j];
      }
    }
  }

  lemma {:induction false} DistinctCount(log: seq<Call>, t: int, window: int)
    requires DistinctIds(log)
    ensures CountIn(log, t, window) == |IdsIn(log, t, window)|
    decreases |log|
  {
    if log != [] {
      var front, last := log[..|log| - 1], log[|log| - 1];
      assert front + [last] == log;
      DistinctCount(front, t, window);
      NewId(front, last);
      IdsStep(front, last, t, window);
      assert last.id !in IdsIn(front, t, window);
    }
  }

  /** With one id for every request no interval of the window's length holds more than `limit`
      admissions. */
  lemma {:induction false} AdmissionsAreBounded(policy: Policy, calls: seq<Call>, t: int)
    requires policy.Valid() && InOrder(calls) && DistinctIds(calls)
    ensures CountIn(Admitted(policy, calls), t, policy.Window()) <= policy.limit
  {
    WindowBound(policy, calls, t);
    AdmittedIdsAreDistinct(policy, calls);
    DistinctCount(Admitted(policy, calls), t, policy.Window());
  }

  lemma {:induction false} NewId(calls: seq<Call>, c: Call)
    requires DistinctIds(calls + [c])
    ensures DistinctIds(calls) && forall x :: x in calls ==> x.id != c.id
  {
    var all := calls + [c];
    assert all[|calls|] == c && forall i :: 0 <= i < |calls| ==> all[i] == calls[i];
  }

  /** Whatever the ids, an admitted call is not told to wait and a refused one has nothing left; an answer of the
      store is never a degraded one, and what is left stays below the limit. */
  lemma {:induction false} AnswerIsSound(policy: Policy, calls: seq<Call>, c: Call)
    requires policy.Valid()
    ensures var answer := Answer(policy, calls, c);
      && !answer.degraded && 0 <= answer.remaining < policy.limit && answer.retryAfter >= 0
      && (answer.allowed ==> answer.retryAfter == 0)
      && (!answer.allowed ==> answer.remaining == 0)
  {
    var live := Live(policy, StateAfter(policy, calls), c.now);
    var after := live[c.id := c.now];
    assert c.id in after;
    assert |after| > 0 by {
      assert after != map[];
    }
  }

  /** A new request is admitted exactly when fewer than `limit` admissions lie in the window that ends
      now, refused exactly when `limit` do, and an admitted one is told how many are left. */
  lemma {:induction false} AnswerFollowsLog(policy: Policy, calls: seq<Call>, c: Call)
    requires policy.Valid() && InOrder(calls + [c]) && DistinctIds(calls + [c])
    ensures var window := policy.windowSeconds * 1_000;
      var count, answer := CountIn(Admitted(policy, calls), c.now, window), Answer(policy, calls, c);
      && (answer.allowed <==> count < policy.limit)
      && (!answer.allowed <==> count == policy.limit)
      && (answer.allowed ==> answer.remaining == policy.limit - count - 1)
  {
    InOrderParts(calls, c);
    var w, log := policy.Window(), Admitted(policy, calls);
    NewId(calls, c);
    AdmittedIdsAreDistinct(policy, calls);
    DistinctCount(log, c.now, w);
    AdmittedAreCalls(policy, calls, c.now);
    RecentAreIdsIn(log, c.now, w);
    RecentIsBounded(policy, calls, c.now);
    BucketIsRecentLog(policy, calls, c.now);
    var recent := Recent(log, c.now, w);
    SizeOfMap(recent);
    forall id | id in recent ensures id != c.id {
      assert id in IdsIn(log, c.now, w);
      var i :| 0 <= i < |log| && log[i].id == id;
      assert log[i] in calls;
    }
    assert |recent[c.id := c.now]| == |recent| + 1;
  }

  // ---- retrying ----

  /** Refused calls leave no trace in the log. */
  ghost predicate AllRefused(policy: Policy, calls: seq<Call>, later: seq<Call>)
    decreases |later|
  {
    later != [] ==>
      var front, d := later[..|later| - 1], later[|later| - 1];
      AllRefused(policy, calls, front) && !Answer(policy, calls + front, d).allowed
  }

  lemma {:induction false} RefusedLeaveTheLog(policy: Policy, calls: seq<Call>, later: seq<Call>)
    requires AllRefused(policy, calls, later)
    ensures Admitted(policy, calls + later) == Admitted(policy, calls)
    decreases |later|
  {
    hide Answer;
    if later == [] {
      assert calls + later == calls;
    } else {
      var front := later[..|later| - 1];
      RefusedLeaveTheLog(policy, calls, front);
      assert (calls + later)[..|calls + later| - 1] == calls + front;
    }
  }

  /** The oldest of a full window leaves it exactly `retryAfter` later. */
  lemma {:induction false} WindowMoves(log: seq<Call>, now: int, later: int, window: int, retry: int)
    requires InOrder(log) && NotAfter(log, now) && now <= later && Recent(log, now, window) != map[]
    requires retry == Oldest(Recent(log, now, window)) + window - now
    ensures retry > 0
    ensures later < now + retry ==> Recent(log, later, window) == Recent(log, now, window)
    ensures later >= now + retry ==> |Recent(log, later, window)| < |Recent(log, now, window)|
  {
    var recent, after := Recent(log, now, window), Recent(log, later, window);
    var oldest := Oldest(recent);
    var id :| id in recent && recent[id] == oldest;
    if later >= now + retry {
      assert id !in after;
      assert after.Keys <= recent.Keys - {id};
      SubsetSize(after.Keys, recent.Keys - {id});
      SizeOfMap(after);
      SizeOfMap(recent);
    }
  }

  /** The advice to a refused caller is exact: as long as nothing else is admitted, every earlier call is
      refused and the call at `now + retryAfter`, like every later one, is admitted. */
  lemma {:induction false} RetryAfterIsExact(policy: Policy, calls: seq<Call>, c: Call, between: seq<Call>, d: Call)
    requires policy.Valid() && InOrder(calls + [c] + between + [d])
    requires !Answer(policy, calls, c).allowed && AllRefused(policy, calls + [c], between)
    ensures Answer(policy, calls, c).retryAfter > 0
    ensures Answer(policy, calls + [c] + between, d).allowed <==> d.now >= c.now + Answer(policy, calls, c).retryAfter
  {
    var w, log := policy.Window(), Admitted(policy, calls);
    InOrderParts(calls + [c] + between, d);
    assert InOrder(calls + [c]) by {
      assert forall i :: 0 <= i < |calls + [c]| ==> (calls + [c])[i] == (calls + [c] + between)[i];
    }
    InOrderParts(calls, c);
    assert c.now <= d.now by {
      assert (calls + [c] + between)[|calls|] == c;
    }
    RefusedLeaveTheLog(policy, calls + [c], between);
    assert (calls + [c])[..|calls|] == calls;
    assert Admitted(policy, calls + [c]) == log;
    AdmittedAreCalls(policy, calls, c.now);
    RecentIsBounded(policy, calls, c.now);
    AdmissionHadRoom(policy, calls, c);
    AdmissionHadRoom(policy, calls + [c] + between, d);
    BucketIsRecentLog(policy, calls, c.now);
    var recent := Recent(log, c.now, w);
    assert recent != map[];
    WindowMoves(log, c.now, d.now, w, Oldest(recent) + w - c.now);
  }

  // ---- repeated request ids ----

  lemma {:induction false} CountStep(log: seq<Call>, c: Call, t: int, window: int)
    ensures CountIn(log + [c], t, window) == CountIn(log, t, window) + if t - window < c.now <= t then 1 else 0
  {
    assert (log + [c])[..|log|] == log;
  }

  function Repeats(n: nat): seq<Call> {
    seq(n, i requires 0 <= i < n => Call("r", 0))
  }

  lemma {:induction false} RepeatStep(policy: Policy, b: Bucket)
    requires policy.Valid() && policy.limit >= 2
    requires b == EmptyBucket() || b == Bucket(map["r" := 0], policy.Window() + 1_000)
    ensures Decide(policy, b, Call("r", 0)).allowed
    ensures NextBucket(policy, b, Call("r", 0)) == Bucket(map["r" := 0], policy.Window() + 1_000)
  {
    var live := Live(policy, b, 0);
    assert live == map[] || live == map["r" := 0];
    assert |live| <= 1 && live["r" := 0] == map["r" := 0];
  }

  lemma {:induction false} RepeatsEnd(n: nat)
    requires n > 0
    ensures Repeats(n)[..n - 1] == Repeats(n - 1) && Repeats(n)[n - 1] == Call("r", 0)
    ensures Repeats(n) == Repeats(n - 1) + [Call("r", 0)]
  {}

  lemma {:induction false} RepeatsCount(n: nat, window: int)
    requires window > 0
    ensures CountIn(Repeats(n), 0, window) == n
    decreases n
  {
    if n > 0 {
      RepeatsCount(n - 1, window);
      RepeatsEnd(n);
      CountStep(Repeats(n - 1), Call("r", 0), 0, window);
    }
  }

  /** One id sent again and again is admitted every time. */
  lemma {:induction false} RepeatsAreAdmitted(policy: Policy, n: nat)
    requires policy.Valid() && policy.limit >= 2
    ensures Admitted(policy, Repeats(n)) == Repeats(n)
    ensures StateAfter(policy, Repeats(n)) ==
      if n == 0 then EmptyBucket() else Bucket(map["r" := 0], policy.Window() + 1_000)
    decreases n
  {
    if n > 0 {
      hide NextBucket, Decide, Repeats;
      RepeatsAreAdmitted(policy, n - 1);
      RepeatsEnd(n);
      RepeatStep(policy, StateAfter(policy, Repeats(n - 1)));
    }
  }

  lemma {:induction false} CountedIds(log: seq<Call>, t: int, window: int)
    ensures IdsIn(log, t, window) == {} ==> CountIn(log, t, window) == 0
    decreases |log|
  {
    hide IdsIn;
    if log != [] {
      var front, last := log[..|log| - 1], log[|log| - 1];
      assert front + [last] == log;
      CountedIds(front, t, window);
      IdsStep(front, last, t, window);
    }
  }

  /** With a limit of one an admission finds an empty window. */
  lemma {:induction false} AloneInWindow(policy: Policy, front: seq<Call>, c: Call, t: int)
    requires policy.Valid() && policy.limit == 1 && InOrder(front + [c]) && c.now <= t
    requires Answer(policy, front, c).allowed && t - policy.Window() < c.now
    ensures CountIn(Admitted(policy, front), t, policy.Window()) == 0
  {
    hide Admitted, Answer;
    var w, older := policy.Window(), Admitted(policy, front);
    InOrderParts(front, c);
    AdmissionHadRoom(policy, front, c);
    AdmittedAreCalls(policy, front, c.now);
    RecentAreIdsIn(older, c.now, w);
    SizeOfMap(Recent(older, c.now, w));
    EarlierInterval(older, c.now, t, w);
    CountedIds(older, t, w);
  }

  /** So repeated ids do no harm there. */
  lemma {:induction false} SingleAdmission(policy: Policy, calls: seq<Call>, t: int)
    requires policy.Valid() && policy.limit == 1 && InOrder(calls)
    ensures CountIn(Admitted(policy, calls), t, policy.Window()) <= 1
    decreases |calls|
  {
    hide Answer;
    if calls != [] {
      var front, c := calls[..|calls| - 1], calls[|calls| - 1];
      assert front + [c] == calls;
      InOrderParts(front, c);
      SingleAdmission(policy, front, t);
      CountStep(Admitted(policy, front), c, t, policy.Window());
      if Answer(policy, front, c).allowed && t - policy.Window() < c.now <= t {
        AloneInWindow(policy, front, c, t);
      }
    }
  }

  ghost predicate BoundsAllAdmissions(policy: Policy) {
    forall calls, t :: InOrder(calls) ==> CountIn(Admitted(policy, calls), t, policy.Window()) <= policy.limit
  }

  /** If clients may repeat request ids, admissions are bounded exactly for a limit of one. */
  lemma {:induction false} RepeatedIdsEscape(policy: Policy)
    requires policy.Valid()
    ensures BoundsAllAdmissions(policy) <==> policy.limit == 1
  {
    if policy.limit == 1 {
      forall calls, t | InOrder(calls) ensures CountIn(Admitted(policy, calls), t, policy.Window()) <= policy.limit {
        SingleAdmission(policy, calls, t);
      }
    } else {
      var n := policy.limit + 1;
      RepeatsAreAdmitted(policy, n);
      RepeatsCount(n, policy.Window());
      assert InOrder(Repeats(n));
      assert CountIn(Admitted(policy, Repeats(n)), 0, policy.Window()) > policy.limit;
    }
  }
}

/** A fixed-window rate limiter. Every caller key owns one entry: how many
    calls it made in its current window, and the instant that window ends.
    The clock is not read here: every call is given `now` in milliseconds. */
module RateLimiter {
  import opened Arith

  /** The per-key record: calls seen in the current window, and when it ends. */
  datatype Entry = Entry(count: int, resetAt: int)

  /** The answer to one call: admitted with the calls still left in the window,
      or denied with the whole seconds to wait before the window ends. */
  datatype Decision = Admitted(remaining: int) | Denied(retryAfter: int)

  /** One call's decision together with the table it leaves behind. */
  datatype Step = Step(decision: Decision, table: map<string, Entry>)

  /** The decisions of a run of calls for one key, and the final table. */
  datatype Replay = Replay(decisions: seq<Decision>, table: map<string, Entry>)

  const DefaultLimit: int := 10
  const DefaultWindowMs: int := 60000

  /** The retry delay in seconds: the least whole number of seconds covering `ms`. */
  function CeilSeconds(ms: int): (s: int)
    ensures (s - 1) * 1000 < ms <= s * 1000
  {
    (ms + 999) / 1000
  }

  /** A window has elapsed once `now` reaches its end; the boundary counts as elapsed. */
  predicate Expired(e: Entry, now: int) {
    e.resetAt <= now
  }

  /** What one `checkLimit(key, limit, windowMs)` call at time `now` decides,
      and the table it leaves. */
  function Check(table: map<string, Entry>, key: string, limit: int, windowMs: int, now: int): (r: Step)
    // only `key` can gain an entry, and no other key's entry changes
    ensures r.table.Keys == table.Keys + {key}
    ensures forall k :: k in table && k != key ==> r.table[k] == table[k]
    // a call is admitted exactly when the key is new, its window elapsed, or it has quota left
    ensures r.decision.Admitted? <==> key !in table || Expired(table[key], now) || table[key].count < limit
    // an admitted call reports the quota left after it was counted
    ensures r.decision.Admitted? ==> r.decision.remaining == limit - r.table[key].count
    // a denial changes nothing and always asks for a positive wait
    ensures r.decision.Denied? ==> r.table == table && r.decision.retryAfter >= 1
  {
    if key !in table || Expired(table[key], now) then
      Step(Admitted(limit - 1), table[key := Entry(1, now + windowMs)])
    else if table[key].count >= limit then
      Step(Denied(CeilSeconds(table[key].resetAt - now)), table)
    else
      var e := table[key];
      Step(Admitted(limit - (e.count + 1)), table[key := e.(count := e.count + 1)])
  }

  /** Calls for `key` at the instants `times`, one after the other, from `table`. */
  function Calls(table: map<string, Entry>, key: string, limit: int, windowMs: int, times: seq<int>): (r: Replay)
    ensures |r.decisions| == |times|
    decreases |times|
  {
    if times == [] then Replay([], table)
    else
      var s := Check(table, key, limit, windowMs, times[0]);
      var rest := Calls(s.table, key, limit, windowMs, times[1..]);
      Replay([s.decision] + rest.decisions, rest.table)
  }

  /** Every entry counts at least one and at most `limit` calls. */
  ghost predicate Bounded(table: map<string, Entry>, limit: int) {
    forall k :: k in table ==> 1 <= table[k].count <= limit
  }

  /** With a positive limit a call never lets a count pass the limit, and an
      admitted call never reports a negative remainder. */
  lemma CheckKeepsBounded(table: map<string, Entry>, key: string, limit: int, windowMs: int, now: int)
    requires limit >= 1 && Bounded(table, limit)
    ensures Bounded(Check(table, key, limit, windowMs, now).table, limit)
    ensures Check(table, key, limit, windowMs, now).decision.Admitted? ==>
              0 <= Check(table, key, limit, windowMs, now).decision.remaining < limit
  {
    var r := Check(table, key, limit, windowMs, now);
    forall k | k in r.table ensures 1 <= r.table[k].count <= limit {
      if k != key { assert r.table[k] == table[k]; }
    }
  }

  /** Inside an open window that so far counted `c` calls, call number `i` of a
      run is admitted while the quota lasts and denied afterwards; only `key`'s
      count changes, and it stops at the limit. */
  lemma {:induction false} CallsInOpenWindow(table: map<string, Entry>, key: string, limit: int, windowMs: int,
                                             times: seq<int>, c: int, resetAt: int)
    requires key in table && table[key] == Entry(c, resetAt)
    requires forall i :: 0 <= i < |times| ==> times[i] < resetAt
    ensures var r := Calls(table, key, limit, windowMs, times);
      && (forall i :: 0 <= i < |times| ==>
            r.decisions[i] == if c + i < limit then Admitted(limit - (c + i + 1))
                              else Denied(CeilSeconds(resetAt - times[i])))
      && r.table == table[key := Entry(if c >= limit then c else Min(c + |times|, limit), resetAt)]
    decreases |times|
  {
    if times == [] {
      assert table[key := Entry(c, resetAt)] == table;
    } else {
      var s := Check(table, key, limit, windowMs, times[0]);
      var c' := if c >= limit then c else c + 1;
      assert s.table == table[key := Entry(c', resetAt)];
      CallsInOpenWindow(s.table, key, limit, windowMs, times[1..], c', resetAt);
      var r := Calls(table, key, limit, windowMs, times);
      var rest := Calls(s.table, key, limit, windowMs, times[1..]);
      forall i | 0 <= i < |times|
        ensures r.decisions[i] == if c + i < limit then Admitted(limit - (c + i + 1))
                                  else Denied(CeilSeconds(resetAt - times[i]))
      {
        if i > 0 {
          assert r.decisions[i] == rest.decisions[i - 1];
          assert times[1..][i - 1] == times[i];
        }
      }
    }
  }

  /** A run that opens a new window at `times[0]` and stays inside it: the first
      `limit` calls are admitted with `limit - 1, ..., 0` remaining (the first
      call always is), every later one is denied with a positive wait, and with
      a positive limit the count ends at `min(|times|, limit)`. */
  lemma FirstWindow(table: map<string, Entry>, key: string, limit: int, windowMs: int, times: seq<int>)
    requires |times| >= 1
    requires key !in table || Expired(table[key], times[0])
    requires forall i :: 1 <= i < |times| ==> times[i] < times[0] + windowMs
    ensures var r := Calls(table, key, limit, windowMs, times);
      && (forall i :: 0 <= i < |times| && (i == 0 || i < limit) ==> r.decisions[i] == Admitted(limit - 1 - i))
      && (forall i :: 0 <= i < |times| && i != 0 && i >= limit ==>
            r.decisions[i].Denied? && r.decisions[i].retryAfter >= 1)
      && key in r.table
      && (limit >= 1 ==> r.table[key] == Entry(Min(|times|, limit), times[0] + windowMs))
  {
    var s := Check(table, key, limit, windowMs, times[0]);
    var resetAt := times[0] + windowMs;
    assert s.table[key] == Entry(1, resetAt);
    var rest := times[1..];
    forall i | 0 <= i < |rest| ensures rest[i] < resetAt {
      assert rest[i] == times[i + 1];
    }
    CallsInOpenWindow(s.table, key, limit, windowMs, rest, 1, resetAt);
    var r := Calls(table, key, limit, windowMs, times);
    forall i | 1 <= i < |times|
      ensures r.decisions[i] == if i < limit then Admitted(limit - 1 - i)
                                else Denied(CeilSeconds(resetAt - times[i]))
    {
      assert r.decisions[i] == Calls(s.table, key, limit, windowMs, rest).decisions[i - 1];
      assert rest[i - 1] == times[i];
    }
  }

  /** A key that is new, or whose window has elapsed, starts a fresh window:
      admitted with `limit - 1` remaining, whatever was counted before, and
      stored as one call in a window ending `windowMs` from now. */
  lemma ExpiredWindowRestarts(table: map<string, Entry>, key: string, limit: int, windowMs: int, now: int)
    requires key !in table || Expired(table[key], now)
    ensures Check(table, key, limit, windowMs, now).decision == Admitted(limit - 1)
    ensures Check(table, key, limit, windowMs, now).table[key] == Entry(1, now + windowMs)
  {
  }

  /** With the default limit and window, a key's first call leaves 9 calls. */
  lemma DefaultFirstCall(table: map<string, Entry>, key: string, now: int)
    requires key !in table
    ensures Check(table, key, DefaultLimit, DefaultWindowMs, now) ==
            Step(Admitted(9), table[key := Entry(1, now + 60000)])
  {
  }

  /** The process-wide table of entries, with the limiter's two operations. */
  class Limiter {
    var table: map<string, Entry>

    constructor ()
      ensures table == map[]
    {
      table := map[];
    }

    /** `checkLimit(key, limit, windowMs)` with the clock reading `now`. */
    method CheckLimit(key: string, limit: int, windowMs: int, now: int) returns (d: Decision)
      modifies this
      ensures Step(d, table) == Check(old(table), key, limit, windowMs, now)
    {
      if key !in table || table[key].resetAt <= now {
        table := table[key := Entry(1, now + windowMs)];
        return Admitted(limit - 1);
      }
      var entry := table[key];
      if entry.count >= limit {
        return Denied(CeilSeconds(entry.resetAt - now));
      }
      entry := entry.(count := entry.count + 1);
      table := table[key := entry];
      return Admitted(limit - entry.count);
    }

    /** `checkLimit(key)`: the call with the default limit and window. */
    method CheckLimitDefault(key: string, now: int) returns (d: Decision)
      modifies this
      ensures Step(d, table) == Check(old(table), key, DefaultLimit, DefaultWindowMs, now)
    {
      d := CheckLimit(key, DefaultLimit, DefaultWindowMs, now);
    }

    /** `resetAll()`: forget every key, so every key's next call is admitted
        with `limit - 1` remaining. */
    method ResetAll()
      modifies this
      ensures table == map[]
      ensures forall key: string, limit: int, windowMs: int, now: int ::
                Check(table, key, limit, windowMs, now).decision == Admitted(limit - 1)
    {
      table := map[];
    }
  }
}

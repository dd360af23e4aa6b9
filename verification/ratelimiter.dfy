/** The fixed-window request limiter. */
module Rate {
  datatype Window = Window(count: int, startedAt: int)

  type Windows = map<string, Window>

  datatype Config = Config(windowMs: nat, maxRequests: int)

  datatype Result = Result(allowed: bool, remaining: int, resetAt: int)

  function Max(a: int, b: int): int {
    if a < b then b else a
  }

  predicate Live(ws: Windows, key: string, now: int, c: Config) {
    key in ws && now - ws[key].startedAt <= c.windowMs
  }

  // The window a check at this time leaves behind.
  function Counted(ws: Windows, key: string, now: int, c: Config): Window {
    if Live(ws, key, now, c) then ws[key].(count := ws[key].count + 1) else Window(1, now)
  }

  // A window's first request is let through without looking at the limit.
  function Answer(ws: Windows, key: string, now: int, c: Config): Result {
    if !Live(ws, key, now, c) then
      Result(true, c.maxRequests - 1, now + c.windowMs)
    else
      var w := Counted(ws, key, now, c);
      Result(w.count <= c.maxRequests, Max(0, c.maxRequests - w.count), w.startedAt + c.windowMs)
  }

  function Swept(ws: Windows, now: int, c: Config): Windows {
    map key | key in ws && Live(ws, key, now, c) :: ws[key]
  }

  class RateLimiter {
    var windows: Windows
    const config: Config

    constructor (config: Config)
      ensures this.config == config && windows == map[]
    {
      this.config := config;
      windows := map[];
    }

    method Check(key: string, now: int) returns (r: Result)
      modifies this
      ensures r == Answer(old(windows), key, now, config)
      ensures var anew := key !in old(windows) || now - old(windows)[key].startedAt > config.windowMs;
              && key in windows
              && windows[key] == (if anew then Window(1, now) else Window(old(windows)[key].count + 1, old(windows)[key].startedAt))
              && r.resetAt == windows[key].startedAt + config.windowMs
              && (r.allowed <==> anew || windows[key].count <= config.maxRequests)
              && (anew || windows[key].count <= config.maxRequests ==> r.remaining == config.maxRequests - windows[key].count)
              && (!anew && windows[key].count > config.maxRequests ==> r.remaining == 0)
      ensures windows == old(windows)[key := Counted(old(windows), key, now, config)]
    {
      if key !in windows || now - windows[key].startedAt > config.windowMs {
        windows := windows[key := Window(1, now)];
        return Result(true, config.maxRequests - 1, now + config.windowMs);
      }
      var entry := windows[key].(count := windows[key].count + 1);
      windows := windows[key := entry];
      var remaining := Max(0, config.maxRequests - entry.count);
      var resetAt := entry.startedAt + config.windowMs;
      if entry.count > config.maxRequests {
        return Result(false, 0, resetAt);
      }
      return Result(true, remaining, resetAt);
    }

    method Cleanup(now: int)
      modifies this
      ensures windows == Swept(old(windows), now, config)
      ensures forall k :: k in windows <==> k in old(windows) && now - old(windows)[k].startedAt <= config.windowMs
      ensures forall k :: k in windows ==> windows[k] == old(windows)[k]
    {
      var keys := windows.Keys;
      while keys != {}
        invariant keys <= old(windows).Keys
        invariant windows.Keys == set k | k in old(windows) && (k in keys || Live(old(windows), k, now, config))
        invariant forall k :: k in windows ==> windows[k] == old(windows)[k]
      {
        var key :| key in keys;
        if now - windows[key].startedAt > config.windowMs {
          windows := windows - {key};
        }
        keys := keys - {key};
      }
    }
  }

  // ---------- Histories ----------

  datatype Call = Check(key: string, now: int) | Cleanup(now: int)

  // The clock never runs backwards and has reached t.
  predicate Clocked(calls: seq<Call>, t: int) {
    && (forall i :: 0 <= i < |calls| ==> t <= calls[i].now)
    && (forall i, j :: 0 <= i < j < |calls| ==> calls[i].now <= calls[j].now)
  }

  function After(ws: Windows, call: Call, c: Config): Windows {
    match call
    case Check(key, now) => ws[key := Counted(ws, key, now, c)]
    case Cleanup(now) => Swept(ws, now, c)
  }

  // What the successive checks answer.
  function Answers(ws: Windows, calls: seq<Call>, c: Config): seq<Result>
    decreases calls
  {
    if calls == [] then []
    else
      (if calls[0].Check? then [Answer(ws, calls[0].key, calls[0].now, c)] else [])
      + Answers(After(ws, calls[0], c), calls[1..], c)
  }

  function Checks(calls: seq<Call>): seq<Call> {
    if calls == [] then []
    else (if calls[0].Check? then [calls[0]] else []) + Checks(calls[1..])
  }

  // ---------- What the answer promises ----------

  // Some more checks of the same key.
  function Rechecked(ws: Windows, key: string, times: seq<int>, c: Config): Windows {
    if times == [] then ws
    else After(Rechecked(ws, key, times[..|times| - 1], c), Check(key, times[|times| - 1]), c)
  }

  lemma {:induction false} RecheckedCounts(ws: Windows, key: string, times: seq<int>, c: Config)
    requires key in ws && forall i :: 0 <= i < |times| ==> times[i] <= ws[key].startedAt + c.windowMs
    ensures var after := Rechecked(ws, key, times, c);
            key in after && after[key] == Window(ws[key].count + |times|, ws[key].startedAt)
  {
    if times != [] {
      RecheckedCounts(ws, key, times[..|times| - 1], c);
    }
  }

  /** What the answer promises: up to resetAt exactly `remaining` more checks of the key are let through, and
      the first check after resetAt opens a new window. */
  lemma RemainingMeans(ws: Windows, key: string, now: int, c: Config, times: seq<int>, t: int)
    requires forall i :: 0 <= i < |times| ==> times[i] <= Answer(ws, key, now, c).resetAt
    ensures var r, after := Answer(ws, key, now, c), Rechecked(After(ws, Check(key, now), c), key, times, c);
            && (t <= r.resetAt ==> (Answer(after, key, t, c).allowed <==> |times| < r.remaining))
            && (t > r.resetAt ==> Answer(after, key, t, c) == Result(true, c.maxRequests - 1, t + c.windowMs))
  {
    RecheckedCounts(After(ws, Check(key, now), c), key, times, c);
  }

  // ---------- Sweeping is invisible ----------

  // small has lost only windows that have expired.
  ghost predicate Pruned(small: Windows, big: Windows, now: int, c: Config) {
    && (forall k :: k in small ==> k in big && small[k] == big[k])
    && (forall k :: k in big && k !in small ==> big[k].startedAt + c.windowMs < now)
  }

  lemma {:induction false} SweepsChangeNothing(small: Windows, big: Windows, calls: seq<Call>, c: Config, t: int)
    requires Clocked(calls, t) && Pruned(small, big, t, c)
    ensures Answers(small, calls, c) == Answers(big, Checks(calls), c)
    decreases calls
  {
    if calls != [] {
      var call := calls[0];
      assert Clocked(calls[1..], call.now);
      match call {
        case Check(key, now) =>
          assert Answer(small, key, now, c) == Answer(big, key, now, c);
          var a, b := After(small, call, c), After(big, call, c);
          SweepsChangeNothing(a, b, calls[1..], c, now);
          assert Checks(calls) == [call] + Checks(calls[1..]);
          assert Checks(calls)[1..] == Checks(calls[1..]);
        case Cleanup(now) =>
          SweepsChangeNothing(After(small, call, c), big, calls[1..], c, now);
          assert Checks(calls) == Checks(calls[1..]);
      }
    }
  }

  // Cleanups interleaved anywhere never change a check's answer.
  lemma CleanupIsInvisible(calls: seq<Call>, c: Config, t: int)
    requires Clocked(calls, t)
    ensures Answers(map[], calls, c) == Answers(map[], Checks(calls), c)
  {
    SweepsChangeNothing(map[], map[], calls, c, t);
  }

  // ---------- The bound ----------

  predicate Passes(ws: Windows, call: Call, key: string, c: Config) {
    call.Check? && call.key == key && Answer(ws, key, call.now, c).allowed
  }

  // How many requests of the key are let through at times from lo to hi.
  function Allowed(ws: Windows, calls: seq<Call>, key: string, lo: int, hi: int, c: Config): nat
    decreases calls
  {
    if calls == [] then 0
    else
      (if Passes(ws, calls[0], key, c) && lo <= calls[0].now <= hi then 1 else 0)
      + Allowed(After(ws, calls[0], c), calls[1..], key, lo, hi, c)
  }

  // Requests a window still lets through; an empty limit still costs one per window.
  function Quota(c: Config): int {
    Max(1, c.maxRequests)
  }

  function Left(w: Window, c: Config): int {
    Max(0, c.maxRequests - w.count)
  }

  lemma {:induction false} NoneAfter(ws: Windows, calls: seq<Call>, key: string, lo: int, hi: int, c: Config, t: int)
    requires Clocked(calls, t) && hi < t
    ensures Allowed(ws, calls, key, lo, hi, c) == 0
    decreases calls
  {
    if calls != [] { NoneAfter(After(ws, calls[0], c), calls[1..], key, lo, hi, c, t); }
  }

  function Room(m: int, c: Config): int {
    m * Quota(c)
  }

  lemma OneMore(m: nat, c: Config)
    requires 1 <= m
    ensures 0 <= Room(m - 1, c) && Room(m, c) == Room(m - 1, c) + Quota(c)
    ensures m * c.windowMs == (m - 1) * c.windowMs + c.windowMs
  {
    assert 1 <= Quota(c);
    assert 0 <= (m - 1) * Quota(c);
  }

  // From inside a window that began at most m window lengths before hi, fewer than m more begin by hi.
  lemma {:induction false} FromWindow(ws: Windows, s: Window, calls: seq<Call>, key: string, lo: int, hi: int, c: Config, t: int, m: nat)
    requires Clocked(calls, t) && 1 <= m && 1 <= s.count
    requires if key in ws then ws[key] == s else s.startedAt + c.windowMs < t
    requires hi <= s.startedAt + m * c.windowMs
    ensures Allowed(ws, calls, key, lo, hi, c) <= Left(s, c) + Room(m - 1, c)
    decreases calls
  {
    OneMore(m, c);
    if calls != [] {
      var call := calls[0];
      var ws' := After(ws, call, c);
      assert Clocked(calls[1..], call.now);
      if hi < call.now {
        assert Clocked(calls, call.now);
        NoneAfter(ws, calls, key, lo, hi, c, call.now);
      } else if !call.Check? || call.key != key {
        FromWindow(ws', s, calls[1..], key, lo, hi, c, call.now, m);
      } else if Live(ws, key, call.now, c) {
        FromWindow(ws', ws'[key], calls[1..], key, lo, hi, c, call.now, m);
      } else {
        assert s.startedAt + c.windowMs < call.now;
        assert m != 1;
        OneMore(m - 1, c);
        FromWindow(ws', ws'[key], calls[1..], key, lo, hi, c, call.now, m - 1);
      }
    }
  }

  // While the key's window, if any, began before lo.
  lemma {:induction false} FromOutside(ws: Windows, calls: seq<Call>, key: string, lo: int, n: nat, c: Config, t: int)
    requires Clocked(calls, t) && 1 <= n
    requires key in ws ==> 1 <= ws[key].count && ws[key].startedAt < lo
    ensures Allowed(ws, calls, key, lo, lo + n * c.windowMs, c) <= Room(n, c) + Quota(c) - 1
    decreases calls
  {
    var hi := lo + n * c.windowMs;
    OneMore(n, c);
    if calls != [] {
      var call := calls[0];
      var ws' := After(ws, call, c);
      assert Clocked(calls[1..], call.now);
      if !call.Check? || call.key != key || call.now < lo {
        FromOutside(ws', calls[1..], key, lo, n, c, call.now);
      } else if hi < call.now {
        assert Clocked(calls, call.now);
        NoneAfter(ws, calls, key, lo, hi, c, call.now);
      } else if Live(ws, key, call.now, c) {
        OneMore(n + 1, c);
        FromWindow(ws', ws'[key], calls[1..], key, lo, hi, c, call.now, n + 1);
      } else {
        FromWindow(ws', ws'[key], calls[1..], key, lo, hi, c, call.now, n);
      }
    }
  }

  // A closed interval of n window lengths lets through at most (n + 1) quotas less one.
  lemma RateBound(calls: seq<Call>, key: string, lo: int, n: nat, c: Config, t: int)
    requires Clocked(calls, t) && 1 <= n
    ensures Allowed(map[], calls, key, lo, lo + n * c.windowMs, c) <= (n + 1) * Quota(c) - 1
  {
    FromOutside(map[], calls, key, lo, n, c, t);
    OneMore(n + 1, c);
  }

  // ---------- The bound is reached ----------

  function Burst(key: string, now: int, k: nat): (calls: seq<Call>)
    ensures |calls| == k && forall i :: 0 <= i < k ==> calls[i] == Check(key, now)
  {
    seq(k, _ => Check(key, now))
  }

  // A full window's worth at the start of each of the windows i, i + 1, ..., n.
  function Bursts(key: string, i: nat, n: nat, c: Config): (calls: seq<Call>)
    requires 1 <= c.maxRequests
    ensures forall k :: 0 <= k < |calls| ==> i * (c.windowMs + 1) <= calls[k].now
    ensures forall j, k :: 0 <= j < k < |calls| ==> calls[j].now <= calls[k].now
    decreases n + 1 - i
  {
    if n < i then []
    else
      assert i * (c.windowMs + 1) <= (i + 1) * (c.windowMs + 1);
      Burst(key, i * (c.windowMs + 1), c.maxRequests) + Bursts(key, i + 1, n, c)
  }

  lemma {:induction false} BurstPasses(ws: Windows, key: string, now: int, k: nat, rest: seq<Call>, lo: int, hi: int, c: Config)
    requires Live(ws, key, now, c) && ws[key].count + k <= c.maxRequests && lo <= now <= hi
    ensures Allowed(ws, Burst(key, now, k) + rest, key, lo, hi, c)
         == k + Allowed(ws[key := Window(ws[key].count + k, ws[key].startedAt)], rest, key, lo, hi, c)
    decreases k
  {
    var calls := Burst(key, now, k) + rest;
    if k == 0 {
      assert calls == rest && ws == ws[key := Window(ws[key].count, ws[key].startedAt)];
    } else {
      var ws' := After(ws, calls[0], c);
      assert calls[1..] == Burst(key, now, k - 1) + rest;
      BurstPasses(ws', key, now, k - 1, rest, lo, hi, c);
      assert ws'[key := Window(ws'[key].count + (k - 1), ws'[key].startedAt)]
          == ws[key := Window(ws[key].count + k, ws[key].startedAt)];
    }
  }

  lemma Grid(i: nat, n: nat, c: Config)
    requires i <= n
    ensures i * (c.windowMs + 1) <= n * (c.windowMs + 1)
    ensures (i + 1) * (c.windowMs + 1) == i * (c.windowMs + 1) + c.windowMs + 1
    ensures (n + 1 - i) * c.maxRequests == (n + 1 - (i + 1)) * c.maxRequests + c.maxRequests
  {
  }

  // A burst that opens a window.
  lemma BurstOpens(ws: Windows, key: string, now: int, rest: seq<Call>, lo: int, hi: int, c: Config)
    requires !Live(ws, key, now, c) && 1 <= c.maxRequests && lo <= now <= hi
    ensures Allowed(ws, Burst(key, now, c.maxRequests) + rest, key, lo, hi, c)
         == c.maxRequests + Allowed(ws[key := Window(c.maxRequests, now)], rest, key, lo, hi, c)
  {
    var tail := Burst(key, now, c.maxRequests - 1) + rest;
    var ws' := ws[key := Window(1, now)];
    BurstSplits(key, now, c.maxRequests, rest);
    OneOpens(ws, key, now, tail, lo, hi, c);
    BurstPasses(ws', key, now, c.maxRequests - 1, rest, lo, hi, c);
    assert ws'[key := Window(c.maxRequests, now)] == ws[key := Window(c.maxRequests, now)];
  }

  lemma BurstSplits(key: string, now: int, k: nat, rest: seq<Call>)
    requires 1 <= k
    ensures Burst(key, now, k) + rest == [Check(key, now)] + (Burst(key, now, k - 1) + rest)
  {
  }

  // The check that opens a window passes, and counts if it lies in the interval.
  lemma OneOpens(ws: Windows, key: string, now: int, tail: seq<Call>, lo: int, hi: int, c: Config)
    requires !Live(ws, key, now, c)
    ensures Allowed(ws, [Check(key, now)] + tail, key, lo, hi, c)
         == (if lo <= now <= hi then 1 else 0) + Allowed(ws[key := Window(1, now)], tail, key, lo, hi, c)
  {
    var calls := [Check(key, now)] + tail;
    assert calls[1..] == tail && After(ws, calls[0], c) == ws[key := Window(1, now)];
  }

  lemma {:induction false} BurstsPass(ws: Windows, key: string, i: nat, n: nat, lo: int, hi: int, c: Config)
    requires 1 <= c.maxRequests && i <= n + 1
    requires !Live(ws, key, i * (c.windowMs + 1), c)
    requires lo <= i * (c.windowMs + 1) && n * (c.windowMs + 1) <= hi
    ensures Allowed(ws, Bursts(key, i, n, c), key, lo, hi, c) == (n + 1 - i) * c.maxRequests
    decreases n + 1 - i
  {
    if i <= n {
      var now := i * (c.windowMs + 1);
      var rest := Bursts(key, i + 1, n, c);
      Grid(i, n, c);
      BurstOpens(ws, key, now, rest, lo, hi, c);
      BurstsPass(ws[key := Window(c.maxRequests, now)], key, i + 1, n, lo, hi, c);
    }
  }

  // In any interval of n windows, n no longer than a window's milliseconds, the bound is met exactly:
  // with the default limit of 60 a minute, 119 requests pass within one minute.
  lemma BoundIsReached(key: string, n: nat, c: Config) returns (calls: seq<Call>)
    requires 1 <= n <= c.windowMs && 1 <= c.maxRequests
    ensures Clocked(calls, 0)
    ensures Allowed(map[], calls, key, c.windowMs, c.windowMs + n * c.windowMs, c) == (n + 1) * Quota(c) - 1
  {
    var lo, hi := c.windowMs, c.windowMs + n * c.windowMs;
    var rest := Bursts(key, 1, n, c);
    var tail := Burst(key, lo, c.maxRequests - 1) + rest;
    calls := [Check(key, 0)] + tail;
    OneOpens(map[], key, 0, tail, lo, hi, c);
    AllPass(key, n, c);
    assert (n + 1) * c.maxRequests == n * c.maxRequests + c.maxRequests;
  }

  // The rest of the first window, and n full ones.
  lemma AllPass(key: string, n: nat, c: Config)
    requires 1 <= n <= c.windowMs && 1 <= c.maxRequests
    ensures Allowed(map[key := Window(1, 0)], Burst(key, c.windowMs, c.maxRequests - 1) + Bursts(key, 1, n, c),
                    key, c.windowMs, c.windowMs + n * c.windowMs, c)
         == c.maxRequests - 1 + n * c.maxRequests
  {
    var lo, hi := c.windowMs, c.windowMs + n * c.windowMs;
    var rest, ws := Bursts(key, 1, n, c), map[key := Window(1, 0)];
    BurstPasses(ws, key, lo, c.maxRequests - 1, rest, lo, hi, c);
    assert n * (c.windowMs + 1) == n * c.windowMs + n;
    BurstsPass(ws[key := Window(c.maxRequests, 0)], key, 1, n, lo, hi, c);
  }
}

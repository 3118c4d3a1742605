/** What the rate limiter tells a refused caller, keeps in its table, and when it forgets it. */
module LimiterRules {
  import opened Rounding
  import opened RateLimiter

  // ---------------------------------------------------------------- waiting

  /** The announced wait is the least whole number of seconds, at least one, after which the oldest hit has expired. */
  lemma RetryAfterIsLeast(c: Config, l: Limiter, key: string, now: real, w: int)
    ensures key !in l.hits || l.hits[key] == [] ==> RetryAfter(c, l, key, now) == 0
    ensures key in l.hits && l.hits[key] != [] ==>
              (RetryAfter(c, l, key, now) <= w <==> w >= 1 && now + w as real > l.hits[key][0] + c.window)
  {
    if key in l.hits && l.hits[key] != [] {
      var x := l.hits[key][0] + c.window - now;
      NextWhole(x, w);
      hide Truncate;
      assert now + w as real > l.hits[key][0] + c.window <==> w as real > x;
    }
  }

  lemma NextWhole(x: real, w: int)
    ensures Max(1, Truncate(x) + 1) <= w <==> w >= 1 && w as real > x
  {
    CeilIsLeast(x, w);
    CeilIsLeast(x, Ceil(x));
  }

  // ---------------------------------------------------------------- the table

  lemma LiveKeysAreFewer(hits: map<string, seq<real>>, cutoff: real)
    ensures |LiveKeys(hits, cutoff)| <= |hits|
  {
    KeysAreFewer(LiveKeys(hits, cutoff).Keys, hits.Keys);
  }

  lemma KeysAreFewer(small: set<string>, large: set<string>)
    requires small <= large
    ensures |small| <= |large|
  {
    assert large == small + (large - small);
  }

  lemma AllowKeepsBound(c: Config, l: Limiter, key: string, now: real)
    requires c.maxKeys >= 1 && |l.hits| <= c.maxKeys
    ensures |Allow(c, l, key, now).0.hits| <= c.maxKeys
  {
    var kept := Collect(c, l, now);
    LiveKeysAreFewer(l.hits, now - c.window);
    assert |kept.hits| < c.maxKeys;
    var q := Allow(c, l, key, now).0.hits;
    hide Collect, DropStale;
    if c.limit > 0 {
      assert q.Keys == kept.hits.Keys + {key};
      assert |q| == |q.Keys| && |kept.hits| == |kept.hits.Keys|;
    }
  }

  /** The table never holds more keys than it may, over any run of calls. */
  lemma {:induction false} TableIsBounded(c: Config, clock: real, calls: seq<Call>)
    requires c.maxKeys >= 1
    ensures |ObserveAll(c, Start(clock), calls).limiter.hits| <= c.maxKeys
  {
    hide Allow;
    if calls != [] {
      TableIsBounded(c, clock, calls[..|calls| - 1]);
      AllowKeepsBound(c, ObserveAll(c, Start(clock), calls[..|calls| - 1]).limiter, calls[|calls| - 1].key,
        calls[|calls| - 1].now);
    }
  }

  /**
   * Collection: at most a minute after the last one every key without a live hit is gone, and
   * before that, while the table has room, no other key is touched. Without a limit nothing is kept.
   */
  lemma CollectedEachMinute(c: Config, l: Limiter, key: string, now: real, other: string)
    requires other != key
    ensures var after := Allow(c, l, key, now).0;
            && (c.limit <= 0 ==> after == l && Allow(c, l, key, now).1)
            && (c.limit > 0 && (now - l.lastGc >= 60.0 || |l.hits| >= c.maxKeys) ==>
                  && after.lastGc == now
                  && (other in after.hits ==>
                       && other in l.hits && after.hits[other] == l.hits[other] != []
                       && l.hits[other][|l.hits[other]| - 1] > now - c.window))
            && (c.limit > 0 && now - l.lastGc < 60.0 && |l.hits| < c.maxKeys ==>
                  && after.lastGc == l.lastGc
                  && (other in after.hits <==> other in l.hits)
                  && (other in l.hits ==> after.hits[other] == l.hits[other]))
  {
    hide DropStale;
  }

  // ---------------------------------------------------------------- emergency clears

  /** The keys with an accepted hit in the last window. */
  function BusyKeys(history: seq<Hit>, from: real, to: real): set<string> {
    set i | 0 <= i < |history| && from < history[i].at <= to :: history[i].key
  }

  lemma {:induction false} LiveDequeStays(q: seq<real>, cutoff: real)
    requires q != [] && q[|q| - 1] > cutoff
    ensures DropStale(q, cutoff) != []
  {
    if q[0] <= cutoff { LiveDequeStays(q[1..], cutoff); }
  }

  lemma {:induction false} DroppedIsLive(q: seq<real>, cutoff: real)
    ensures DropStale(q, cutoff) != [] ==> DropStale(q, cutoff)[0] > cutoff && DropStale(q, cutoff)[0] in q
  {
    if q != [] && q[0] <= cutoff { DroppedIsLive(q[1..], cutoff); }
  }

  lemma {:induction false} TimeIsHit(history: seq<Hit>, key: string, x: real)
    requires x in TimesOf(history, key)
    ensures exists i | 0 <= i < |history| :: history[i] == Hit(key, x)
  {
    var n := |history| - 1;
    if history[n] != Hit(key, x) {
      TimeIsHit(history[..n], key, x);
      var i :| 0 <= i < n && history[..n][i] == Hit(key, x);
      assert history[i] == Hit(key, x);
    }
  }

  /** A live deque has an accepted hit in the last window. */
  lemma LiveKeyIsBusy(c: Config, t: Trace, now: real, key: string)
    requires c.limit > 0 && Tracks(c, t) && t.clock <= now && key in LiveKeys(t.limiter.hits, now - c.window)
    ensures key in BusyKeys(t.history, now - c.window, now)
  {
    hide Tracks, TracksKey, DropStale, TimesOf;
    var q, cutoff := t.limiter.hits[key], now - c.window;
    LiveDequeAgrees(c, t, now, key);
    var since := SinceMark(t);
    LiveDequeStays(q, cutoff);
    DroppedIsLive(TimesOf(since, key), cutoff);
    var x := DropStale(q, cutoff)[0];
    TimeIsHit(since, key, x);
    var i :| 0 <= i < |since| && since[i] == Hit(key, x);
    assert t.history[t.mark + i] == Hit(key, x);
    HistoryBefore(c, t, t.mark + i);
  }

  lemma LiveDequeAgrees(c: Config, t: Trace, now: real, key: string)
    requires c.limit > 0 && Tracks(c, t) && t.clock <= now && key in LiveKeys(t.limiter.hits, now - c.window)
    ensures t.mark <= |t.history| && key in t.limiter.hits
    ensures var q, cutoff := t.limiter.hits[key], now - c.window;
            && q != [] && q[|q| - 1] > cutoff
            && DropStale(q, cutoff) == DropStale(TimesOf(SinceMark(t), key), cutoff)
  {
    hide DropStale, TimesOf, Chronological;
    assert TracksKey(c, t, key);
  }

  lemma HistoryBefore(c: Config, t: Trace, i: nat)
    requires Tracks(c, t) && i < |t.history|
    ensures t.history[i].at <= t.clock
  {
    hide TracksKey;
  }

  /** An emergency clear happens only when that many keys were let through in the last window. */
  lemma FloodNeedsManyKeys(c: Config, clock: real, calls: seq<Call>, call: Call)
    requires c.limit > 0 && InOrder(clock, calls + [call])
    requires ObserveAll(c, Start(clock), calls + [call]).floods > ObserveAll(c, Start(clock), calls).floods
    ensures |BusyKeys(ObserveAll(c, Start(clock), calls).history, call.now - c.window, call.now)| >= c.maxKeys
  {
    hide Tracks, Allow, BusyKeys, LiveKeys, Floods, ObserveAll, InOrder;
    var t := ObserveAll(c, Start(clock), calls);
    LastObserved(c, clock, calls, call);
    EarlierCalls(clock, calls, call);
    RunTracks(c, clock, calls);
    ManyAreBusy(c, t, call.now);
  }

  lemma ManyAreBusy(c: Config, t: Trace, now: real)
    requires c.limit > 0 && Tracks(c, t) && t.clock <= now && Floods(c, t.limiter, now)
    ensures |BusyKeys(t.history, now - c.window, now)| >= c.maxKeys
  {
    hide Tracks, BusyKeys, LiveKeys;
    var live := LiveKeys(t.limiter.hits, now - c.window);
    forall key | key in live ensures key in BusyKeys(t.history, now - c.window, now) { LiveKeyIsBusy(c, t, now, key); }
    assert |live| == |live.Keys|;
    KeysAreFewer(live.Keys, BusyKeys(t.history, now - c.window, now));
  }

  lemma LastObserved(c: Config, clock: real, calls: seq<Call>, call: Call)
    requires InOrder(clock, calls + [call])
    ensures var t := ObserveAll(c, Start(clock), calls);
            && ObserveAll(c, Start(clock), calls + [call]) == Observe(c, t, call) && t.clock <= call.now
  {
    hide Allow, Floods;
    var all := calls + [call];
    assert all[..|calls|] == calls && all[|calls|] == call;
    if calls != [] { assert all[|calls| - 1].now <= all[|calls|].now; }
  }

  lemma EarlierCalls(clock: real, calls: seq<Call>, call: Call)
    requires InOrder(clock, calls + [call])
    ensures InOrder(clock, calls)
  {
    var all := calls + [call];
    forall i | 0 <= i < |calls| ensures clock <= calls[i].now { assert all[i] == calls[i]; }
    forall i, j | 0 <= i < j < |calls| ensures calls[i].now <= calls[j].now { assert all[i].now <= all[j].now; }
  }
}

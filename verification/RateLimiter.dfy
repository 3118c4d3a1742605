/**
 * The rate limiter over a sliding window: per-key deques that are pruned on use, with
 * periodic collection of stale keys and an emergency clear when too many keys are live.
 */
module RateLimiter {
  import opened Sums
  import opened Rounding

  datatype Config = Config(limit: int, window: real, maxKeys: int)

  datatype Limiter = Limiter(hits: map<string, seq<real>>, lastGc: real)

  const GC_SECONDS := 60.0

  // ---------------------------------------------------------------- one call, on values

  /** Pops expired hits from the front. */
  function DropStale(q: seq<real>, cutoff: real): seq<real> {
    if q == [] then [] else if q[0] <= cutoff then DropStale(q[1..], cutoff) else q
  }

  function HitsOf(hits: map<string, seq<real>>, key: string): seq<real> {
    if key in hits then hits[key] else []
  }

  predicate IsStale(q: seq<real>, cutoff: real) {
    q == [] || q[|q| - 1] <= cutoff
  }

  function LiveKeys(hits: map<string, seq<real>>, cutoff: real): map<string, seq<real>> {
    map k | k in hits && !IsStale(hits[k], cutoff) :: hits[k]
  }

  predicate GcDue(c: Config, l: Limiter, now: real) {
    now - l.lastGc >= GC_SECONDS || |l.hits| >= c.maxKeys
  }

  /** Too many live keys: the limiter forgets everything to stay alive. */
  predicate Floods(c: Config, l: Limiter, now: real) {
    GcDue(c, l, now) && |LiveKeys(l.hits, now - c.window)| >= c.maxKeys
  }

  function Collect(c: Config, l: Limiter, now: real): Limiter {
    if !GcDue(c, l, now) then l
    else Limiter(if Floods(c, l, now) then map[] else LiveKeys(l.hits, now - c.window), now)
  }

  function Allow(c: Config, l: Limiter, key: string, now: real): (Limiter, bool) {
    if c.limit <= 0 then (l, true)
    else
      var kept := Collect(c, l, now);
      var q := DropStale(HitsOf(kept.hits, key), now - c.window);
      if |q| >= c.limit then (kept.(hits := kept.hits[key := q]), false)
      else (kept.(hits := kept.hits[key := q + [now]]), true)
  }

  /** Whole seconds a refused caller is told to wait. */
  function RetryAfter(c: Config, l: Limiter, key: string, now: real): int {
    var q := HitsOf(l.hits, key);
    if q == [] then 0 else Max(1, Truncate(q[0] + c.window - now) + 1)
  }

  // ---------------------------------------------------------------- runs with their full history

  datatype Call = Call(key: string, now: real)

  datatype Hit = Hit(key: string, at: real)

  /**
   * A limiter with everything it ever accepted. `mark` is where the history stood at the last
   * emergency clear, `floods` how many there were, and `clock` the time of the last call.
   */
  datatype Trace = Trace(limiter: Limiter, history: seq<Hit>, mark: nat, floods: nat, clock: real)

  function Observe(c: Config, t: Trace, call: Call): Trace {
    var (after, allowed) := Allow(c, t.limiter, call.key, call.now);
    var flooded := c.limit > 0 && Floods(c, t.limiter, call.now);
    Trace(after,
          if allowed then t.history + [Hit(call.key, call.now)] else t.history,
          if flooded then |t.history| else t.mark,
          if flooded then t.floods + 1 else t.floods,
          call.now)
  }

  function Start(clock: real): Trace {
    Trace(Limiter(map[], clock), [], 0, 0, clock)
  }

  function ObserveAll(c: Config, t: Trace, calls: seq<Call>): Trace {
    if calls == [] then t else Observe(c, ObserveAll(c, t, calls[..|calls| - 1]), calls[|calls| - 1])
  }

  predicate InOrder(clock: real, calls: seq<Call>) {
    && (forall i | 0 <= i < |calls| :: clock <= calls[i].now)
    && (forall i, j | 0 <= i < j < |calls| :: calls[i].now <= calls[j].now)
  }

  /** Counts the hits of a key in the half-open window (from, to]. */
  function Within(key: string, from: real, to: real): Hit -> int {
    (h: Hit) => if h.key == key && from < h.at <= to then 1 else 0
  }

  // ---------------------------------------------------------------- deques

  predicate Sorted(q: seq<real>) {
    forall i, j | 0 <= i < j < |q| :: q[i] <= q[j]
  }

  lemma {:induction false} DropTwice(q: seq<real>, first: real, second: real)
    requires first <= second
    ensures DropStale(DropStale(q, first), second) == DropStale(q, second)
  {
    if q != [] && q[0] <= first {
      DropTwice(q[1..], first, second);
    }
  }

  lemma {:induction false} DropAppend(q: seq<real>, x: real, cutoff: real)
    ensures DropStale(q + [x], cutoff)
         == if DropStale(q, cutoff) != [] then DropStale(q, cutoff) + [x] else if x <= cutoff then [] else [x]
  {
    if q == [] {
      assert q + [x] == [x];
    } else {
      assert (q + [x])[1..] == q[1..] + [x];
      if q[0] <= cutoff { DropAppend(q[1..], x, cutoff); }
    }
  }

  lemma {:induction false} DropIsSuffix(q: seq<real>, cutoff: real)
    ensures |DropStale(q, cutoff)| <= |q|
    ensures DropStale(q, cutoff) == q[|q| - |DropStale(q, cutoff)|..]
    ensures q != [] && q[0] <= cutoff ==> |DropStale(q, cutoff)| < |q|
  {
    if q != [] && q[0] <= cutoff {
      DropIsSuffix(q[1..], cutoff);
      var n := |DropStale(q, cutoff)|;
      assert q[1..][|q| - 1 - n..] == q[|q| - n..];
    }
  }

  lemma {:induction false} DropKeepsSorted(q: seq<real>, cutoff: real)
    requires Sorted(q)
    ensures Sorted(DropStale(q, cutoff))
  {
    hide DropStale;
    DropIsSuffix(q, cutoff);
    var n := |q| - |DropStale(q, cutoff)|;
    forall i, j | 0 <= i < j < |DropStale(q, cutoff)|
      ensures DropStale(q, cutoff)[i] <= DropStale(q, cutoff)[j]
    {
      assert DropStale(q, cutoff)[i] == q[n + i] && DropStale(q, cutoff)[j] == q[n + j];
    }
  }

  lemma {:induction false} DropAllStale(q: seq<real>, cutoff: real)
    requires forall i | 0 <= i < |q| :: q[i] <= cutoff
    ensures DropStale(q, cutoff) == []
  {
    if q != [] { DropAllStale(q[1..], cutoff); }
  }

  // ---------------------------------------------------------------- the deques agree with the history

  /** The accepted times of one key, in order. */
  function TimesOf(history: seq<Hit>, key: string): seq<real> {
    if history == [] then []
    else
      var h := history[|history| - 1];
      TimesOf(history[..|history| - 1], key) + if h.key == key then [h.at] else []
  }

  /** Two deques agree on every hit newer than a time. */
  ghost predicate AgreeSince(p: seq<real>, q: seq<real>, since: real) {
    forall cutoff | since <= cutoff :: DropStale(p, cutoff) == DropStale(q, cutoff)
  }

  function SinceMark(t: Trace): seq<Hit>
    requires t.mark <= |t.history|
  {
    t.history[t.mark..]
  }

  /** A deque in use: sorted, not over the limit, not ahead of the clock, and true to the accepted times. */
  ghost predicate DequeOk(c: Config, q: seq<real>, times: seq<real>, clock: real) {
    && Sorted(q) && |q| <= c.limit
    && (q != [] ==> q[|q| - 1] <= clock)
    && AgreeSince(q, times, clock - c.window)
  }

  ghost predicate TracksKey(c: Config, t: Trace, key: string)
    requires t.mark <= |t.history|
  {
    DequeOk(c, HitsOf(t.limiter.hits, key), TimesOf(SinceMark(t), key), t.clock)
  }

  ghost predicate Tracks(c: Config, t: Trace) {
    && t.mark <= |t.history|
    && Chronological(t.history, t.clock)
    && (forall key :: TracksKey(c, t, key))
  }

  ghost predicate Chronological(history: seq<Hit>, clock: real) {
    && (forall i, j | 0 <= i < j < |history| :: history[i].at <= history[j].at)
    && (forall i | 0 <= i < |history| :: history[i].at <= clock)
  }

  /** Newer-than-cutoff hits of a sorted history are exactly what is left after dropping the stale ones. */
  lemma {:induction false} CountIsLength(history: seq<Hit>, key: string, cutoff: real, now: real)
    requires Chronological(history, now)
    ensures |DropStale(TimesOf(history, key), cutoff)| == Sum(history, Within(key, cutoff, now))
  {
    if history != [] {
      var n := |history| - 1;
      var rest, h := history[..n], history[n];
      CountIsLength(rest, key, cutoff, now);
      if h.key == key {
        DropAppend(TimesOf(rest, key), h.at, cutoff);
        if h.at <= cutoff { SumZero(rest, Within(key, cutoff, now)); }
      } else {
        assert TimesOf(history, key) == TimesOf(rest, key);
      }
    }
  }

  /** Collecting stale keys is invisible to any later use of a key. */
  lemma {:induction false} CollectAgrees(c: Config, l: Limiter, now: real, key: string)
    requires Sorted(HitsOf(l.hits, key)) && !Floods(c, l, now)
    ensures AgreeSince(HitsOf(Collect(c, l, now).hits, key), HitsOf(l.hits, key), now - c.window)
    ensures var q := HitsOf(Collect(c, l, now).hits, key); q == HitsOf(l.hits, key) || q == []
  {
    var q := HitsOf(l.hits, key);
    forall cutoff | now - c.window <= cutoff
      ensures DropStale(HitsOf(Collect(c, l, now).hits, key), cutoff) == DropStale(q, cutoff)
    {
      if IsStale(q, now - c.window) { StaleDrops(q, now - c.window, cutoff); }
    }
  }

  lemma {:induction false} StaleDrops(q: seq<real>, since: real, cutoff: real)
    requires Sorted(q) && IsStale(q, since) && since <= cutoff
    ensures DropStale(q, cutoff) == []
  {
    forall i | 0 <= i < |q| ensures q[i] <= cutoff { assert i < |q| - 1 ==> q[i] <= q[|q| - 1]; }
    DropAllStale(q, cutoff);
  }

  /** One call keeps every deque in agreement with the history, and decides by the history. */
  lemma {:induction false} ObserveTracks(c: Config, t: Trace, call: Call)
    requires c.limit > 0 && Tracks(c, t) && t.clock <= call.now
    ensures Tracks(c, Observe(c, t, call))
    ensures !Floods(c, t.limiter, call.now) ==>
              (Allow(c, t.limiter, call.key, call.now).1 <==>
                Sum(SinceMark(t), Within(call.key, call.now - c.window, call.now)) < c.limit)
  {
    hide TracksKey, Observe, Chronological, Allow, Floods;
    HistoryGrows(c, t, call);
    forall key ensures TracksKey(c, Observe(c, t, call), key) {
      ObserveTracksKey(c, t, call, key);
    }
    DecidedByTimes(c, t, call.key, call.now);
    CountIsLength(SinceMark(t), call.key, call.now - c.window, call.now);
  }

  lemma {:induction false} HistoryGrows(c: Config, t: Trace, call: Call)
    requires t.mark <= |t.history| && Chronological(t.history, t.clock) && t.clock <= call.now
    ensures var t' := Observe(c, t, call);
            t'.clock == call.now && t'.mark <= |t'.history| && Chronological(t'.history, t'.clock)
              && Chronological(SinceMark(t), call.now)
  {
  }

  /** The history that still counts when a call comes in: nothing after an emergency clear. */
  function Counted(c: Config, t: Trace, now: real): seq<Hit>
    requires t.mark <= |t.history|
  {
    if Floods(c, t.limiter, now) then [] else SinceMark(t)
  }

  /** One call keeps the deque of every key true to its accepted times. */
  lemma {:induction false} ObserveTracksKey(c: Config, t: Trace, call: Call, key: string)
    requires c.limit > 0 && t.mark <= |t.history| && TracksKey(c, t, key) && t.clock <= call.now
    ensures Observe(c, t, call).mark <= |Observe(c, t, call).history|
    ensures TracksKey(c, Observe(c, t, call), key)
  {
    hide DequeOk, Collect, Floods, DropStale, Allow, TimesOf, Counted;
    var kept := HitsOf(Collect(c, t.limiter, call.now).hits, key);
    var before := Counted(c, t, call.now);
    KeptAgrees(c, t, call.now, key);
    SinceMarkAfter(c, t, call);
    HitsAfter(c, t.limiter, call.key, call.now, key);
    TimesOfAppend(before, Hit(call.key, call.now), key);
    if key == call.key { UsedDeque(c, kept, TimesOf(before, key), call.now); }
  }

  /** The call is decided by the accepted times that still count. */
  lemma {:induction false} DecidedByTimes(c: Config, t: Trace, key: string, now: real)
    requires c.limit > 0 && t.mark <= |t.history| && TracksKey(c, t, key) && t.clock <= now
    ensures Allow(c, t.limiter, key, now).1 <==> |DropStale(TimesOf(Counted(c, t, now), key), now - c.window)| < c.limit
  {
    hide DequeOk, Collect, Floods, DropStale, Allow, TimesOf, Counted;
    var kept := HitsOf(Collect(c, t.limiter, now).hits, key);
    KeptAgrees(c, t, now, key);
    HitsAfter(c, t.limiter, key, now, key);
    UsedDeque(c, kept, TimesOf(Counted(c, t, now), key), now);
  }

  /** The deque that is left after collection is true to the history that still counts. */
  lemma {:induction false} KeptAgrees(c: Config, t: Trace, now: real, key: string)
    requires c.limit > 0 && t.mark <= |t.history| && TracksKey(c, t, key) && t.clock <= now
    ensures DequeOk(c, HitsOf(Collect(c, t.limiter, now).hits, key), TimesOf(Counted(c, t, now), key), now)
  {
    if !Floods(c, t.limiter, now) { CollectAgrees(c, t.limiter, now, key); }
  }

  /** The deque of the key that is used, once pruned, and once an accepted hit is appended. */
  lemma {:induction false} UsedDeque(c: Config, q: seq<real>, times: seq<real>, now: real)
    requires DequeOk(c, q, times, now)
    ensures var pruned := DropStale(q, now - c.window);
            && pruned + [] == pruned
            && |pruned| == |DropStale(times, now - c.window)|
            && DequeOk(c, pruned, times, now)
            && (|pruned| < c.limit ==> DequeOk(c, pruned + [now], times + [now], now))
  {
    hide DropStale, AgreeSince;
    UsedKey(c, q, times, now);
    AgreeAt(q, times, now - c.window);
  }

  lemma {:induction false} AgreeAt(p: seq<real>, q: seq<real>, since: real)
    requires AgreeSince(p, q, since)
    ensures DropStale(p, since) == DropStale(q, since)
  {
  }

  lemma {:induction false} TimesOfAppend(history: seq<Hit>, h: Hit, key: string)
    ensures TimesOf(history + [h], key) == if h.key == key then TimesOf(history, key) + [h.at]
            else TimesOf(history, key)
  {
    assert (history + [h])[..|history|] == history;
  }

  lemma {:induction false} HitsAfter(c: Config, l: Limiter, used: string, now: real, key: string)
    requires c.limit > 0
    ensures var (after, allowed) := Allow(c, l, used, now);
            var kept := HitsOf(Collect(c, l, now).hits, key);
            && (key != used ==> HitsOf(after.hits, key) == kept)
            && (key == used ==>
                  && (allowed <==> |DropStale(kept, now - c.window)| < c.limit)
                  && HitsOf(after.hits, key) == DropStale(kept, now - c.window) + if allowed then [now] else [])
  {
  }

  lemma {:induction false} SinceMarkAfter(c: Config, t: Trace, call: Call)
    requires c.limit > 0 && t.mark <= |t.history|
    ensures var t' := Observe(c, t, call);
            var before := Counted(c, t, call.now);
            && t'.mark <= |t'.history|
            && SinceMark(t') == if Allow(c, t.limiter, call.key, call.now).1 then before + [Hit(call.key, call.now)]
                 else before
  {
  }

  /** Pruning a deque, and appending the accepted hit, keeps it in agreement with the accepted times. */
  lemma {:induction false} UsedKey(c: Config, q: seq<real>, times: seq<real>, now: real)
    requires AgreeSince(q, times, now - c.window) && Sorted(q) && |q| <= c.limit && (q != [] ==> q[|q| - 1] <= now)
    ensures var pruned := DropStale(q, now - c.window);
            && pruned + [] == pruned
            && Sorted(pruned) && |pruned| <= c.limit && (pruned != [] ==> pruned[|pruned| - 1] <= now)
            && Sorted(pruned + [now])
            && AgreeSince(pruned, times, now - c.window) && AgreeSince(pruned + [now], times + [now], now - c.window)
  {
    hide DropStale;
    var since := now - c.window;
    var pruned := DropStale(q, since);
    DropIsSuffix(q, since);
    DropKeepsSorted(q, since);
    forall cutoff | since <= cutoff
      ensures DropStale(pruned, cutoff) == DropStale(times, cutoff)
      ensures DropStale(pruned + [now], cutoff) == DropStale(times + [now], cutoff)
    {
      DropTwice(q, since, cutoff);
      DropAppend(pruned, now, cutoff);
      DropAppend(times, now, cutoff);
    }
  }

  lemma {:induction false} RunTracks(c: Config, clock: real, calls: seq<Call>)
    requires c.limit > 0 && InOrder(clock, calls)
    ensures Tracks(c, ObserveAll(c, Start(clock), calls))
    ensures ObserveAll(c, Start(clock), calls).clock == if calls == [] then clock else calls[|calls| - 1].now
  {
    if calls != [] {
      RunTracks(c, clock, calls[..|calls| - 1]);
      ObserveTracks(c, ObserveAll(c, Start(clock), calls[..|calls| - 1]), calls[|calls| - 1]);
    }
  }

  lemma {:induction false} MarkOfCalmRun(c: Config, t: Trace, calls: seq<Call>)
    ensures ObserveAll(c, t, calls).floods >= t.floods
    ensures ObserveAll(c, t, calls).floods == t.floods ==> ObserveAll(c, t, calls).mark == t.mark
  {
    if calls != [] { MarkOfCalmRun(c, t, calls[..|calls| - 1]); }
  }

  /**
   * The limiter agrees with a full-history sliding window: while no emergency clear has fired, a
   * call is allowed if and only if fewer than `limit` earlier accepted hits of its key lie in
   * (now - window, now] of everything ever accepted.
   */
  lemma {:induction false} AllowMatchesFullHistory(c: Config, clock: real, calls: seq<Call>, call: Call)
    requires c.limit > 0 && InOrder(clock, calls + [call])
    requires ObserveAll(c, Start(clock), calls + [call]).floods == 0
    ensures var t := ObserveAll(c, Start(clock), calls);
            Allow(c, t.limiter, call.key, call.now).1 <==>
              Sum(t.history, Within(call.key, call.now - c.window, call.now)) < c.limit
  {
    var all := calls + [call];
    assert all[..|calls|] == calls && all[|calls|] == call;
    assert InOrder(clock, calls) by {
      forall i | 0 <= i < |calls| ensures clock <= calls[i].now { assert all[i] == calls[i]; }
      forall i, j | 0 <= i < j < |calls| ensures calls[i].now <= calls[j].now { assert all[i].now <= all[j].now; }
    }
    var t := ObserveAll(c, Start(clock), calls);
    RunTracks(c, clock, calls);
    assert t.clock <= call.now by { if calls != [] { assert all[|calls| - 1].now <= all[|calls|].now; } }
    MarkOfCalmRun(c, Start(clock), calls);
    MarkOfCalmRun(c, t, [call]);
    assert ObserveAll(c, t, [call]) == Observe(c, t, call) by { assert [call][..0] == []; }
    ObserveTracks(c, t, call);
    assert t.history[0..] == t.history;
  }

  // ---------------------------------------------------------------- how much a window can hold

  /** With k emergency clears, no window of the limiter's length holds more than (k + 1) * limit accepted hits. */
  lemma {:induction false} WindowBound(c: Config, clock: real, calls: seq<Call>, key: string, from: real)
    requires c.limit > 0 && InOrder(clock, calls)
    ensures var t := ObserveAll(c, Start(clock), calls);
            Sum(t.history, Within(key, from, from + c.window)) <= (t.floods + 1) * c.limit
  {
    WindowInvariant(c, clock, calls, key, from);
    AllowanceTotal(c, ObserveAll(c, Start(clock), calls).floods);
    hide ObserveAll, Sum, Allowance, Within, InOrder;
  }

  lemma AllowanceTotal(c: Config, floods: nat)
    ensures (floods + 1) * c.limit == Allowance(c, floods) + c.limit
  {
  }

  /** The hits that clears may have let through on top of one full window. */
  function Allowance(c: Config, floods: nat): int {
    floods * c.limit
  }

  ghost predicate WindowOk(c: Config, t: Trace, key: string, from: real) {
    && t.mark <= |t.history|
    && Sum(SinceMark(t), Within(key, from, from + c.window)) <= c.limit
    && Sum(t.history, Within(key, from, from + c.window)) <= Allowance(c, t.floods)
         + Sum(SinceMark(t), Within(key, from, from + c.window))
  }

  lemma {:induction false} WindowInvariant(c: Config, clock: real, calls: seq<Call>, key: string, from: real)
    requires c.limit > 0 && InOrder(clock, calls)
    ensures WindowOk(c, ObserveAll(c, Start(clock), calls), key, from)
  {
    if calls != [] {
      WindowInvariant(c, clock, calls[..|calls| - 1], key, from);
      RunTracks(c, clock, calls[..|calls| - 1]);
      hide WindowOk, Tracks, Observe;
      WindowStep(c, ObserveAll(c, Start(clock), calls[..|calls| - 1]), calls[|calls| - 1], key, from);
    }
  }

  lemma {:induction false} WindowStep(c: Config, t: Trace, call: Call, key: string, from: real)
    requires c.limit > 0 && Tracks(c, t) && t.clock <= call.now && WindowOk(c, t, key, from)
    ensures WindowOk(c, Observe(c, t, call), key, from)
  {
    hide Tracks, Floods, Chronological, Allow, Allowance, Sum, Within;
    var f := Within(key, from, from + c.window);
    var h := Hit(call.key, call.now);
    var flooded := Floods(c, t.limiter, call.now);
    var before := if flooded then [] else SinceMark(t);
    SinceMarkAfter(c, t, call);
    ObserveTracks(c, t, call);
    AllowanceGrows(c, t.floods);
    EmptySum(f);
    if Allow(c, t.limiter, call.key, call.now).1 {
      if !flooded { HistoryIsPast(c, t, call); } else { EmptySum(Within(call.key, call.now - c.window, call.now)); }
      AcceptedFits(c, before, key, h, from);
      SumAppend(before, h, f);
      SumAppend(t.history, h, f);
    }
  }

  lemma {:induction false} EmptySum(f: Hit -> int)
    ensures Sum([], f) == 0
  {
  }

  /** Accepting a hit that its own look-back window has room for overfills no other window. */
  lemma {:induction false} AcceptedFits(c: Config, before: seq<Hit>, key: string, h: Hit, from: real)
    requires Sum(before, Within(key, from, from + c.window)) <= c.limit
    requires Sum(before, Within(h.key, h.at - c.window, h.at)) < c.limit
    requires forall i | 0 <= i < |before| :: before[i].at <= h.at
    ensures Sum(before + [h], Within(key, from, from + c.window)) <= c.limit
  {
    hide Sum;
    SumAppend(before, h, Within(key, from, from + c.window));
    if h.key == key && from < h.at <= from + c.window {
      NarrowerWindow(before, key, from, from + c.window, h.at - c.window, h.at);
    }
  }

  lemma {:induction false} HistoryIsPast(c: Config, t: Trace, call: Call)
    requires Tracks(c, t) && t.clock <= call.now
    ensures forall i | 0 <= i < |SinceMark(t)| :: SinceMark(t)[i].at <= call.now
  {
  }

  lemma {:induction false} AllowanceGrows(c: Config, floods: nat)
    ensures Allowance(c, floods + 1) == Allowance(c, floods) + c.limit
  {
  }

  /** Hits up to `to'` counted in a window that starts later are no more. */
  lemma {:induction false} NarrowerWindow(history: seq<Hit>, key: string, from: real, to: real, from': real, to': real)
    requires forall i | 0 <= i < |history| :: history[i].at <= to'
    ensures from' <= from ==> Sum(history, Within(key, from, to)) <= Sum(history, Within(key, from', to'))
  {
    if history != [] { NarrowerWindow(history[..|history| - 1], key, from, to, from', to'); }
  }

  // ---------------------------------------------------------------- retry_after

  /** Calls for other keys leave a key's hits alone, or forget them. */
  lemma {:induction false} OtherKeysLeave(c: Config, t: Trace, calls: seq<Call>, key: string)
    requires forall i | 0 <= i < |calls| :: calls[i].key != key
    ensures var q := HitsOf(ObserveAll(c, t, calls).limiter.hits, key); q == HitsOf(t.limiter.hits, key) || q == []
  {
    if calls != [] { OtherKeysLeave(c, t, calls[..|calls| - 1], key); }
  }

  lemma {:induction false} TruncateAbove(x: real)
    ensures x < (Truncate(x) + 1) as real
  {
    CeilIsLeast(x, Ceil(x));
  }

  /**
   * A refused caller who comes back after exactly the announced number of seconds is accepted,
   * whatever other keys did meanwhile.
   */
  lemma {:induction false} RetryAfterSuffices(c: Config, t: Trace, key: string, now: real, calls: seq<Call>)
    requires c.limit > 0 && Tracks(c, t) && t.clock <= now
    requires !Allow(c, t.limiter, key, now).1
    requires forall i | 0 <= i < |calls| :: calls[i].key != key
    ensures var denied := Observe(c, t, Call(key, now));
            var wait := RetryAfter(c, denied.limiter, key, now);
            wait >= 1 && Allow(c, ObserveAll(c, denied, calls).limiter, key, now + wait as real).1
  {
    hide Tracks, Allow;
    DeniedDeque(c, t, key, now);
    var denied := Observe(c, t, Call(key, now));
    var q := HitsOf(denied.limiter.hits, key);
    var wait := RetryAfter(c, denied.limiter, key, now);
    OtherKeysLeave(c, denied, calls, key);
    TruncateAbove(q[0] + c.window - now);
    ReturnAccepted(c, ObserveAll(c, denied, calls).limiter, key, now + wait as real, q);
  }

  /** A refused key holds exactly `limit` hits. */
  lemma {:induction false} DeniedDeque(c: Config, t: Trace, key: string, now: real)
    requires c.limit > 0 && Tracks(c, t) && t.clock <= now && !Allow(c, t.limiter, key, now).1
    ensures |HitsOf(Observe(c, t, Call(key, now)).limiter.hits, key)| == c.limit
  {
    ObserveTracks(c, t, Call(key, now));
    hide AgreeSince, Chronological, Collect;
    assert TracksKey(c, Observe(c, t, Call(key, now)), key);
  }

  /** Once its oldest hit has expired, a full key is accepted again. */
  lemma {:induction false} ReturnAccepted(c: Config, l: Limiter, key: string, later: real, q: seq<real>)
    requires c.limit > 0 && |q| == c.limit && q[0] <= later - c.window
    requires HitsOf(l.hits, key) == q || HitsOf(l.hits, key) == []
    ensures Allow(c, l, key, later).1
  {
    var q' := HitsOf(Collect(c, l, later).hits, key);
    assert q' == q || q' == [];
    DropIsSuffix(q', later - c.window);
  }

  // ---------------------------------------------------------------- the limiter object

  class SlidingWindowLimiter {
    const limit: int
    const window: real
    const maxKeys: int
    var hits: map<string, seq<real>>
    var lastGc: real

    function Settings(): Config {
      Config(limit, window, maxKeys)
    }

    function View(): Limiter
      reads this
    {
      Limiter(hits, lastGc)
    }

    constructor (limit: int, window: real, maxKeys: int, now: real)
      ensures View() == Start(now).limiter
      ensures Settings() == Config(limit, window, maxKeys)
    {
      this.limit, this.window, this.maxKeys := limit, window, maxKeys;
      this.hits, this.lastGc := map[], now;
    }

    /** Removes every key whose hits all expired. */
    method PopStale(cutoff: real)
      modifies `hits
      ensures hits == LiveKeys(old(hits), cutoff)
    {
      var stale := set k | k in hits && IsStale(hits[k], cutoff);
      var todo := stale;
      while todo != {}
        invariant todo <= stale
        invariant forall k :: k in hits <==> k in old(hits) && (k in stale ==> k in todo)
        invariant forall k | k in hits :: hits[k] == old(hits[k])
        decreases todo
      {
        var k :| k in todo;
        hits := hits - {k};
        todo := todo - {k};
      }
    }

    /** Drops expired keys, at most once a minute or when the table is full. */
    method MaybeGc(now: real)
      modifies this
      ensures View() == Collect(Settings(), old(View()), now)
    {
      if now - lastGc < GC_SECONDS && |hits| < maxKeys {
        return;
      }
      lastGc := now;
      PopStale(now - window);
      if |hits| >= maxKeys {
        hits := map[];
      }
    }

    method AllowHit(key: string, now: real) returns (allowed: bool)
      modifies this
      ensures (View(), allowed) == Allow(Settings(), old(View()), key, now)
    {
      if limit <= 0 {
        return true;
      }
      MaybeGc(now);
      var q := if key in hits then hits[key] else [];
      ghost var full := q;
      var cutoff := now - window;
      while q != [] && q[0] <= cutoff
        invariant DropStale(q, cutoff) == DropStale(full, cutoff)
      {
        q := q[1..];
      }
      if |q| >= limit {
        hits := hits[key := q];
        return false;
      }
      hits := hits[key := q + [now]];
      return true;
    }

    method SecondsToWait(key: string, now: real) returns (seconds: int)
      ensures seconds == RetryAfter(Settings(), View(), key, now)
    {
      if key !in hits || hits[key] == [] {
        return 0;
      }
      seconds := Max(1, Truncate(hits[key][0] + window - now) + 1);
    }
  }
}

/**
  The token bucket that throttles unpaired control traffic (engine/native/src/rate_limit.rs).

  Times are nanoseconds on the process clock. The refill count is a `u32` cast of a
  quotient of milliseconds, and the wrap-around of that cast is part of the model.
 */
module RateLimit {
  import opened Common

  const UNPAIRED_BURST: nat := 8
  const UNPAIRED_REFILL_MS: nat := 2000
  const MAX_TRACKED_PEERS: nat := 512
  const NANOS_PER_MS: nat := 1_000_000
  const U32_SPAN: nat := 0x1_0000_0000

  /** A burst and a refill interval of a whole, positive number of milliseconds. */
  datatype ConfigFields = ConfigFields(burst: nat, intervalMs: nat)

  type Config = c: ConfigFields | 1 <= c.intervalMs witness ConfigFields(UNPAIRED_BURST, UNPAIRED_REFILL_MS)

  datatype Bucket = Bucket(tokens: nat, lastRefill: nat)

  type Table = map<string, Bucket>

  function Interval(cfg: Config): (ns: nat)
    ensures 0 < ns
  {
    cfg.intervalMs * NANOS_PER_MS
  }

  function LowerChar(c: char): char {
    if 'A' <= c <= 'Z' then c - 'A' + 'a' else c
  }

  function LowerCase(s: string): string {
    seq(|s|, i requires 0 <= i < |s| => LowerChar(s[i]))
  }

  // ------------------------------------------------------------------ one bucket

  /** Whole intervals in an elapsed time. */
  function Intervals(cfg: Config, elapsed: nat): nat {
    if elapsed < Interval(cfg) then 0 else 1 + Intervals(cfg, elapsed - Interval(cfg))
  }

  function Refills(cfg: Config, b: Bucket, now: nat): nat {
    Intervals(cfg, SaturatingSub(now, b.lastRefill)) % U32_SPAN
  }

  function Fresh(cfg: Config, now: nat): Bucket {
    Bucket(cfg.burst, now)
  }

  function Refilled(cfg: Config, b: Bucket, now: nat): Bucket {
    var refills := Refills(cfg, b, now);
    Bucket(Min(b.tokens + refills, cfg.burst), b.lastRefill + Times(Interval(cfg), refills))
  }

  /** Refill, then take one token if there is one. */
  function Charge(cfg: Config, b: Bucket, now: nat): (Bucket, bool) {
    var full := if Refills(cfg, b, now) > 0 then Refilled(cfg, b, now) else b;
    if full.tokens == 0 then (full, false) else (full.(tokens := full.tokens - 1), true)
  }

  // ------------------------------------------------------------------- the table

  predicate StillThrottled(cfg: Config, b: Bucket, now: nat) {
    b.tokens + Refills(cfg, b, now) < cfg.burst
  }

  function Prune(cfg: Config, t: Table, now: nat): Table {
    map k | k in t && StillThrottled(cfg, t[k], now) :: t[k]
  }

  /** The table the bucket is looked up in: pruned first when a newcomer finds it full. */
  function Room(cfg: Config, t: Table, id: string, now: nat): Table {
    if LowerCase(id) !in t && |t| >= MAX_TRACKED_PEERS then Prune(cfg, t, now) else t
  }

  function Allow(cfg: Config, t: Table, id: string, now: nat): (Table, bool) {
    var key, room := LowerCase(id), Room(cfg, t, id, now);
    if key !in t && |room| >= MAX_TRACKED_PEERS then (room, false)
    else
      var b := if key in room then room[key] else Fresh(cfg, now);
      var charged := Charge(cfg, b, now);
      (room[key := charged.0], charged.1)
  }

  class UnpairedRateLimiter {
    const cfg: Config
    var buckets: Table

    constructor ()
      ensures cfg == ConfigFields(UNPAIRED_BURST, UNPAIRED_REFILL_MS) && buckets == map[]
    {
      cfg := ConfigFields(UNPAIRED_BURST, UNPAIRED_REFILL_MS);
      buckets := map[];
    }

    method AllowMessage(id: string, now: nat) returns (allowed: bool)
      modifies this
      ensures (buckets, allowed) == Allow(cfg, old(buckets), id, now)
    {
      var key := LowerCase(id);
      if key !in buckets && |buckets| >= MAX_TRACKED_PEERS {
        PruneIdle(now);
        assert buckets == Prune(cfg, old(buckets), now);
        if |buckets| >= MAX_TRACKED_PEERS {
          return false;
        }
      }
      var bucket := if key in buckets then buckets[key] else Bucket(cfg.burst, now);
      var elapsed := SaturatingSub(now, bucket.lastRefill);
      QuotientCountsIntervals(cfg, elapsed);
      var refills := elapsed / NANOS_PER_MS / cfg.intervalMs % U32_SPAN;
      if refills > 0 {
        bucket := Bucket(
          Min(bucket.tokens + refills, cfg.burst),
          bucket.lastRefill + Times(Interval(cfg), refills));
      }
      allowed := bucket.tokens > 0;
      if allowed {
        bucket := bucket.(tokens := bucket.tokens - 1);
      }
      buckets := buckets[key := bucket];
    }

    /** `retain`: exactly the peers that could not send a full burst now stay, with their buckets as they were. */
    method PruneIdle(now: nat)
      modifies this
      ensures forall k :: k in buckets <==> k in old(buckets) && StillThrottled(cfg, old(buckets)[k], now)
      ensures forall k :: k in buckets ==> buckets[k] == old(buckets)[k]
    {
      var rest := buckets.Keys;
      while rest != {}
        invariant rest <= buckets.Keys <= old(buckets).Keys
        invariant forall k :: k in buckets ==> buckets[k] == old(buckets)[k]
        invariant forall k :: k in old(buckets) && k !in rest ==>
                    (k in buckets <==> StillThrottled(cfg, old(buckets)[k], now))
        decreases |rest|
      {
        var k :| k in rest;
        var elapsed := SaturatingSub(now, buckets[k].lastRefill);
        QuotientCountsIntervals(cfg, elapsed);
        var refills := elapsed / NANOS_PER_MS / cfg.intervalMs % U32_SPAN;
        if buckets[k].tokens + refills >= cfg.burst {
          buckets := buckets - {k};
        }
        rest := rest - {k};
      }
    }
  }

  // -------------------------------------------------------- whole-interval arithmetic

  lemma {:induction false} IntervalsBracket(cfg: Config, elapsed: nat)
    ensures var q := Intervals(cfg, elapsed);
            Times(Interval(cfg), q) <= elapsed < Times(Interval(cfg), q) + Interval(cfg)
  {
    if Interval(cfg) <= elapsed {
      IntervalsBracket(cfg, elapsed - Interval(cfg));
    }
  }

  /** The quotient of milliseconds counts whole intervals: the nested truncation loses nothing. */
  lemma {:induction false} QuotientCountsIntervals(cfg: Config, elapsed: nat)
    ensures elapsed / NANOS_PER_MS / cfg.intervalMs == Intervals(cfg, elapsed)
  {
    var ms := elapsed / NANOS_PER_MS;
    var q := ms / cfg.intervalMs;
    TimesIsProduct(Interval(cfg), q);
    assert cfg.intervalMs * q <= ms < cfg.intervalMs * q + cfg.intervalMs;
    assert Interval(cfg) * q == (cfg.intervalMs * q) * NANOS_PER_MS;
    IntervalsUnique(cfg, elapsed, q);
  }

  lemma {:induction false} TimesMonotone(a: nat, m: nat, n: nat)
    requires m <= n
    ensures Times(a, m) <= Times(a, n)
  {
    TimesAdds(a, m, n - m);
  }

  lemma {:induction false} IntervalsUnique(cfg: Config, elapsed: nat, q: nat)
    requires Times(Interval(cfg), q) <= elapsed < Times(Interval(cfg), q) + Interval(cfg)
    ensures Intervals(cfg, elapsed) == q
  {
    var q0 := Intervals(cfg, elapsed);
    IntervalsBracket(cfg, elapsed);
    if q < q0 {
      TimesMonotone(Interval(cfg), q + 1, q0);
    } else if q0 < q {
      TimesMonotone(Interval(cfg), q0 + 1, q);
    }
  }

  lemma {:induction false} IntervalsMonotone(cfg: Config, x: nat, y: nat)
    requires x <= y
    ensures Intervals(cfg, x) <= Intervals(cfg, y)
  {
    IntervalsBracket(cfg, x);
    IntervalsBracket(cfg, y);
    if Intervals(cfg, y) < Intervals(cfg, x) {
      TimesMonotone(Interval(cfg), Intervals(cfg, y) + 1, Intervals(cfg, x));
    }
  }

  /** The part of a count that the `u32` cast drops. */
  function Dropped(q: nat): nat {
    q - q % U32_SPAN
  }

  lemma DroppedFacts(p: nat, q: nat)
    requires p <= q
    ensures Dropped(p) <= Dropped(q) && Dropped(q) % U32_SPAN == 0
  {
  }

  /** Elapsed time that can still turn into tokens: the intervals the `u32` cast keeps, plus the remainder. */
  function Usable(cfg: Config, elapsed: nat): nat {
    IntervalsBracket(cfg, elapsed);
    var q := Intervals(cfg, elapsed);
    Times(Interval(cfg), q % U32_SPAN) + (elapsed - Times(Interval(cfg), q))
  }

  /** Usable time grows no faster than time, and drops when the cast wraps. */
  lemma {:induction false} UsableGrowsWithTime(cfg: Config, x: nat, y: nat)
    requires x <= y
    ensures Usable(cfg, y) <= Usable(cfg, x) + (y - x)
  {
    var p, q := Intervals(cfg, x), Intervals(cfg, y);
    IntervalsMonotone(cfg, x, y);
    DroppedFacts(p, q);
    TimesAdds(Interval(cfg), q % U32_SPAN, Dropped(q));
    TimesAdds(Interval(cfg), p % U32_SPAN, Dropped(p));
    TimesMonotone(Interval(cfg), Dropped(p), Dropped(q));
  }

  // ------------------------------------------------------------------- potential

  predicate GoodBucket(cfg: Config, b: Bucket, clock: nat) {
    b.tokens <= cfg.burst && b.lastRefill <= clock
  }

  predicate Good(cfg: Config, t: Table, clock: nat) {
    && |t| <= MAX_TRACKED_PEERS
    && forall k :: k in t ==> GoodBucket(cfg, t[k], clock)
  }

  function Ceiling(cfg: Config): nat {
    Times(Interval(cfg), cfg.burst) + Interval(cfg) - 1
  }

  /** Time a bucket is worth: its tokens and whatever is on the way to becoming one, up to the ceiling. */
  function Worth(cfg: Config, b: Bucket, clock: nat): nat
    requires GoodBucket(cfg, b, clock)
  {
    Min(Times(Interval(cfg), b.tokens) + Usable(cfg, clock - b.lastRefill), Ceiling(cfg))
  }

  /** An untracked peer is worth a full burst. */
  function Potential(cfg: Config, t: Table, key: string, clock: nat): nat
    requires Good(cfg, t, clock)
  {
    if key in t then Worth(cfg, t[key], clock) else Times(Interval(cfg), cfg.burst)
  }

  lemma {:induction false} WorthGrowsWithTime(cfg: Config, b: Bucket, clock: nat, now: nat)
    requires GoodBucket(cfg, b, clock) && clock <= now
    ensures Worth(cfg, b, now) <= Worth(cfg, b, clock) + (now - clock)
  {
    UsableGrowsWithTime(cfg, clock - b.lastRefill, now - b.lastRefill);
  }

  /** Refilling turns usable time into tokens and creates none. */
  lemma {:induction false} RefillConserves(cfg: Config, b: Bucket, now: nat)
    requires GoodBucket(cfg, b, now)
    ensures var full := Refilled(cfg, b, now);
            GoodBucket(cfg, full, now)
            && Times(Interval(cfg), full.tokens) + Usable(cfg, now - full.lastRefill) <= Worth(cfg, b, now)
  {
    var ns, x, full := Interval(cfg), now - b.lastRefill, Refilled(cfg, b, now);
    var q := Intervals(cfg, x);
    var r := q % U32_SPAN;
    IntervalsBracket(cfg, x);
    TimesAdds(ns, r, Dropped(q));
    TimesAdds(ns, b.tokens, r);
    IntervalsUnique(cfg, x - Times(ns, r), Dropped(q));
    DroppedFacts(q, q);
    TimesMonotone(ns, full.tokens, b.tokens + r);
    TimesMonotone(ns, full.tokens, cfg.burst);
  }

  /** An allowed message costs one interval of potential. */
  lemma {:induction false} ChargeCosts(cfg: Config, b: Bucket, now: nat)
    requires GoodBucket(cfg, b, now)
    ensures var c := Charge(cfg, b, now);
            GoodBucket(cfg, c.0, now)
            && Worth(cfg, c.0, now) + (if c.1 then Interval(cfg) else 0) <= Worth(cfg, b, now)
  {
    RefillConserves(cfg, b, now);
    if Refills(cfg, b, now) == 0 {
      assert Refilled(cfg, b, now) == b;
    }
  }

  lemma {:induction false} FreshIsAFullBurst(cfg: Config, now: nat)
    ensures GoodBucket(cfg, Fresh(cfg, now), now)
    ensures Worth(cfg, Fresh(cfg, now), now) == Times(Interval(cfg), cfg.burst)
  {
    assert Intervals(cfg, 0) == 0;
  }

  /** A bucket is pruned only once it is worth a full burst again. */
  lemma {:induction false} PrunedIsAFullBurst(cfg: Config, b: Bucket, now: nat)
    requires GoodBucket(cfg, b, now) && !StillThrottled(cfg, b, now)
    ensures Times(Interval(cfg), cfg.burst) <= Worth(cfg, b, now)
  {
    var r := Refills(cfg, b, now);
    TimesAdds(Interval(cfg), b.tokens, r);
    TimesMonotone(Interval(cfg), cfg.burst, b.tokens + r);
    IntervalsBracket(cfg, now - b.lastRefill);
  }

  lemma {:induction false} PruneKeepsPotential(cfg: Config, t: Table, key: string, now: nat)
    requires Good(cfg, t, now)
    ensures Good(cfg, Prune(cfg, t, now), now)
    ensures Potential(cfg, Prune(cfg, t, now), key, now) <= Potential(cfg, t, key, now)
  {
    PruneShrinks(cfg, t, now);
    if key in t && key !in Prune(cfg, t, now) {
      PrunedIsAFullBurst(cfg, t[key], now);
    }
  }

  lemma {:induction false} PruneShrinks(cfg: Config, t: Table, now: nat)
    ensures |Prune(cfg, t, now)| <= |t|
    ensures |Prune(cfg, t, now)| == |t| <==> forall k :: k in t ==> StillThrottled(cfg, t[k], now)
  {
    var p := Prune(cfg, t, now);
    assert p.Keys <= t.Keys;
    SubsetSize(p.Keys, t.Keys);
    if p.Keys == t.Keys {
      forall k | k in t ensures StillThrottled(cfg, t[k], now) {
        assert k in p.Keys;
      }
    } else {
      var k :| k in t.Keys && k !in p.Keys;
      assert !StillThrottled(cfg, t[k], now);
    }
  }

  lemma {:induction false} RoomKeepsPotential(cfg: Config, t: Table, key: string, clock: nat, id: string, now: nat)
    requires Good(cfg, t, clock) && clock <= now
    ensures Good(cfg, Room(cfg, t, id, now), now)
    ensures Potential(cfg, Room(cfg, t, id, now), key, now) <= Potential(cfg, t, key, clock) + (now - clock)
  {
    if key in t {
      WorthGrowsWithTime(cfg, t[key], clock, now);
    }
    PruneKeepsPotential(cfg, t, key, now);
  }

  lemma {:induction false} PotentialStep(cfg: Config, t: Table, key: string, clock: nat, id: string, now: nat)
    requires Good(cfg, t, clock) && clock <= now
    ensures var a := Allow(cfg, t, id, now);
            && Good(cfg, a.0, now)
            && Potential(cfg, a.0, key, now) + (if LowerCase(id) == key && a.1 then Interval(cfg) else 0)
               <= Potential(cfg, t, key, clock) + (now - clock)
  {
    RoomKeepsPotential(cfg, t, key, clock, id, now);
    var called, room := LowerCase(id), Room(cfg, t, id, now);
    FreshIsAFullBurst(cfg, now);
    var b := if called in room then room[called] else Fresh(cfg, now);
    ChargeCosts(cfg, b, now);
    SizeAfterInsert(room, called, Charge(cfg, b, now).0);
  }

  lemma {:induction false} SizeAfterInsert(t: Table, key: string, b: Bucket)
    ensures |t[key := b]| == |t| + (if key in t then 0 else 1)
  {
    assert t[key := b].Keys == t.Keys + {key};
  }

  // ------------------------------------------------------------------------- runs

  datatype Call = Call(id: string, now: nat)

  function Final(cfg: Config, t: Table, calls: seq<Call>): Table
    decreases |calls|
  {
    if calls == [] then t else Final(cfg, Allow(cfg, t, calls[0].id, calls[0].now).0, calls[1..])
  }

  /** How many of the calls made under `key` were allowed. */
  function Allowed(cfg: Config, t: Table, calls: seq<Call>, key: string): nat
    decreases |calls|
  {
    if calls == [] then 0
    else
      var a := Allow(cfg, t, calls[0].id, calls[0].now);
      (if LowerCase(calls[0].id) == key && a.1 then 1 else 0) + Allowed(cfg, a.0, calls[1..], key)
  }

  /** Calls are made at times that never go back, from `clock` to `end`. */
  predicate Between(calls: seq<Call>, clock: nat, end: nat) {
    if calls == [] then clock <= end
    else clock <= calls[0].now && Between(calls[1..], calls[0].now, end)
  }

  lemma {:induction false} AllowedWithinPotential(
      cfg: Config, t: Table, calls: seq<Call>, key: string, clock: nat, end: nat)
    requires Good(cfg, t, clock) && Between(calls, clock, end)
    ensures clock <= end
    ensures Times(Interval(cfg), Allowed(cfg, t, calls, key)) <= Potential(cfg, t, key, clock) + (end - clock)
    decreases |calls|
  {
    if calls != [] {
      var a := Allow(cfg, t, calls[0].id, calls[0].now);
      PotentialStep(cfg, t, key, clock, calls[0].id, calls[0].now);
      AllowedWithinPotential(cfg, a.0, calls[1..], key, calls[0].now, end);
    }
  }

  lemma {:induction false} RunStaysGood(cfg: Config, t: Table, calls: seq<Call>, clock: nat, end: nat)
    requires Good(cfg, t, clock) && Between(calls, clock, end)
    ensures Good(cfg, Final(cfg, t, calls), end)
    decreases |calls|
  {
    if calls != [] {
      PotentialStep(cfg, t, "", clock, calls[0].id, calls[0].now);
      RunStaysGood(cfg, Allow(cfg, t, calls[0].id, calls[0].now).0, calls[1..], calls[0].now, end);
    }
  }

  function CeilDiv(a: nat, b: nat): nat
    requires 0 < b
  {
    (a + b - 1) / b
  }

  lemma {:induction false} CountFromPotential(ns: nat, burst: nat, count: nat, span: nat)
    requires 0 < ns
    requires Times(ns, count) <= Times(ns, burst) + ns - 1 + span
    ensures count <= burst + CeilDiv(span, ns)
  {
    if burst < count {
      var extra := count - burst;
      TimesAdds(ns, burst, extra);
      QuotientAtLeast(span + ns - 1, ns, extra);
    }
  }

  /**
    The window bound. After any history, in any window of calls between `start` and `end`
    with any mix of peers and any prunes on the way, one endpoint id is allowed at most a
    burst plus one message for each started interval.
   */
  lemma {:induction false} WindowBound(
      cfg: Config, history: seq<Call>, window: seq<Call>, key: string, start: nat, end: nat)
    requires Between(history, 0, start) && Between(window, start, end)
    ensures start <= end
    ensures Allowed(cfg, Final(cfg, map[], history), window, key)
            <= cfg.burst + CeilDiv(end - start, Interval(cfg))
  {
    RunStaysGood(cfg, map[], history, 0, start);
    var t := Final(cfg, map[], history);
    AllowedWithinPotential(cfg, t, window, key, start, end);
    CountFromPotential(Interval(cfg), cfg.burst, Allowed(cfg, t, window, key), end - start);
  }

  /** The burst is really granted: a peer with `n` tokens has its next `n` messages allowed. */
  lemma {:induction false} BurstIsServed(cfg: Config, t: Table, calls: seq<Call>, key: string)
    requires forall c :: c in calls ==> LowerCase(c.id) == key
    requires key in t || |t| < MAX_TRACKED_PEERS
    requires |calls| <= (if key in t then Min(t[key].tokens, cfg.burst) else cfg.burst)
    ensures Allowed(cfg, t, calls, key) == |calls|
    decreases |calls|
  {
    if calls != [] {
      assert calls[0] in calls;
      var now := calls[0].now;
      assert Refills(cfg, Fresh(cfg, now), now) == 0;
      BurstIsServed(cfg, Allow(cfg, t, calls[0].id, now).0, calls[1..], key);
    }
  }

  // ------------------------------------------------------- the other half of the window law

  /** Tokens a peer can count on: what is left, what waiting has earned, and never more than a burst. */
  function Ready(cfg: Config, t: Table, key: string, clock: nat): nat {
    if key in t then Min(cfg.burst, t[key].tokens + Intervals(cfg, SaturatingSub(clock, t[key].lastRefill)))
    else cfg.burst
  }

  /** Up to `end` the intervals since the peer's refill clock fit in a `u32`. */
  predicate NoWrap(cfg: Config, t: Table, key: string, clock: nat, end: nat) {
    Intervals(cfg, SaturatingSub(end, if key in t then t[key].lastRefill else clock)) < U32_SPAN
  }

  /** The peer is tracked, or the call finds a free place. */
  predicate Admits(cfg: Config, t: Table, call: Call) {
    LowerCase(call.id) in t || |Room(cfg, t, call.id, call.now)| < MAX_TRACKED_PEERS
  }

  /** Calls made under `key`. */
  function CallsOf(calls: seq<Call>, key: string): nat {
    if calls == [] then 0 else One(LowerCase(calls[0].id) == key) + CallsOf(calls[1..], key)
  }

  /** Calls of the peer that found it untracked and the table full. */
  function TurnedAway(cfg: Config, t: Table, calls: seq<Call>, key: string): nat
    decreases |calls|
  {
    if calls == [] then 0
    else
      One(LowerCase(calls[0].id) == key && !Admits(cfg, t, calls[0]))
      + TurnedAway(cfg, Allow(cfg, t, calls[0].id, calls[0].now).0, calls[1..], key)
  }

  /** Served: the only calls of the peer that are not allowed are those that find the table full. */
  predicate Served(cfg: Config, t: Table, calls: seq<Call>, key: string) {
    Allowed(cfg, t, calls, key) + TurnedAway(cfg, t, calls, key) == CallsOf(calls, key)
  }

  /** Charging a bucket within the `u32` range gives every whole interval its token, up to a burst. */
  lemma {:induction false} ChargeGivesIntervals(cfg: Config, b: Bucket, now: nat, end: nat)
    requires GoodBucket(cfg, b, now) && now <= end && Intervals(cfg, end - b.lastRefill) < U32_SPAN
    ensures var c, ready := Charge(cfg, b, now), Min(cfg.burst, b.tokens + Intervals(cfg, now - b.lastRefill));
            && (c.1 <==> ready >= 1)
            && c.0.tokens == SaturatingSub(ready, 1)
            && b.lastRefill <= c.0.lastRefill <= now
            && now < c.0.lastRefill + Interval(cfg)
  {
    var q := Intervals(cfg, now - b.lastRefill);
    IntervalsMonotone(cfg, now - b.lastRefill, end - b.lastRefill);
    FitsInU32(q);
    IntervalsBracket(cfg, now - b.lastRefill);
  }

  lemma {:induction false} LaterWraps(cfg: Config, early: nat, late: nat, end: nat)
    requires early <= late
    ensures Intervals(cfg, SaturatingSub(end, late)) <= Intervals(cfg, SaturatingSub(end, early))
  {
    IntervalsMonotone(cfg, SaturatingSub(end, late), SaturatingSub(end, early));
  }

  /** Time and prunes take nothing from a peer. */
  lemma {:induction false} RoomKeepsReady(
      cfg: Config, t: Table, key: string, clock: nat, id: string, now: nat, end: nat)
    requires Good(cfg, t, clock) && clock <= now <= end && NoWrap(cfg, t, key, clock, end)
    ensures var room := Room(cfg, t, id, now);
            && Good(cfg, room, now)
            && Ready(cfg, t, key, clock) <= Ready(cfg, room, key, now) && NoWrap(cfg, room, key, now, end)
  {
    PruneKeepsPotential(cfg, t, key, now);
    if key in t {
      var b := t[key];
      IntervalsMonotone(cfg, clock - b.lastRefill, now - b.lastRefill);
      LaterWraps(cfg, b.lastRefill, now, end);
    } else {
      LaterWraps(cfg, clock, now, end);
    }
  }

  /** A call of another peer takes nothing from this one. */
  lemma {:induction false} OthersTakeNothing(
      cfg: Config, t: Table, key: string, clock: nat, call: Call, end: nat)
    requires Good(cfg, t, clock) && clock <= call.now <= end && NoWrap(cfg, t, key, clock, end)
    requires LowerCase(call.id) != key
    ensures var after := Allow(cfg, t, call.id, call.now).0;
            && Ready(cfg, t, key, clock) <= Ready(cfg, after, key, call.now)
            && NoWrap(cfg, after, key, call.now, end)
  {
    RoomKeepsReady(cfg, t, key, clock, call.id, call.now, end);
  }

  /** The bucket that an admitted call of the peer charges. */
  function ChargedBucket(cfg: Config, t: Table, key: string, now: nat): Bucket {
    if key in t then t[key] else Fresh(cfg, now)
  }

  /** A call of the peer itself is allowed when a token is ready, and takes one. */
  lemma {:induction false} OwnCallTakesOne(
      cfg: Config, t: Table, key: string, clock: nat, call: Call, end: nat)
    requires Good(cfg, t, clock) && clock <= call.now <= end && NoWrap(cfg, t, key, clock, end)
    requires LowerCase(call.id) == key && Admits(cfg, t, call)
    ensures var a := Allow(cfg, t, call.id, call.now);
            && (Ready(cfg, t, key, clock) >= 1 ==> a.1)
            && Ready(cfg, t, key, clock) <= Ready(cfg, a.0, key, call.now) + 1
            && NoWrap(cfg, a.0, key, call.now, end)
  {
    RoomKeepsReady(cfg, t, key, clock, call.id, call.now, end);
    var room := Room(cfg, t, call.id, call.now);
    var b := ChargedBucket(cfg, room, key, call.now);
    assert Intervals(cfg, 0) == 0;
    ChargeGivesIntervals(cfg, b, call.now, end);
    var c := Charge(cfg, b, call.now).0;
    assert Allow(cfg, t, call.id, call.now) == (room[key := c], Charge(cfg, b, call.now).1);
    LaterWraps(cfg, b.lastRefill, c.lastRefill, end);
  }

  /** A newcomer that is turned away still has its burst to come. */
  lemma {:induction false} TurnedAwayLosesNothing(
      cfg: Config, t: Table, key: string, clock: nat, call: Call, end: nat)
    requires Good(cfg, t, clock) && clock <= call.now <= end && NoWrap(cfg, t, key, clock, end)
    requires LowerCase(call.id) == key && !Admits(cfg, t, call)
    ensures var a := Allow(cfg, t, call.id, call.now);
            !a.1 && key !in a.0 && Ready(cfg, a.0, key, call.now) == cfg.burst && NoWrap(cfg, a.0, key, call.now, end)
  {
    RoomKeepsReady(cfg, t, key, clock, call.id, call.now, end);
  }

  lemma {:induction false} ReadyIsServed(cfg: Config, t: Table, calls: seq<Call>, key: string, clock: nat, end: nat)
    requires Good(cfg, t, clock) && Between(calls, clock, end) && NoWrap(cfg, t, key, clock, end)
    requires CallsOf(calls, key) <= Ready(cfg, t, key, clock)
    ensures Served(cfg, t, calls, key)
    decreases |calls|
  {
    if calls != [] {
      var call := calls[0];
      BetweenIsOrdered(calls[1..], call.now, end);
      PotentialStep(cfg, t, key, clock, call.id, call.now);
      if LowerCase(call.id) != key {
        OthersTakeNothing(cfg, t, key, clock, call, end);
      } else if Admits(cfg, t, call) {
        OwnCallTakesOne(cfg, t, key, clock, call, end);
      } else {
        TurnedAwayLosesNothing(cfg, t, key, clock, call, end);
      }
      ReadyIsServed(cfg, Allow(cfg, t, call.id, call.now).0, calls[1..], key, call.now, end);
    }
  }

  /**
    The lower half of the window law. A tracked peer with some tokens left that has waited `n`
    whole intervals since its refill clock has its next messages served, as many as tokens and
    intervals together and at most a burst, whatever other peers do in between.
   */
  lemma {:induction false} WaitingIsServed(
      cfg: Config, t: Table, calls: seq<Call>, key: string, clock: nat, end: nat, n: nat)
    requires Good(cfg, t, clock) && Between(calls, clock, end) && key in t
    requires t[key].lastRefill + Times(Interval(cfg), n) <= clock
    requires end < t[key].lastRefill + Times(Interval(cfg), U32_SPAN)
    requires CallsOf(calls, key) <= Min(cfg.burst, t[key].tokens + n)
    ensures Served(cfg, t, calls, key)
  {
    BetweenIsOrdered(calls, clock, end);
    AtLeastIntervals(cfg, clock - t[key].lastRefill, n);
    BelowSpan(cfg, end - t[key].lastRefill);
    ReadyIsServed(cfg, t, calls, key, clock, end);
  }

  lemma {:induction false} AtLeastIntervals(cfg: Config, elapsed: nat, n: nat)
    requires Times(Interval(cfg), n) <= elapsed
    ensures n <= Intervals(cfg, elapsed)
  {
    IntervalsUnique(cfg, Times(Interval(cfg), n), n);
    IntervalsMonotone(cfg, Times(Interval(cfg), n), elapsed);
  }

  lemma {:induction false} BelowSpan(cfg: Config, elapsed: nat)
    requires elapsed < Times(Interval(cfg), U32_SPAN)
    ensures Intervals(cfg, elapsed) < U32_SPAN
  {
    IntervalsBracket(cfg, elapsed);
    if U32_SPAN <= Intervals(cfg, elapsed) {
      TimesMonotone(Interval(cfg), U32_SPAN, Intervals(cfg, elapsed));
    }
  }

  /** The peer's calls start at `from` at the earliest and are at least one interval apart. */
  predicate Paced(cfg: Config, calls: seq<Call>, key: string, from: nat)
    decreases |calls|
  {
    if calls == [] then true
    else if LowerCase(calls[0].id) != key then Paced(cfg, calls[1..], key, from)
    else from <= calls[0].now && Paced(cfg, calls[1..], key, calls[0].now + Interval(cfg))
  }

  /** By `from` a tracked peer has a token, or has waited an interval for one. */
  predicate DueBy(cfg: Config, t: Table, key: string, from: nat) {
    key in t ==> t[key].tokens >= 1 || t[key].lastRefill + Interval(cfg) <= from
  }

  /** A peer that calls once per interval is always served: in any table, whatever other peers do. */
  lemma {:induction false} PacedIsServed(
      cfg: Config, t: Table, calls: seq<Call>, key: string, clock: nat, from: nat, end: nat)
    requires 0 < cfg.burst && Good(cfg, t, clock) && Between(calls, clock, end) && NoWrap(cfg, t, key, clock, end)
    requires DueBy(cfg, t, key, from) && Paced(cfg, calls, key, from)
    ensures Served(cfg, t, calls, key)
    decreases |calls|
  {
    if calls != [] {
      var call := calls[0];
      BetweenIsOrdered(calls[1..], call.now, end);
      PotentialStep(cfg, t, key, clock, call.id, call.now);
      var next := if LowerCase(call.id) == key then call.now + Interval(cfg) else from;
      if LowerCase(call.id) != key {
        OthersTakeNothing(cfg, t, key, clock, call, end);
        OthersKeepDue(cfg, t, key, call, from);
      } else if Admits(cfg, t, call) {
        RoomKeepsReady(cfg, t, key, clock, call.id, call.now, end);
        DueIsReady(cfg, Room(cfg, t, call.id, call.now), key, call.now, from);
        PacedCall(cfg, t, key, clock, call, from, end);
      } else {
        TurnedAwayLosesNothing(cfg, t, key, clock, call, end);
      }
      PacedIsServed(cfg, Allow(cfg, t, call.id, call.now).0, calls[1..], key, call.now, next, end);
    }
  }

  lemma {:induction false} OthersKeepDue(cfg: Config, t: Table, key: string, call: Call, from: nat)
    requires DueBy(cfg, t, key, from) && LowerCase(call.id) != key
    ensures DueBy(cfg, Allow(cfg, t, call.id, call.now).0, key, from)
  {
  }

  lemma {:induction false} DueIsReady(cfg: Config, t: Table, key: string, now: nat, from: nat)
    requires 0 < cfg.burst && DueBy(cfg, t, key, from) && from <= now
    ensures Ready(cfg, t, key, now) >= 1
  {
    if key in t && t[key].tokens == 0 {
      assert Interval(cfg) <= now - t[key].lastRefill;
    }
  }

  lemma {:induction false} PacedCall(
      cfg: Config, t: Table, key: string, clock: nat, call: Call, from: nat, end: nat)
    requires 0 < cfg.burst && Good(cfg, t, clock) && clock <= call.now <= end && NoWrap(cfg, t, key, clock, end)
    requires LowerCase(call.id) == key && Admits(cfg, t, call) && DueBy(cfg, t, key, from) && from <= call.now
    ensures var a := Allow(cfg, t, call.id, call.now);
            a.1 && NoWrap(cfg, a.0, key, call.now, end) && DueBy(cfg, a.0, key, call.now + Interval(cfg))
  {
    RoomKeepsReady(cfg, t, key, clock, call.id, call.now, end);
    var room := Room(cfg, t, call.id, call.now);
    DueIsReady(cfg, room, key, call.now, from);
    var b := ChargedBucket(cfg, room, key, call.now);
    assert Intervals(cfg, 0) == 0;
    ChargeGivesIntervals(cfg, b, call.now, end);
    var c := Charge(cfg, b, call.now).0;
    assert Allow(cfg, t, call.id, call.now) == (room[key := c], Charge(cfg, b, call.now).1);
    LaterWraps(cfg, b.lastRefill, c.lastRefill, end);
  }

  /** Ids that differ in the case of their letters only are one peer, and no others are. */
  lemma {:induction false} CaseIsIgnored(a: string, b: string)
    ensures LowerCase(a) == LowerCase(b) <==>
            |a| == |b| && forall i :: 0 <= i < |a| ==> SameLetter(a[i], b[i])
  {
    if LowerCase(a) == LowerCase(b) {
      forall i | 0 <= i < |a| ensures SameLetter(a[i], b[i]) {
        assert LowerCase(a)[i] == LowerCase(b)[i];
      }
    }
  }

  predicate SameLetter(c: char, d: char) {
    c == d
    || ('A' <= c <= 'Z' && d as int == c as int + 32)
    || ('A' <= d <= 'Z' && c as int == d as int + 32)
  }

  // ------------------------------------------------- pruning and the table's capacity

  /** Calls made by other peers do not bring a bucket back. */
  lemma {:induction false} AbsentStays(cfg: Config, t: Table, calls: seq<Call>, key: string)
    requires key !in t && forall c :: c in calls ==> LowerCase(c.id) != key
    ensures key !in Final(cfg, t, calls)
    decreases |calls|
  {
    if calls != [] {
      assert calls[0] in calls;
      AbsentStays(cfg, Allow(cfg, t, calls[0].id, calls[0].now).0, calls[1..], key);
    }
  }

  /** The table a peer's next call finds: a newcomer's call made room, and others called since. */
  function Later(cfg: Config, t: Table, newcomer: Call, others: seq<Call>): Table {
    Final(cfg, Allow(cfg, t, newcomer.id, newcomer.now).0, others)
  }

  /** A full table, a newcomer that makes the code prune it, an idle peer, and then calls of others until `now`. */
  predicate PrunedMeanwhile(cfg: Config, t: Table, newcomer: Call, others: seq<Call>, id: string, now: nat) {
    && Good(cfg, t, newcomer.now) && |t| == MAX_TRACKED_PEERS && LowerCase(newcomer.id) !in t
    && LowerCase(id) in t && !StillThrottled(cfg, t[LowerCase(id)], newcomer.now)
    && Between(others, newcomer.now, now) && forall c :: c in others ==> LowerCase(c.id) != LowerCase(id)
  }

  /** The call has the verdict it would have had, and leaves the tokens it would have left, with its old bucket `b`. */
  predicate Unseen(cfg: Config, t: Table, call: Call, b: Bucket)
    requires Admits(cfg, t, call)
  {
    var after, kept := Allow(cfg, t, call.id, call.now), Charge(cfg, b, call.now);
    after.1 == kept.1 && after.0[LowerCase(call.id)].tokens == kept.0.tokens
  }

  /**
    Pruning is conservative, exactly when. Whatever other peers did since the prune, an idle peer's
    next admitted call has the verdict and leaves the tokens it would have had without the prune if
    and only if its old bucket would still be idle at that call; its refill clock is never earlier.
   */
  lemma {:induction false} PruneUnseenIff(
      cfg: Config, t: Table, newcomer: Call, others: seq<Call>, id: string, now: nat)
    requires PrunedMeanwhile(cfg, t, newcomer, others, id, now)
    requires Admits(cfg, Later(cfg, t, newcomer, others), Call(id, now))
    ensures var found, b := Later(cfg, t, newcomer, others), t[LowerCase(id)];
            && (Unseen(cfg, found, Call(id, now), b) <==> !StillThrottled(cfg, b, now))
            && Charge(cfg, b, now).0.lastRefill <= Allow(cfg, found, id, now).0[LowerCase(id)].lastRefill
  {
    var key := LowerCase(id);
    var first := Allow(cfg, t, newcomer.id, newcomer.now).0;
    assert key !in first;
    AbsentStays(cfg, first, others, key);
    BetweenIsOrdered(others, newcomer.now, now);
    ChargeAfterIdle(cfg, t[key], now);
  }

  lemma {:induction false} BetweenIsOrdered(calls: seq<Call>, clock: nat, end: nat)
    requires Between(calls, clock, end)
    ensures clock <= end
  {
    if calls != [] {
      BetweenIsOrdered(calls[1..], calls[0].now, end);
    }
  }

  lemma {:induction false} ChargeAfterIdle(cfg: Config, b: Bucket, now: nat)
    requires GoodBucket(cfg, b, now)
    ensures var kept, dropped := Charge(cfg, b, now), Charge(cfg, Fresh(cfg, now), now);
            && (kept.1 == dropped.1 && kept.0.tokens == dropped.0.tokens <==> !StillThrottled(cfg, b, now))
            && kept.0.lastRefill <= dropped.0.lastRefill
  {
    var q := Intervals(cfg, now - b.lastRefill);
    IntervalsBracket(cfg, now - b.lastRefill);
    TimesMonotone(Interval(cfg), q % U32_SPAN, q);
    assert Refills(cfg, Fresh(cfg, now), now) == 0;
  }

  /** So no call sees it while the elapsed intervals fit in a `u32`. */
  lemma {:induction false} PruneIsConservative(
      cfg: Config, t: Table, newcomer: Call, others: seq<Call>, id: string, now: nat)
    requires PrunedMeanwhile(cfg, t, newcomer, others, id, now)
    requires Admits(cfg, Later(cfg, t, newcomer, others), Call(id, now))
    requires Intervals(cfg, SaturatingSub(now, t[LowerCase(id)].lastRefill)) < U32_SPAN
    ensures Unseen(cfg, Later(cfg, t, newcomer, others), Call(id, now), t[LowerCase(id)])
  {
    PruneUnseenIff(cfg, t, newcomer, others, id, now);
    BetweenIsOrdered(others, newcomer.now, now);
    StaysIdle(cfg, t[LowerCase(id)], newcomer.now, now);
  }

  lemma {:induction false} StaysIdle(cfg: Config, b: Bucket, early: nat, late: nat)
    requires b.lastRefill <= early <= late && !StillThrottled(cfg, b, early)
    requires Intervals(cfg, late - b.lastRefill) < U32_SPAN
    ensures !StillThrottled(cfg, b, late)
  {
    IntervalsMonotone(cfg, early - b.lastRefill, late - b.lastRefill);
    FitsInU32(Intervals(cfg, early - b.lastRefill));
    FitsInU32(Intervals(cfg, late - b.lastRefill));
  }

  lemma {:induction false} FitsInU32(n: nat)
    requires n < U32_SPAN
    ensures n % U32_SPAN == n
  {
  }

  // ------------------------------------------------------------- when the cast wraps

  /** A lower-case id of any length. */
  function IdOf(length: nat): (id: string)
    ensures |id| == length && LowerCase(id) == id
  {
    seq(length, _ => 'a')
  }

  lemma {:induction false} FinalAppend(cfg: Config, t: Table, a: seq<Call>, b: seq<Call>)
    ensures Final(cfg, t, a + b) == Final(cfg, Final(cfg, t, a), b)
    decreases |a|
  {
    if a == [] {
      assert a + b == b;
    } else {
      assert (a + b)[1..] == a[1..] + b;
      FinalAppend(cfg, Allow(cfg, t, a[0].id, a[0].now).0, a[1..], b);
    }
  }

  predicate AtZero(calls: seq<Call>) {
    forall c :: c in calls ==> c.now == 0
  }

  lemma {:induction false} AtZeroIsBetween(calls: seq<Call>)
    requires AtZero(calls)
    ensures Between(calls, 0, 0)
  {
    if calls != [] {
      assert calls[0] in calls;
      AtZeroIsBetween(calls[1..]);
    }
  }

  /** One message at time 0 takes one token. */
  lemma {:induction false} ChargeAtZero(cfg: Config, n: nat)
    requires 0 < n
    ensures Charge(cfg, Bucket(n, 0), 0) == (Bucket(n - 1, 0), true)
  {
    assert Intervals(cfg, 0) == 0;
  }

  /** A peer that sends its whole burst at once is left without a token. */
  lemma {:induction false} Drain(cfg: Config, n: nat) returns (calls: seq<Call>)
    ensures AtZero(calls)
    ensures Final(cfg, map["" := Bucket(n, 0)], calls) == map["" := Bucket(0, 0)]
  {
    if n == 0 {
      calls := [];
    } else {
      var rest := Drain(cfg, n - 1);
      calls := [Call("", 0)] + rest;
      assert calls[1..] == rest && LowerCase("") == "";
      ChargeAtZero(cfg, n);
      var t: Table := map["" := Bucket(n, 0)];
      assert t["" := Bucket(n - 1, 0)] == map["" := Bucket(n - 1, 0)];
    }
  }

  /** One more peer calls at time 0: it gets an entry, and the other entries stay. */
  lemma {:induction false} OneMorePeer(cfg: Config, t: Table, length: nat)
    requires |t| < MAX_TRACKED_PEERS && forall k :: k in t ==> |k| < length
    ensures var after := Allow(cfg, t, IdOf(length), 0).0;
            && |after| == |t| + 1
            && (forall k :: k in t ==> k in after && after[k] == t[k])
            && (forall k :: k in after ==> |k| < length + 1)
  {
    var id := IdOf(length);
    assert id !in t;
    SizeAfterInsert(t, id, Charge(cfg, Fresh(cfg, 0), 0).0);
  }

  /** Any number of further peers can be tracked, up to the capacity. */
  lemma {:induction false} Fill(cfg: Config, t: Table, n: nat, length: nat) returns (calls: seq<Call>)
    requires |t| + n <= MAX_TRACKED_PEERS && forall k :: k in t ==> |k| < length
    ensures AtZero(calls)
    ensures var after := Final(cfg, t, calls);
            && |after| == |t| + n
            && (forall k :: k in t ==> k in after && after[k] == t[k])
            && (forall k :: k in after ==> |k| < length + n)
    decreases n
  {
    if n == 0 {
      calls := [];
    } else {
      OneMorePeer(cfg, t, length);
      var rest := Fill(cfg, Allow(cfg, t, IdOf(length), 0).0, n - 1, length + 1);
      calls := [Call(IdOf(length), 0)] + rest;
      assert calls[1..] == rest;
    }
  }

  /** A run of calls at time 0 that leaves a full table in which the peer "" has no token left. */
  lemma {:induction false} FullTable(cfg: Config) returns (history: seq<Call>)
    requires 0 < cfg.burst
    ensures Between(history, 0, 0)
    ensures var t := Final(cfg, map[], history);
            && Good(cfg, t, 0) && |t| == MAX_TRACKED_PEERS
            && "" in t && t[""] == Bucket(0, 0) && IdOf(MAX_TRACKED_PEERS) !in t
  {
    var drained: Table := map["" := Bucket(0, 0)];
    var burst := FirstBurst(cfg);
    assert |drained| == 1;
    var crowd := Fill(cfg, drained, MAX_TRACKED_PEERS - 1, 1);
    history := burst + crowd;
    FinalAppend(cfg, map[], burst, crowd);
    AtZeroIsBetween(history);
    RunStaysGood(cfg, map[], history, 0, 0);
  }

  lemma {:induction false} FirstBurst(cfg: Config) returns (calls: seq<Call>)
    requires 0 < cfg.burst
    ensures AtZero(calls) && Final(cfg, map[], calls) == map["" := Bucket(0, 0)]
  {
    var rest := Drain(cfg, cfg.burst - 1);
    calls := [Call("", 0)] + rest;
    assert calls[1..] == rest && LowerCase("") == "";
    ChargeAtZero(cfg, cfg.burst);
    var none: Table := map[];
    assert none["" := Bucket(cfg.burst - 1, 0)] == map["" := Bucket(cfg.burst - 1, 0)];
  }

  /** A bucket that was last touched at time 0 is idle once a burst of intervals has passed. */
  lemma {:induction false} IdleAfterBurst(cfg: Config, b: Bucket)
    requires b.lastRefill == 0 && cfg.burst < U32_SPAN
    ensures !StillThrottled(cfg, b, Times(Interval(cfg), cfg.burst))
  {
    IntervalsUnique(cfg, Times(Interval(cfg), cfg.burst), cfg.burst);
    FitsInU32(cfg.burst);
  }

  /**
    Past that it does fail, after calls the code can receive: a full table at time 0, a newcomer
    once every peer is idle, and the next call of a peer exactly 2^32 intervals after time 0. It is
    allowed, and its old bucket would have refused it.
   */
  lemma {:induction false} WrapShowsThePrune(cfg: Config) returns (history: seq<Call>)
    requires 0 < cfg.burst < U32_SPAN
    ensures var pruned, now := Times(Interval(cfg), cfg.burst), Times(Interval(cfg), U32_SPAN);
            var t, newcomer := Final(cfg, map[], history), Call(IdOf(MAX_TRACKED_PEERS), pruned);
            && Between(history, 0, 0)
            && PrunedMeanwhile(cfg, t, newcomer, [], "", now)
            && Allow(cfg, Later(cfg, t, newcomer, []), "", now).1
            && !Charge(cfg, t[""], now).1
  {
    history := FullTable(cfg);
    var t := Final(cfg, map[], history);
    TimesMonotone(Interval(cfg), cfg.burst, U32_SPAN);
    var pruned, now := Times(Interval(cfg), cfg.burst), Times(Interval(cfg), U32_SPAN);
    assert LowerCase("") == "";
    forall k | k in t ensures !StillThrottled(cfg, t[k], pruned) {
      IdleAfterBurst(cfg, t[k]);
    }
    RoomForOne(cfg, t, IdOf(MAX_TRACKED_PEERS), pruned, now);
    NothingAfterWrap(cfg);
  }

  /** When everybody is idle the newcomer ends up alone, and the next peer starts with a full burst. */
  lemma {:induction false} RoomForOne(cfg: Config, t: Table, newcomer: string, pruned: nat, now: nat)
    requires LowerCase(newcomer) == newcomer != "" && newcomer !in t && 0 < cfg.burst
    requires |t| == MAX_TRACKED_PEERS && forall k :: k in t ==> !StillThrottled(cfg, t[k], pruned)
    ensures Allow(cfg, Allow(cfg, t, newcomer, pruned).0, "", now).1
  {
    assert Prune(cfg, t, pruned) == map[];
    var alone := Allow(cfg, t, newcomer, pruned).0;
    assert alone.Keys == {newcomer} && |alone.Keys| == 1;
    assert LowerCase("") == "" && Refills(cfg, Fresh(cfg, now), now) == 0;
  }

  lemma {:induction false} NothingAfterWrap(cfg: Config)
    ensures !Charge(cfg, Bucket(0, 0), Times(Interval(cfg), U32_SPAN)).1
  {
    IntervalsUnique(cfg, Times(Interval(cfg), U32_SPAN), U32_SPAN);
  }

  /** A newcomer is refused exactly when the table is full of peers that are all below a full burst. */
  lemma {:induction false} NewcomerRefusedIffFull(cfg: Config, t: Table, id: string, now: nat)
    requires Good(cfg, t, now) && LowerCase(id) !in t && 0 < cfg.burst
    ensures !Allow(cfg, t, id, now).1 <==>
            |t| == MAX_TRACKED_PEERS && forall k :: k in t ==> StillThrottled(cfg, t[k], now)
  {
    PruneShrinks(cfg, t, now);
    assert Refills(cfg, Fresh(cfg, now), now) == 0;
  }
}

/** The sliding speed window and the emission throttle (engine/protocol/src/progress.rs). Seconds are reals. */
module Meters {
  import opened Common

  const MIN_WINDOW_SECS: real := 0.1

  datatype Sample = Sample(at: real, bytes: nat)

  /** Times never go back. */
  predicate InOrder(s: seq<Sample>) {
    forall i, j :: 0 <= i < j < |s| ==> s[i].at <= s[j].at
  }

  // ------------------------------------------------------------------------ speed window

  /** Pop stale samples from the front, never the last one. */
  function DropStale(s: seq<Sample>, cutoff: real): seq<Sample> {
    if |s| > 1 && s[0].at < cutoff then DropStale(s[1..], cutoff) else s
  }

  function Recorded(samples: seq<Sample>, window: real, x: Sample): seq<Sample> {
    DropStale(samples + [x], x.at - window)
  }

  function Metered(history: seq<Sample>, window: real): seq<Sample> {
    if history == [] then []
    else Recorded(Metered(history[..|history| - 1], window), window, history[|history| - 1])
  }

  /** The samples that are not older than `cutoff`. */
  function Since(s: seq<Sample>, cutoff: real): seq<Sample> {
    if s == [] then []
    else Since(s[..|s| - 1], cutoff) + (if s[|s| - 1].at >= cutoff then [s[|s| - 1]] else [])
  }

  lemma {:induction false} SinceConcat(a: seq<Sample>, b: seq<Sample>, cutoff: real)
    ensures Since(a + b, cutoff) == Since(a, cutoff) + Since(b, cutoff)
  {
    if b == [] {
      assert a + b == a;
    } else {
      SinceConcat(a, b[..|b| - 1], cutoff);
      assert (a + b)[..|a + b| - 1] == a + b[..|b| - 1];
    }
  }

  lemma {:induction false} SinceAll(s: seq<Sample>, cutoff: real)
    requires forall i :: 0 <= i < |s| ==> s[i].at >= cutoff
    ensures Since(s, cutoff) == s
  {
    if s != [] {
      SinceAll(s[..|s| - 1], cutoff);
    }
  }

  lemma {:induction false} SinceHead(s: seq<Sample>, cutoff: real)
    requires s != [] && InOrder(s)
    ensures s[0].at < cutoff ==> Since(s, cutoff) == Since(s[1..], cutoff)
    ensures s[0].at >= cutoff ==> Since(s, cutoff) == s
  {
    if s[0].at >= cutoff {
      SinceAll(s, cutoff);
    } else {
      SinceConcat([s[0]], s[1..], cutoff);
      assert s == [s[0]] + s[1..] && [s[0]][..0] == [];
    }
  }

  lemma {:induction false} DropStaleIsSince(s: seq<Sample>, cutoff: real)
    requires s != [] && InOrder(s) && s[|s| - 1].at >= cutoff
    ensures DropStale(s, cutoff) == Since(s, cutoff)
  {
    SinceHead(s, cutoff);
    if |s| > 1 && s[0].at < cutoff {
      DropStaleIsSince(s[1..], cutoff);
    }
  }

  lemma {:induction false} SinceTwice(s: seq<Sample>, early: real, late: real)
    requires early <= late
    ensures Since(Since(s, early), late) == Since(s, late)
  {
    if s != [] {
      var prefix, x := s[..|s| - 1], s[|s| - 1];
      SinceTwice(prefix, early, late);
      assert (Since(prefix, early) + [x])[..|Since(prefix, early)|] == Since(prefix, early);
      assert Since(prefix, early) + [] == Since(prefix, early);
    }
  }

  lemma {:induction false} SinceKeepsOrder(s: seq<Sample>, cutoff: real, bound: real)
    requires InOrder(s) && forall i :: 0 <= i < |s| ==> s[i].at <= bound
    ensures var r := Since(s, cutoff); InOrder(r) && forall i :: 0 <= i < |r| ==> r[i].at <= bound
  {
    if s != [] {
      var last := s[|s| - 1];
      SinceKeepsOrder(s[..|s| - 1], cutoff, last.at);
    }
  }

  lemma {:induction false} SinceAppend(s: seq<Sample>, x: Sample, cutoff: real)
    ensures Since(s + [x], cutoff) == Since(s, cutoff) + (if x.at >= cutoff then [x] else [])
  {
    assert (s + [x])[..|s|] == s;
  }

  /** One more sample keeps the deque equal to the window of the whole history. */
  lemma {:induction false} RecordKeepsTheWindow(history: seq<Sample>, earlier: real, window: real, x: Sample)
    requires InOrder(history + [x]) && window >= 0.0 && earlier <= x.at - window
    ensures Recorded(Since(history, earlier), window, x) == Since(history + [x], x.at - window)
  {
    var held, cutoff := Since(history, earlier), x.at - window;
    assert forall i :: 0 <= i < |history| ==> (history + [x])[i] == history[i];
    assert (history + [x])[|history|] == x;
    SinceKeepsOrder(history, earlier, x.at);
    DropStaleIsSince(held + [x], cutoff);
    SinceAppend(held, x, cutoff);
    SinceAppend(history, x, cutoff);
    SinceTwice(history, earlier, cutoff);
  }

  lemma {:induction false} PrefixInOrder(s: seq<Sample>, k: nat)
    requires InOrder(s) && k <= |s|
    ensures InOrder(s[..k])
  {
  }

  lemma {:induction false} MeteredOneMore(history: seq<Sample>, window: real, x: Sample)
    ensures Metered(history + [x], window) == Recorded(Metered(history, window), window, x)
  {
    assert (history + [x])[..|history|] == history;
  }

  lemma {:induction false} WindowOneMore(prefix: seq<Sample>, window: real, x: Sample)
    requires InOrder(prefix + [x]) && window >= 0.0
    requires prefix != [] ==> Metered(prefix, window) == Since(prefix, prefix[|prefix| - 1].at - window)
    ensures Metered(prefix + [x], window) == Since(prefix + [x], x.at - window)
  {
    MeteredOneMore(prefix, window, x);
    if prefix == [] {
      RecordKeepsTheWindow(prefix, x.at - window, window, x);
    } else {
      var y := (prefix + [x])[|prefix| - 1];
      assert y == prefix[|prefix| - 1] && (prefix + [x])[|prefix|] == x;
      RecordKeepsTheWindow(prefix, y.at - window, window, x);
    }
  }

  /** The deque is exactly the part of the full history within the window of the newest sample. */
  lemma {:induction false} MeterHoldsTheWindow(history: seq<Sample>, window: real)
    requires history != [] && InOrder(history) && window >= 0.0
    ensures Metered(history, window) == Since(history, history[|history| - 1].at - window)
  {
    var last := |history| - 1;
    var prefix := history[..last];
    PrefixInOrder(history, last);
    if prefix != [] {
      MeterHoldsTheWindow(prefix, window);
    }
    assert prefix + [history[last]] == history;
    WindowOneMore(prefix, window, history[last]);
  }

  /** Bytes per second over the window, extended to `now`. */
  function Rate(samples: seq<Sample>, now: real): real {
    if samples == [] then 0.0
    else
      var oldest, newest := samples[0], samples[|samples| - 1];
      var elapsed := (if now >= newest.at then now else newest.at) - oldest.at;
      if elapsed < MIN_WINDOW_SECS then 0.0 else SaturatingSub(newest.bytes, oldest.bytes) as real / elapsed
  }

  /** Over the measured time, from the oldest sample to now, the reading accounts for the bytes between the samples. */
  lemma {:induction false} RateTimesElapsed(samples: seq<Sample>, now: real)
    requires samples != [] && BytesInOrder(samples)
    ensures var oldest, newest := samples[0], samples[|samples| - 1];
            var elapsed := (if now >= newest.at then now else newest.at) - oldest.at;
            if elapsed < 0.1 then Rate(samples, now) == 0.0
            else Rate(samples, now) * elapsed == (newest.bytes - oldest.bytes) as real
  {
  }

  /** A stalled reading decays: past the floor it never rises while no sample arrives. */
  lemma {:induction false} StalledRateFalls(samples: seq<Sample>, now: real, later: real)
    requires samples != [] && now <= later
    requires var newest := samples[|samples| - 1].at;
             (if now >= newest then now else newest) - samples[0].at >= MIN_WINDOW_SECS
    ensures 0.0 <= Rate(samples, later) <= Rate(samples, now)
  {
    var oldest, newest := samples[0], samples[|samples| - 1];
    var a := SaturatingSub(newest.bytes, oldest.bytes) as real;
    var x := (if now >= newest.at then now else newest.at) - oldest.at;
    var y := (if later >= newest.at then later else newest.at) - oldest.at;
    QuotientFalls(a, x, y);
  }

  lemma {:induction false} QuotientFalls(a: real, x: real, y: real)
    requires 0.0 <= a && 0.0 < x <= y
    ensures 0.0 <= a / y <= a / x
  {
    var p, q := a / x, a / y;
    CancelReal(0.0, q, y);
    assert q * (y - x) >= 0.0;
    assert q * y == q * x + q * (y - x);
    CancelReal(q, p, x);
  }

  lemma {:induction false} CancelReal(p: real, q: real, x: real)
    requires 0.0 < x && p * x <= q * x
    ensures p <= q
  {
  }

  class SpeedMeter {
    const window: real
    var samples: seq<Sample>
    ghost var history: seq<Sample>

    ghost predicate Valid()
      reads this
    {
      samples == Metered(history, window)
    }

    constructor (window: real)
      ensures Valid() && this.window == window && history == []
    {
      this.window := window;
      samples, history := [], [];
    }

    method Record(at: real, bytes: nat)
      requires Valid()
      modifies this
      ensures Valid() && history == old(history) + [Sample(at, bytes)]
    {
      history := history + [Sample(at, bytes)];
      assert history[..|history| - 1] == old(history);
      samples := samples + [Sample(at, bytes)];
      var cutoff := at - window;
      while |samples| > 1 && samples[0].at < cutoff
        invariant samples != [] && history == old(history) + [Sample(at, bytes)]
        invariant DropStale(samples, cutoff) == Metered(history, window)
        decreases |samples|
      {
        samples := samples[1..];
      }
    }

    method Reset()
      modifies this
      ensures Valid() && history == []
    {
      samples, history := [], [];
    }
  }

  // ---------------------------------------------------------------------------- throttle

  datatype Throttle = Throttle(minBytes: nat, minSecs: real, last: Option<Sample>)

  predicate Due(t: Throttle, x: Sample) {
    t.last.None?
    || SaturatingSub(x.bytes, t.last.value.bytes) >= t.minBytes
    || x.at - t.last.value.at >= t.minSecs
  }

  function Offer(t: Throttle, x: Sample): Throttle {
    if Due(t, x) then t.(last := Some(x)) else t
  }

  function Offered(t: Throttle, xs: seq<Sample>): Throttle {
    if xs == [] then t else Offer(Offered(t, xs[..|xs| - 1]), xs[|xs| - 1])
  }

  function Emissions(t: Throttle, xs: seq<Sample>): nat {
    if xs == [] then 0
    else Emissions(t, xs[..|xs| - 1]) + (if Due(Offered(t, xs[..|xs| - 1]), xs[|xs| - 1]) then 1 else 0)
  }

  predicate BytesInOrder(s: seq<Sample>) {
    forall i, j :: 0 <= i < j < |s| ==> s[i].bytes <= s[j].bytes
  }

  /** The throttle is never silent for long: what was offered last was emitted, or is close to what was. */
  lemma {:induction false} SilenceIsShort(t: Throttle, xs: seq<Sample>)
    requires xs != [] && BytesInOrder(xs) && t.last.None?
    ensures var last, x := Offered(t, xs).last, xs[|xs| - 1];
            && last.Some? && last.value in xs
            && (last.value == x || (x.bytes < last.value.bytes + t.minBytes && x.at < last.value.at + t.minSecs))
  {
    var prefix := xs[..|xs| - 1];
    OfferKeepsLimits(t, prefix);
    if prefix != [] {
      SilenceIsShort(t, prefix);
      var e := Offered(t, prefix).last.value;
      var i :| 0 <= i < |prefix| && prefix[i] == e;
      assert xs[i] == e && e.bytes <= xs[|xs| - 1].bytes;
    }
  }

  lemma {:induction false} OfferKeepsLimits(t: Throttle, xs: seq<Sample>)
    ensures Offered(t, xs).minBytes == t.minBytes && Offered(t, xs).minSecs == t.minSecs
  {
    if xs != [] {
      OfferKeepsLimits(t, xs[..|xs| - 1]);
    }
  }

  /** `n` throttle intervals, by repeated addition. */
  function Span(secs: real, n: nat): real {
    if n == 0 then 0.0 else Span(secs, n - 1) + secs
  }

  lemma {:induction false} OneMore(m: real, x: real)
    ensures (m + 1.0) * x == m * x + x
  {
  }

  lemma {:induction false} SpanIsProduct(secs: real, n: nat)
    ensures Span(secs, n) == n as real * secs
  {
    if n > 0 {
      SpanIsProduct(secs, n - 1);
      OneMore((n - 1) as real, secs);
      assert n as real == (n - 1) as real + 1.0;
    }
  }

  /** `n` emissions are covered by one free one, `byBytes` byte steps and `byTime` time steps up to `last`. */
  ghost predicate Paid(t: Throttle, n: nat, first: Sample, last: Sample, byBytes: nat, byTime: nat) {
    && n == 1 + byBytes + byTime
    && Times(t.minBytes, byBytes) <= last.bytes - first.bytes
    && Span(t.minSecs, byTime) <= last.at - first.at
  }

  /** Every emission after the first is paid for by bytes or by time since the one before. */
  lemma {:induction false} EmissionsArePaidFor(t: Throttle, xs: seq<Sample>)
      returns (last: Sample, byBytes: nat, byTime: nat)
    requires xs != [] && InOrder(xs) && BytesInOrder(xs) && t.last.None?
    ensures Offered(t, xs) == t.(last := Some(last))
    ensures last.at <= xs[|xs| - 1].at && last.bytes <= xs[|xs| - 1].bytes
    ensures Paid(t, Emissions(t, xs), xs[0], last, byBytes, byTime)
  {
    var prefix, x := xs[..|xs| - 1], xs[|xs| - 1];
    if prefix == [] {
      last, byBytes, byTime := x, 0, 0;
      assert Offered(t, prefix) == t && Emissions(t, prefix) == 0;
    } else {
      assert prefix[0] == xs[0] && prefix[|prefix| - 1] == xs[|xs| - 2];
      last, byBytes, byTime := EmissionsArePaidFor(t, prefix);
      if Due(Offered(t, prefix), x) {
        if x.bytes - last.bytes >= t.minBytes {
          byBytes := byBytes + 1;
        } else {
          byTime := byTime + 1;
        }
        last := x;
      }
    }
  }

  /** At most one update, plus one per `minBytes` transferred, plus one per `minSecs` elapsed. */
  lemma {:induction false} ThrottleBound(t: Throttle, xs: seq<Sample>)
    requires xs != [] && InOrder(xs) && BytesInOrder(xs) && t.last.None? && t.minBytes > 0 && t.minSecs > 0.0
    ensures var first, last := xs[0], xs[|xs| - 1];
            Emissions(t, xs) <= 1 + (last.bytes - first.bytes) / t.minBytes + ((last.at - first.at) / t.minSecs).Floor
  {
    var first, last := xs[0], xs[|xs| - 1];
    var e, byBytes, byTime := EmissionsArePaidFor(t, xs);
    QuotientAtLeast(last.bytes - first.bytes, t.minBytes, byBytes);
    AtMostRealQuotient(byTime, t.minSecs, last.at - first.at);
  }

  lemma {:induction false} AtMostRealQuotient(n: nat, d: real, a: real)
    requires 0.0 < d && Span(d, n) <= a
    ensures n <= (a / d).Floor
  {
    SpanIsProduct(d, n);
    assert a / d * d == a;
    CancelReal(n as real, a / d, d);
  }

  class EmitThrottle {
    const minBytes: nat
    const minSecs: real
    var last: Option<Sample>

    ghost function View(): Throttle
      reads this
    {
      Throttle(minBytes, minSecs, last)
    }

    constructor (minBytes: nat, minSecs: real)
      ensures View() == Throttle(minBytes, minSecs, None)
    {
      this.minBytes, this.minSecs, last := minBytes, minSecs, None;
    }

    method ShouldEmit(at: real, bytes: nat) returns (emit: bool)
      modifies this
      ensures emit == Due(old(View()), Sample(at, bytes))
      ensures View() == Offer(old(View()), Sample(at, bytes))
    {
      match last {
        case None => emit := true;
        case Some(l) => emit := SaturatingSub(bytes, l.bytes) >= minBytes || at - l.at >= minSecs;
      }
      if emit {
        last := Some(Sample(at, bytes));
      }
    }
  }
}

/**
  The share-session progress ledger (engine/protocol/src/progress.rs).

  `ShareProgress` keeps one `RequestProgress` per live request plus two totals
  for the credited requests it retired. The module states what the ledger means
  in terms of the log of calls it received: `SnapshotRefinesLog` computes the
  snapshot from the log alone, without any of the ledger's maps.
 */
module Ledger {
  import opened Common
  import opened Sums

  const FIRST_PAYLOAD_BLOB_INDEX: nat := 2

  /** A request is named by its connection id and request id. */
  datatype Key = Key(connection: nat, request: nat)

  // ---------------------------------------------------------------- one request

  datatype Request = Request(current: Option<nat>, ends: map<nat, nat>, sizes: map<nat, nat>)

  const NEW_REQUEST := Request(None, map[], map[])

  function BlobStarted(r: Request, index: nat, size: nat): Request {
    Request(
      Some(index),
      if index in r.ends then r.ends else r.ends[index := 0],
      r.sizes[index := size])
  }

  function BlobProgress(r: Request, endOffset: nat): Request {
    match r.current
    case None => r
    case Some(index) =>
      var capped := if index in r.sizes then Min(endOffset, r.sizes[index]) else endOffset;
      var entry := if index in r.ends then r.ends[index] else 0;
      r.(ends := r.ends[index := Max(entry, capped)])
  }

  function PayloadEntries(ends: map<nat, nat>): map<nat, nat> {
    map i | i in ends && FIRST_PAYLOAD_BLOB_INDEX <= i :: ends[i]
  }

  ghost function PayloadBytes(r: Request): nat {
    SumValues(PayloadEntries(r.ends))
  }

  /** The payload, blob by blob: every blob of index 2 and up counts once, and the two metadata blobs do not. */
  lemma {:induction false} PayloadWithout(r: Request, i: nat)
    requires i in r.ends
    ensures PayloadBytes(r) == PayloadBytes(r.(ends := r.ends - {i})) + (if 2 <= i then r.ends[i] else 0)
  {
    if 2 <= i {
      SumRemove(PayloadEntries(r.ends), i);
      assert PayloadEntries(r.ends - {i}) == PayloadEntries(r.ends) - {i};
    } else {
      assert PayloadEntries(r.ends - {i}) == PayloadEntries(r.ends);
    }
  }

  lemma {:induction false} NothingReported(r: Request)
    requires r.ends == map[]
    ensures PayloadBytes(r) == 0
  {
    assert PayloadEntries(r.ends) == map[];
  }

  /** The summing iterator of `payload_bytes`. */
  method ComputePayloadBytes(r: Request) returns (bytes: nat)
    ensures bytes == PayloadBytes(r)
  {
    bytes := 0;
    var rest := PayloadEntries(r.ends);
    while rest != map[]
      invariant bytes + SumValues(rest) == PayloadBytes(r)
      decreases |rest|
    {
      var i :| i in rest.Keys;
      SumRemove(rest, i);
      bytes := bytes + rest[i];
      rest := rest - {i};
    }
  }

  // -------------------------------------------- one request, seen from its log

  datatype RequestEvent = Started(index: nat, size: nat) | Reported(offset: nat) | Touched

  /** The request state after a log of events. */
  function RunRequest(seg: seq<RequestEvent>): Request {
    if seg == [] then NEW_REQUEST
    else
      var r := RunRequest(seg[..|seg| - 1]);
      match seg[|seg| - 1]
      case Started(index, size) => BlobStarted(r, index, size)
      case Reported(offset) => BlobProgress(r, offset)
      case Touched => r
  }

  /** The blob that is current at the end of `seg`, with the size it was last announced at. */
  function CurrentBlob(seg: seq<RequestEvent>): Option<(nat, nat)> {
    if seg == [] then None
    else
      match seg[|seg| - 1]
      case Started(index, size) => Some((index, size))
      case _ => CurrentBlob(seg[..|seg| - 1])
  }

  /** Event `n` reports `v` bytes of blob `index`: an offset, capped at the size of the then-current blob. */
  predicate Reports(seg: seq<RequestEvent>, n: nat, index: nat, v: nat)
    requires n < |seg|
  {
    && seg[n].Reported?
    && var blob := CurrentBlob(seg[..n]);
       && blob.Some?
       && blob.value.0 == index
       && v == Min(seg[n].offset, blob.value.1)
  }

  function HighWater(seg: seq<RequestEvent>, index: nat): nat {
    if seg == [] then 0
    else
      var prefix := seg[..|seg| - 1];
      var e, blob := seg[|seg| - 1], CurrentBlob(prefix);
      if e.Reported? && blob.Some? && blob.value.0 == index
      then Max(HighWater(prefix, index), Min(e.offset, blob.value.1))
      else HighWater(prefix, index)
  }

  /** `HighWater` is the largest reported value of the blob, or 0 when it was never reported. */
  lemma {:induction false} HighWaterIsTheMaximum(seg: seq<RequestEvent>, index: nat)
    ensures forall n: nat, v: nat :: n < |seg| && Reports(seg, n, index, v) ==> v <= HighWater(seg, index)
    ensures HighWater(seg, index) == 0
            || exists n :: 0 <= n < |seg| && Reports(seg, n, index, HighWater(seg, index))
  {
    if seg != [] {
      var prefix := seg[..|seg| - 1];
      HighWaterIsTheMaximum(prefix, index);
      assert forall n :: 0 <= n < |prefix| ==> prefix[..n] == seg[..n];
      assert forall n: nat, v: nat :: n < |prefix| ==> Reports(prefix, n, index, v) == Reports(seg, n, index, v);
      var last := |seg| - 1;
      assert seg[..last] == prefix;
      if HighWater(seg, index) != HighWater(prefix, index) {
        assert Reports(seg, last, index, HighWater(seg, index));
      }
    }
  }

  function StartedBlobs(seg: seq<RequestEvent>): set<nat> {
    set e | e in seg && e.Started? :: e.index
  }

  function HighWaters(seg: seq<RequestEvent>): map<nat, nat> {
    map i | i in StartedBlobs(seg) :: HighWater(seg, i)
  }

  /** Payload of a request, from its log: the high-water marks of its payload blobs. */
  ghost function LoggedPayload(seg: seq<RequestEvent>): nat {
    SumValues(PayloadEntries(HighWaters(seg)))
  }

  lemma {:induction false} RequestRefinesLog(seg: seq<RequestEvent>)
    ensures RunRequest(seg).ends == HighWaters(seg)
    ensures PayloadBytes(RunRequest(seg)) == LoggedPayload(seg)
    ensures var r, blob := RunRequest(seg), CurrentBlob(seg);
            && r.current.None? == blob.None?
            && (blob.Some? ==> r.current == Some(blob.value.0)
                               && blob.value.0 in r.sizes && r.sizes[blob.value.0] == blob.value.1
                               && blob.value.0 in StartedBlobs(seg))
  {
    if seg != [] {
      var prefix, e := seg[..|seg| - 1], seg[|seg| - 1];
      RequestRefinesLog(prefix);
      assert seg == prefix + [e];
      assert StartedBlobs(seg) == StartedBlobs(prefix) + (if e.Started? then {e.index} else {});
      if e.Started? {
        HighWaterNeedsStart(prefix, e.index);
      }
      assert RunRequest(seg).ends.Keys == HighWaters(seg).Keys;
    }
  }

  lemma {:induction false} HighWaterNeedsStart(seg: seq<RequestEvent>, index: nat)
    ensures index !in StartedBlobs(seg) ==> HighWater(seg, index) == 0
    ensures CurrentBlob(seg).Some? ==> CurrentBlob(seg).value.0 in StartedBlobs(seg)
  {
    if seg != [] {
      var prefix, e := seg[..|seg| - 1], seg[|seg| - 1];
      HighWaterNeedsStart(prefix, index);
      assert seg == prefix + [e];
      assert StartedBlobs(seg) == StartedBlobs(prefix) + (if e.Started? then {e.index} else {});
    }
  }

  // ------------------------------------------------------------- the whole share

  datatype Ledger = Ledger(share: nat, active: map<Key, Request>, finishedBytes: nat, finishedRequests: nat)

  datatype Event =
    | BlobStart(key: Key, index: nat, size: nat)
    | BlobReport(key: Key, offset: nat)
    | Ensure(key: Key)
    | Retire(key: Key, credited: bool)

  function NewLedger(share: nat): Ledger {
    Ledger(share, map[], 0, 0)
  }

  function Entry(l: Ledger, key: Key): Request {
    if key in l.active then l.active[key] else NEW_REQUEST
  }

  /** What one live request contributes to the snapshot. */
  ghost function RequestBytes(l: Ledger, key: Key): nat {
    if key in l.active then Min(PayloadBytes(l.active[key]), l.share) else 0
  }

  ghost function Step(l: Ledger, e: Event): Ledger {
    match e
    case BlobStart(key, index, size) =>
      l.(active := l.active[key := BlobStarted(Entry(l, key), index, size)])
    case BlobReport(key, offset) =>
      if key in l.active then l.(active := l.active[key := BlobProgress(l.active[key], offset)]) else l
    case Ensure(key) =>
      l.(active := l.active[key := Entry(l, key)])
    case Retire(key, credited) =>
      if key !in l.active then l
      else if credited then
        Ledger(l.share, l.active - {key}, l.finishedBytes + RequestBytes(l, key), l.finishedRequests + 1)
      else l.(active := l.active - {key})
  }

  ghost function Run(l: Ledger, log: seq<Event>): Ledger {
    if log == [] then l else Step(Run(l, log[..|log| - 1]), log[|log| - 1])
  }

  lemma {:induction false} RunAppend(l: Ledger, a: seq<Event>, b: seq<Event>)
    ensures Run(l, a + b) == Run(Run(l, a), b)
  {
    if b == [] {
      assert a + b == a;
    } else {
      RunAppend(l, a, b[..|b| - 1]);
      assert (a + b)[..|a + b| - 1] == a + b[..|b| - 1];
    }
  }

  datatype Snapshot = Snapshot(bytes: nat, total: nat)

  ghost function LiveBytes(l: Ledger): map<Key, nat> {
    map k | k in l.active :: RequestBytes(l, k)
  }

  ghost function SnapshotOf(l: Ledger): Snapshot {
    Snapshot(
      l.finishedBytes + SumValues(LiveBytes(l)),
      SaturatingMul(l.share, l.finishedRequests + |l.active|))
  }

  // ------------------------------------------- the whole share, seen from its log

  /** The events of `key` since it was last retired. */
  function Segment(log: seq<Event>, key: Key): seq<RequestEvent> {
    if log == [] then []
    else
      var prefix, e := log[..|log| - 1], log[|log| - 1];
      if e.key != key then Segment(prefix, key)
      else
        match e
        case Retire(_, _) => []
        case _ => Segment(prefix, key) + [RequestEventOf(e)]
  }

  /** Offsets alone do not open a request: `blob_progress` ignores an unknown key. */
  predicate Opened(seg: seq<RequestEvent>) {
    seg != [] && (!seg[|seg| - 1].Reported? || Opened(seg[..|seg| - 1]))
  }

  function Keys(log: seq<Event>): set<Key> {
    if log == [] then {} else Keys(log[..|log| - 1]) + {log[|log| - 1].key}
  }

  function LiveKeys(log: seq<Event>): set<Key> {
    set k | k in Keys(log) && Opened(Segment(log, k))
  }

  /** Bytes of each request retired with credit, in retirement order. */
  ghost function Credits(share: nat, log: seq<Event>): seq<nat> {
    if log == [] then []
    else
      var prefix, e := log[..|log| - 1], log[|log| - 1];
      if e.Retire? && e.credited && Opened(Segment(prefix, e.key))
      then Credits(share, prefix) + [Min(LoggedPayload(Segment(prefix, e.key)), share)]
      else Credits(share, prefix)
  }

  /** Bytes of each open request. */
  ghost function LoggedLive(share: nat, log: seq<Event>): map<Key, nat> {
    map k | k in LiveKeys(log) :: Min(LoggedPayload(Segment(log, k)), share)
  }

  /** Bytes of the credited and the open requests, out of one whole share for each of them. */
  ghost function Account(share: nat, credits: seq<nat>, live: map<Key, nat>): Snapshot {
    Snapshot(SumSeq(credits) + SumValues(live), SaturatingMul(share, |credits| + |live|))
  }

  ghost function LoggedSnapshot(share: nat, log: seq<Event>): Snapshot {
    Account(share, Credits(share, log), LoggedLive(share, log))
  }

  lemma {:induction false} UnopenedIsNew(seg: seq<RequestEvent>)
    requires !Opened(seg)
    ensures RunRequest(seg) == NEW_REQUEST
  {
    if seg != [] {
      UnopenedIsNew(seg[..|seg| - 1]);
    }
  }

  lemma {:induction false} LiveIffOpened(log: seq<Event>, key: Key)
    ensures key in LiveKeys(log) <==> Opened(Segment(log, key))
  {
    SegmentNeedsKey(log, key);
  }

  lemma {:induction false} SegmentNeedsKey(log: seq<Event>, key: Key)
    ensures key !in Keys(log) ==> Segment(log, key) == []
  {
    if log != [] {
      SegmentNeedsKey(log[..|log| - 1], key);
    }
  }

  /** The ledger's entry for `key` is open exactly when the log says so, and is what `key`'s own events give. */
  ghost predicate Matches(l: Ledger, log: seq<Event>, key: Key) {
    && (key in l.active <==> Opened(Segment(log, key)))
    && (key in l.active ==> l.active[key] == RunRequest(Segment(log, key)))
  }

  lemma {:induction false} MatchesStep(l: Ledger, log: seq<Event>, e: Event, key: Key)
    requires Matches(l, log, key)
    ensures Matches(Step(l, e), log + [e], key)
  {
    assert (log + [e])[..|log|] == log;
    if e.key == key && !e.Retire? {
      var r := RequestEventOf(e);
      OneMoreEvent(Segment(log, key), r);
    }
  }

  function RequestEventOf(e: Event): RequestEvent
    requires !e.Retire?
  {
    match e
    case BlobStart(_, index, size) => Started(index, size)
    case BlobReport(_, offset) => Reported(offset)
    case Ensure(_) => Touched
  }

  /** One more event of a request: it opens the request unless it is a bare offset. */
  lemma {:induction false} OneMoreEvent(seg: seq<RequestEvent>, r: RequestEvent)
    ensures Opened(seg + [r]) <==> !r.Reported? || Opened(seg)
    ensures !Opened(seg) ==> RunRequest(seg) == NEW_REQUEST
    ensures RunRequest(seg + [r]) ==
            match r
            case Started(index, size) => BlobStarted(RunRequest(seg), index, size)
            case Reported(offset) => BlobProgress(RunRequest(seg), offset)
            case Touched => RunRequest(seg)
  {
    assert (seg + [r])[..|seg|] == seg;
    if !Opened(seg) { UnopenedIsNew(seg); }
  }

  lemma {:induction false} RunMatches(share: nat, log: seq<Event>, key: Key)
    ensures Matches(Run(NewLedger(share), log), log, key)
  {
    if log != [] {
      var prefix, e := log[..|log| - 1], log[|log| - 1];
      RunMatches(share, prefix, key);
      MatchesStep(Run(NewLedger(share), prefix), prefix, e, key);
      assert prefix + [e] == log;
    }
  }

  lemma {:induction false} RunCredits(share: nat, log: seq<Event>)
    ensures var l := Run(NewLedger(share), log);
            && l.share == share
            && l.finishedBytes == SumSeq(Credits(share, log))
            && l.finishedRequests == |Credits(share, log)|
  {
    if log != [] {
      var prefix, e := log[..|log| - 1], log[|log| - 1];
      RunCredits(share, prefix);
      RunMatches(share, prefix, e.key);
      RequestRefinesLog(Segment(prefix, e.key));
      CreditsStep(share, log);
    }
  }

  /** The ledger holds exactly the open requests of its log, each in the state its own events give it. */
  lemma {:induction false} LedgerRefinesLog(share: nat, log: seq<Event>)
    ensures Run(NewLedger(share), log).active == map k | k in LiveKeys(log) :: RunRequest(Segment(log, k))
  {
    forall k ensures Matches(Run(NewLedger(share), log), log, k) && (k in LiveKeys(log) <==> Opened(Segment(log, k))) {
      RunMatches(share, log, k);
      LiveIffOpened(log, k);
    }
  }

  lemma {:induction false} CreditsStep(share: nat, log: seq<Event>)
    requires log != []
    ensures var prefix, e := log[..|log| - 1], log[|log| - 1];
            var credit := Min(LoggedPayload(Segment(prefix, e.key)), share);
            SumSeq(Credits(share, log)) ==
            SumSeq(Credits(share, prefix)) + (if Credits(share, log) == Credits(share, prefix) then 0 else credit)
  {
    var prefix, e := log[..|log| - 1], log[|log| - 1];
    var c := Credits(share, prefix);
    var credit := Min(LoggedPayload(Segment(prefix, e.key)), share);
    assert (c + [credit])[..|c|] == c;
  }

  /** The snapshot can be computed from the log of calls alone. */
  lemma {:induction false} SnapshotRefinesLog(share: nat, log: seq<Event>)
    ensures SnapshotOf(Run(NewLedger(share), log)) == LoggedSnapshot(share, log)
  {
    LedgerRefinesLog(share, log);
    RunCredits(share, log);
    var l := Run(NewLedger(share), log);
    LiveBytesRefineLog(l, share, log);
    SnapshotIsAccount(l, Credits(share, log));
  }

  lemma {:induction false} SnapshotIsAccount(l: Ledger, credits: seq<nat>)
    requires l.finishedBytes == SumSeq(credits) && l.finishedRequests == |credits|
    ensures SnapshotOf(l) == Account(l.share, credits, LiveBytes(l))
  {
    assert LiveBytes(l).Keys == l.active.Keys;
  }

  /** Progress never passes 100%, also when the total saturates. */
  lemma {:induction false} SnapshotWithinTotal(share: nat, log: seq<Event>)
    ensures var s := SnapshotOf(Run(NewLedger(share), log));
            s.bytes <= U64_MAX ==> s.bytes <= s.total
  {
    SnapshotRefinesLog(share, log);
    CreditsBounded(share, log);
    AccountWithinTotal(share, Credits(share, log), LoggedLive(share, log));
  }

  lemma {:induction false} AccountWithinTotal(share: nat, credits: seq<nat>, live: map<Key, nat>)
    requires SumSeq(credits) <= Times(share, |credits|)
    requires forall k :: k in live ==> live[k] <= share
    ensures var s := Account(share, credits, live);
            s.bytes <= U64_MAX ==> s.bytes <= s.total
  {
    SumBounded(live, share);
    TimesAdds(share, |credits|, |live|);
  }

  lemma {:induction false} LiveBytesRefineLog(l: Ledger, share: nat, log: seq<Event>)
    requires l.share == share
    requires l.active == map k | k in LiveKeys(log) :: RunRequest(Segment(log, k))
    ensures LiveBytes(l) == LoggedLive(share, log)
  {
    forall k | k in l.active
      ensures RequestBytes(l, k) == Min(LoggedPayload(Segment(log, k)), share)
    {
      RequestRefinesLog(Segment(log, k));
    }
  }

  lemma {:induction false} CreditsBounded(share: nat, log: seq<Event>)
    ensures SumSeq(Credits(share, log)) <= Times(share, |Credits(share, log)|)
  {
    if log != [] {
      CreditsBounded(share, log[..|log| - 1]);
      CreditsStep(share, log);
    }
  }

  // ------------------------------------------------------------ what one report changes

  /** What an offset adds to the payload: bytes beyond the blob's mark, capped by its size, of payload blobs only. */
  function Gain(r: Request, offset: nat): nat
    requires r.current.Some? && r.current.value in r.ends && r.current.value in r.sizes
  {
    var i := r.current.value;
    if i < 2 then 0 else SaturatingSub(Min(offset, r.sizes[i]), r.ends[i])
  }

  lemma {:induction false} ReportAddsGain(r: Request, offset: nat)
    requires r.current.Some? && r.current.value in r.ends && r.current.value in r.sizes
    ensures PayloadBytes(BlobProgress(r, offset)) == PayloadBytes(r) + Gain(r, offset)
  {
    var i, after := r.current.value, BlobProgress(r, offset);
    PayloadWithout(r, i);
    PayloadWithout(after, i);
    assert after.ends - {i} == r.ends - {i};
    SameEndsSamePayload(after.(ends := after.ends - {i}), r.(ends := r.ends - {i}));
  }

  lemma {:induction false} SameEndsSamePayload(a: Request, b: Request)
    requires a.ends == b.ends
    ensures PayloadBytes(a) == PayloadBytes(b)
  {
  }

  /** One entry's bytes change: the snapshot changes by as much. */
  lemma {:induction false} OneEntryChanges(l: Ledger, key: Key, r: Request)
    requires key in l.active
    ensures var after := l.(active := l.active[key := r]);
            && SnapshotOf(after).bytes + RequestBytes(l, key)
               == SnapshotOf(l).bytes + Min(PayloadBytes(r), l.share)
            && SnapshotOf(after).total == SnapshotOf(l).total
  {
    var after := l.(active := l.active[key := r]);
    LiveBytesChange(l, key, r);
    SumChange(LiveBytes(l), LiveBytes(after), key);
    assert after.active.Keys == l.active.Keys;
    assert |after.active| == |after.active.Keys| == |l.active|;
    SameCountSameTotal(after, l);
  }

  lemma {:induction false} LiveBytesChange(l: Ledger, key: Key, r: Request)
    requires key in l.active
    ensures var after := l.(active := l.active[key := r]);
            && LiveBytes(after) - {key} == LiveBytes(l) - {key}
            && LiveBytes(after)[key] == Min(PayloadBytes(r), l.share) && LiveBytes(l)[key] == RequestBytes(l, key)
  {
  }

  /** A report raises the snapshot by what it adds to the payload, up to the share. */
  lemma {:induction false} ReportRaisesSnapshot(l: Ledger, key: Key, offset: nat)
    requires key in l.active
    requires var r := l.active[key]; r.current.Some? && r.current.value in r.ends && r.current.value in r.sizes
    ensures var r, before, after := l.active[key], SnapshotOf(l), SnapshotOf(Step(l, BlobReport(key, offset)));
            && after.total == before.total
            && after.bytes + Min(PayloadBytes(r), l.share)
               == before.bytes + Min(PayloadBytes(r) + Gain(r, offset), l.share)
  {
    ReportAddsGain(l.active[key], offset);
    OneEntryChanges(l, key, BlobProgress(l.active[key], offset));
  }

  /**
    The first report of a new request, after any log: of a payload blob it counts, up to the blob's
    size and the share; of a metadata blob it changes nothing.
   */
  lemma {:induction false} FirstReportCounts(share: nat, log: seq<Event>, key: Key, index: nat, size: nat, v: nat)
    requires key !in Run(NewLedger(share), log).active
    ensures var before := SnapshotOf(Run(NewLedger(share), log)).bytes;
            SnapshotOf(Run(NewLedger(share), log + [BlobStart(key, index, size)] + [BlobReport(key, v)])).bytes
            == before + (if 2 <= index then Min(Min(v, size), share) else 0)
  {
    var l := Run(NewLedger(share), log);
    RunCredits(share, log);
    var started := log + [BlobStart(key, index, size)];
    assert started[..|log|] == log && (started + [BlobReport(key, v)])[..|started|] == started;
    StartedAlone(l, key, index, size);
    ReportRaisesSnapshot(Step(l, BlobStart(key, index, size)), key, v);
  }

  /** A request that has only been started adds nothing to the bytes. */
  lemma {:induction false} StartedAlone(l: Ledger, key: Key, index: nat, size: nat)
    requires key !in l.active
    ensures var after := Step(l, BlobStart(key, index, size));
            && key in after.active && after.share == l.share
            && after.active[key] == Request(Some(index), map[index := 0], map[index := size])
            && PayloadBytes(after.active[key]) == 0
            && SnapshotOf(after).bytes == SnapshotOf(l).bytes
  {
    var after := Step(l, BlobStart(key, index, size));
    var r := after.active[key];
    assert r == Request(Some(index), map[index := 0], map[index := size]);
    PayloadWithout(r, index);
    NothingReported(r.(ends := r.ends - {index}));
    SumRemove(LiveBytes(after), key);
    assert LiveBytes(after) - {key} == LiveBytes(l);
  }

  // -------------------------------------------------- retiring with and without credit

  /** Retiring a request with credit moves its bytes, and changes nothing a reader can see. */
  lemma {:induction false} CreditConserves(l: Ledger, key: Key)
    ensures SnapshotOf(Step(l, Retire(key, true))) == SnapshotOf(l)
  {
    if key in l.active {
      var after := Step(l, Retire(key, true));
      SumRemove(LiveBytes(l), key);
      assert LiveBytes(after) == LiveBytes(l) - {key};
      RemoveShrinks(l.active, key);
      SameCountSameTotal(after, l);
    }
  }

  lemma {:induction false} SameCountSameTotal(a: Ledger, b: Ledger)
    requires a.share == b.share && a.finishedRequests + |a.active| == b.finishedRequests + |b.active|
    ensures SnapshotOf(a).total == SnapshotOf(b).total
  {
  }

  /** `log` without the events of `key` since it was last retired. */
  function Erase(log: seq<Event>, key: Key): seq<Event> {
    if log == [] then []
    else
      var prefix, e := log[..|log| - 1], log[|log| - 1];
      if e.key != key then Erase(prefix, key) + [e]
      else if e.Retire? then log
      else Erase(prefix, key)
  }

  ghost function Without(l: Ledger, key: Key): Ledger {
    l.(active := l.active - {key})
  }

  lemma {:induction false} StepWithout(l: Ledger, e: Event, key: Key)
    ensures e.key != key ==> Step(Without(l, key), e) == Without(Step(l, e), key)
    ensures e.key == key ==> Without(Step(l, e), key).active == l.active - {key}
  {
    if e.key != key {
      assert RequestBytes(Without(l, key), e.key) == RequestBytes(l, e.key);
      assert Step(Without(l, key), e).active == Step(l, e).active - {key};
    }
  }

  lemma {:induction false} EraseRemovesEntry(l: Ledger, log: seq<Event>, key: Key)
    requires key !in l.active
    ensures Run(l, Erase(log, key)) == Without(Run(l, log), key)
  {
    if log == [] {
      assert l.active - {key} == l.active;
    } else {
      var prefix, e := log[..|log| - 1], log[|log| - 1];
      EraseRemovesEntry(l, prefix, key);
      StepWithout(Run(l, prefix), e, key);
      var small := Erase(prefix, key);
      assert (small + [e])[..|small|] == small;
      assert e.key == key && e.Retire? ==> Run(l, log).active - {key} == Run(l, log).active;
    }
  }

  /**
    Abandoning a request leaves the ledger as if the request had never reported anything,
    whatever was interleaved with it before and whatever follows.
   */
  lemma {:induction false} AbandonErases(share: nat, before: seq<Event>, key: Key, rest: seq<Event>)
    ensures Run(NewLedger(share), before + [Retire(key, false)] + rest)
            == Run(NewLedger(share), Erase(before, key) + rest)
  {
    var l := NewLedger(share);
    EraseRemovesEntry(l, before, key);
    var gone := before + [Retire(key, false)];
    assert gone[..|gone| - 1] == before;
    assert Run(l, gone) == Run(l, Erase(before, key)) by {
      if key !in Run(l, before).active {
        assert Run(l, before).active - {key} == Run(l, before).active;
      }
    }
    RunAppend(l, gone, rest);
    RunAppend(l, Erase(before, key), rest);
  }

  /** `log` without any event of `key`. */
  function Others(log: seq<Event>, key: Key): seq<Event> {
    if log == [] then []
    else Others(log[..|log| - 1], key) + (if log[|log| - 1].key == key then [] else [log[|log| - 1]])
  }

  /** A request that ends once and is abandoned leaves the ledger as if it had never been there at all. */
  lemma {:induction false} AbandonedNeverHappened(share: nat, before: seq<Event>, key: Key, rest: seq<Event>)
    requires forall e :: e in before && e.key == key ==> !e.Retire?
    ensures Run(NewLedger(share), before + [Retire(key, false)] + rest)
            == Run(NewLedger(share), Others(before, key) + rest)
  {
    AbandonErases(share, before, key, rest);
    EraseIsOthers(before, key);
  }

  lemma {:induction false} EraseIsOthers(log: seq<Event>, key: Key)
    requires forall e :: e in log && e.key == key ==> !e.Retire?
    ensures Erase(log, key) == Others(log, key)
  {
    if log != [] {
      assert log[|log| - 1] in log;
      EraseIsOthers(log[..|log| - 1], key);
    }
  }

  // ------------------------------------------------------------------- the object

  class ShareProgress {
    const share: nat
    var active: map<Key, Request>
    var finishedBytes: nat
    var finishedRequests: nat

    ghost function View(): Ledger
      reads this
    {
      Ledger(share, active, finishedBytes, finishedRequests)
    }

    constructor (shareSize: nat)
      ensures View() == NewLedger(shareSize)
    {
      share := shareSize;
      active, finishedBytes, finishedRequests := map[], 0, 0;
    }

    method BlobStartedFor(key: Key, index: nat, size: nat)
      modifies this
      ensures View() == Step(old(View()), BlobStart(key, index, size))
    {
      var request := if key in active then active[key] else NEW_REQUEST;
      active := active[key := BlobStarted(request, index, size)];
    }

    method BlobProgressFor(key: Key, offset: nat)
      modifies this
      ensures View() == Step(old(View()), BlobReport(key, offset))
    {
      if key in active {
        active := active[key := BlobProgress(active[key], offset)];
      }
    }

    method EnsureRequest(key: Key)
      modifies this
      ensures View() == Step(old(View()), Ensure(key))
    {
      if key !in active {
        active := active[key := NEW_REQUEST];
      }
      assert active == old(active)[key := Entry(old(View()), key)];
    }

    method RetireRequest(key: Key, credited: bool) returns (bytes: nat)
      modifies this
      ensures View() == Step(old(View()), Retire(key, credited))
      ensures bytes == old(RequestBytes(View(), key))
    {
      if key !in active {
        return 0;
      }
      bytes := ComputePayloadBytes(active[key]);
      bytes := Min(bytes, share);
      active := active - {key};
      if credited {
        finishedBytes := finishedBytes + bytes;
        finishedRequests := finishedRequests + 1;
      }
    }

    method RequestBytesOf(key: Key) returns (bytes: nat)
      ensures bytes == RequestBytes(View(), key)
    {
      if key !in active {
        return 0;
      }
      bytes := ComputePayloadBytes(active[key]);
      bytes := Min(bytes, share);
    }

    method TakeSnapshot() returns (s: Snapshot)
      ensures s == SnapshotOf(View())
    {
      var activeBytes := ComputeLiveBytes();
      var requests := finishedRequests + |active|;
      s := Snapshot(finishedBytes + activeBytes, SaturatingMul(share, requests));
    }

    method ComputeLiveBytes() returns (bytes: nat)
      ensures bytes == SumValues(LiveBytes(View()))
    {
      var rest := active;
      ghost var left, total := LiveBytes(View()), SumValues(LiveBytes(View()));
      bytes := 0;
      while rest != map[]
        invariant rest.Keys == left.Keys
        invariant forall k :: k in rest ==> left[k] == Min(PayloadBytes(rest[k]), share)
        invariant bytes + SumValues(left) == total
        decreases |rest|
      {
        var k :| k in rest.Keys;
        SumRemove(left, k);
        var payload := ComputePayloadBytes(rest[k]);
        bytes := bytes + Min(payload, share);
        left, rest := left - {k}, rest - {k};
      }
      assert left == map[];
    }
  }
}

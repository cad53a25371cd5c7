/**
  Transfer history: the row store (engine/native/src/history.rs) and the recorder that opens
  and finalizes one row per transfer (src-tauri/src/history.rs).

  Row ids are fresh for every opened row. Store operations are atomic and succeed. Finalizing
  is two steps, because the recorder releases its own lock before it writes the store.
 */
module History {
  import opened Common
  import opened Counting

  const MAX_RECORDS: nat := 500
  const MAX_FILE_NAMES: nat := 20

  type RowId = nat

  datatype Status = InProgress | Completed | Failed | Cancelled | Interrupted

  datatype Context = Context(
    payloadBytes: nat, savePath: Option<string>, resumableStore: Option<string>, peer: Option<nat>)

  datatype Record = Record(
    id: RowId,
    status: Status,
    endedAt: Option<nat>,
    durationMs: Option<nat>,
    payloadBytes: nat,
    bytesTransferred: nat,
    fileNames: seq<string>,
    fileNamesTruncated: bool,
    peer: Option<nat>,
    peerCount: nat,
    savePath: Option<string>,
    saveUri: Option<string>,
    resumableStore: Option<string>,
    error: Option<string>)

  function NewRecord(id: RowId, c: Context): Record {
    Record(id, InProgress, None, None, c.payloadBytes, 0, [], false, c.peer, 0, c.savePath, None, c.resumableStore,
           None)
  }

  /** The two closures the recorder passes to the store. */
  datatype Edit =
    | Ending(status: Status, durationMs: Option<nat>, bytes: Option<nat>, seen: nat, names: seq<string>,
             peers: nat, error: Option<string>)
    | Destination(path: string, uri: Option<string>)

  function Edited(r: Record, e: Edit, now: nat): Record {
    match e
    case Destination(path, uri) => r.(savePath := Some(path), saveUri := uri)
    case Ending(status, durationMs, bytes, seen, names, peers, error) =>
      var peerCount := Max(peers, if r.peer.Some? then 1 else 0);
      r.(status := status,
         endedAt := Some(now),
         durationMs := durationMs,
         payloadBytes := if bytes.Some? then bytes.value else r.payloadBytes,
         bytesTransferred := if bytes.Some? then bytes.value else seen,
         fileNames := if names == [] then r.fileNames else names[..Min(|names|, MAX_FILE_NAMES)],
         fileNamesTruncated := if names == [] then r.fileNamesTruncated else |names| > MAX_FILE_NAMES,
         peerCount := peerCount,
         peer := if peerCount > 1 then None else r.peer,
         resumableStore := if status.Completed? then None else r.resumableStore,
         error := error)
  }

  // ------------------------------------------------------------------------- the store

  function Find(records: seq<Record>, id: RowId): (i: nat)
    ensures i <= |records|
    ensures i < |records| ==> records[i].id == id
    ensures forall j :: 0 <= j < i ==> records[j].id != id
  {
    if records == [] || records[0].id == id then 0 else 1 + Find(records[1..], id)
  }

  predicate Has(records: seq<Record>, id: RowId) {
    Find(records, id) < |records|
  }

  /** Newest first, and the oldest rows fall off the end. */
  function Opened(records: seq<Record>, r: Record): seq<Record> {
    ([r] + records)[..Min(|records| + 1, MAX_RECORDS)]
  }

  function Updated(records: seq<Record>, id: RowId, e: Edit, now: nat): seq<Record> {
    var i := Find(records, id);
    if i < |records| then records[i := Edited(records[i], e, now)] else records
  }

  function Deleted(records: seq<Record>, id: RowId): seq<Record> {
    var i := Find(records, id);
    if i < |records| then records[..i] + records[i + 1..] else records
  }

  function Swept(r: Record, now: nat): Record {
    if r.status.InProgress? then r.(status := Interrupted, endedAt := Some(now)) else r
  }

  predicate IsInProgress(r: Record) { r.status.InProgress? }

  predicate PointsNowhere(r: Record, onDisk: set<string>) {
    r.resumableStore.Some? && r.resumableStore.value !in onDisk
  }

  function Reconciled(r: Record, onDisk: set<string>): Record {
    if PointsNowhere(r, onDisk) then r.(resumableStore := None) else r
  }

  function AllSwept(records: seq<Record>, now: nat): seq<Record> {
    seq(|records|, i requires 0 <= i < |records| => Swept(records[i], now))
  }

  function AllReconciled(records: seq<Record>, onDisk: set<string>): seq<Record> {
    seq(|records|, i requires 0 <= i < |records| => Reconciled(records[i], onDisk))
  }

  /** The two passes over the rows at launch. */
  function Launched(records: seq<Record>, now: nat, onDisk: set<string>): seq<Record> {
    AllReconciled(AllSwept(records, now), onDisk)
  }

  // ------------------------------------------------------------------------ recorders

  datatype Recorder = Recorder(
    context: Context,
    row: Option<RowId>,
    finalized: bool,
    seen: nat,
    names: seq<string>,
    peers: nat,
    writing: Option<Edit>,
    opens: nat,
    endings: nat)

  function NewRecorder(c: Context): Recorder {
    Recorder(c, None, false, 0, [], 0, None, 0, 0)
  }

  datatype State = State(records: seq<Record>, recorders: map<nat, Recorder>, used: set<RowId>)

  const NEW_STATE := State([], map[], {})

  datatype Action =
    | Begin(who: nat, context: Context)
    | Started(who: nat, rowId: RowId)
    | Progressed(who: nat, seen: nat)
    | FileNames(who: nat, names: seq<string>)
    | PeerConnected(who: nat)
    | ContextKnown(who: nat, context: Context)
    | Finalize(who: nat, status: Status, durationMs: Option<nat>, bytes: Option<nat>, error: Option<string>)
    | WriteEnding(who: nat, now: nat)
    | NoteDestination(who: nat, path: string, uri: Option<string>)
    | DeleteRow(id: RowId)
    | ClearRows
    | Relaunch(now: nat, onDisk: set<string>)

  /** What one call on one recorder does to it and to the rows. */
  function RecorderStep(records: seq<Record>, used: set<RowId>, r: Recorder, a: Action): (seq<Record>, Recorder) {
    match a
    case Started(_, id) =>
      if r.row.Some? || id in used then (records, r)
      else (Opened(records, NewRecord(id, r.context)), r.(row := Some(id), opens := r.opens + 1))
    case Progressed(_, seen) => (records, r.(seen := seen))
    case FileNames(_, names) => (records, r.(names := names))
    case PeerConnected(_) => (records, r.(peers := r.peers + 1))
    case ContextKnown(_, c) => (records, r.(context := c))
    case Finalize(_, status, durationMs, bytes, error) =>
      if r.row.None? || r.finalized then (records, r)
      else (records, r.(finalized := true,
                        writing := Some(Ending(status, durationMs, bytes, r.seen, r.names, r.peers, error))))
    case WriteEnding(_, now) =>
      if r.row.None? || r.writing.None? then (records, r)
      else (Updated(records, r.row.value, r.writing.value, now),
            r.(writing := None, endings := r.endings + (if Has(records, r.row.value) then 1 else 0)))
    case NoteDestination(_, path, uri) =>
      if r.row.None? then (records, r)
      else (Updated(records, r.row.value, Destination(path, uri), 0), r)
    case _ => (records, r)
  }

  predicate OnRecorder(a: Action) {
    !a.Begin? && !a.DeleteRow? && !a.ClearRows? && !a.Relaunch?
  }

  function Step(s: State, a: Action): State {
    if OnRecorder(a) then
      if a.who !in s.recorders then s
      else
        var after := RecorderStep(s.records, s.used, s.recorders[a.who], a);
        State(after.0, s.recorders[a.who := after.1], if a.Started? then s.used + {a.rowId} else s.used)
    else
      match a
      case Begin(who, c) => if who in s.recorders then s else s.(recorders := s.recorders[who := NewRecorder(c)])
      case DeleteRow(id) => s.(records := Deleted(s.records, id))
      case Relaunch(now, onDisk) => State(Launched(s.records, now, onDisk), map[], s.used)
      case _ => s.(records := [])
  }

  function Run(s: State, actions: seq<Action>): State {
    if actions == [] then s else Step(Run(s, actions[..|actions| - 1]), actions[|actions| - 1])
  }

  /** Every caller finalizes with a terminal status. */
  predicate Terminal(a: Action) {
    a.Finalize? ==> !a.status.InProgress?
  }

  // ------------------------------------------------------------------------ invariants

  predicate GoodRows(records: seq<Record>, used: set<RowId>) {
    && |records| <= MAX_RECORDS
    && (forall i, j :: 0 <= i < j < |records| ==> records[i].id != records[j].id)
    && (forall i :: 0 <= i < |records| ==>
          && records[i].id in used
          && |records[i].fileNames| <= MAX_FILE_NAMES
          && (records[i].status.Completed? ==> records[i].resumableStore.None?))
  }

  /** A recorder that may still write an ending finds its row in progress, if it finds it. */
  predicate MayEnd(r: Recorder) {
    r.row.Some? && (!r.finalized || r.writing.Some?)
  }

  predicate GoodRecorder(r: Recorder, used: set<RowId>) {
    && (r.row.Some? ==> r.row.value in used)
    && (r.writing.Some? ==>
          r.finalized && r.row.Some? && r.writing.value.Ending? && !r.writing.value.status.InProgress?)
    && r.opens == (if r.row.Some? then 1 else 0)
    && r.endings + (if r.writing.Some? then 1 else 0) <= (if r.finalized then 1 else 0)
  }

  predicate InProgressIn(records: seq<Record>, id: RowId) {
    forall i :: 0 <= i < |records| && records[i].id == id ==> records[i].status.InProgress?
  }

  predicate GoodRecorders(s: State) {
    && (forall w :: w in s.recorders ==>
          GoodRecorder(s.recorders[w], s.used)
          && (MayEnd(s.recorders[w]) ==> InProgressIn(s.records, s.recorders[w].row.value)))
    && (forall v, w :: v in s.recorders && w in s.recorders && v != w && s.recorders[v].row.Some? ==>
          s.recorders[v].row != s.recorders[w].row)
  }

  predicate Inv(s: State) {
    GoodRows(s.records, s.used) && GoodRecorders(s)
  }

  /** An ended row keeps its status, and rows with known ids do not come from nowhere. */
  predicate Evolves(before: seq<Record>, after: seq<Record>, used: set<RowId>) {
    forall j :: 0 <= j < |after| && after[j].id in used ==>
      exists i :: 0 <= i < |before| && before[i].id == after[j].id
                  && (before[i].status.InProgress? || after[j].status == before[i].status)
  }

  /** Rows other than `touched` are as they were. */
  predicate KeepsOthers(before: seq<Record>, after: seq<Record>, touched: Option<RowId>) {
    forall j :: 0 <= j < |after| && touched != Some(after[j].id) ==> after[j] in before
  }

  lemma {:induction false} OthersStayInProgress(
      before: seq<Record>, after: seq<Record>, touched: Option<RowId>, id: RowId)
    requires KeepsOthers(before, after, touched) && touched != Some(id) && InProgressIn(before, id)
    ensures InProgressIn(after, id)
  {
  }

  lemma {:induction false} OpenedRows(records: seq<Record>, used: set<RowId>, id: RowId, c: Context)
    requires GoodRows(records, used) && id !in used
    ensures var after := Opened(records, NewRecord(id, c));
            && GoodRows(after, used + {id}) && Evolves(records, after, used)
            && KeepsOthers(records, after, Some(id)) && InProgressIn(after, id)
  {
    var after := Opened(records, NewRecord(id, c));
    assert after[0] == NewRecord(id, c);
    assert forall j :: 0 < j < |after| ==> after[j] == records[j - 1];
  }

  lemma {:induction false} UpdatedRows(records: seq<Record>, used: set<RowId>, id: RowId, e: Edit, now: nat)
    requires GoodRows(records, used)
    requires e.Ending? ==> InProgressIn(records, id)
    ensures var after := Updated(records, id, e, now);
            && GoodRows(after, used) && Evolves(records, after, used) && KeepsOthers(records, after, Some(id))
            && (e.Destination? && InProgressIn(records, id) ==> InProgressIn(after, id))
  {
    var i := Find(records, id);
    if i < |records| {
      EditedRow(records[i], e, now);
    }
  }

  lemma {:induction false} EditedRow(r: Record, e: Edit, now: nat)
    ensures var after := Edited(r, e, now);
            && after.id == r.id
            && (|r.fileNames| <= MAX_FILE_NAMES ==> |after.fileNames| <= MAX_FILE_NAMES)
            && (e.Destination? ==> after.status == r.status && after.resumableStore == r.resumableStore)
            && (e.Ending? ==> after.status == e.status && (after.status.Completed? ==> after.resumableStore.None?))
  {
  }

  lemma {:induction false} DeletedRows(records: seq<Record>, used: set<RowId>, id: RowId)
    requires GoodRows(records, used)
    ensures var after := Deleted(records, id);
            GoodRows(after, used) && Evolves(records, after, used) && KeepsOthers(records, after, None)
  {
    var i, after := Find(records, id), Deleted(records, id);
    if i < |records| {
      forall j | 0 <= j < |after| ensures after[j] == records[if j < i then j else j + 1] {
      }
      forall j | 0 <= j < |after|
        ensures exists k :: 0 <= k < |records| && records[k].id == after[j].id && after[j].status == records[k].status
      {
        assert after[j] == records[if j < i then j else j + 1];
      }
    }
  }

  lemma {:induction false} LaunchedRows(records: seq<Record>, used: set<RowId>, now: nat, onDisk: set<string>)
    requires GoodRows(records, used)
    ensures var after := Launched(records, now, onDisk);
            && GoodRows(after, used) && Evolves(records, after, used)
            && forall j :: 0 <= j < |after| ==> !after[j].status.InProgress?
  {
    var after := Launched(records, now, onDisk);
    forall j | 0 <= j < |after|
      ensures after[j].id == records[j].id && (records[j].status.InProgress? || after[j].status == records[j].status)
    {
    }
  }

  /** One call on one recorder: the rows evolve, only its own row is touched, and the recorder stays good. */
  lemma {:induction false} RecorderStepGood(records: seq<Record>, used: set<RowId>, r: Recorder, a: Action)
    requires GoodRows(records, used) && GoodRecorder(r, used) && OnRecorder(a) && Terminal(a)
    requires MayEnd(r) ==> InProgressIn(records, r.row.value)
    ensures var after := RecorderStep(records, used, r, a);
            var used' := if a.Started? then used + {a.rowId} else used;
            && GoodRows(after.0, used') && Evolves(records, after.0, used) && GoodRecorder(after.1, used')
            && KeepsOthers(records, after.0, after.1.row)
            && (MayEnd(after.1) ==> InProgressIn(after.0, after.1.row.value))
            && (after.1.row == r.row || (after.1.row == Some(a.rowId) && a.rowId !in used))
  {
    match a
    case Started(_, id) =>
      if r.row.None? && id !in used { OpenedRows(records, used, id, r.context); }
    case WriteEnding(_, now) =>
      if r.row.Some? && r.writing.Some? { UpdatedRows(records, used, r.row.value, r.writing.value, now); }
    case NoteDestination(_, path, uri) =>
      if r.row.Some? { UpdatedRows(records, used, r.row.value, Destination(path, uri), 0); }
    case _ =>
  }

  lemma {:induction false} StepKeepsInv(s: State, a: Action)
    requires Inv(s) && Terminal(a)
    ensures Inv(Step(s, a)) && Evolves(s.records, Step(s, a).records, s.used) && s.used <= Step(s, a).used
  {
    var s' := Step(s, a);
    if OnRecorder(a) {
      if a.who in s.recorders {
        RecorderStepGood(s.records, s.used, s.recorders[a.who], a);
        RecordersStayGood(s, a);
      }
    } else {
      match a
      case DeleteRow(id) => DeletedRows(s.records, s.used, id); TouchingNobody(s, s');
      case Relaunch(now, onDisk) => LaunchedRows(s.records, s.used, now, onDisk);
      case _ =>
    }
  }

  lemma {:induction false} TouchingNobody(s: State, s': State)
    requires GoodRecorders(s) && s'.recorders == s.recorders && s'.used == s.used
    requires KeepsOthers(s.records, s'.records, None)
    ensures GoodRecorders(s')
  {
    forall w | w in s.recorders && MayEnd(s.recorders[w]) ensures InProgressIn(s'.records, s.recorders[w].row.value) {
      OthersStayInProgress(s.records, s'.records, None, s.recorders[w].row.value);
    }
  }

  lemma {:induction false} RecordersStayGood(s: State, a: Action)
    requires Inv(s) && Terminal(a) && OnRecorder(a) && a.who in s.recorders
    ensures GoodRecorders(Step(s, a))
  {
    var s', mine := Step(s, a), Step(s, a).recorders[a.who];
    RecorderStepGood(s.records, s.used, s.recorders[a.who], a);
    forall w | w in s.recorders && w != a.who
      ensures s.recorders[w].row.Some? ==> s.recorders[w].row != mine.row
      ensures MayEnd(s.recorders[w]) ==> InProgressIn(s'.records, s.recorders[w].row.value)
    {
      assert GoodRecorder(s.recorders[w], s.used);
      if MayEnd(s.recorders[w]) {
        OthersStayInProgress(s.records, s'.records, mine.row, s.recorders[w].row.value);
      }
    }
  }

  lemma {:induction false} RunKeepsInv(actions: seq<Action>)
    requires forall a :: a in actions ==> Terminal(a)
    ensures Inv(Run(NEW_STATE, actions))
  {
    if actions != [] {
      var last := |actions| - 1;
      assert actions[last] in actions && forall a :: a in actions[..last] ==> a in actions;
      RunKeepsInv(actions[..last]);
      StepKeepsInv(Run(NEW_STATE, actions[..last]), actions[last]);
    }
  }

  // --------------------------------------------------------------------- main results

  /** Every recorder opens at most one row and announces at most one ending; no completed row keeps a store pointer. */
  lemma {:induction false} RowsEndOnce(actions: seq<Action>)
    requires forall a :: a in actions ==> Terminal(a)
    ensures var s := Run(NEW_STATE, actions);
            && (forall w :: w in s.recorders ==> s.recorders[w].opens <= 1 && s.recorders[w].endings <= 1)
            && (forall i :: 0 <= i < |s.records| && s.records[i].status.Completed? ==>
                  s.records[i].resumableStore.None?)
            && |s.records| <= MAX_RECORDS
  {
    RunKeepsInv(actions);
    var s := Run(NEW_STATE, actions);
    forall w | w in s.recorders ensures s.recorders[w].opens <= 1 && s.recorders[w].endings <= 1 {
      assert GoodRecorder(s.recorders[w], s.used);
    }
  }

  /** One step of a history: known ids stay known, and every row with a known id comes from an earlier one. */
  predicate Linked(before: State, after: State) {
    && before.used <= after.used
    && (forall i :: 0 <= i < |before.records| ==> before.records[i].id in before.used)
    && Evolves(before.records, after.records, before.used)
  }

  lemma {:induction false} EndedStaysEnded(states: seq<State>, i: nat, j: nat)
    requires |states| > 0 && forall n :: 0 <= n < |states| - 1 ==> Linked(states[n], states[n + 1])
    requires var early, late := states[0].records, states[|states| - 1].records;
             && i < |early| && j < |late| && early[i].id == late[j].id && !early[i].status.InProgress?
             && early[i].id in states[0].used
             && forall m :: 0 <= m < |early| && early[m].id == early[i].id ==> m == i
    ensures states[|states| - 1].records[j].status == states[0].records[i].status
  {
    if |states| > 1 {
      var last := |states| - 1;
      var before, after := states[last - 1], states[last];
      assert Linked(before, after) by { assert Linked(states[last - 1], states[last - 1 + 1]); }
      UsedStays(states[..last], states[0].records[i].id);
      var m :| 0 <= m < |before.records| && before.records[m].id == after.records[j].id
               && (before.records[m].status.InProgress? || after.records[j].status == before.records[m].status);
      EndedStaysEnded(states[..last], i, m);
    }
  }

  lemma {:induction false} UsedStays(states: seq<State>, id: RowId)
    requires |states| > 0 && forall n :: 0 <= n < |states| - 1 ==> Linked(states[n], states[n + 1])
    requires id in states[0].used
    ensures id in states[|states| - 1].used
  {
    if |states| > 1 {
      var last := |states| - 1;
      UsedStays(states[..last], id);
      assert Linked(states[last - 1], states[last - 1 + 1]);
    }
  }

  /** The states a run goes through from its `k`th action on. */
  function StatesFrom(actions: seq<Action>, k: nat): (states: seq<State>)
    requires k <= |actions|
    ensures |states| == |actions| - k + 1
    ensures forall n :: 0 <= n < |states| ==> states[n] == Run(NEW_STATE, actions[..k + n])
  {
    seq(|actions| - k + 1, n requires 0 <= n <= |actions| - k => Run(NEW_STATE, actions[..k + n]))
  }

  lemma {:induction false} StepsAreLinked(actions: seq<Action>, n: nat)
    requires n < |actions| && forall a :: a in actions ==> Terminal(a)
    ensures Linked(Run(NEW_STATE, actions[..n]), Run(NEW_STATE, actions[..n + 1]))
  {
    assert actions[..n + 1][..n] == actions[..n];
    assert actions[n] in actions && forall a :: a in actions[..n] ==> a in actions;
    RunKeepsInv(actions[..n]);
    StepKeepsInv(Run(NEW_STATE, actions[..n]), actions[n]);
  }

  lemma {:induction false} StatesAreLinked(actions: seq<Action>, k: nat)
    requires k <= |actions| && forall a :: a in actions ==> Terminal(a)
    ensures var states := StatesFrom(actions, k);
            forall n :: 0 <= n < |states| - 1 ==> Linked(states[n], states[n + 1])
  {
    var states := StatesFrom(actions, k);
    forall n | 0 <= n < |states| - 1 ensures Linked(states[n], states[n + 1]) {
      StepsAreLinked(actions, k + n);
    }
  }

  lemma {:induction false} RowsAreKnown(actions: seq<Action>, k: nat, i: nat)
    requires k <= |actions| && forall a :: a in actions ==> Terminal(a)
    requires i < |Run(NEW_STATE, actions[..k]).records|
    ensures var s := Run(NEW_STATE, actions[..k]);
            && s.records[i].id in s.used
            && forall m :: 0 <= m < |s.records| && s.records[m].id == s.records[i].id ==> m == i
  {
    assert forall a :: a in actions[..k] ==> a in actions;
    RunKeepsInv(actions[..k]);
  }

  /** A row that has ended never changes its status again, whatever happens afterwards. */
  lemma {:induction false} EndedForGood(actions: seq<Action>, k: nat, i: nat, j: nat)
    requires k <= |actions| && forall a :: a in actions ==> Terminal(a)
    requires var early, late := Run(NEW_STATE, actions[..k]).records, Run(NEW_STATE, actions).records;
             i < |early| && j < |late| && early[i].id == late[j].id && !early[i].status.InProgress?
    ensures Run(NEW_STATE, actions).records[j].status == Run(NEW_STATE, actions[..k]).records[i].status
  {
    var states := StatesFrom(actions, k);
    StatesAreLinked(actions, k);
    RowsAreKnown(actions, k, i);
    assert actions[..|actions|] == actions;
    EndedStaysEnded(states, i, j);
  }

  /**
    A remark on the sweep itself: right after a launch no row is in progress, and every row that had
    ended is as it was, store pointers aside.
   */
  lemma {:induction false} LaunchLeavesNothingOpen(s: State, now: nat, onDisk: set<string>)
    ensures var after := Step(s, Relaunch(now, onDisk));
            && |after.records| == |s.records|
            && forall i :: 0 <= i < |s.records| ==>
                 && !after.records[i].status.InProgress?
                 && (s.records[i].status.InProgress? ==>
                       after.records[i].status == Interrupted && after.records[i].endedAt == Some(now))
                 && (s.records[i].resumableStore.Some? && s.records[i].resumableStore.value in onDisk ==>
                       after.records[i].resumableStore == s.records[i].resumableStore)
                 && (!s.records[i].status.InProgress? ==>
                       after.records[i].(resumableStore := None) == s.records[i].(resumableStore := None))
                 && (after.records[i].resumableStore.Some? ==> after.records[i].resumableStore.value in onDisk)
  {
  }

  // -------------------------------------------------------------- what a row comes to say

  /** A new row is first, the others follow in order, and the oldest fall off beyond five hundred. */
  lemma {:induction false} OpenedIsNewest(records: seq<Record>, r: Record)
    ensures var after := Opened(records, r);
            && |after| == (if |records| < 500 then |records| + 1 else 500)
            && after[0] == r && forall i :: 0 < i < |after| ==> after[i] == records[i - 1]
  {
  }

  /**
    An ending says what it was given: status, times and error; the bytes of the completion payload,
    or else the progress seen; the names, at most twenty of them. The pointer to the partial store
    goes only with a completed transfer, and a single peer is named only when there was no other.
   */
  lemma {:induction false} EndingSays(r: Record, e: Edit, now: nat)
    requires e.Ending?
    ensures var after := Edited(r, e, now);
            && after.id == r.id && after.savePath == r.savePath && after.saveUri == r.saveUri
            && after.status == e.status && after.endedAt == Some(now)
            && after.durationMs == e.durationMs && after.error == e.error
            && after.bytesTransferred == (if e.bytes.Some? then e.bytes.value else e.seen)
            && after.payloadBytes == (if e.bytes.Some? then e.bytes.value else r.payloadBytes)
            && (e.status == Completed ==> after.resumableStore.None?)
            && (e.status != Completed ==> after.resumableStore == r.resumableStore)
            && (e.names == [] ==> after.fileNames == r.fileNames && after.fileNamesTruncated == r.fileNamesTruncated)
            && (0 < |e.names| <= 20 ==> after.fileNames == e.names && !after.fileNamesTruncated)
            && (20 < |e.names| ==> after.fileNames == e.names[..20] && after.fileNamesTruncated)
            && (e.peers > 1 ==> after.peerCount == e.peers && after.peer.None?)
            && (e.peers <= 1 ==> after.peer == r.peer && (after.peerCount == 1 <==> r.peer.Some? || e.peers == 1))
  {
  }

  /** Deleting a row removes it and keeps all the others. */
  lemma {:induction false} DeletedIsGone(records: seq<Record>, used: set<RowId>, id: RowId)
    requires GoodRows(records, used)
    ensures var after := Deleted(records, id);
            && !Has(after, id)
            && |after| == |records| - (if Has(records, id) then 1 else 0)
            && forall r :: r in after <==> r in records && r.id != id
  {
    var i, after := Find(records, id), Deleted(records, id);
    if i < |records| {
      forall r | r in records && r.id != id ensures r in after {
        var j :| 0 <= j < |records| && records[j] == r;
        assert after[if j < i then j else j - 1] == r;
      }
    }
    forall r | r in after ensures r in records && r.id != id {
      var j :| 0 <= j < |after| && after[j] == r;
      assert i < |records| ==> r == records[if j < i then j else j + 1];
    }
  }

  /** Noting a destination changes where the files are and nothing else. */
  lemma {:induction false} DestinationSays(r: Record, path: string, uri: Option<string>, now: nat)
    ensures Edited(r, Destination(path, uri), now) == r.(savePath := Some(path), saveUri := uri)
  {
  }

  /** A first start opens a row in progress that says what the recorder knew; a second one opens none. */
  lemma {:induction false} StartOpensRow(s: State, who: nat, id: RowId)
    requires who in s.recorders && id !in s.used
    ensures var s', r := Step(s, Started(who, id)), s.recorders[who];
            if r.row.Some? then s'.records == s.records && s'.recorders[who] == r
            else
              && s'.recorders[who].row == Some(id) && s'.records != []
              && var row := s'.records[0];
                 && row.id == id && row.status == InProgress && row.endedAt.None? && row.error.None?
                 && row.payloadBytes == r.context.payloadBytes && row.savePath == r.context.savePath
                 && row.resumableStore == r.context.resumableStore && row.peer == r.context.peer
                 && row.bytesTransferred == 0 && row.fileNames == []
  {
  }

  /** The first ending of a recorder reaches its row, if the row is still there; a second one reaches nothing. */
  lemma {:induction false} FinalizeReachesRow(s: State, a: Action, now: nat)
    requires a.Finalize? && a.who in s.recorders && s.recorders[a.who].row.Some?
    requires s.recorders[a.who].writing.None?
    ensures var r, s' := s.recorders[a.who], Step(Step(s, a), WriteEnding(a.who, now));
            if r.finalized then s'.records == s.records
            else
              var i := Find(s.records, r.row.value);
              && s'.recorders[a.who].finalized
              && (i == |s.records| ==> s'.records == s.records)
              && (i < |s.records| ==>
                    var e := Ending(a.status, a.durationMs, a.bytes, r.seen, r.names, r.peers, a.error);
                    s'.records == s.records[i := Edited(s.records[i], e, now)])
  {
  }

  predicate TellsProgress(a: Action, who: nat) { a.Progressed? && a.who == who }

  predicate TellsNames(a: Action, who: nat) { a.FileNames? && a.who == who }

  predicate TellsPeer(a: Action, who: nat) { a == PeerConnected(who) }

  /** While the application runs, a recorder counts the peers. */
  lemma {:induction false} RecorderCountsPeers(s: State, who: nat, actions: seq<Action>)
    requires who in s.recorders && forall a :: a in actions ==> !a.Relaunch?
    ensures var s' := Run(s, actions);
            && who in s'.recorders
            && s'.recorders[who].peers == s.recorders[who].peers + Count(actions, a => TellsPeer(a, who))
  {
    if actions != [] {
      var last := |actions| - 1;
      assert actions[last] in actions && forall b :: b in actions[..last] ==> b in actions;
      RecorderCountsPeers(s, who, actions[..last]);
      HearsOne(Run(s, actions[..last]), who, actions[last]);
    }
  }

  /** What was told stays until it is told again. */
  lemma {:induction false} RecorderKeeps(s: State, who: nat, rest: seq<Action>)
    requires who in s.recorders && forall a :: a in rest ==> !a.Relaunch?
    ensures var s' := Run(s, rest);
            && who in s'.recorders
            && ((forall a :: a in rest ==> !TellsProgress(a, who)) ==>
                  s'.recorders[who].seen == s.recorders[who].seen)
            && ((forall a :: a in rest ==> !TellsNames(a, who)) ==>
                  s'.recorders[who].names == s.recorders[who].names)
  {
    if rest != [] {
      var last := |rest| - 1;
      assert rest[last] in rest && forall b :: b in rest[..last] ==> b in rest;
      RecorderKeeps(s, who, rest[..last]);
      HearsOne(Run(s, rest[..last]), who, rest[last]);
    }
  }

  /** So a recorder holds the last progress and the last names it heard. */
  lemma {:induction false} RecorderHears(s: State, who: nat, a: Action, rest: seq<Action>)
    requires who in s.recorders && !a.Relaunch? && forall b :: b in rest ==> !b.Relaunch?
    ensures var s' := Run(Step(s, a), rest);
            && who in s'.recorders
            && (TellsProgress(a, who) && (forall b :: b in rest ==> !TellsProgress(b, who)) ==>
                  s'.recorders[who].seen == a.seen)
            && (TellsNames(a, who) && (forall b :: b in rest ==> !TellsNames(b, who)) ==>
                  s'.recorders[who].names == a.names)
  {
    HearsOne(s, who, a);
    RecorderKeeps(Step(s, a), who, rest);
  }

  lemma {:induction false} HearsOne(s: State, who: nat, a: Action)
    requires who in s.recorders && !a.Relaunch?
    ensures var s' := Step(s, a);
            && who in s'.recorders
            && s'.recorders[who].peers == s.recorders[who].peers + (if TellsPeer(a, who) then 1 else 0)
            && s'.recorders[who].seen == (if TellsProgress(a, who) then a.seen else s.recorders[who].seen)
            && s'.recorders[who].names == (if TellsNames(a, who) then a.names else s.recorders[who].names)
  {
  }

  // ------------------------------------------------------------------------ the objects

  class TransferHistoryStore {
    var records: seq<Record>

    constructor ()
      ensures records == []
    {
      records := [];
    }

    method FindRow(id: RowId) returns (i: nat)
      ensures i == Find(records, id)
    {
      i := 0;
      while i < |records| && records[i].id != id
        invariant 0 <= i <= |records|
        invariant Find(records, id) == i + Find(records[i..], id)
      {
        assert records[i..][1..] == records[i + 1..];
        i := i + 1;
      }
    }

    method OpenRow(r: Record)
      modifies this
      ensures records == Opened(old(records), r)
    {
      records := [r] + records;
      if |records| > MAX_RECORDS {
        records := records[..MAX_RECORDS];
      }
    }

    method UpdateRow(id: RowId, e: Edit, now: nat) returns (found: bool)
      modifies this
      ensures records == Updated(old(records), id, e, now)
      ensures found == Has(old(records), id)
    {
      var i := FindRow(id);
      found := i < |records|;
      if found {
        records := records[i := Edited(records[i], e, now)];
      }
    }

    method DeleteRecord(id: RowId) returns (removed: Option<Record>)
      modifies this
      ensures records == Deleted(old(records), id)
      ensures removed.Some? <==> Has(old(records), id)
      ensures removed.Some? ==> removed.value == old(records)[Find(old(records), id)]
    {
      var i := FindRow(id);
      if i == |records| {
        return None;
      }
      removed := Some(records[i]);
      records := records[..i] + records[i + 1..];
    }

    method Clear() returns (removed: seq<Record>)
      modifies this
      ensures records == [] && removed == old(records)
    {
      removed := records;
      records := [];
    }

    method MarkInterrupted(now: nat) returns (swept: nat)
      modifies this
      ensures records == AllSwept(old(records), now)
      ensures swept == Count(old(records), IsInProgress)
    {
      swept := 0;
      for i := 0 to |records|
        invariant |records| == |old(records)|
        invariant forall j :: 0 <= j < i ==> records[j] == Swept(old(records)[j], now)
        invariant forall j :: i <= j < |records| ==> records[j] == old(records)[j]
        invariant swept == Count(old(records)[..i], IsInProgress)
      {
        CountNext(old(records), i, IsInProgress);
        if records[i].status.InProgress? {
          records := records[i := records[i].(status := Interrupted, endedAt := Some(now))];
          swept := swept + 1;
        }
      }
      assert old(records)[..|records|] == old(records);
    }

    method ForgetMissingPartialStores(onDisk: set<string>) returns (forgotten: nat)
      modifies this
      ensures records == AllReconciled(old(records), onDisk)
      ensures forgotten == Count(old(records), r => PointsNowhere(r, onDisk))
    {
      forgotten := 0;
      for i := 0 to |records|
        invariant |records| == |old(records)|
        invariant forall j :: 0 <= j < i ==> records[j] == Reconciled(old(records)[j], onDisk)
        invariant forall j :: i <= j < |records| ==> records[j] == old(records)[j]
        invariant forgotten == Count(old(records)[..i], r => PointsNowhere(r, onDisk))
      {
        CountNext(old(records), i, r => PointsNowhere(r, onDisk));
        if PointsNowhere(records[i], onDisk) {
          records := records[i := records[i].(resumableStore := None)];
          forgotten := forgotten + 1;
        }
      }
      assert old(records)[..|records|] == old(records);
    }

    /** What a launch does before any command can open a row. */
    method SweepAtLaunch(now: nat, onDisk: set<string>)
      modifies this
      ensures records == Launched(old(records), now, onDisk)
    {
      var _ := MarkInterrupted(now);
      var _ := ForgetMissingPartialStores(onDisk);
    }
  }

  /** `announcements` are the `transfer-history-updated` events. */
  class HistoryRecorder {
    const store: TransferHistoryStore
    var state: Recorder
    var announcements: nat

    constructor (store: TransferHistoryStore, context: Context)
      ensures this.store == store && state == NewRecorder(context) && announcements == 0
    {
      this.store := store;
      state := NewRecorder(context);
      announcements := 0;
    }

    method OnStarted(rowId: RowId, ghost used: set<RowId>)
      requires rowId !in used
      modifies this, store
      ensures (store.records, state) == RecorderStep(old(store.records), used, old(state), Started(0, rowId))
    {
      if state.row.Some? {
        return;
      }
      store.OpenRow(NewRecord(rowId, state.context));
      state := state.(row := Some(rowId), opens := state.opens + 1);
    }

    method FinalizeRow(status: Status, durationMs: Option<nat>, bytes: Option<nat>, error: Option<string>, now: nat,
                       ghost used: set<RowId>)
      requires state.writing.None?
      modifies this, store
      ensures var finalize := Finalize(0, status, durationMs, bytes, error);
              var begun := RecorderStep(old(store.records), used, old(state), finalize);
              (store.records, state) == RecorderStep(begun.0, used, begun.1, WriteEnding(0, now))
      ensures announcements - old(announcements) == state.endings - old(state).endings
    {
      if state.row.None? || state.finalized {
        return;
      }
      state := state.(finalized := true);
      var ending := Ending(status, durationMs, bytes, state.seen, state.names, state.peers, error);
      var found := store.UpdateRow(state.row.value, ending, now);
      if found {
        state := state.(endings := state.endings + 1);
        announcements := announcements + 1;
      }
    }

    method RecordDestination(path: string, uri: Option<string>, ghost used: set<RowId>)
      modifies this, store
      ensures (store.records, state)
              == RecorderStep(old(store.records), used, old(state), NoteDestination(0, path, uri))
      ensures announcements - old(announcements)
              == if state.row.Some? && Has(old(store.records), state.row.value) then 1 else 0
    {
      if state.row.Some? {
        var found := store.UpdateRow(state.row.value, Destination(path, uri), 0);
        if found {
          announcements := announcements + 1;
        }
      }
    }
  }
}
